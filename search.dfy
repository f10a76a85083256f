/** The `/search` endpoint: one song record per Genius hit, in hit order. */
module Search {
  import opened Wrappers
  import opened Responses

  /** The parts of a Genius search reply the service reads; `None` is an absent key (a JSON `null` there is not modelled). */
  datatype PrimaryArtist = PrimaryArtist(name: Option<string>)
  datatype HitResult = HitResult(
    id: Option<int>,
    title: Option<string>,
    primaryArtist: Option<PrimaryArtist>,
    thumbnailUrl: Option<string>)
  datatype Hit = Hit(result: Option<HitResult>)
  datatype GeniusPayload = GeniusPayload(hits: Option<seq<Hit>>)
  datatype GeniusReply = GeniusReply(status: int, response: Option<GeniusPayload>)

  /** `data.get("response", {}).get("hits", [])`. */
  function HitsOf(reply: GeniusReply): seq<Hit> {
    match reply.response
    case None => []
    case Some(payload) => if payload.hits.Some? then payload.hits.value else []
  }

  /** The record built from one hit; a missing object reads as `{}`, so its fields as `None`. */
  function SongOf(hit: Hit): Song {
    match hit.result
    case None => Song(None, None, None, None)
    case Some(r) =>
      Song(r.id, r.title,
           if r.primaryArtist.Some? then r.primaryArtist.value.name else None,
           r.thumbnailUrl)
  }

  /**
   * Handles `GET /search?q=...`. `genius` stands for the Genius search call
   * made with the query.
   */
  method SearchSong(query: Option<string>, genius: string -> GeniusReply) returns (resp: Response)
    ensures !Present(query) ==> resp == Response(400, ErrorBody(MissingQuery))
    ensures Present(query) && genius(query.value).status != 200 ==>
      resp == Response(genius(query.value).status, ErrorBody(GeniusFailed))
    ensures Present(query) && genius(query.value).status == 200 ==>
      var hits := HitsOf(genius(query.value));
      && resp.status == 200
      && resp.body.SongsBody?
      && |resp.body.songs| == |hits|
      && forall i :: 0 <= i < |hits| ==> resp.body.songs[i] == SongOf(hits[i])
  {
    if !Present(query) {
      return Response(400, ErrorBody(MissingQuery));
    }
    var reply := genius(query.value);
    if reply.status != 200 {
      return Response(reply.status, ErrorBody(GeniusFailed));
    }
    var hits := HitsOf(reply);
    var songs: seq<Song> := [];
    var i := 0;
    while i < |hits|
      invariant 0 <= i <= |hits|
      invariant |songs| == i
      invariant forall j :: 0 <= j < i ==> songs[j] == SongOf(hits[j])
    {
      songs := songs + [SongOf(hits[i])];
      i := i + 1;
    }
    resp := Response(200, SongsBody(songs));
  }
}
