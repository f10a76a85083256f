/**
 * The decision logic of `/lyrics`, `/song-summary` and `/song-rating` over a
 * value of the in-memory lyrics cache. The scraper and the OpenAI call are
 * parameters: `scrape` maps a Genius page URL to the scraped text (`None` when
 * the page or its lyrics container is missing), `ai` maps the cached lyrics
 * to the outcome of the chat completion.
 */
module Handlers {
  import opened Wrappers
  import opened AsciiCase
  import opened CacheKeys
  import opened Slugs
  import opened Responses

  /** The module-level dictionary `lyrics_cache`: cache key to lyrics. */
  type Cache = map<string, string>

  /** Every stored value is non-empty: only truthy scrape results are inserted. */
  predicate AllNonEmpty(c: Cache) {
    forall k :: k in c ==> c[k] != ""
  }

  /** `c'` keeps every entry of `c` with its value. */
  predicate Extends(c: Cache, c': Cache) {
    c.Keys <= c'.Keys && forall k :: k in c ==> c'[k] == c[k]
  }

  /** `lyrics_cache[key] if key in lyrics_cache else None`. */
  function Lookup(c: Cache, key: string): (v: Option<string>)
    ensures v.Some? <==> key in c
    ensures v.Some? ==> v.value == c[key]
  {
    if key in c then Some(c[key]) else None
  }

  /** The Genius page scraped for a song. */
  function LyricsUrl(artist: string, song: string): string {
    "https://genius.com/" + Slug(artist) + "-" + Slug(song) + "-lyrics"
  }

  /** A `/lyrics` request: its response, the cache after it, and the URL scraped, if any. */
  datatype Exchange = Exchange(resp: Response, cache: Cache, fetched: Option<string>)

  /** `GET /lyrics?artist=...&song=...` against cache `c`. */
  function LyricsExchange(c: Cache, artist: Option<string>, song: Option<string>,
                          scrape: string -> Option<string>): (r: Exchange)
    // Missing or empty argument: 400, no scrape, cache untouched.
    ensures !Present(artist) || !Present(song) ==>
      r == Exchange(Response(400, ErrorBody(MissingArtistOrSong)), c, None)
    // Cache hit: the stored lyrics, no scrape, cache untouched.
    ensures Present(artist) && Present(song) && CacheKey(artist.value, song.value) in c ==>
      r == Exchange(Response(200, LyricsBody(c[CacheKey(artist.value, song.value)])), c, None)
    // Miss: the song's Genius page is scraped; a non-empty result is stored and returned.
    ensures Present(artist) && Present(song) && CacheKey(artist.value, song.value) !in c ==>
      var key, url := CacheKey(artist.value, song.value), LyricsUrl(artist.value, song.value);
      && r.fetched == Some(url)
      && (Present(scrape(url)) ==>
            r.resp == Response(200, LyricsBody(scrape(url).value)) && r.cache == c[key := scrape(url).value])
      && (!Present(scrape(url)) ==>
            r.resp == Response(404, ErrorBody(LyricsNotFound)) && r.cache == c)
  {
    if !Present(artist) || !Present(song) then
      Exchange(Response(400, ErrorBody(MissingArtistOrSong)), c, None)
    else
      var key := CacheKey(artist.value, song.value);
      if key in c then
        Exchange(Response(200, LyricsBody(c[key])), c, None)
      else
        var url := LyricsUrl(artist.value, song.value);
        var lyrics := scrape(url);
        if Present(lyrics) then
          Exchange(Response(200, LyricsBody(lyrics.value)), c[key := lyrics.value], Some(url))
        else
          Exchange(Response(404, ErrorBody(LyricsNotFound)), c, Some(url))
  }

  /**
   * The cache only grows, by at most the request's own key, and keeps every
   * value non-empty; it changes only when the scraper was consulted.
   */
  lemma LyricsKeepsCache(c: Cache, artist: Option<string>, song: Option<string>,
                         scrape: string -> Option<string>)
    requires AllNonEmpty(c)
    ensures var r := LyricsExchange(c, artist, song, scrape);
      && AllNonEmpty(r.cache)
      && Extends(c, r.cache)
      && (r.cache == c || (Present(artist) && Present(song)
                           && r.cache.Keys == c.Keys + {CacheKey(artist.value, song.value)}))
      && (r.cache != c ==> r.fetched.Some?)
  {
  }

  /** The status of a `/lyrics` request is 200, 400 or 404, and 200 always leaves the key cached. */
  lemma LyricsStatus(c: Cache, artist: Option<string>, song: Option<string>,
                     scrape: string -> Option<string>)
    ensures var r := LyricsExchange(c, artist, song, scrape);
      && r.resp.status in {200, 400, 404}
      && (r.resp.status == 400 <==> !Present(artist) || !Present(song))
      && (r.resp.status == 200 ==>
            && r.resp.body.LyricsBody?
            && Lookup(r.cache, CacheKey(artist.value, song.value)) == Some(r.resp.body.lyrics))
  {
  }

  /** Requests differing only in the letter case of artist and song are answered identically. */
  lemma LyricsIgnoresCase(c: Cache, artist: string, song: string, artist': string, song': string,
                          scrape: string -> Option<string>)
    requires EqualIgnoringCase(artist, artist') && EqualIgnoringCase(song, song')
    ensures LyricsExchange(c, Some(artist), Some(song), scrape)
         == LyricsExchange(c, Some(artist'), Some(song'), scrape)
  {
    CacheKeyIgnoresCase(artist, song, artist', song');
    SlugIgnoresCase(artist, artist');
    SlugIgnoresCase(song, song');
  }

  /** After a successful `/lyrics`, repeating it is a cache hit: same answer, no scrape. */
  lemma LyricsRepeatIsHit(c: Cache, artist: Option<string>, song: Option<string>,
                          scrape: string -> Option<string>, scrape': string -> Option<string>)
    requires LyricsExchange(c, artist, song, scrape).resp.status == 200
    ensures var r := LyricsExchange(c, artist, song, scrape);
      LyricsExchange(r.cache, artist, song, scrape') == Exchange(r.resp, r.cache, None)
  {
    LyricsStatus(c, artist, song, scrape);
  }

  /** The outcome of the OpenAI chat completion. */
  datatype AiReply = Completed(content: string) | Failed(error: string)

  datatype Analysis = SummaryAnalysis | RatingAnalysis

  /** The body of a successful analysis: the summary or the rating. */
  function AnalysisBody(kind: Analysis, text: string): Body {
    if kind == SummaryAnalysis then SummaryBody(text) else RatingBody(text)
  }

  /**
   * The shared logic of `/song-summary` and `/song-rating`: 400 on a missing
   * argument, 404 unless non-empty lyrics are cached, otherwise the outcome of
   * the AI call on exactly the cached lyrics.
   */
  function Analyse(kind: Analysis, c: Cache, artist: Option<string>, song: Option<string>,
                   ai: string -> AiReply): (r: Response)
    ensures r.status in {200, 400, 404, 500}
    ensures r.status == 400 <==> !Present(artist) || !Present(song)
    ensures r.status == 404 <==>
      Present(artist) && Present(song) && !Present(Lookup(c, CacheKey(artist.value, song.value)))
    ensures r.status in {200, 500} ==>
      var lyrics := c[CacheKey(artist.value, song.value)];
      && lyrics != ""
      && (r.status == 200 <==> ai(lyrics).Completed?)
      && (ai(lyrics).Completed? ==> r.body == AnalysisBody(kind, ai(lyrics).content))
      && (ai(lyrics).Failed? ==> r.body == ErrorBody(AiErrorPrefix + ai(lyrics).error))
    ensures r.status != 200 ==> r.body.ErrorBody?
    ensures r.status == 400 ==> r.body == ErrorBody(MissingArtistOrSong)
    ensures r.status == 404 ==> r.body == ErrorBody(NotInCache)
  {
    if !Present(artist) || !Present(song) then
      Response(400, ErrorBody(MissingArtistOrSong))
    else
      var lyrics := Lookup(c, CacheKey(artist.value, song.value));
      if !Present(lyrics) then
        Response(404, ErrorBody(NotInCache))
      else
        match ai(lyrics.value)
        case Completed(text) => Response(200, AnalysisBody(kind, text))
        case Failed(e) => Response(500, ErrorBody(AiErrorPrefix + e))
  }

  /** `POST /song-summary`: a 200 carries a summary, anything else an error. */
  function Summary(c: Cache, artist: Option<string>, song: Option<string>, ai: string -> AiReply): (r: Response)
    ensures r.status == 200 <==> r.body.SummaryBody?
    ensures r.status != 200 ==> r.body.ErrorBody?
  {
    Analyse(SummaryAnalysis, c, artist, song, ai)
  }

  /** `POST /song-rating`: a 200 carries a rating, anything else an error. */
  function Rating(c: Cache, artist: Option<string>, song: Option<string>, ai: string -> AiReply): (r: Response)
    ensures r.status == 200 <==> r.body.RatingBody?
    ensures r.status != 200 ==> r.body.ErrorBody?
  {
    Analyse(RatingAnalysis, c, artist, song, ai)
  }

  /** With the cache invariant, the `not lyrics` test reduces to a key miss. */
  lemma AnalysisNeedsCachedKey(c: Cache, artist: string, song: string, ai: string -> AiReply)
    requires AllNonEmpty(c) && artist != "" && song != ""
    ensures Summary(c, Some(artist), Some(song), ai).status == 404 <==> CacheKey(artist, song) !in c
    ensures Rating(c, Some(artist), Some(song), ai).status == 404 <==> CacheKey(artist, song) !in c
  {
  }

  /**
   * Once `/lyrics` has answered 200, summary and rating for the same pair are
   * computed from exactly those lyrics, whatever the letter case of the later request.
   */
  lemma AnalysisAfterLyrics(c: Cache, artist: string, song: string, artist': string, song': string,
                            scrape: string -> Option<string>, ai: string -> AiReply)
    requires AllNonEmpty(c)
    requires LyricsExchange(c, Some(artist), Some(song), scrape).resp.status == 200
    requires EqualIgnoringCase(artist, artist') && EqualIgnoringCase(song, song')
    ensures var r := LyricsExchange(c, Some(artist), Some(song), scrape);
      var lyrics := r.resp.body.lyrics;
      && Summary(r.cache, Some(artist'), Some(song'), ai).status != 404
      && Rating(r.cache, Some(artist'), Some(song'), ai).status != 404
      && (ai(lyrics).Completed? ==>
            && Summary(r.cache, Some(artist'), Some(song'), ai) == Response(200, SummaryBody(ai(lyrics).content))
            && Rating(r.cache, Some(artist'), Some(song'), ai) == Response(200, RatingBody(ai(lyrics).content)))
      && (ai(lyrics).Failed? ==>
            && Summary(r.cache, Some(artist'), Some(song'), ai) == Response(500, ErrorBody(AiErrorPrefix + ai(lyrics).error))
            && Rating(r.cache, Some(artist'), Some(song'), ai) == Response(500, ErrorBody(AiErrorPrefix + ai(lyrics).error)))
  {
    LyricsStatus(c, Some(artist), Some(song), scrape);
    CacheKeyIgnoresCase(artist, song, artist', song');
    assert |artist'| == |artist| && |song'| == |song|;
  }
}
