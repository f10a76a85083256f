/**
 * The Flask module's shared state: the dictionary `lyrics_cache`, written by
 * `/lyrics` and read by `/song-summary` and `/song-rating`.
 */
module Service {
  import opened Wrappers
  import opened CacheKeys
  import opened Responses
  import opened Handlers

  class LyricsService {
    var cache: Cache

    /** Every cached value is a non-empty scrape result. */
    ghost predicate Valid()
      reads this
    {
      AllNonEmpty(cache)
    }

    /** `lyrics_cache = {}` at import time. */
    constructor ()
      ensures Valid() && cache == map[]
    {
      cache := map[];
    }

    /**
     * `GET /lyrics`. `fetched` is the Genius URL handed to the scraper, or
     * `None` when the scraper was not consulted.
     */
    method GetLyrics(artist: Option<string>, song: Option<string>, scrape: string -> Option<string>)
      returns (resp: Response, fetched: Option<string>)
      requires Valid()
      modifies this
      ensures Valid()
      ensures Extends(old(cache), cache)
      ensures Exchange(resp, cache, fetched) == LyricsExchange(old(cache), artist, song, scrape)
    {
      if !Present(artist) || !Present(song) {
        return Response(400, ErrorBody(MissingArtistOrSong)), None;
      }
      var key := CacheKey(artist.value, song.value);
      if key in cache {
        return Response(200, LyricsBody(cache[key])), None;
      }
      var url := LyricsUrl(artist.value, song.value);
      fetched := Some(url);
      var lyrics := scrape(url);
      if Present(lyrics) {
        cache := cache[key := lyrics.value];
        resp := Response(200, LyricsBody(lyrics.value));
      } else {
        resp := Response(404, ErrorBody(LyricsNotFound));
      }
    }

    /**
     * The shared code of the two analysis endpoints; reads the cache, never
     * writes it. With the cache invariant, 404 means exactly a key miss.
     */
    method Analyse(kind: Analysis, artist: Option<string>, song: Option<string>, ai: string -> AiReply)
      returns (resp: Response)
      requires Valid()
      ensures resp == Handlers.Analyse(kind, cache, artist, song, ai)
      ensures Present(artist) && Present(song) ==>
        (resp.status == 404 <==> CacheKey(artist.value, song.value) !in cache)
    {
      resp := Handlers.Analyse(kind, cache, artist, song, ai);
    }

    /** `POST /song-summary`: reads the cache, never writes it. */
    method SongSummary(artist: Option<string>, song: Option<string>, ai: string -> AiReply)
      returns (resp: Response)
      requires Valid()
      ensures resp == Summary(cache, artist, song, ai)
      ensures Present(artist) && Present(song) ==>
        (resp.status == 404 <==> CacheKey(artist.value, song.value) !in cache)
    {
      resp := Analyse(SummaryAnalysis, artist, song, ai);
    }

    /** `POST /song-rating`: reads the cache, never writes it. */
    method SongRating(artist: Option<string>, song: Option<string>, ai: string -> AiReply)
      returns (resp: Response)
      requires Valid()
      ensures resp == Rating(cache, artist, song, ai)
      ensures Present(artist) && Present(song) ==>
        (resp.status == 404 <==> CacheKey(artist.value, song.value) !in cache)
    {
      resp := Analyse(RatingAnalysis, artist, song, ai);
    }
  }
}
