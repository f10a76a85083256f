/** The key under which fetched lyrics are cached: `f"{artist.lower()}-{song.lower()}"`. */
module CacheKeys {
  import opened AsciiCase

  /** The key for an (artist, song) pair. */
  function CacheKey(artist: string, song: string): (k: string)
    ensures |k| == |artist| + 1 + |song|
    ensures NoUpper(k)
    ensures k[|artist|] == '-'
  {
    Lower(artist) + "-" + Lower(song)
  }

  /** The artist and the song can be read back, lowered, on either side of the separator. */
  lemma CacheKeyParts(artist: string, song: string)
    ensures CacheKey(artist, song)[..|artist|] == Lower(artist)
    ensures CacheKey(artist, song)[|artist| + 1..] == Lower(song)
  {
    var k := CacheKey(artist, song);
    assert k == Lower(artist) + ("-" + Lower(song));
  }

  /** Requests that differ only in letter case share one cache entry. */
  lemma CacheKeyIgnoresCase(artist: string, song: string, artist': string, song': string)
    requires EqualIgnoringCase(artist, artist') && EqualIgnoringCase(song, song')
    ensures CacheKey(artist, song) == CacheKey(artist', song')
  {
    LowerEqualIff(artist, artist');
    LowerEqualIff(song, song');
  }

  /**
   * With artists of equal length, two keys are equal exactly when both the
   * artists and the songs are equal up to letter case.
   */
  lemma CacheKeyEqualIff(artist: string, song: string, artist': string, song': string)
    requires |artist| == |artist'|
    ensures CacheKey(artist, song) == CacheKey(artist', song')
        <==> EqualIgnoringCase(artist, artist') && EqualIgnoringCase(song, song')
  {
    LowerEqualIff(artist, artist');
    LowerEqualIff(song, song');
    CacheKeyParts(artist, song);
    CacheKeyParts(artist', song');
  }

  /** A key is already in lower case: lowering it again changes nothing. */
  lemma CacheKeyIsLower(artist: string, song: string)
    ensures Lower(CacheKey(artist, song)) == CacheKey(artist, song)
  {
    LowerOfNoUpper(CacheKey(artist, song));
  }

  /**
   * The key does not identify the pair: a `-` inside the artist or the song
   * cannot be told apart from the separator.
   */
  lemma CacheKeyNotInjective()
    ensures ("a-b", "c") != ("a", "b-c")
    ensures CacheKey("a-b", "c") == CacheKey("a", "b-c") == "a-b-c"
  {
    assert Lower("a-b") == "a-b";
    assert Lower("b-c") == "b-c";
    assert Lower("a") == "a";
    assert Lower("c") == "c";
  }
}
