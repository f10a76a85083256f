# rate-api lyrics service, modelled in Dafny

The `rate-api` backend of rate-my-music is a small Flask service with four
endpoints: `/search` (song search through the Genius API), `/lyrics` (scrape a
song's lyrics from its Genius page and keep them in an in-memory cache),
`/song-summary` and `/song-rating` (ask OpenAI about lyrics that are already
cached). This project models the parts of `rate-api/api/index.py` that carry
logic of their own:

- `AsciiCase` (`ascii_case.dfy`): `str.lower()` on ASCII letters, and case
  equivalence defined independently of lowering.
- `CacheKeys` (`cache_key.dfy`): the cache key `lower(artist) + "-" + lower(song)`.
- `Slugs` (`slug.dfy`): the Genius URL slug, modelled as its three passes
  (lower, replace spaces by `-`, drop everything outside `[a-zA-Z0-9-]`) and
  proved equal to a one-character-at-a-time reference definition.
- `Responses` (`responses.dfy`): status + JSON body of every answer, and Python
  truthiness of an optional string (`Present`: present and non-empty).
- `Search` (`search.dfy`): `/search`, with the loop that builds one song record
  per Genius hit.
- `Handlers` (`handlers.dfy`): the decision logic of `/lyrics`, `/song-summary`
  and `/song-rating` as functions of a cache value, and the lemmas relating them.
- `Service` (`service.dfy`): the class `LyricsService` holding the module-level
  dictionary `lyrics_cache` as its field `cache`; `GetLyrics` updates it in
  place, `SongSummary` and `SongRating` only read it.

The external calls are parameters: the Genius search call is a function from
query to `GeniusReply` (status and hits), the page scraper a function from URL
to `Option<string>`, and the OpenAI chat call a function from the cached lyrics
to `AiReply` (`Completed(content)` or `Failed(error)`). `GetLyrics` also returns
the URL it handed to the scraper (`None` when it did not consult it), so that
"a cache hit does not scrape" is part of its contract.

## Model

| member | source | states |
|---|---|---|
| `AsciiCase.LowerChar` | rate-api/api/index.py:36 | the lowered character is never an ASCII capital and differs from the input only when the input was a capital |
| `AsciiCase.Lower` | rate-api/api/index.py:36 | `lower()` keeps the length and lowers each character in place |
| `AsciiCase.LowerEqualIff` | rate-api/api/index.py:36 | two strings lower to the same string exactly when they differ only in ASCII letter case (both directions) |
| `AsciiCase.LowerIdempotent` | rate-api/api/index.py:36 | lowering twice is lowering once (the same `lower()` is applied again in the slug at lines 81-82) |
| `CacheKeys.CacheKey` | rate-api/api/index.py:35-36 | the key is one character longer than artist plus song, has `-` right after the artist, and holds no capital |
| `CacheKeys.CacheKeyParts` | rate-api/api/index.py:35-36 | the key is the lowered artist, then `-`, then the lowered song |
| `CacheKeys.CacheKeyIgnoresCase` | rate-api/api/index.py:35-36 | requests differing only in letter case get the same key |
| `CacheKeys.CacheKeyEqualIff` | rate-api/api/index.py:35-36 | for artists of equal length, keys are equal exactly when artist and song are each equal up to case |
| `CacheKeys.CacheKeyIsLower` | rate-api/api/index.py:36 | a key is unchanged by lowering |
| `CacheKeys.CacheKeyNotInjective` | rate-api/api/index.py:36 | (`a-b`, `c`) and (`a`, `b-c`) are different pairs with the same key `a-b-c` |
| `Slugs.ReplaceSpaces` | rate-api/api/index.py:81-82 | `replace(' ', '-')` keeps the length and changes exactly the spaces, into `-` |
| `Slugs.KeepAllowed` | rate-api/api/index.py:81-82 | the regex substitution keeps exactly the characters of `[a-zA-Z0-9-]` present in its input and never lengthens it; order and multiplicity are fixed by `KeepAllowedAppend` |
| `Slugs.KeepAllowedAppend` | rate-api/api/index.py:81-82 | the substitution distributes over concatenation, so kept characters stay in input order and each occurrence is kept once |
| `Slugs.Slug` | rate-api/api/index.py:81-82 | a slug is no longer than its input and consists of lower-case ASCII letters, digits and `-` only |
| `Slugs.SlugAppend` | rate-api/api/index.py:81-82 | the slug of a concatenation is the concatenation of the slugs, so input order is kept |
| `Slugs.SlugMatchesSpec` | rate-api/api/index.py:81-82 | the three passes equal the per-character reference: each space becomes `-`, letters are lowered, digits and `-` kept, anything else dropped, in input order |
| `Slugs.SlugOfSlug` | rate-api/api/index.py:81-82 | a string made of slug characters is its own slug |
| `Slugs.SlugIdempotent` | rate-api/api/index.py:81-82 | slugging a slug returns it unchanged |
| `Slugs.SlugIgnoresCase` | rate-api/api/index.py:81-82 | names differing only in letter case have the same slug |
| `Search.SearchSong` | rate-api/api/index.py:41-66 | a missing or empty query gives 400 with no Genius answer consulted; a non-200 Genius status is passed through with an error; otherwise 200 with exactly one record per hit, record `i` built from hit `i` |
| `Handlers.Lookup` | rate-api/api/index.py:120 | the lookup is present exactly when the key is cached, and then holds the cached value |
| `Handlers.LyricsExchange` | rate-api/api/index.py:68-90 | missing artist or song: 400, no scrape, cache unchanged; hit: 200 with the stored lyrics, no scrape, cache unchanged; miss: the song's Genius page is scraped, a non-empty result is returned with 200 and stored under exactly the request's key, anything else gives 404 and leaves the cache unchanged |
| `Handlers.LyricsKeepsCache` | rate-api/api/index.py:84-90 | the cache only grows, by at most the request's key, every value stays non-empty, and it changes only after a scrape |
| `Handlers.LyricsStatus` | rate-api/api/index.py:73-90 | the status is 200, 400 or 404; 400 exactly on a missing or empty argument; a 200 leaves the returned lyrics cached under the request's key |
| `Handlers.LyricsIgnoresCase` | rate-api/api/index.py:76-84 | two requests differing only in letter case produce the same response, cache and scraped URL |
| `Handlers.LyricsRepeatIsHit` | rate-api/api/index.py:78-87 | after a 200, repeating the request returns the same answer from the cache without scraping, whatever the scraper would say |
| `Handlers.Analyse` | rate-api/api/index.py:114-147 | status is 200, 400, 404 or 500; 400 exactly on a missing artist or song, 404 exactly when no non-empty lyrics are cached, otherwise 200 with the AI's content for the cached lyrics or 500 with the AI error; every non-200 body is an error, with the message `Missing artist or song` on 400 and `Lyrics not found in cache` on 404 |
| `Handlers.Summary` | rate-api/api/index.py:109-147 | the `Analyse` gating, with a summary in the body exactly when the status is 200 and an error otherwise |
| `Handlers.Rating` | rate-api/api/index.py:150-185 | the `Analyse` gating, with a rating in the body exactly when the status is 200 and an error otherwise |
| `Handlers.AnalysisNeedsCachedKey` | rate-api/api/index.py:120-122 | with the cache invariant, summary and rating give 404 exactly when the key is not cached |
| `Handlers.AnalysisAfterLyrics` | rate-api/api/index.py:117-124 | after a 200 from `/lyrics`, summary and rating for the same pair in any letter case are not 404 and are computed from exactly the lyrics returned: 200 with the AI's content when the call completes, 500 with the AI error when it fails |
| `Service.LyricsService.constructor` | rate-api/api/index.py:38 | the cache starts empty and valid |
| `Service.LyricsService.GetLyrics` | rate-api/api/index.py:68-90 | response, new cache and scraped URL are those of `LyricsExchange` on the old cache; the cache invariant is kept and old entries are kept |
| `Service.LyricsService.Analyse` | rate-api/api/index.py:155-185 | answers as `Handlers.Analyse` on the current cache, changes nothing, and under the cache invariant answers 404 to a well-formed request exactly when its key is not cached |
| `Service.LyricsService.SongSummary` | rate-api/api/index.py:109-147 | answers as `Summary` on the current cache, changes nothing, and answers 404 to a well-formed request exactly when its key is not cached |
| `Service.LyricsService.SongRating` | rate-api/api/index.py:150-185 | answers as `Rating` on the current cache, changes nothing, and answers 404 to a well-formed request exactly when its key is not cached |

## Left out

- Flask routing, CORS, `jsonify` and request parsing (lines 1-14, 187-188): handler inputs are plain optional strings. A `/song-summary` or `/song-rating` body that is not a JSON object (not JSON, JSON `null`, a list or a scalar), which makes the Python code raise, or whose `artist`/`song` is not a string, is not modelled.
- The Genius search request itself and its transport errors (lines 46-48): the reply is an abstract input; an exception raised by `requests` (which Flask would turn into a 500) is not modelled.
- `scrape_lyrics` (lines 92-106): HTML fetching and parsing by BeautifulSoup is a foreign library; it is the `scrape` parameter returning `Option<string>`. An exception raised inside it (a connection or DNS failure of the request at line 94) escapes `get_lyrics` at line 84, so Flask answers 500 with the cache unchanged; the request also has no timeout and can hang. Neither the 500 nor the hang is modelled.
- `Handlers.LyricsStatus`: "the status is 200, 400 or 404" holds only under the scrape abstraction above; a scraper exception gives 500, which the model does not promise or exclude.
- The OpenAI calls (lines 126-146, 165-184): the prompt text, model name and API key are left out; the call is a function of the cached lyrics returning success with content or failure with a message. A `None` message content is not modelled.
- Environment variables and the commented-out file-backed cache (lines 16-33): configuration and dead code.
- `Search.SearchSong`: the Python code raises, and Flask answers 500, when a 200 Genius body is not JSON (line 53), when `data` or its `response` is not a JSON object or `hits` is JSON `null` (line 57), when a hit is itself `null` (line 58), or when a hit's `result` is `null` (line 60) or a result's `primary_artist` is `null` (line 62); the model only covers these keys being present or absent, and its `None` means an absent key.
- `AsciiCase.Lower`: models `str.lower()` on ASCII only; Python lowers all of Unicode, so for example the Kelvin sign lowers to `k`, which the slug's filter would then keep, and non-ASCII capitals in a cache key would be lowered.
- Concurrent requests racing on the shared dictionary (Flask's threaded server): each handler is modelled as one atomic step.
- The browser client and the virtualenv setup script described alongside the service are not part of this model.
