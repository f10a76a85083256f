/** What a handler answers: an HTTP status and a JSON body. */
module Responses {
  import opened Wrappers

  /** One search result: a JSON object whose fields may be `null`. */
  datatype Song = Song(id: Option<int>, title: Option<string>, artist: Option<string>, thumbnail: Option<string>)

  /** The JSON bodies the service sends, one constructor per shape. */
  datatype Body =
    | SongsBody(songs: seq<Song>)
    | LyricsBody(lyrics: string)
    | SummaryBody(summary: string)
    | RatingBody(rating: string)
    | ErrorBody(error: string)

  datatype Response = Response(status: int, body: Body)

  /** Python truthiness of an optional string: present and non-empty (`if not x` fails). */
  predicate Present(x: Option<string>) {
    x.Some? && x.value != ""
  }

  const MissingQuery := "Missing search query"
  const GeniusFailed := "Failed to fetch data from Genius API"
  const MissingArtistOrSong := "Missing artist or song"
  const LyricsNotFound := "Lyrics not found"
  const NotInCache := "Lyrics not found in cache"
  const AiErrorPrefix := "OpenAI API error: "
}
