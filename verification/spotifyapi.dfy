/**
 * The values the Spotify client library hands to the firmware: the
 * currently-playing record and its album images. Only the fields the
 * display and the poll logic read are kept.
 */
module SpotifyApi {
  import opened CInt

  /** A C pointer that may be NULL. */
  datatype Option<T> = None | Some(value: T)

  /** One entry of `albumImages`: its pixel size and download URL. */
  datatype SpotifyImage = SpotifyImage(height: int, width: int, url: Bytes)

  /**
   * The `CurrentlyPlaying` record; `albumImages` holds the first
   * `numImages` entries of the library's fixed array.
   */
  datatype CurrentlyPlaying = CurrentlyPlaying(
    trackUri: Option<Bytes>,
    contextUri: Option<Bytes>,
    trackName: Bytes,
    artistNames: seq<Bytes>,
    albumName: Bytes,
    albumImages: seq<SpotifyImage>,
    isPlaying: bool,
    progressMs: int,
    durationMs: int)

  /** The size of the `char[200]` buffers URIs and URLs are copied into with `strcpy`. */
  const URI_CAPACITY: nat := 200

  /** `strcpy` into a `char[200]` stays in bounds: the text and its terminator fit. */
  predicate FitsBuffer(s: Bytes)
  {
    |s| < URI_CAPACITY
  }

  /**
   * The `pauseSpotifyPolling` flag, shared by the poll loop and the encoder
   * handlers, which raise it around their own Spotify requests.
   */
  class PollGate {
    var pauseSpotifyPolling: bool

    constructor()
      ensures !pauseSpotifyPolling
    {
      pauseSpotifyPolling := false;
    }
  }
}
