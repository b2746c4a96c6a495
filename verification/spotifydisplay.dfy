/**
 * The display base class: screen and image dimensions and the URL of the
 * album art currently on screen.
 */
module DisplayBase {
  import opened CInt
  import opened SpotifyApi

  /**
   * `SpotifyDisplay`'s state. The display object lives in static storage,
   * so the fields the source leaves uninitialised start at zero and the URL
   * buffer starts as the empty string.
   */
  class SpotifyDisplay {
    var screenWidth: int
    var screenHeight: int
    var screenCenterX: int
    var imageWidth: int
    var imageHeight: int
    var albumArtUrl: Bytes
    var albumDisplayed: bool

    constructor()
      ensures screenWidth == 0 && screenHeight == 0 && screenCenterX == 0
      ensures imageWidth == 0 && imageHeight == 0
      ensures albumArtUrl == [] && !albumDisplayed
    {
      screenWidth, screenHeight, screenCenterX := 0, 0, 0;
      imageWidth, imageHeight := 0, 0;
      albumArtUrl := [];
      albumDisplayed := false;
    }

    /** `getAlbumArtUrl`: the stored URL. */
    function GetAlbumArtUrl(): Bytes
      reads this
    {
      albumArtUrl
    }

    /** `isSameAlbum`: `strcmp` with the stored URL returns 0. */
    predicate IsSameAlbum(url: Bytes)
      reads this
    {
      albumArtUrl == url
    }

    /** `setAlbumArtUrl`: `strcpy` into the 200-byte buffer. */
    method SetAlbumArtUrl(url: Bytes)
      requires FitsBuffer(url)
      modifies this`albumArtUrl
      ensures GetAlbumArtUrl() == url
      ensures IsSameAlbum(url)
      ensures forall other :: IsSameAlbum(other) <==> other == url
    {
      albumArtUrl := url;
    }

    /** `setWidth`: the width and, derived from it, the horizontal centre. */
    method SetWidth(w: int)
      modifies this`screenWidth, this`screenCenterX
      ensures screenWidth == w
      ensures screenCenterX == TruncDiv(w, 2)
      ensures w >= 0 ==> 2 * screenCenterX <= w <= 2 * screenCenterX + 1
    {
      screenWidth := w;
      screenCenterX := TruncDiv(screenWidth, 2);
    }

    method SetHeight(h: int)
      modifies this`screenHeight
      ensures screenHeight == h
    {
      screenHeight := h;
    }

    method SetImageHeight(h: int)
      modifies this`imageHeight
      ensures imageHeight == h
    {
      imageHeight := h;
    }

    method SetImageWidth(w: int)
      modifies this`imageWidth
      ensures imageWidth == w
    {
      imageWidth := w;
    }
  }
}
