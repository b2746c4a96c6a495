/**
 * The polling loop: every five seconds it asks Spotify what is playing,
 * records a new track, and when the track, the album or a forced refresh
 * calls for it, fades the screen out, redraws the text and the album art,
 * and fades back in. Between polls it advances the progress bar from the
 * clock. The HTTP answer (status, parsed payload and image result) and the
 * time are parameters.
 */
module SpotifyLogic {
  import opened CInt
  import opened SpotifyApi
  import opened ProgressBar
  import opened Backlight
  import opened CheapYellow
  import opened Rotary

  const REQUEST_INTERVAL_MS: nat := 5000
  const PROGRESS_INTERVAL_MS: nat := 500
  const REDRAW_FADE_MS: int := 600
  const HTTP_OK: int := 200
  const HTTP_NO_CONTENT: int := 204

  /** The zero-initialised `lastCurrentlyPlaying` global. */
  const NOTHING_PLAYING: CurrentlyPlaying := CurrentlyPlaying(None, None, [], [], [], [], false, 0, 0)

  /** The medium-sized album image the screen shows: the second to last. */
  function MediumImage(currentlyPlaying: CurrentlyPlaying): SpotifyImage
    requires |currentlyPlaying.albumImages| >= 2
  {
    currentlyPlaying.albumImages[|currentlyPlaying.albumImages| - 2]
  }

  /**
   * What `handleCurrentlyPlaying` needs of a payload that names a track: the
   * URIs and the image URL fit their buffers, there is a medium image and
   * the duration can be divided by.
   */
  predicate Displayable(currentlyPlaying: CurrentlyPlaying)
  {
    currentlyPlaying.trackUri.Some? ==>
      FitsBuffer(currentlyPlaying.trackUri.value)
      && (currentlyPlaying.contextUri.Some? ==> FitsBuffer(currentlyPlaying.contextUri.value))
      && |currentlyPlaying.albumImages| >= 2 && FitsBuffer(MediumImage(currentlyPlaying).url)
      && currentlyPlaying.durationMs != 0
  }

  /**
   * The position `updateProgressBar` shows: the time since the song's
   * estimated start, held at the song's duration.
   */
  function EstimatedProgress(songStartMillis: int, songDuration: int, now: int): (p: int)
    ensures p <= songDuration
    ensures p == now - songStartMillis || p == songDuration
  {
    var songProgress := now - songStartMillis;
    if songProgress > songDuration then songDuration else songProgress
  }

  /**
   * A song reported `progress` ms in at `pollTime` is shown, `now` ms later,
   * at the progress advanced by the elapsed time, held at the duration; so
   * it stays within the song and its bar within 0..100 percent.
   */
  lemma EstimatedProgressAdvances(pollTime: int, progress: int, duration: int, now: int)
    requires 0 <= progress <= duration && duration != 0 && pollTime <= now
    ensures var p := EstimatedProgress(pollTime - progress, duration, now);
      p == Min(progress + (now - pollTime), duration)
      && 0 <= p <= duration && 0 <= Percentage(p, duration) <= 100
  {
    var p := EstimatedProgress(pollTime - progress, duration, now);
    PercentageBounds(p, duration);
  }

  /** The due check of both schedules: `millis() > dueTime` on `unsigned long`. */
  predicate DueAt(now: U32, dueTime: U32)
  {
    now > dueTime
  }

  /**
   * Finding (as written): both schedules store `millis() + interval` and
   * wait for `millis()` to pass it. Scheduled `interval` + 1 ms before the
   * clock wraps, the due time is 2^32 - 1, which no `millis()` value ever
   * passes, so unforced polling stops for good. Scheduled `interval` ms or
   * less before the wrap, the sum wraps to a small due time that the very
   * next pass already exceeds, so the request repeats on every pass until
   * the clock wraps.
   */
  lemma DueTimeAtWrap(interval: nat)
    requires 1 < interval < 1000000
    ensures var due := AddU32(U32_MODULUS - 1 - interval, interval);
      due == U32_MODULUS - 1 && forall now: U32 :: !DueAt(now, due)
    ensures var last: U32 := U32_MODULUS - interval;
      AddU32(last, interval) == 0 && DueAt(last + 1, AddU32(last, interval))
  {
  }

  /**
   * The schedule measured as elapsed time, `millis() - last > interval`,
   * which is how the encoder's debounce and click windows are written.
   */
  predicate DueSince(now: U32, last: U32, interval: nat)
  {
    Elapsed(now, last) > interval
  }

  /**
   * Measured as elapsed time, a request made at any `last` is not due for
   * the next `interval` ms and is due `interval` + 1 ms later, across the
   * wrap as well.
   */
  lemma DueSinceFires(last: U32, interval: nat)
    requires interval + 1 < U32_MODULUS
    ensures forall k | 0 <= k <= interval :: !DueSince(AddU32(last, k), last, interval)
    ensures DueSince(AddU32(last, interval + 1), last, interval)
  {
    forall k | 0 <= k <= interval
      ensures !DueSince(AddU32(last, k), last, interval)
    {
      ElapsedAfterDelay(last, k);
    }
    ElapsedAfterDelay(last, interval + 1);
  }

  /**
   * The backlight duties of a redraw from `level`: down to black over
   * 600 ms and back up to `level` over 600 ms.
   */
  function FadeOutIn(level: int): seq<int>
  {
    Fade(level, 0, REDRAW_FADE_MS) + Fade(0, level, REDRAW_FADE_MS)
  }

  class SpotifyLogic {
    const display: CheapYellowDisplay
    const encoder: RotaryEncoder
    /** `pauseSpotifyPolling`, shared with the encoder's handlers. */
    const gate: PollGate
    /** The font the labels are drawn in: its height and the width of a text. */
    const fontHeight: int
    const textWidth: Bytes -> nat

    var lastTrackUri: Bytes
    var lastTrackContextUri: Bytes
    var textNeedsUpdate: bool
    var albumArtChanged: bool
    var lastCurrentlyPlaying: CurrentlyPlaying
    /** The `millis()` at which the playing song started, or 0 when nothing is advancing. */
    var songStartMillis: int
    var songDuration: int
    var requestDueTime: U32
    var progressDueTime: U32
    /** The payloads `printCurrentlyPlayingToScreen` was called with. */
    ghost var printed: seq<CurrentlyPlaying>

    /**
     * The URIs fit their buffers, a running song has a duration, the encoder
     * likes the track the screen shows, the encoder's handlers share this
     * loop's pause flag, and between polls the backlight is at its default.
     */
    predicate Valid()
      reads this, encoder, display
    {
      FitsBuffer(lastTrackUri) && FitsBuffer(lastTrackContextUri)
      && (songStartMillis != 0 ==> songDuration != 0)
      && encoder.Valid() && encoder.gate == gate && encoder.currentTrackUri == lastTrackUri
      && display.currentBrightness == BACKLIGHT_DEFAULT_BRIGHTNESS
    }

    /** `spotifySetup` with the globals' initial values: no track, nothing playing, every request due. */
    constructor(display: CheapYellowDisplay, encoder: RotaryEncoder, fontHeight: int, textWidth: Bytes -> nat)
      requires encoder.Valid() && encoder.currentTrackUri == []
      requires display.currentBrightness == BACKLIGHT_DEFAULT_BRIGHTNESS
      ensures Valid() && this.display == display && this.encoder == encoder && gate == encoder.gate
      ensures lastTrackUri == [] && lastTrackContextUri == [] && !textNeedsUpdate && !albumArtChanged
      ensures songStartMillis == 0 && requestDueTime == 0 && progressDueTime == 0 && printed == []
    {
      this.display := display;
      this.encoder := encoder;
      this.gate := encoder.gate;
      this.fontHeight := fontHeight;
      this.textWidth := textWidth;
      lastTrackUri, lastTrackContextUri := [], [];
      textNeedsUpdate, albumArtChanged := false, false;
      lastCurrentlyPlaying := NOTHING_PLAYING;
      songStartMillis, songDuration := 0, 0;
      requestDueTime, progressDueTime := 0, 0;
      printed := [];
    }

    /** `isSameTrack`: `strcmp` against the stored URI. */
    predicate IsSameTrack(trackUri: Bytes)
      reads this
    {
      lastTrackUri == trackUri
    }

    /** `setTrackUri`: afterwards exactly the stored URI is the same track. */
    method SetTrackUri(trackUri: Bytes)
      requires FitsBuffer(trackUri)
      modifies this`lastTrackUri
      ensures lastTrackUri == trackUri && IsSameTrack(trackUri)
      ensures forall other :: IsSameTrack(other) <==> other == trackUri
    {
      lastTrackUri := trackUri;
    }

    /** `setTrackContextUri`: a null context is stored as the empty string. */
    method SetTrackContextUri(trackContext: Option<Bytes>)
      requires trackContext.Some? ==> FitsBuffer(trackContext.value)
      modifies this`lastTrackContextUri
      ensures trackContext.None? ==> lastTrackContextUri == []
      ensures trackContext.Some? ==> lastTrackContextUri == trackContext.value
      ensures FitsBuffer(lastTrackContextUri)
    {
      if trackContext.None? {
        lastTrackContextUri := [];
      } else {
        lastTrackContextUri := trackContext.value;
      }
    }

    /**
     * `handleCurrentlyPlaying`: a payload without a track changes nothing.
     * Otherwise a new track is stored (with its context) and handed to the
     * encoder and the text marked stale; the payload is kept, the playing
     * state handed to the encoder, the album art checked, the bar refreshed,
     * and the song's start time estimated while it plays.
     */
    method HandleCurrentlyPlaying(currentlyPlaying: CurrentlyPlaying, now: U32)
      requires Valid() && Displayable(currentlyPlaying)
      modifies this`lastTrackUri, this`lastTrackContextUri, this`textNeedsUpdate, this`albumArtChanged
      modifies this`lastCurrentlyPlaying, this`songStartMillis, this`songDuration
      modifies encoder`currentTrackUri, encoder`trackLiked, encoder`isCurrentlyPlaying
      modifies display`progressBarNeedsReset, display`lastFilledWidth, display`barInitialized
      modifies display`lastCurrentTime, display`lastTotalTime, display`drawLog
      modifies display`currentImageWidth, display`currentImageHeight
      modifies display.screen`albumDisplayed, display.screen`imageHeight, display.screen`imageWidth, display.screen`albumArtUrl
      ensures Valid()
      ensures currentlyPlaying.trackUri.None? ==>
        unchanged(this) && unchanged(encoder) && unchanged(display) && unchanged(display.screen)
      ensures currentlyPlaying.trackUri.Some? ==>
        var uri := currentlyPlaying.trackUri.value;
        var newTrack := uri != old(lastTrackUri);
        lastTrackUri == uri
        && (newTrack ==>
              (lastTrackContextUri == (if currentlyPlaying.contextUri.Some? then currentlyPlaying.contextUri.value else [])
               && !encoder.trackLiked && textNeedsUpdate))
        && (!newTrack ==>
              (lastTrackContextUri == old(lastTrackContextUri) && encoder.trackLiked == old(encoder.trackLiked)
               && textNeedsUpdate == old(textNeedsUpdate)))
        && lastCurrentlyPlaying == currentlyPlaying && encoder.isCurrentlyPlaying == currentlyPlaying.isPlaying
        && albumArtChanged == (!old(display.screen.albumDisplayed) || !old(display.screen.IsSameAlbum(MediumImage(currentlyPlaying).url)))
        && display.screen.IsSameAlbum(MediumImage(currentlyPlaying).url)
        && (currentlyPlaying.isPlaying ==>
              songStartMillis == now - currentlyPlaying.progressMs && songDuration == currentlyPlaying.durationMs)
        && (!currentlyPlaying.isPlaying ==> songStartMillis == 0 && songDuration == old(songDuration))
      ensures currentlyPlaying.trackUri.Some? ==>
        var r := Refresh(display.screen.screenWidth, display.screen.screenHeight, fontHeight, textWidth,
                         Percentage(currentlyPlaying.progressMs, currentlyPlaying.durationMs),
                         currentlyPlaying.progressMs, currentlyPlaying.durationMs);
        display.Bar() == Render(old(display.Bar()), r).state
        && display.drawLog == old(display.drawLog) + Render(old(display.Bar()), r).ops
        && display.backlightLog == old(display.backlightLog)
      ensures printed == old(printed) && requestDueTime == old(requestDueTime) && progressDueTime == old(progressDueTime)
    {
      if currentlyPlaying.trackUri.Some? {
        RecordTrack(currentlyPlaying);
        ShowPlayback(currentlyPlaying, now);
      }
    }

    /**
     * The first half of `handleCurrentlyPlaying`: a new track is stored with
     * its context, handed to the encoder and its text marked stale; the
     * payload is kept and the playing state handed to the encoder.
     */
    method RecordTrack(currentlyPlaying: CurrentlyPlaying)
      requires Valid() && currentlyPlaying.trackUri.Some? && Displayable(currentlyPlaying)
      modifies this`lastTrackUri, this`lastTrackContextUri, this`textNeedsUpdate, this`lastCurrentlyPlaying
      modifies encoder`currentTrackUri, encoder`trackLiked, encoder`isCurrentlyPlaying
      ensures Valid()
      ensures var uri := currentlyPlaying.trackUri.value;
        var newTrack := uri != old(lastTrackUri);
        lastTrackUri == uri
        && (newTrack ==>
              (lastTrackContextUri == (if currentlyPlaying.contextUri.Some? then currentlyPlaying.contextUri.value else [])
               && !encoder.trackLiked && textNeedsUpdate))
        && (!newTrack ==>
              (lastTrackContextUri == old(lastTrackContextUri) && encoder.trackLiked == old(encoder.trackLiked)
               && textNeedsUpdate == old(textNeedsUpdate)))
        && lastCurrentlyPlaying == currentlyPlaying && encoder.isCurrentlyPlaying == currentlyPlaying.isPlaying
    {
      var uri := currentlyPlaying.trackUri.value;
      if !IsSameTrack(uri) {
        SetTrackUri(uri);
        SetTrackContextUri(currentlyPlaying.contextUri);
        encoder.UpdateCurrentTrackUri(currentlyPlaying.trackUri);
        textNeedsUpdate := true;
      }
      lastCurrentlyPlaying := currentlyPlaying;
      encoder.UpdatePlayingState(currentlyPlaying.isPlaying);
    }

    /**
     * The second half of `handleCurrentlyPlaying`: the album art is checked,
     * the bar refreshed at the reported progress, and while the song plays
     * its start is estimated from the clock.
     */
    method ShowPlayback(currentlyPlaying: CurrentlyPlaying, now: U32)
      requires Valid() && currentlyPlaying.trackUri.Some? && Displayable(currentlyPlaying)
      modifies this`albumArtChanged, this`songStartMillis, this`songDuration
      modifies display`progressBarNeedsReset, display`lastFilledWidth, display`barInitialized
      modifies display`lastCurrentTime, display`lastTotalTime, display`drawLog
      modifies display`currentImageWidth, display`currentImageHeight
      modifies display.screen`albumDisplayed, display.screen`imageHeight, display.screen`imageWidth, display.screen`albumArtUrl
      ensures Valid()
      ensures albumArtChanged == (!old(display.screen.albumDisplayed) || !old(display.screen.IsSameAlbum(MediumImage(currentlyPlaying).url)))
      ensures display.screen.IsSameAlbum(MediumImage(currentlyPlaying).url)
      ensures currentlyPlaying.isPlaying ==>
        songStartMillis == now - currentlyPlaying.progressMs && songDuration == currentlyPlaying.durationMs
      ensures !currentlyPlaying.isPlaying ==> songStartMillis == 0 && songDuration == old(songDuration)
      ensures var r := Refresh(display.screen.screenWidth, display.screen.screenHeight, fontHeight, textWidth,
                               Percentage(currentlyPlaying.progressMs, currentlyPlaying.durationMs),
                               currentlyPlaying.progressMs, currentlyPlaying.durationMs);
        display.Bar() == Render(old(display.Bar()), r).state
        && display.drawLog == old(display.drawLog) + Render(old(display.Bar()), r).ops
    {
      albumArtChanged := display.ProcessImageInfo(currentlyPlaying);
      display.DisplayTrackProgress(currentlyPlaying.progressMs, currentlyPlaying.durationMs, fontHeight, textWidth);
      if currentlyPlaying.isPlaying {
        songStartMillis := now - currentlyPlaying.progressMs;
        songDuration := currentlyPlaying.durationMs;
      } else {
        songStartMillis := 0;
      }
    }

    /**
     * `updateProgressBar`: while a song runs and the half-second is up, the
     * bar is refreshed at the estimated progress and the next refresh
     * scheduled; otherwise nothing happens.
     */
    method UpdateProgressBar(now: U32)
      requires Valid()
      modifies display`progressBarNeedsReset, display`lastFilledWidth, display`barInitialized
      modifies display`lastCurrentTime, display`lastTotalTime, display`drawLog, this`progressDueTime
      ensures Valid()
      ensures songStartMillis != 0 && DueAt(now, old(progressDueTime)) ==>
        var p := EstimatedProgress(songStartMillis, songDuration, now);
        var r := Refresh(display.screen.screenWidth, display.screen.screenHeight, fontHeight, textWidth,
                         Percentage(p, songDuration), p, songDuration);
        display.Bar() == Render(old(display.Bar()), r).state
        && display.drawLog == old(display.drawLog) + Render(old(display.Bar()), r).ops
        && progressDueTime == AddU32(now, PROGRESS_INTERVAL_MS)
      ensures !(songStartMillis != 0 && DueAt(now, old(progressDueTime))) ==>
        unchanged(display) && progressDueTime == old(progressDueTime)
    {
      if songStartMillis != 0 && now > progressDueTime {
        var songProgress := now - songStartMillis;
        if songProgress > songDuration {
          songProgress := songDuration;
        }
        display.DisplayTrackProgress(songProgress, songDuration, fontHeight, textWidth);
        progressDueTime := AddU32(now, PROGRESS_INTERVAL_MS);
      }
    }

    /**
     * The redraw after a successful poll: when the art or the text is stale
     * or a refresh is forced, the screen fades to black, the bar is marked
     * for a full redraw, the stale text is printed, the stale art cleared
     * and drawn (any non-zero image result counts as done), and the screen
     * fades back in.
     */
    method RedrawScreen(force: bool, imageStatus: int)
      requires Valid()
      modifies this`textNeedsUpdate, this`albumArtChanged, this`printed
      modifies display`currentBrightness, display`backlightLog, display`progressBarNeedsReset, display`drawLog
      modifies display.screen`albumDisplayed
      ensures Valid() && !textNeedsUpdate
      ensures var redraw := old(albumArtChanged) || force || old(textNeedsUpdate);
        var drawArt := old(albumArtChanged) || force;
        var drawText := old(textNeedsUpdate) || force;
        (redraw ==>
          display.backlightLog == old(display.backlightLog) + FadeOutIn(old(display.currentBrightness))
          && display.Bar() == old(display.Bar()).(needsReset := true))
        && (!redraw ==> display.backlightLog == old(display.backlightLog) && display.Bar() == old(display.Bar()))
        && printed == old(printed) + (if drawText then [lastCurrentlyPlaying] else [])
        && albumArtChanged == (old(albumArtChanged) && (!drawArt || imageStatus == 0))
        && display.screen.albumDisplayed == (old(display.screen.albumDisplayed) || (drawArt && imageStatus == 1))
        && display.drawLog == old(display.drawLog) + (if drawArt then
             [FillRect(IMAGE_MARGIN_LEFT, IMAGE_MARGIN_TOP, display.screen.imageWidth + TEXT_MARGIN_LEFT, display.screen.imageHeight, Black)]
           else [])
    {
      if albumArtChanged || force || textNeedsUpdate {
        ghost var level, before := display.currentBrightness, display.backlightLog;
        display.FadeBacklightOut(REDRAW_FADE_MS, 0);
        display.ResetProgressBar();
        RedrawText(force);
        RedrawArt(force, imageStatus);
        display.FadeBacklightIn(REDRAW_FADE_MS, BACKLIGHT_DEFAULT_BRIGHTNESS);
        AppendAssoc(before, Fade(level, 0, REDRAW_FADE_MS), Fade(0, level, REDRAW_FADE_MS));
      }
    }

    /** The text part of the redraw: stale or forced text is printed and no longer stale. */
    method RedrawText(force: bool)
      modifies this`textNeedsUpdate, this`printed
      ensures !textNeedsUpdate
      ensures printed == old(printed) + (if old(textNeedsUpdate) || force
        then [lastCurrentlyPlaying] else [])
    {
      if textNeedsUpdate || force {
        printed := printed + [lastCurrentlyPlaying];
        textNeedsUpdate := false;
      }
    }

    /**
     * The album-art part of the redraw: stale or forced art is cleared and
     * drawn; any non-zero result of `displayImage` marks it as done.
     */
    method RedrawArt(force: bool, imageStatus: int)
      modifies this`albumArtChanged, display`drawLog, display.screen`albumDisplayed
      ensures var drawArt := old(albumArtChanged) || force;
        albumArtChanged == (old(albumArtChanged) && (!drawArt || imageStatus == 0))
        && display.screen.albumDisplayed == (old(display.screen.albumDisplayed) || (drawArt && imageStatus == 1))
        && display.drawLog == old(display.drawLog) + (if drawArt then
             [FillRect(IMAGE_MARGIN_LEFT, IMAGE_MARGIN_TOP, display.screen.imageWidth + TEXT_MARGIN_LEFT, display.screen.imageHeight, Black)]
           else [])
    {
      if albumArtChanged || force {
        display.ClearImage();
        var displayImageResult := display.DisplayImage(imageStatus);
        if displayImageResult != 0 {
          albumArtChanged := false;
        }
      }
    }

    /**
     * What a successful poll leaves behind. The text is redrawn when it was
     * stale (a new track, or a redraw still owed) or the refresh is forced,
     * and is never left stale; the art is stale when the medium image is not
     * the one on screen, and stays flagged only when its image could not be
     * decoded; any redraw fades the backlight out and back in and resets the
     * progress bar. For a named track the bar is drawn for the reported
     * position, and the art area cleared when the art is redrawn.
     */
    twostate predicate Succeeded(forceUpdate: bool, currentlyPlaying: CurrentlyPlaying, imageStatus: int)
      requires Displayable(currentlyPlaying)
      reads this`textNeedsUpdate, this`albumArtChanged, this`lastTrackUri, this`lastCurrentlyPlaying, this`printed
      reads display, display.screen
    {
      var named := currentlyPlaying.trackUri.Some?;
      var textStale := old(textNeedsUpdate) || (named && currentlyPlaying.trackUri.value != old(lastTrackUri));
      var artStale := if named
        then !old(display.screen.albumDisplayed) || !old(display.screen.IsSameAlbum(MediumImage(currentlyPlaying).url))
        else old(albumArtChanged);
      var redraw := textStale || artStale || forceUpdate;
      !textNeedsUpdate
      && albumArtChanged == (artStale && imageStatus == 0)
      && (named ==> lastTrackUri == currentlyPlaying.trackUri.value && lastCurrentlyPlaying == currentlyPlaying)
      && printed == old(printed) + (if textStale || forceUpdate then [lastCurrentlyPlaying] else [])
      && (redraw ==>
            display.backlightLog == old(display.backlightLog) + FadeOutIn(old(display.currentBrightness))
            && display.progressBarNeedsReset)
      && (!redraw ==> display.backlightLog == old(display.backlightLog))
      && (named ==>
            var r := Refresh(display.screen.screenWidth, display.screen.screenHeight, fontHeight, textWidth,
                             Percentage(currentlyPlaying.progressMs, currentlyPlaying.durationMs),
                             currentlyPlaying.progressMs, currentlyPlaying.durationMs);
            display.drawLog == old(display.drawLog) + Render(old(display.Bar()), r).ops
              + (if artStale || forceUpdate then
                   [FillRect(IMAGE_MARGIN_LEFT, IMAGE_MARGIN_TOP, display.screen.imageWidth + TEXT_MARGIN_LEFT,
                             display.screen.imageHeight, Black)]
                 else []))
    }

    /** The successful branch of `updateCurrentlyPlaying`: the payload is handled, then the screen redrawn. */
    method PollSucceeded(forceUpdate: bool, now: U32, currentlyPlaying: CurrentlyPlaying, imageStatus: int)
      requires Valid() && Displayable(currentlyPlaying)
      modifies this, encoder`currentTrackUri, encoder`trackLiked, encoder`isCurrentlyPlaying
      modifies display, display.screen
      ensures Valid()
      ensures requestDueTime == old(requestDueTime)
      ensures Succeeded(forceUpdate, currentlyPlaying, imageStatus)
    {
      HandleCurrentlyPlaying(currentlyPlaying, now);
      ghost var shown := display.drawLog;
      RedrawScreen(forceUpdate, imageStatus);
      assert display.drawLog == shown + display.drawLog[|shown|..];
    }

    /**
     * `updateCurrentlyPlaying`: skipped while an encoder request has polling
     * paused (unless forced); otherwise, when forced or the five seconds are
     * up, the answer is handled (200: the payload, then the redraw; 204:
     * nothing is playing, so the bar stops advancing) and the next poll
     * scheduled. After a successful poll the text is never left stale and
     * the art only when its image could not be decoded.
     */
    method UpdateCurrentlyPlaying(forceUpdate: bool, now: U32, status: int,
                                  currentlyPlaying: CurrentlyPlaying, imageStatus: int)
      requires Valid() && (status == HTTP_OK ==> Displayable(currentlyPlaying))
      modifies this, encoder`currentTrackUri, encoder`trackLiked, encoder`isCurrentlyPlaying
      modifies display, display.screen
      ensures Valid()
      ensures var polled := !(gate.pauseSpotifyPolling && !forceUpdate) && (forceUpdate || DueAt(now, old(requestDueTime)));
        (!polled ==> unchanged(this) && unchanged(encoder) && unchanged(display) && unchanged(display.screen))
        && (polled ==> requestDueTime == AddU32(now, REQUEST_INTERVAL_MS))
        && (polled && status == HTTP_NO_CONTENT ==>
              songStartMillis == 0 && unchanged(encoder) && unchanged(display) && unchanged(display.screen)
              && lastTrackUri == old(lastTrackUri) && textNeedsUpdate == old(textNeedsUpdate)
              && albumArtChanged == old(albumArtChanged) && printed == old(printed))
        && (polled && status != HTTP_OK && status != HTTP_NO_CONTENT ==>
              songStartMillis == old(songStartMillis) && unchanged(encoder) && unchanged(display)
              && unchanged(display.screen) && lastTrackUri == old(lastTrackUri)
              && textNeedsUpdate == old(textNeedsUpdate) && albumArtChanged == old(albumArtChanged) && printed == old(printed))
      ensures !(gate.pauseSpotifyPolling && !forceUpdate) && (forceUpdate || DueAt(now, old(requestDueTime))) && status == HTTP_OK ==>
        Succeeded(forceUpdate, currentlyPlaying, imageStatus)
    {
      if gate.pauseSpotifyPolling && !forceUpdate {
        return;
      }
      if forceUpdate || now > requestDueTime {
        if status == HTTP_OK {
          PollSucceeded(forceUpdate, now, currentlyPlaying, imageStatus);
        } else if status == HTTP_NO_CONTENT {
          songStartMillis := 0;
        }
        requestDueTime := AddU32(now, REQUEST_INTERVAL_MS);
      }
    }
  }
}
