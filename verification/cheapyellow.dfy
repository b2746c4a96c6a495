/**
 * The Cheap Yellow Display driver: the backlight, the progress bar with the
 * state it keeps between refreshes, and the album-art bookkeeping. Every
 * TFT_eSPI call is appended to a ghost log of drawing calls and every
 * `ledcWrite` to a ghost log of backlight duties.
 */
module CheapYellow {
  import opened CInt
  import opened SpotifyApi
  import opened DisplayBase
  import opened TimeLabel
  import opened ProgressBar
  import opened Backlight

  /** The margins of the album art and the gap between it and the text. */
  const IMAGE_MARGIN_LEFT: int := 20
  const IMAGE_MARGIN_TOP: int := 20
  const TEXT_MARGIN_LEFT: int := 10

  class CheapYellowDisplay {
    /** The `SpotifyDisplay` part of the object. */
    const screen: SpotifyDisplay
    var currentBrightness: int
    var progressBarNeedsReset: bool
    /** The statics of `displayTrackProgress`. */
    var lastFilledWidth: int
    var barInitialized: bool
    var lastCurrentTime: Bytes
    var lastTotalTime: Bytes
    /** The file-level image size the JPEG callback rounds the corners with. */
    var currentImageWidth: int
    var currentImageHeight: int
    ghost var drawLog: seq<DrawOp>
    ghost var backlightLog: seq<int>

    constructor(screen: SpotifyDisplay)
      ensures this.screen == screen
      ensures currentBrightness == BACKLIGHT_DEFAULT_BRIGHTNESS
      ensures Bar() == INITIAL_BAR
      ensures currentImageWidth == 150 && currentImageHeight == 150
      ensures drawLog == [] && backlightLog == []
    {
      this.screen := screen;
      currentBrightness := BACKLIGHT_DEFAULT_BRIGHTNESS;
      progressBarNeedsReset := false;
      lastFilledWidth := -1;
      barInitialized := false;
      lastCurrentTime, lastTotalTime := [], [];
      currentImageWidth, currentImageHeight := 150, 150;
      drawLog, backlightLog := [], [];
    }

    /** The progress bar's state as one value. */
    function Bar(): BarState
      reads this
    {
      BarState(progressBarNeedsReset, lastFilledWidth, barInitialized, lastCurrentTime, lastTotalTime)
    }

    /**
     * `fadeBacklight`: writes the duties of `Fade` one by one, leaving the
     * last one as the current brightness. The per-step delay is not modelled.
     */
    method FadeBacklight(fromBrightness: int, toBrightness: int, durationMs: int)
      requires durationMs != 0
      modifies this`currentBrightness, this`backlightLog
      ensures backlightLog == old(backlightLog) + Fade(fromBrightness, toBrightness, durationMs)
      ensures durationMs > 0 ==> currentBrightness == toBrightness
      ensures durationMs < 0 ==> currentBrightness == old(currentBrightness)
    {
      var steps := FADE_STEPS;
      var delayPerStep := TruncDiv(durationMs, steps);
      if delayPerStep < 1 {
        delayPerStep := 1;
        steps := durationMs;
      }
      var i := 0;
      while i <= steps
        invariant steps == FadeSteps(durationMs) && steps != 0
        invariant steps < 0 ==> i == 0
        invariant steps > 0 ==> 0 <= i <= steps + 1
        invariant steps > 0 ==> backlightLog == old(backlightLog) + FadeLevels(fromBrightness, toBrightness, steps, i)
        invariant steps < 0 ==> backlightLog == old(backlightLog)
        invariant i == 0 ==> currentBrightness == old(currentBrightness)
        invariant steps > 0 && i > 0 ==> currentBrightness == FadeLevel(fromBrightness, toBrightness, steps, i - 1)
        decreases steps - i
      {
        var brightness := fromBrightness + TruncDiv((toBrightness - fromBrightness) * i, steps);
        backlightLog := backlightLog + [brightness];
        currentBrightness := brightness;
        i := i + 1;
      }
      if durationMs > 0 {
        FadeLevelBetween(fromBrightness, toBrightness, steps, steps);
      }
    }

    /** `fadeBacklightOut`: a fade from the current brightness (by default over 300 ms to 0). */
    method FadeBacklightOut(durationMs: int, targetBrightness: int)
      requires durationMs != 0
      modifies this`currentBrightness, this`backlightLog
      ensures backlightLog == old(backlightLog) + Fade(old(currentBrightness), targetBrightness, durationMs)
      ensures durationMs > 0 ==> currentBrightness == targetBrightness
    {
      FadeBacklight(currentBrightness, targetBrightness, durationMs);
    }

    /** `fadeBacklightIn`: a fade from the current brightness (by default over 300 ms to 153). */
    method FadeBacklightIn(durationMs: int, targetBrightness: int)
      requires durationMs != 0
      modifies this`currentBrightness, this`backlightLog
      ensures backlightLog == old(backlightLog) + Fade(old(currentBrightness), targetBrightness, durationMs)
      ensures durationMs > 0 ==> currentBrightness == targetBrightness
    {
      FadeBacklight(currentBrightness, targetBrightness, durationMs);
    }

    /** `setBacklightBrightness`: one write of the clamped duty. */
    method SetBacklightBrightness(brightness: int)
      modifies this`currentBrightness, this`backlightLog
      ensures currentBrightness == ClampBrightness(brightness)
      ensures 0 <= currentBrightness <= 255
      ensures backlightLog == old(backlightLog) + [currentBrightness]
    {
      var duty := brightness;
      if duty < 0 {
        duty := 0;
      }
      if duty > 255 {
        duty := 255;
      }
      backlightLog := backlightLog + [duty];
      currentBrightness := duty;
    }

    /** `resetProgressBar`: only raises the flag the next refresh acts on. */
    method ResetProgressBar()
      modifies this`progressBarNeedsReset
      ensures Bar() == old(Bar()).(needsReset := true)
    {
      progressBarNeedsReset := true;
    }

    /** `displayTrackProgress`: one refresh of the bar and, when they changed, the labels. */
    method DisplayTrackProgress(progress: int, duration: int, fontHeight: int, textWidth: Bytes -> nat)
      requires duration != 0
      modifies this`progressBarNeedsReset, this`lastFilledWidth, this`barInitialized
      modifies this`lastCurrentTime, this`lastTotalTime, this`drawLog
      ensures var r := Refresh(screen.screenWidth, screen.screenHeight, fontHeight, textWidth,
                               Percentage(progress, duration), progress, duration);
        Bar() == Render(old(Bar()), r).state && drawLog == old(drawLog) + Render(old(Bar()), r).ops
    {
      ghost var r := Refresh(screen.screenWidth, screen.screenHeight, fontHeight, textWidth,
                             Percentage(progress, duration), progress, duration);
      ghost var before := Bar();
      var percentage := Percentage(progress, duration);
      var progressStartY := screen.screenHeight - BAR_HEIGHT - BAR_MARGIN_FROM_BOTTOM;
      var barWidth := screen.screenWidth - BAR_PADDING * 2;
      var maxDrawableWidth := barWidth - 2;
      var filledWidth := TruncDiv(percentage * maxDrawableWidth, 100);
      if filledWidth > 0 && filledWidth < BAR_RADIUS * 2 {
        filledWidth := BAR_RADIUS * 2;
      }
      assert filledWidth == FillWidth(r.percentage, MaxDrawableWidth(r.screenWidth));

      if progressBarNeedsReset {
        barInitialized := false;
        lastFilledWidth := -1;
        progressBarNeedsReset := false;
      }
      if !barInitialized {
        drawLog := drawLog + TrackOps(screen.screenWidth, progressStartY);
        barInitialized := true;
        lastFilledWidth := -1;
      }
      ghost var trackOps := if DrawsTrack(before) then TrackOps(r.screenWidth, BarTop(r.screenHeight)) else [];
      assert drawLog == old(drawLog) + trackOps;
      assert lastFilledWidth == PreviousFill(before);
      ghost var trackDone := drawLog;

      UpdateFill(filledWidth, progressStartY);
      ghost var fillOps := FillOps(PreviousFill(before), filledWidth, progressStartY);
      ghost var fillDone := drawLog;
      UpdateTimeLabels(progress, duration, progressStartY, fontHeight, textWidth);
      ghost var labelOps := drawLog[|fillDone|..];
      assert drawLog == fillDone + labelOps;
      assert labelOps == (if LabelsChange(before, r)
        then LabelOps(r.screenWidth, BarTop(r.screenHeight), fontHeight, textWidth, FormatTime(progress), FormatTime(duration))
        else []);
      AppendAssoc(old(drawLog), trackOps, fillOps);
      AppendAssoc(old(drawLog), trackOps + fillOps, labelOps);
      assert Render(before, r).ops == trackOps + fillOps + labelOps;
    }

    /** The part of `displayTrackProgress` that redraws the fill when its width changed. */
    method UpdateFill(filledWidth: int, progressStartY: int)
      modifies this`lastFilledWidth, this`drawLog
      ensures lastFilledWidth == filledWidth
      ensures drawLog == old(drawLog) + FillOps(old(lastFilledWidth), filledWidth, progressStartY)
    {
      if Abs(filledWidth - lastFilledWidth) >= 1 {
        ghost var start := drawLog;
        if filledWidth < lastFilledWidth {
          drawLog := drawLog + [FillRect(BAR_PADDING + 1 + filledWidth, progressStartY + 1,
                                         lastFilledWidth - filledWidth, BAR_HEIGHT - 2, TrackBackground)];
        }
        assert drawLog == start + ShrinkOps(lastFilledWidth, filledWidth, progressStartY);
        ghost var shrunk := drawLog;
        if filledWidth > 0 {
          DrawGradient(filledWidth, progressStartY);
          if filledWidth > BAR_RADIUS * 2 {
            drawLog := drawLog + [HLine(BAR_PADDING + BAR_RADIUS, progressStartY + 1,
                                        filledWidth - BAR_RADIUS * 2, Highlight)];
          }
        }
        assert drawLog == shrunk + FillLines(filledWidth, progressStartY);
        ghost var ops := FillOps(lastFilledWidth, filledWidth, progressStartY);
        assert ops == ShrinkOps(lastFilledWidth, filledWidth, progressStartY) + FillLines(filledWidth, progressStartY);
        AppendAssoc(start, ShrinkOps(lastFilledWidth, filledWidth, progressStartY), FillLines(filledWidth, progressStartY));
        lastFilledWidth := filledWidth;
      } else {
        assert FillOps(lastFilledWidth, filledWidth, progressStartY) == [];
      }
    }

    /** The gradient loop: one line per track row, indented at the rounded ends. */
    method DrawGradient(filledWidth: int, progressStartY: int)
      modifies this`drawLog
      ensures drawLog == old(drawLog) + GradientLines(filledWidth, progressStartY, TRACK_ROWS)
    {
      for y := 0 to BAR_HEIGHT - 2
        invariant drawLog == old(drawLog) + GradientLines(filledWidth, progressStartY, y)
      {
        var lineStartX := BAR_PADDING + 1;
        var lineWidth := filledWidth;
        if y < BAR_RADIUS - 1 {
          var cornerOffset := BAR_RADIUS - 1 - y;
          lineStartX := lineStartX + cornerOffset;
          lineWidth := lineWidth - cornerOffset * 2;
          if lineWidth < 0 {
            lineWidth := 0;
          }
        } else if y >= BAR_HEIGHT - 2 - (BAR_RADIUS - 1) {
          var cornerOffset := y - (BAR_HEIGHT - 2 - BAR_RADIUS + 1);
          lineStartX := lineStartX + cornerOffset;
          lineWidth := lineWidth - cornerOffset * 2;
          if lineWidth < 0 {
            lineWidth := 0;
          }
        }
        if lineWidth > 0 {
          drawLog := drawLog + [HLine(lineStartX, progressStartY + 1 + y, lineWidth, GradientRow(y))];
        }
      }
    }

    /** The part of `displayTrackProgress` that redraws the time labels when either changed. */
    method UpdateTimeLabels(progress: int, duration: int, progressStartY: int, fontHeight: int, textWidth: Bytes -> nat)
      modifies this`lastCurrentTime, this`lastTotalTime, this`drawLog
      ensures lastCurrentTime == FormatTime(progress) && lastTotalTime == FormatTime(duration)
      ensures drawLog == old(drawLog) +
        (if FormatTime(progress) != old(lastCurrentTime) || FormatTime(duration) != old(lastTotalTime)
         then LabelOps(screen.screenWidth, progressStartY, fontHeight, textWidth, FormatTime(progress), FormatTime(duration))
         else [])
    {
      var currentTime := FormatTime(progress);
      var totalTime := FormatTime(duration);
      if currentTime != lastCurrentTime || totalTime != lastTotalTime {
        var timeY := progressStartY + BAR_HEIGHT + fontHeight + MIN_GAP;
        var clearStartY := timeY - fontHeight + 2;
        var clearHeight := fontHeight + 4;
        if clearStartY < progressStartY + BAR_HEIGHT {
          clearStartY := progressStartY + BAR_HEIGHT;
        }
        var currentTimeWidth := textWidth(WIDEST_LABEL) + 8;
        var totalTimeWidth := textWidth(WIDEST_LABEL) + 8;
        drawLog := drawLog + [
          FillRect(BAR_PADDING, clearStartY, currentTimeWidth, clearHeight, Black),
          FillRect(screen.screenWidth - BAR_PADDING - totalTimeWidth, clearStartY, totalTimeWidth, clearHeight, Black),
          Text(BAR_PADDING, timeY, currentTime),
          Text(screen.screenWidth - BAR_PADDING - textWidth(totalTime), timeY, totalTime)];
        lastCurrentTime := currentTime;
        lastTotalTime := totalTime;
      }
    }

    /** `clearImage`: blacks out the album art and the gap to its right. */
    method ClearImage()
      modifies this`drawLog
      ensures drawLog == old(drawLog) +
        [FillRect(IMAGE_MARGIN_LEFT, IMAGE_MARGIN_TOP, screen.imageWidth + TEXT_MARGIN_LEFT, screen.imageHeight, Black)]
    {
      drawLog := drawLog +
        [FillRect(IMAGE_MARGIN_LEFT, IMAGE_MARGIN_TOP, screen.imageWidth + TEXT_MARGIN_LEFT, screen.imageHeight, Black)];
    }

    /**
     * `processImageInfo`: takes the second-to-last (medium) album image. A
     * new image, or one not yet on screen, is recorded at half its size and
     * marked as not displayed; the result says whether that happened.
     */
    method ProcessImageInfo(currentlyPlaying: CurrentlyPlaying) returns (changed: bool)
      requires |currentlyPlaying.albumImages| >= 2
      requires FitsBuffer(currentlyPlaying.albumImages[|currentlyPlaying.albumImages| - 2].url)
      modifies screen`albumDisplayed, screen`imageHeight, screen`imageWidth, screen`albumArtUrl
      modifies this`currentImageWidth, this`currentImageHeight
      ensures var image := currentlyPlaying.albumImages[|currentlyPlaying.albumImages| - 2];
        changed == (!old(screen.albumDisplayed) || !old(screen.IsSameAlbum(image.url)))
      ensures var image := currentlyPlaying.albumImages[|currentlyPlaying.albumImages| - 2];
        changed ==> (!screen.albumDisplayed
          && screen.imageHeight == TruncDiv(image.height, 2) && screen.imageWidth == TruncDiv(image.width, 2)
          && currentImageHeight == screen.imageHeight && currentImageWidth == screen.imageWidth)
      ensures !changed ==> (screen.albumDisplayed
        && screen.imageHeight == old(screen.imageHeight) && screen.imageWidth == old(screen.imageWidth)
        && currentImageHeight == old(currentImageHeight) && currentImageWidth == old(currentImageWidth))
      ensures screen.IsSameAlbum(currentlyPlaying.albumImages[|currentlyPlaying.albumImages| - 2].url)
    {
      var image := currentlyPlaying.albumImages[|currentlyPlaying.albumImages| - 2];
      if !screen.albumDisplayed || !screen.IsSameAlbum(image.url) {
        screen.albumDisplayed := false;
        screen.SetImageHeight(TruncDiv(image.height, 2));
        screen.SetImageWidth(TruncDiv(image.width, 2));
        currentImageWidth := screen.imageWidth;
        currentImageHeight := screen.imageHeight;
        screen.SetAlbumArtUrl(image.url);
        return true;
      }
      return false;
    }

    /**
     * `displayImage`: the download-and-decode result is a parameter (1 on
     * success, other values are error codes); only success marks the album as displayed.
     */
    method DisplayImage(imageStatus: int) returns (status: int)
      modifies screen`albumDisplayed
      ensures status == imageStatus
      ensures screen.albumDisplayed == (old(screen.albumDisplayed) || imageStatus == 1)
    {
      status := imageStatus;
      if status == 1 {
        screen.albumDisplayed := true;
        return status;
      }
      return status;
    }
  }
}
