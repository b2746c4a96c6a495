/**
 * The track progress bar under the album art: its geometry, the fill width
 * a percentage maps to, and the drawing calls one refresh issues given the
 * state it keeps between calls.
 */
module ProgressBar {
  import opened CInt
  import opened TimeLabel

  const BAR_HEIGHT: int := 8
  const BAR_PADDING: int := 25
  const BAR_MARGIN_FROM_BOTTOM: int := 45
  const BAR_RADIUS: int := 4
  const MIN_GAP: int := 4
  /** Rows of the bar's inner track, inside the one-pixel border. */
  const TRACK_ROWS: nat := 6
  /** "88:88", the widest label, measured to size the areas cleared under the bar. */
  const WIDEST_LABEL: Bytes := [56, 56, 58, 56, 56]

  datatype Color = TrackBorder | TrackBackground | GradientRow(row: int) | Highlight | Black

  /** One TFT_eSPI call the renderer makes. */
  datatype DrawOp =
    | FillRoundRect(x: int, y: int, w: int, h: int, r: int, color: Color)
    | FillRect(x: int, y: int, w: int, h: int, color: Color)
    | HLine(x: int, y: int, w: int, color: Color)
    | Text(x: int, y: int, text: Bytes)

  /** Top of the bar: `screenHeight - barHeight - barMarginFromBottom`. */
  function BarTop(screenHeight: int): int
  {
    screenHeight - BAR_HEIGHT - BAR_MARGIN_FROM_BOTTOM
  }

  /** Width of the inner track: the bar width less the two border pixels. */
  function MaxDrawableWidth(screenWidth: int): int
  {
    screenWidth - 2 * BAR_PADDING - 2
  }

  /**
   * The fill width: Arduino's `map(p, 0, 100, 0, W)`, which is `p * W / 100`
   * in C integer arithmetic, raised to `2 * barRadius` when it is positive
   * but narrower than that. The percentage is not clamped.
   */
  function FillWidth(percentage: int, maxWidth: int): int
  {
    var mapped := TruncDiv(percentage * maxWidth, 100);
    if 0 < mapped < 2 * BAR_RADIUS then 2 * BAR_RADIUS else mapped
  }

  /**
   * 0% fills nothing and 100% reaches the edge of the track (a track
   * narrower than the floor gets the floor); any visible fill is at least
   * 2 * barRadius wide; within 0..100% the fill stays inside the track.
   */
  lemma FillWidthBounds(percentage: int, maxWidth: int)
    ensures FillWidth(0, maxWidth) == 0
    ensures maxWidth >= 2 * BAR_RADIUS ==> FillWidth(100, maxWidth) == maxWidth
    ensures 0 < maxWidth < 2 * BAR_RADIUS ==> FillWidth(100, maxWidth) == 2 * BAR_RADIUS
    ensures FillWidth(percentage, maxWidth) > 0 ==> FillWidth(percentage, maxWidth) >= 2 * BAR_RADIUS
    ensures 0 <= percentage <= 100 && maxWidth >= 2 * BAR_RADIUS ==>
      0 <= FillWidth(percentage, maxWidth) <= maxWidth
  {
    if 0 <= percentage <= 100 && maxWidth >= 2 * BAR_RADIUS {
      MulLe(percentage, 100, maxWidth);
      DivMonotone(percentage * maxWidth, 100 * maxWidth, 100);
    }
  }

  /** A larger percentage never gives a narrower fill. */
  lemma FillWidthMonotone(p: int, q: int, maxWidth: nat)
    requires p <= q
    ensures FillWidth(p, maxWidth) <= FillWidth(q, maxWidth)
  {
    MulLe(p, q, maxWidth);
    TruncDivMonotone(p * maxWidth, q * maxWidth, 100);
  }

  /** A percentage past 100 is not clamped: the fill runs past the track. */
  lemma FillWidthNotClamped()
    ensures FillWidth(150, MaxDrawableWidth(320)) == 402 > MaxDrawableWidth(320)
  {
  }

  /**
   * `(int)((float)progress / (float)duration * 100)`, computed exactly: the
   * quotient truncated toward zero.
   */
  function Percentage(progress: int, duration: int): int
    requires duration != 0
  {
    if duration > 0 then TruncDiv(100 * progress, duration) else TruncDiv(-100 * progress, -duration)
  }

  /** Progress within the track gives a percentage in 0..100. */
  lemma PercentageBounds(progress: int, duration: int)
    requires 0 <= progress <= duration && duration != 0
    ensures 0 <= Percentage(progress, duration) <= 100
  {
    MulLe(progress, duration, 100);
    DivMonotone(progress * 100, duration * 100, duration);
    MulDivCancel(100, duration);
  }

  /** The two rounded rectangles of the static track: border, then background. */
  function TrackOps(screenWidth: int, top: int): seq<DrawOp>
  {
    [ FillRoundRect(BAR_PADDING, top, screenWidth - 2 * BAR_PADDING, BAR_HEIGHT, BAR_RADIUS, TrackBorder),
      FillRoundRect(BAR_PADDING + 1, top + 1, MaxDrawableWidth(screenWidth), BAR_HEIGHT - 2, BAR_RADIUS - 1, TrackBackground) ]
  }

  /** How far row `y` of the fill is indented at each end to round its corners. */
  function CornerOffset(y: int): int
  {
    if y < BAR_RADIUS - 1 then BAR_RADIUS - 1 - y
    else if y >= BAR_HEIGHT - 2 - (BAR_RADIUS - 1) then y - (BAR_HEIGHT - 2 - BAR_RADIUS + 1)
    else 0
  }

  /** The gradient line of row `y`, when its indented width is positive. */
  function GradientLine(fill: int, top: int, y: int): seq<DrawOp>
  {
    var offset := CornerOffset(y);
    var width := if fill - 2 * offset < 0 then 0 else fill - 2 * offset;
    if width > 0 then [HLine(BAR_PADDING + 1 + offset, top + 1 + y, width, GradientRow(y))] else []
  }

  /** The gradient lines of rows 0 .. n-1. */
  function GradientLines(fill: int, top: int, n: nat): seq<DrawOp>
  {
    if n == 0 then [] else GradientLines(fill, top, n - 1) + GradientLine(fill, top, n - 1)
  }

  /** The glossy line along the top row, for fills wider than 2 * barRadius. */
  function HighlightOps(fill: int, top: int): seq<DrawOp>
  {
    if fill > 2 * BAR_RADIUS then [HLine(BAR_PADDING + BAR_RADIUS, top + 1, fill - 2 * BAR_RADIUS, Highlight)] else []
  }

  /** When the fill shrank, the uncovered columns are painted with the track colour. */
  function ShrinkOps(last: int, fill: int, top: int): seq<DrawOp>
  {
    if fill < last then [FillRect(BAR_PADDING + 1 + fill, top + 1, last - fill, BAR_HEIGHT - 2, TrackBackground)] else []
  }

  /** The lines of a visible fill: the gradient rows, then the highlight. */
  function FillLines(fill: int, top: int): seq<DrawOp>
  {
    if fill > 0 then GradientLines(fill, top, TRACK_ROWS) + HighlightOps(fill, top) else []
  }

  /** The calls that bring the fill from width `last` to width `fill`. */
  function FillOps(last: int, fill: int, top: int): seq<DrawOp>
  {
    if Abs(fill - last) >= 1 then ShrinkOps(last, fill, top) + FillLines(fill, top) else []
  }

  /** The two black areas cleared under the bar and the two labels printed in them. */
  function LabelOps(screenWidth: int, top: int, fontHeight: int, textWidth: Bytes -> nat,
                    currentTime: Bytes, totalTime: Bytes): seq<DrawOp>
  {
    var timeY := top + BAR_HEIGHT + fontHeight + MIN_GAP;
    var clearY := if timeY - fontHeight + 2 < top + BAR_HEIGHT then top + BAR_HEIGHT else timeY - fontHeight + 2;
    var clearHeight := fontHeight + 4;
    var clearWidth := textWidth(WIDEST_LABEL) + 8;
    [ FillRect(BAR_PADDING, clearY, clearWidth, clearHeight, Black),
      FillRect(screenWidth - BAR_PADDING - clearWidth, clearY, clearWidth, clearHeight, Black),
      Text(BAR_PADDING, timeY, currentTime),
      Text(screenWidth - BAR_PADDING - textWidth(totalTime), timeY, totalTime) ]
  }

  /**
   * What the renderer keeps between calls: the reset flag and the four
   * function statics (`lastFilledWidth`, `barInitialized` and the two cached labels).
   */
  datatype BarState = BarState(
    needsReset: bool,
    lastFilledWidth: int,
    initialized: bool,
    lastCurrentTime: Bytes,
    lastTotalTime: Bytes)

  /** The state before the first refresh. */
  const INITIAL_BAR: BarState := BarState(false, -1, false, [], [])

  /** The inputs of one refresh: the screen, the time label font and the times. */
  datatype Refresh = Refresh(
    screenWidth: int, screenHeight: int, fontHeight: int, textWidth: Bytes -> nat,
    percentage: int, progress: int, duration: int)

  /** The state and the drawing calls after one refresh. */
  datatype Rendered = Rendered(state: BarState, ops: seq<DrawOp>)

  /** The track is (re)drawn when it was never drawn or a reset was requested. */
  predicate DrawsTrack(s: BarState)
  {
    s.needsReset || !s.initialized
  }

  /** The fill width the refresh compares against: -1 when the track is redrawn. */
  function PreviousFill(s: BarState): int
  {
    if DrawsTrack(s) then -1 else s.lastFilledWidth
  }

  /** The labels are redrawn when either formatted string differs from its cache. */
  predicate LabelsChange(s: BarState, r: Refresh)
  {
    FormatTime(r.progress) != s.lastCurrentTime || FormatTime(r.duration) != s.lastTotalTime
  }

  /** `displayTrackProgress`: one refresh from state `s`. */
  function Render(s: BarState, r: Refresh): Rendered
  {
    var top := BarTop(r.screenHeight);
    var fill := FillWidth(r.percentage, MaxDrawableWidth(r.screenWidth));
    var currentTime, totalTime := FormatTime(r.progress), FormatTime(r.duration);
    var ops :=
      (if DrawsTrack(s) then TrackOps(r.screenWidth, top) else [])
      + FillOps(PreviousFill(s), fill, top)
      + (if LabelsChange(s, r) then LabelOps(r.screenWidth, top, r.fontHeight, r.textWidth, currentTime, totalTime) else []);
    Rendered(BarState(false, fill, true, currentTime, totalTime), ops)
  }

  /** A horizontal line inside the filled part of the track: columns [barPadding+1, barPadding+1+fill), track rows only. */
  predicate InsideFill(op: DrawOp, fill: int, top: int)
  {
    op.HLine? && 0 < op.w && BAR_PADDING + 1 <= op.x && op.x + op.w <= BAR_PADDING + 1 + fill
    && top + 1 <= op.y < top + 1 + TRACK_ROWS
  }

  lemma {:induction false} GradientLinesInside(fill: int, top: int, n: nat)
    requires n <= TRACK_ROWS
    ensures forall op | op in GradientLines(fill, top, n) :: InsideFill(op, fill, top) && op.color.GradientRow?
  {
    if n > 0 {
      GradientLinesInside(fill, top, n - 1);
      assert CornerOffset(n - 1) >= 0;
    }
  }

  /** The clear of a shrink: the columns [barPadding+1+fill, barPadding+1+last) of the track rows. */
  function ShrinkClear(last: int, fill: int, top: int): DrawOp
  {
    FillRect(BAR_PADDING + 1 + fill, top + 1, last - fill, BAR_HEIGHT - 2, TrackBackground)
  }

  /**
   * A fill update draws lines inside the new fill and, exactly when the fill
   * shrank, one clear of the uncovered columns.
   */
  lemma FillOpsShape(last: int, fill: int, top: int)
    ensures forall op | op in FillOps(last, fill, top) ::
      InsideFill(op, fill, top) || (fill < last && op == ShrinkClear(last, fill, top))
    ensures fill < last ==> ShrinkClear(last, fill, top) in FillOps(last, fill, top)
    ensures fill <= 0 ==> forall op | op in FillOps(last, fill, top) :: !op.HLine?
  {
    GradientLinesInside(fill, top, TRACK_ROWS);
    if fill < last {
      assert FillOps(last, fill, top)[0] == ShrinkClear(last, fill, top);
    }
  }

  /**
   * The static track is drawn, as the first two calls, exactly when it was
   * never drawn or a reset was requested; no other call draws a rounded rectangle.
   */
  lemma TrackDrawnOnlyWhenNeeded(s: BarState, r: Refresh)
    ensures var ops := Render(s, r).ops;
      (exists op | op in ops :: op.FillRoundRect?) <==> DrawsTrack(s)
    ensures DrawsTrack(s) ==> Render(s, r).ops[..2] == TrackOps(r.screenWidth, BarTop(r.screenHeight))
  {
    var top := BarTop(r.screenHeight);
    var fill := FillWidth(r.percentage, MaxDrawableWidth(r.screenWidth));
    var track := if DrawsTrack(s) then TrackOps(r.screenWidth, top) else [];
    var fillOps := FillOps(PreviousFill(s), fill, top);
    var labels := if LabelsChange(s, r)
      then LabelOps(r.screenWidth, top, r.fontHeight, r.textWidth, FormatTime(r.progress), FormatTime(r.duration))
      else [];
    var ops := Render(s, r).ops;
    assert ops == track + fillOps + labels;
    FillOpsShape(PreviousFill(s), fill, top);
    assert forall op | op in labels :: !op.FillRoundRect?;
    if DrawsTrack(s) {
      assert ops[0] == track[0];
      assert ops[..2] == track;
    } else {
      assert forall op | op in ops :: op in fillOps || op in labels;
    }
  }

  /**
   * A shrink clears exactly the columns between the new and the previous
   * fill, and nothing else is painted in the track colour.
   */
  lemma ShrinkClearsExactly(s: BarState, r: Refresh)
    ensures var fill, top := FillWidth(r.percentage, MaxDrawableWidth(r.screenWidth)), BarTop(r.screenHeight);
      fill < PreviousFill(s) ==> ShrinkClear(PreviousFill(s), fill, top) in Render(s, r).ops
    ensures var fill, top := FillWidth(r.percentage, MaxDrawableWidth(r.screenWidth)), BarTop(r.screenHeight);
      forall op | op in Render(s, r).ops && op.FillRect? && op.color == TrackBackground ::
        fill < PreviousFill(s) && op == ShrinkClear(PreviousFill(s), fill, top)
  {
    var top := BarTop(r.screenHeight);
    var fill := FillWidth(r.percentage, MaxDrawableWidth(r.screenWidth));
    FillOpsShape(PreviousFill(s), fill, top);
  }

  /** Every horizontal line a refresh draws (gradient and highlight) lies inside the new fill. */
  lemma LinesInsideFill(s: BarState, r: Refresh)
    ensures var fill, top := FillWidth(r.percentage, MaxDrawableWidth(r.screenWidth)), BarTop(r.screenHeight);
      forall op | op in Render(s, r).ops && op.HLine? :: InsideFill(op, fill, top)
  {
    var top := BarTop(r.screenHeight);
    var fill := FillWidth(r.percentage, MaxDrawableWidth(r.screenWidth));
    FillOpsShape(PreviousFill(s), fill, top);
  }

  /** The labels are printed exactly when either formatted time differs from its cache. */
  lemma TextOnlyWhenChanged(s: BarState, r: Refresh)
    ensures (exists op | op in Render(s, r).ops :: op.Text?) <==> LabelsChange(s, r)
  {
    var top := BarTop(r.screenHeight);
    var fill := FillWidth(r.percentage, MaxDrawableWidth(r.screenWidth));
    FillOpsShape(PreviousFill(s), fill, top);
    if LabelsChange(s, r) {
      assert Text(BAR_PADDING, top + BAR_HEIGHT + r.fontHeight + MIN_GAP, FormatTime(r.progress)) in Render(s, r).ops;
    }
  }

  /**
   * The labels are printed exactly when either formatted time differs from
   * its cache, and a pending reset redraws the track without clearing that
   * cache: with a reset pending the labels are printed exactly as without.
   */
  lemma LabelsOnlyWhenChanged(s: BarState, r: Refresh)
    ensures (exists op | op in Render(s, r).ops :: op.Text?) <==> LabelsChange(s, r)
    ensures LabelsChange(s, r) ==>
      Text(BAR_PADDING, BarTop(r.screenHeight) + BAR_HEIGHT + r.fontHeight + MIN_GAP, FormatTime(r.progress)) in Render(s, r).ops
    ensures (exists op | op in Render(s.(needsReset := true), r).ops :: op.Text?) <==> LabelsChange(s, r)
  {
    TextOnlyWhenChanged(s, r);
    TextOnlyWhenChanged(s.(needsReset := true), r);
    assert LabelsChange(s.(needsReset := true), r) == LabelsChange(s, r);
    var top := BarTop(r.screenHeight);
    var fill := FillWidth(r.percentage, MaxDrawableWidth(r.screenWidth));
    FillOpsShape(PreviousFill(s), fill, top);
  }

  /**
   * After a refresh the track is drawn, no reset is pending, the fill and
   * both labels are cached, and repeating the refresh draws nothing.
   */
  lemma RefreshSettles(s: BarState, r: Refresh)
    ensures var t := Render(s, r).state;
      t.initialized && !t.needsReset
      && t.lastFilledWidth == FillWidth(r.percentage, MaxDrawableWidth(r.screenWidth))
      && t.lastCurrentTime == FormatTime(r.progress) && t.lastTotalTime == FormatTime(r.duration)
    ensures Render(Render(s, r).state, r).ops == []
  {
  }
}
