/**
 * The backlight of the display: an 8-bit PWM duty written with `ledcWrite`,
 * set at once or faded in fixed steps.
 */
module Backlight {
  import opened CInt

  const BACKLIGHT_DEFAULT_BRIGHTNESS: int := 153
  const FADE_STEPS: int := 50
  /** The default duration of `fadeBacklightOut` and `fadeBacklightIn`. */
  const DEFAULT_FADE_MS: int := 300

  /** `setBacklightBrightness`'s clamp to the 8-bit duty range. */
  function ClampBrightness(brightness: int): (duty: int)
    ensures 0 <= duty <= 255
    ensures 0 <= brightness <= 255 ==> duty == brightness
    ensures brightness < 0 ==> duty == 0
    ensures brightness > 255 ==> duty == 255
  {
    if brightness < 0 then 0 else if brightness > 255 then 255 else brightness
  }

  /**
   * The number of fade steps: 50, or the duration itself when 50 steps would
   * leave less than 1 ms per step (which includes every negative duration).
   */
  function FadeSteps(durationMs: int): int
  {
    if TruncDiv(durationMs, FADE_STEPS) < 1 then durationMs else FADE_STEPS
  }

  /** The milliseconds waited after each write. */
  function DelayPerStep(durationMs: int): int
  {
    if TruncDiv(durationMs, FADE_STEPS) < 1 then 1 else TruncDiv(durationMs, FADE_STEPS)
  }

  /** The duty of step `i`: `from + (to - from) * i / steps` in C integer arithmetic. */
  function FadeLevel(from: int, to: int, steps: int, i: int): int
    requires steps > 0
  {
    from + TruncDiv((to - from) * i, steps)
  }

  /** The duties of steps 0 .. n-1. */
  function FadeLevels(from: int, to: int, steps: int, n: nat): (levels: seq<int>)
    requires steps > 0
    ensures |levels| == n
    ensures forall i | 0 <= i < n :: levels[i] == FadeLevel(from, to, steps, i)
  {
    seq(n, i => FadeLevel(from, to, steps, i))
  }

  /** The duties `fadeBacklight` writes: one per step i = 0 .. steps, none when steps is negative. */
  function Fade(from: int, to: int, durationMs: int): seq<int>
    requires durationMs != 0
  {
    var steps := FadeSteps(durationMs);
    if steps < 0 then [] else FadeLevels(from, to, steps, steps + 1)
  }

  /** 50 steps from 50 ms on, one step per millisecond below, none for a negative duration. */
  lemma FadeStepsCases(durationMs: int)
    ensures durationMs >= FADE_STEPS ==> FadeSteps(durationMs) == FADE_STEPS
    ensures 0 < durationMs < FADE_STEPS ==> FadeSteps(durationMs) == durationMs
    ensures durationMs < 0 ==> FadeSteps(durationMs) < 0
    ensures DelayPerStep(durationMs) >= 1
  {
  }

  /** A fraction i/steps of a non-negative distance, rounded down, stays within the distance. */
  lemma ScaledDistance(e: nat, steps: int, i: nat)
    requires steps > 0 && i <= steps
    ensures 0 <= e * i / steps <= e
    ensures i == 0 ==> e * i / steps == 0
    ensures i == steps ==> e * i / steps == e
  {
    MulLe(i, steps, e);
    DivMonotone(e * i, e * steps, steps);
    MulDivCancel(e, steps);
  }

  /** A duty as a scaled distance from `from`, in Dafny's `/` on magnitudes. */
  lemma FadeLevelMagnitude(from: int, to: int, steps: int, i: nat)
    requires steps > 0
    ensures from <= to ==> FadeLevel(from, to, steps, i) == from + (to - from) * i / steps
    ensures to < from ==> FadeLevel(from, to, steps, i) == from - (from - to) * i / steps
  {
    TruncDivOfMagnitude((to - from) * i, steps);
    assert (to - from) * i == -((from - to) * i);
  }

  /** Every step's duty lies between `from` and `to`; step 0 is `from` and the last step is `to`. */
  lemma FadeLevelBetween(from: int, to: int, steps: int, i: int)
    requires steps > 0 && 0 <= i <= steps
    ensures Min(from, to) <= FadeLevel(from, to, steps, i) <= from + to - Min(from, to)
    ensures FadeLevel(from, to, steps, 0) == from
    ensures FadeLevel(from, to, steps, steps) == to
  {
    var e: nat := if from <= to then to - from else from - to;
    ScaledDistance(e, steps, i);
    ScaledDistance(e, steps, 0);
    ScaledDistance(e, steps, steps);
    FadeLevelMagnitude(from, to, steps, i);
    FadeLevelMagnitude(from, to, steps, 0);
    FadeLevelMagnitude(from, to, steps, steps);
  }

  /** The duties move toward `to` without ever turning back. */
  lemma FadeLevelMonotone(from: int, to: int, steps: int, i: int, j: int)
    requires steps > 0 && 0 <= i <= j
    ensures from <= to ==> FadeLevel(from, to, steps, i) <= FadeLevel(from, to, steps, j)
    ensures to <= from ==> FadeLevel(from, to, steps, j) <= FadeLevel(from, to, steps, i)
  {
    if from <= to {
      MulLe(i, j, to - from);
      TruncDivMonotone((to - from) * i, (to - from) * j, steps);
    } else {
      MulLe(i, j, from - to);
      assert (to - from) * j <= (to - from) * i by {
        assert (to - from) * i == -((from - to) * i) && (to - from) * j == -((from - to) * j);
      }
      TruncDivMonotone((to - from) * j, (to - from) * i, steps);
    }
  }

  /**
   * A fade over a positive duration writes at least two duties, starts at
   * `from`, ends at `to` and never leaves the range between them; a negative
   * duration writes nothing.
   */
  lemma FadeProperties(from: int, to: int, durationMs: int)
    requires durationMs != 0
    ensures durationMs > 0 ==> |Fade(from, to, durationMs)| == FadeSteps(durationMs) + 1 >= 2
    ensures durationMs > 0 ==> Fade(from, to, durationMs)[0] == from
    ensures durationMs > 0 ==> Fade(from, to, durationMs)[|Fade(from, to, durationMs)| - 1] == to
    ensures forall k | 0 <= k < |Fade(from, to, durationMs)| ::
      Min(from, to) <= Fade(from, to, durationMs)[k] <= from + to - Min(from, to)
    ensures durationMs < 0 ==> Fade(from, to, durationMs) == []
  {
    var steps := FadeSteps(durationMs);
    if steps > 0 {
      FadeLevelBetween(from, to, steps, 0);
      forall k | 0 <= k <= steps
        ensures Min(from, to) <= FadeLevel(from, to, steps, k) <= from + to - Min(from, to)
      {
        FadeLevelBetween(from, to, steps, k);
      }
    }
  }
}
