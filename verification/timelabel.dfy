/**
 * The `MM:SS` labels under the progress bar: `formatTime` and the Arduino
 * `String(int)` conversion it relies on.
 */
module TimeLabel {
  import opened CInt

  const ZERO: Byte := 48
  const MINUS: Byte := 45
  const COLON: Byte := 58

  /** The decimal digits of `n`, most significant first, without leading zeros. */
  function NatDigits(n: nat): (r: Bytes)
    ensures 1 <= |r|
    ensures forall k | 0 <= k < |r| :: ZERO <= r[k] < ZERO + 10
    decreases n
  {
    if n < 10 then [ZERO + n] else NatDigits(n / 10) + [ZERO + n % 10]
  }

  /** Arduino's `String(int)`: a minus sign for negative values, then the digits. */
  function IntString(n: int): Bytes
  {
    if n < 0 then [MINUS] + NatDigits(-n) else NatDigits(n)
  }

  /** A field of the label: a "0" prefix when the value is below 10, then the value. */
  function Padded(n: int): Bytes
  {
    (if n < 10 then [ZERO] else []) + IntString(n)
  }

  /**
   * `formatTime`: whole seconds (the division truncates toward zero),
   * split into minutes and the remaining seconds.
   */
  function FormatTime(milliseconds: int): Bytes
  {
    var totalSeconds := TruncDiv(milliseconds, 1000);
    var minutes := TruncDiv(totalSeconds, 60);
    var seconds := TruncMod(totalSeconds, 60);
    Padded(minutes) + [COLON] + Padded(seconds)
  }

  /** A value below 100 is written as exactly two digits. */
  lemma PaddedTwoDigits(n: int)
    requires 0 <= n < 100
    ensures Padded(n) == [ZERO + n / 10, ZERO + n % 10]
  {
    if n >= 10 {
      assert NatDigits(n) == NatDigits(n / 10) + [ZERO + n % 10];
    }
  }

  /** Whole minutes of whole seconds are the whole minutes of the milliseconds. */
  lemma MinutesOfSeconds(ms: nat)
    ensures ms / 1000 / 60 == ms / 60000
  {
    var q, r := ms / 1000, ms % 1000;
    var q2, r2 := q / 60, q % 60;
    assert ms == 60000 * q2 + (1000 * r2 + r);
    assert 0 <= 1000 * r2 + r < 60000;
  }

  /**
   * Below 100 minutes the label is exactly five bytes `MM:SS`: the minutes
   * are ms / 60000 and the seconds (ms / 1000) % 60, each zero-padded.
   */
  lemma FormatTimeShape(ms: int)
    requires 0 <= ms < 6000000
    ensures var m, s := ms / 60000, ms / 1000 % 60;
      FormatTime(ms) == [ZERO + m / 10, ZERO + m % 10, COLON, ZERO + s / 10, ZERO + s % 10]
  {
    MinutesOfSeconds(ms);
    var total := ms / 1000;
    assert total / 60 == ms / 60000;
    assert ms / 60000 < 100;
    PaddedTwoDigits(total / 60);
    PaddedTwoDigits(total % 60);
  }

  /** The number of whole seconds a five-byte label reads as. */
  function LabelSeconds(text: Bytes): int
    requires |text| == 5
  {
    ((text[0] - ZERO) * 10 + (text[1] - ZERO)) * 60 + (text[3] - ZERO) * 10 + (text[4] - ZERO)
  }

  /** Reading a label back gives the whole seconds it was made from. */
  lemma LabelRoundTrip(ms: int)
    requires 0 <= ms < 6000000
    ensures |FormatTime(ms)| == 5
    ensures LabelSeconds(FormatTime(ms)) == ms / 1000
  {
    FormatTimeShape(ms);
    MinutesOfSeconds(ms);
  }

  /**
   * Two times below 100 minutes get the same label exactly when they fall in
   * the same second, so the label cache redraws once per second.
   */
  lemma SameLabelSameSecond(a: int, b: int)
    requires 0 <= a < 6000000 && 0 <= b < 6000000
    ensures FormatTime(a) == FormatTime(b) <==> a / 1000 == b / 1000
  {
    LabelRoundTrip(a);
    LabelRoundTrip(b);
  }

  /** Negative times are not guarded: both fields carry a minus sign after the "0" prefix. */
  lemma FormatTimeNegative()
    ensures FormatTime(-61000) == [ZERO, MINUS, ZERO + 1, COLON, ZERO, MINUS, ZERO + 1]
  {
    assert TruncDiv(-61000, 1000) == -61;
    assert TruncDiv(-61, 60) == -1;
    assert TruncMod(-61, 60) == -1;
  }

  /** From 100 minutes on the label grows past five bytes. */
  lemma FormatTimeLong()
    ensures FormatTime(6000000) == [ZERO + 1, ZERO, ZERO, COLON, ZERO, ZERO]
  {
    assert TruncDiv(6000000, 1000) == 6000;
    assert TruncDiv(6000, 60) == 100;
    assert NatDigits(100) == NatDigits(10) + [ZERO];
    assert NatDigits(10) == NatDigits(1) + [ZERO];
  }
}
