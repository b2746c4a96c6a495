/**
 * The rotary encoder: a quadrature decoder and a click classifier run from
 * pin-change interrupts, and the main-loop handlers that turn banked clicks
 * into volume requests and button clicks into play/pause and "like" requests.
 * Each interrupt is one atomic step taking the time and the sampled pin levels.
 */
module Rotary {
  import opened CInt
  import opened SpotifyApi

  const ENCODER_DEBOUNCE_MS: int := 2
  const BUTTON_DEBOUNCE_MS: int := 50
  const DOUBLE_CLICK_TIMEOUT: int := 400
  const VOLUME_MIN: int := 0
  const VOLUME_MAX: int := 100
  const INITIAL_VOLUME: int := 50
  const VOLUME_ACCELERATION_THRESHOLD: int := 3
  const ACCELERATION_WINDOW_MS: int := 200
  const COLON: Byte := 58

  // ---------------------------------------------------------------- quadrature

  /** The 2-bit state `(CLK << 1) | DT`. */
  function QuadratureState(clk: Bit, dt: Bit): (s: int)
    ensures 0 <= s <= 3
  {
    2 * clk + dt
  }

  /**
   * The position change of one state transition: +1 along 00→01→11→10→00,
   * -1 along the reverse, 0 for the diagonal jumps 00↔11 and 01↔10.
   */
  function QuadratureStep(oldState: int, newState: int): int
  {
    if (oldState == 0 && newState == 1) || (oldState == 1 && newState == 3)
       || (oldState == 3 && newState == 2) || (oldState == 2 && newState == 0) then 1
    else if (oldState == 0 && newState == 2) || (oldState == 2 && newState == 3)
       || (oldState == 3 && newState == 1) || (oldState == 1 && newState == 0) then -1
    else 0
  }

  /**
   * Every transition moves by at most one, the reverse transition undoes it,
   * and the diagonal jumps and non-transitions do not move.
   */
  lemma QuadratureStepProperties(a: int, b: int)
    requires 0 <= a <= 3 && 0 <= b <= 3
    ensures -1 <= QuadratureStep(a, b) <= 1
    ensures QuadratureStep(b, a) == -QuadratureStep(a, b)
    ensures (a == 0 && b == 3) || (a == 3 && b == 0) || (a == 1 && b == 2) || (a == 2 && b == 1) || a == b
      ==> QuadratureStep(a, b) == 0
  {
  }

  /** The encoder interrupt's globals. */
  datatype EncoderState = EncoderState(
    encoderPos: int, encoderChanged: bool, lastInterruptTime: U32,
    lastClk: Bit, lastDt: Bit, encoderState: int)

  /**
   * `encoderISR`: ignored within 2 ms of the last accepted interrupt or when
   * the pins show the state already recorded; otherwise the position moves
   * by the transition's step and the new state and time are recorded.
   */
  function EncoderEdge(e: EncoderState, now: U32, clk: Bit, dt: Bit): EncoderState
  {
    var newState := QuadratureState(clk, dt);
    if Elapsed(now, e.lastInterruptTime) > ENCODER_DEBOUNCE_MS && newState != e.encoderState then
      EncoderState(e.encoderPos + QuadratureStep(e.encoderState, newState), true, now, clk, dt, newState)
    else e
  }

  /**
   * An interrupt within 2 ms of the last accepted one, or showing the state
   * already recorded, changes nothing, not even the time. Any other one
   * moves the position by at most one (not at all on a diagonal jump) and
   * records the state, the pin levels, the time and the change flag.
   */
  lemma EncoderEdgeProperties(e: EncoderState, now: U32, clk: Bit, dt: Bit)
    ensures Elapsed(now, e.lastInterruptTime) <= ENCODER_DEBOUNCE_MS || QuadratureState(clk, dt) == e.encoderState ==>
      EncoderEdge(e, now, clk, dt) == e
    ensures Elapsed(now, e.lastInterruptTime) > ENCODER_DEBOUNCE_MS && QuadratureState(clk, dt) != e.encoderState ==>
      var f := EncoderEdge(e, now, clk, dt);
      f.encoderPos == e.encoderPos + QuadratureStep(e.encoderState, QuadratureState(clk, dt))
      && f.encoderState == QuadratureState(clk, dt) && f.lastInterruptTime == now
      && f.lastClk == clk && f.lastDt == dt && f.encoderChanged
    ensures 0 <= e.encoderState <= 3 ==> -1 <= EncoderEdge(e, now, clk, dt).encoderPos - e.encoderPos <= 1
  {
    if 0 <= e.encoderState <= 3 {
      QuadratureStepProperties(e.encoderState, QuadratureState(clk, dt));
    }
  }

  /**
   * A full clockwise cycle 00→01→11→10→00 with its interrupts 3 ms apart,
   * each past the debounce, adds 4 to the position and ends in state 00;
   * the counter-clockwise cycle 00→10→11→01→00 subtracts 4.
   */
  lemma FullCycles(e: EncoderState, t: U32)
    requires e.encoderState == 0
    requires Elapsed(t, e.lastInterruptTime) > ENCODER_DEBOUNCE_MS && t + 9 < U32_MODULUS
    ensures var cw := EncoderEdge(EncoderEdge(EncoderEdge(EncoderEdge(e, t, LOW, HIGH), t + 3, HIGH, HIGH), t + 6, HIGH, LOW), t + 9, LOW, LOW);
      cw.encoderPos == e.encoderPos + 4 && cw.encoderState == 0
    ensures var ccw := EncoderEdge(EncoderEdge(EncoderEdge(EncoderEdge(e, t, HIGH, LOW), t + 3, HIGH, HIGH), t + 6, LOW, HIGH), t + 9, LOW, LOW);
      ccw.encoderPos == e.encoderPos - 4 && ccw.encoderState == 0
  {
    EncoderEdgeProperties(e, t, LOW, HIGH);
    var e1 := EncoderEdge(e, t, LOW, HIGH);
    EncoderEdgeProperties(e1, t + 3, HIGH, HIGH);
    var e2 := EncoderEdge(e1, t + 3, HIGH, HIGH);
    EncoderEdgeProperties(e2, t + 6, HIGH, LOW);
    var e3 := EncoderEdge(e2, t + 6, HIGH, LOW);
    EncoderEdgeProperties(e3, t + 9, LOW, LOW);
    EncoderEdgeProperties(e, t, HIGH, LOW);
    var f1 := EncoderEdge(e, t, HIGH, LOW);
    EncoderEdgeProperties(f1, t + 3, HIGH, HIGH);
    var f2 := EncoderEdge(f1, t + 3, HIGH, HIGH);
    EncoderEdgeProperties(f2, t + 6, LOW, HIGH);
    var f3 := EncoderEdge(f2, t + 6, LOW, HIGH);
    EncoderEdgeProperties(f3, t + 9, LOW, LOW);
  }

  // ---------------------------------------------------------------- button

  /** The button interrupt's globals. */
  datatype ButtonState = ButtonState(
    buttonPressed: bool, lastButtonTime: U32, buttonPressStartTime: U32,
    buttonCurrentlyHeld: bool, clickCount: int, firstClickTime: U32)

  /**
   * `buttonISR`: after the 50 ms debounce, a LOW level while released is a
   * press; a HIGH level while held is a release, which counts a first click,
   * a second click within 400 ms of the first, or else a new first click.
   */
  function ButtonEdge(b: ButtonState, now: U32, level: Bit): ButtonState
  {
    if Elapsed(now, b.lastButtonTime) > BUTTON_DEBOUNCE_MS then
      if level == LOW && !b.buttonCurrentlyHeld then
        b.(buttonCurrentlyHeld := true, buttonPressStartTime := now, lastButtonTime := now)
      else if level == HIGH && b.buttonCurrentlyHeld then
        var released := b.(buttonCurrentlyHeld := false, buttonPressed := true, lastButtonTime := now);
        if b.clickCount == 0 then released.(firstClickTime := now, clickCount := 1)
        else if Elapsed(now, b.firstClickTime) < DOUBLE_CLICK_TIMEOUT then released.(clickCount := 2)
        else released.(firstClickTime := now, clickCount := 1)
      else b
    else b
  }

  /**
   * The click count stays in {0, 1, 2}; bounced edges, a LOW while held and
   * a HIGH while released change nothing; a press only arms the button; a
   * release yields 1 from 0, 2 when it comes within 400 ms of the first
   * click, and otherwise restarts at 1.
   */
  lemma ButtonEdgeProperties(b: ButtonState, now: U32, level: Bit)
    ensures 0 <= b.clickCount <= 2 ==> 0 <= ButtonEdge(b, now, level).clickCount <= 2
    ensures Elapsed(now, b.lastButtonTime) <= BUTTON_DEBOUNCE_MS
      || (level == LOW && b.buttonCurrentlyHeld) || (level == HIGH && !b.buttonCurrentlyHeld)
      ==> ButtonEdge(b, now, level) == b
    ensures Elapsed(now, b.lastButtonTime) > BUTTON_DEBOUNCE_MS && level == LOW && !b.buttonCurrentlyHeld ==>
      ButtonEdge(b, now, level) == b.(buttonCurrentlyHeld := true, buttonPressStartTime := now, lastButtonTime := now)
    ensures Elapsed(now, b.lastButtonTime) > BUTTON_DEBOUNCE_MS && level == HIGH && b.buttonCurrentlyHeld ==>
      var c := ButtonEdge(b, now, level);
      c.buttonPressed && !c.buttonCurrentlyHeld
      && (b.clickCount == 0 ==> c.clickCount == 1 && c.firstClickTime == now)
      && (b.clickCount != 0 && Elapsed(now, b.firstClickTime) < DOUBLE_CLICK_TIMEOUT ==>
            c.clickCount == 2 && c.firstClickTime == b.firstClickTime)
      && (b.clickCount != 0 && Elapsed(now, b.firstClickTime) >= DOUBLE_CLICK_TIMEOUT ==>
            c.clickCount == 1 && c.firstClickTime == now)
  {
  }

  /** Button edges at the given times and levels, in order. */
  function ButtonEdges(b: ButtonState, times: seq<U32>, levels: seq<Bit>): ButtonState
    requires |times| == |levels|
    decreases |times|
  {
    if times == [] then b else ButtonEdges(ButtonEdge(b, times[0], levels[0]), times[1..], levels[1..])
  }

  /**
   * Press, release, press, release, each edge more than 50 ms after the
   * previous one and the second release within 400 ms of the first, is a
   * double click.
   */
  lemma DoubleClick(b: ButtonState, t0: U32, t1: U32, t2: U32, t3: U32)
    requires !b.buttonCurrentlyHeld && b.clickCount == 0
    requires Elapsed(t0, b.lastButtonTime) > BUTTON_DEBOUNCE_MS
    requires t0 < t1 < t2 < t3
    requires t1 - t0 > BUTTON_DEBOUNCE_MS && t2 - t1 > BUTTON_DEBOUNCE_MS && t3 - t2 > BUTTON_DEBOUNCE_MS
    requires t3 - t1 < DOUBLE_CLICK_TIMEOUT
    ensures ButtonEdges(b, [t0, t1, t2, t3], [LOW, HIGH, LOW, HIGH]).clickCount == 2
  {
    var times, levels := [t0, t1, t2, t3], [LOW, HIGH, LOW, HIGH];
    var b1 := ButtonEdge(b, t0, LOW);
    var b2 := ButtonEdge(b1, t1, HIGH);
    var b3 := ButtonEdge(b2, t2, LOW);
    assert b2.clickCount == 1 && b2.firstClickTime == t1 && b2.lastButtonTime == t1;
    assert b3.lastButtonTime == t2 && b3.buttonCurrentlyHeld;
    assert ButtonEdges(b, times, levels) == ButtonEdges(b1, times[1..], levels[1..]);
    assert ButtonEdges(b1, times[1..], levels[1..]) == ButtonEdges(b2, times[2..], levels[2..]);
    assert ButtonEdges(b2, times[2..], levels[2..]) == ButtonEdges(b3, times[3..], levels[3..]);
    assert ButtonEdges(b3, times[3..], levels[3..]) == ButtonEdge(b3, t3, HIGH);
  }

  // ---------------------------------------------------------------- volume

  /** The volume handler's globals. */
  datatype VolumeState = VolumeState(
    volume: int, encoderPos: int, lastEncoderPos: int, clicksPerInterval: int, lastEncoderTime: U32)

  /**
   * The acceleration multiplier in tenths: 1 up to 3 clicks in the window,
   * then 0.2 more per click, at most 10 clicks' worth.
   */
  function MultiplierTenths(clicks: int): (m: int)
    ensures 10 <= m <= 30
  {
    if clicks > VOLUME_ACCELERATION_THRESHOLD then 10 + 2 * Min(clicks - VOLUME_ACCELERATION_THRESHOLD, 10) else 10
  }

  /**
   * `(int)(volume + clickDelta * 0.5 * multiplier)`: the change is
   * clickDelta * m / 20 for m in tenths, and the cast truncates toward zero.
   */
  function VolumeTarget(volume: int, clickDelta: int, multiplierTenths: int): int
  {
    TruncDiv(20 * volume + clickDelta * multiplierTenths, 20)
  }

  /**
   * One run of `handleEncoderVolumeChange` after the encoder moved. When
   * `rebase` is false this is the handler as written; when it is true, a
   * clamp also moves `lastEncoderPos` to the snapped position (see
   * `VolumeTurnFixed`).
   */
  function Turn(v: VolumeState, now: U32, rebase: bool): VolumeState
  {
    var currentPos := v.encoderPos;
    var clickDelta := currentPos - v.lastEncoderPos;
    var restart := Elapsed(now, v.lastEncoderTime) > ACCELERATION_WINDOW_MS;
    var clicks := if restart then 0 else v.clicksPerInterval + Abs(clickDelta);
    var windowStart := if restart then now else v.lastEncoderTime;
    var target := VolumeTarget(v.volume, clickDelta, MultiplierTenths(clicks));
    var clamped := target < VOLUME_MIN || target > VOLUME_MAX;
    var newVolume := if target < VOLUME_MIN then VOLUME_MIN else if target > VOLUME_MAX then VOLUME_MAX else target;
    var newPos := if target < VOLUME_MIN then 0 else if target > VOLUME_MAX then 2 * (VOLUME_MAX - v.volume) else currentPos;
    var newClicks := if clamped then 0 else clicks;
    var newLast :=
      if rebase && clamped then newPos
      else if newVolume != v.volume then currentPos
      else v.lastEncoderPos;
    VolumeState(newVolume, newPos, newLast, newClicks, windowStart)
  }

  /** `handleEncoderVolumeChange` as written. */
  function VolumeTurn(v: VolumeState, now: U32): VolumeState
  {
    Turn(v, now, false)
  }

  /** The handler with the clamp re-basing `lastEncoderPos` on the snapped position. */
  function VolumeTurnFixed(v: VolumeState, now: U32): VolumeState
  {
    Turn(v, now, true)
  }

  /**
   * Properties shared by both versions: the volume stays in [0, 100]; a
   * clamp below zeroes the position and the click count, a clamp above sets
   * the position to 2 * (100 - previous volume) and zeroes the count; the
   * window restarts after more than 200 ms and otherwise accumulates
   * |clickDelta|; without a clamp `lastEncoderPos` advances only when the
   * volume changes.
   */
  lemma TurnProperties(v: VolumeState, now: U32, rebase: bool)
    requires VOLUME_MIN <= v.volume <= VOLUME_MAX
    ensures var w := Turn(v, now, rebase);
      var delta := v.encoderPos - v.lastEncoderPos;
      var restart := Elapsed(now, v.lastEncoderTime) > ACCELERATION_WINDOW_MS;
      var clicks := if restart then 0 else v.clicksPerInterval + Abs(delta);
      var target := VolumeTarget(v.volume, delta, MultiplierTenths(clicks));
      VOLUME_MIN <= w.volume <= VOLUME_MAX
      && (target < VOLUME_MIN ==> w.volume == VOLUME_MIN && w.encoderPos == 0 && w.clicksPerInterval == 0)
      && (target > VOLUME_MAX ==>
            w.volume == VOLUME_MAX && w.encoderPos == 2 * (VOLUME_MAX - v.volume) && w.clicksPerInterval == 0)
      && (VOLUME_MIN <= target <= VOLUME_MAX ==>
            w.volume == target && w.encoderPos == v.encoderPos && w.clicksPerInterval == clicks
            && w.lastEncoderPos == (if target != v.volume then v.encoderPos else v.lastEncoderPos))
      && w.lastEncoderTime == (if restart then now else v.lastEncoderTime)
  {
  }

  /**
   * One clockwise click at multiplier 1 moves the volume by half a step,
   * which the truncation drops: the click stays banked in the position.
   */
  lemma SingleClickBanked(now: U32)
    requires now <= ACCELERATION_WINDOW_MS
    ensures VolumeTurn(VolumeState(50, 1, 0, 0, 0), now) == VolumeState(50, 1, 0, 1, 0)
  {
  }

  /**
   * Finding (as written): a clamp at 100 snaps `encoderPos` to
   * 2 * (100 - previous volume) but `lastEncoderPos` takes the position read
   * before the snap, so the next clockwise click counts as a
   * counter-clockwise one and lowers the volume from 100 to 99.
   */
  lemma ClockwiseClickLowersVolume()
    ensures var v1 := VolumeTurn(VolumeState(99, 4, 0, 3, 0), 100);
      v1.volume == 100
      && VolumeTurn(v1.(encoderPos := v1.encoderPos + 1), 150).volume == 99
  {
    var v1 := VolumeTurn(VolumeState(99, 4, 0, 3, 0), 100);
    assert MultiplierTenths(7) == 18;
    assert VolumeTarget(99, 4, 18) == 102;
    assert v1 == VolumeState(100, 2, 4, 0, 0);
    assert VolumeTarget(100, -1, 10) == 99;
  }

  /**
   * The same finding at the other end: a clamp at 0 snaps `encoderPos` to 0
   * but `lastEncoderPos` keeps the negative position read before the snap,
   * so one clockwise click is counted as five and the volume jumps from 0 to 3.
   */
  lemma ClockwiseClickJumpsFromZero()
    ensures var v1 := VolumeTurn(VolumeState(1, -4, 0, 1, 0), 100);
      v1.volume == 0 && v1.encoderPos == 0 && v1.lastEncoderPos == -4
      && VolumeTurn(v1.(encoderPos := v1.encoderPos + 1), 150).volume == 3
  {
    var v1 := VolumeTurn(VolumeState(1, -4, 0, 1, 0), 100);
    assert MultiplierTenths(5) == 14;
    assert VolumeTarget(1, -4, 14) == -1;
    assert v1 == VolumeState(0, 0, -4, 0, 0);
    assert VolumeTarget(0, 5, 14) == 3;
  }

  /** Clicks not yet turned into volume: the position past `lastEncoderPos`. */
  function Banked(v: VolumeState): int
  {
    v.encoderPos - v.lastEncoderPos
  }

  /** A non-negative number of clicks never lowers the target. */
  lemma TargetNotBelow(volume: nat, clickDelta: nat, m: nat)
    ensures VolumeTarget(volume, clickDelta, m) >= volume
  {
    assert clickDelta * m >= 0;
  }

  /** From a positive volume, any counter-clockwise clicks lower the target. */
  lemma TargetBelow(volume: int, clickDelta: int, m: int)
    requires volume >= 1 && clickDelta <= -1 && m >= 10
    ensures VolumeTarget(volume, clickDelta, m) < volume
  {
    assert clickDelta * m <= -10 by {
      MulLe(1, -clickDelta, m);
    }
  }

  /**
   * With the fix, after any handler run the banked clicks are never
   * negative unless the volume is already 0.
   */
  lemma FixedLeavesNoNegativeBank(v: VolumeState, now: U32)
    requires VOLUME_MIN <= v.volume <= VOLUME_MAX
    ensures var w := VolumeTurnFixed(v, now); Banked(w) >= 0 || w.volume == VOLUME_MIN
  {
    var delta := Banked(v);
    var restart := Elapsed(now, v.lastEncoderTime) > ACCELERATION_WINDOW_MS;
    var clicks := if restart then 0 else v.clicksPerInterval + Abs(delta);
    var target := VolumeTarget(v.volume, delta, MultiplierTenths(clicks));
    if delta < 0 && v.volume >= 1 {
      TargetBelow(v.volume, delta, MultiplierTenths(clicks));
    }
  }

  /** With the fix, a clamp at either end leaves no clicks banked at all. */
  lemma FixedClampLeavesNoBank(v: VolumeState, now: U32)
    requires VOLUME_MIN <= v.volume <= VOLUME_MAX
    ensures var delta := Banked(v);
      var restart := Elapsed(now, v.lastEncoderTime) > ACCELERATION_WINDOW_MS;
      var clicks := if restart then 0 else v.clicksPerInterval + Abs(delta);
      var target := VolumeTarget(v.volume, delta, MultiplierTenths(clicks));
      (target < VOLUME_MIN || target > VOLUME_MAX) ==> Banked(VolumeTurnFixed(v, now)) == 0
  {
  }

  /**
   * With the fix, clockwise clicks never lower the volume: after any
   * handler run, turning k >= 0 clicks clockwise and running it again
   * leaves the volume at least where it was.
   */
  lemma ClockwiseNeverLowers(v: VolumeState, now1: U32, now2: U32, k: nat)
    requires VOLUME_MIN <= v.volume <= VOLUME_MAX
    ensures var v1 := VolumeTurnFixed(v, now1);
      VolumeTurnFixed(v1.(encoderPos := v1.encoderPos + k), now2).volume >= v1.volume
  {
    var v1 := VolumeTurnFixed(v, now1);
    TurnProperties(v, now1, true);
    FixedLeavesNoNegativeBank(v, now1);
    var u := v1.(encoderPos := v1.encoderPos + k);
    TurnProperties(u, now2, true);
    if Banked(v1) >= 0 {
      var restart := Elapsed(now2, u.lastEncoderTime) > ACCELERATION_WINDOW_MS;
      var clicks := if restart then 0 else u.clicksPerInterval + Abs(Banked(u));
      TargetNotBelow(u.volume, Banked(u), MultiplierTenths(clicks));
    }
  }

  // ---------------------------------------------------------------- track id

  /**
   * `extractTrackId`: the text after the last ':' of the URI, or "" when
   * there is none. `lastIndexOf(ch)` searches from the last index, so an
   * empty URI finds nothing.
   */
  function ExtractTrackId(trackUri: Bytes): (id: Bytes)
  {
    var lastColon := if |trackUri| == 0 then -1 else LastIndexOf(trackUri, COLON, |trackUri| - 1);
    if lastColon != -1 then trackUri[lastColon + 1..] else []
  }

  /**
   * The id is a suffix of the URI holding no ':': the URI is the text up to
   * its last ':' followed by the id; a URI without ':' gives "".
   */
  lemma ExtractTrackIdProperties(trackUri: Bytes)
    ensures COLON !in ExtractTrackId(trackUri)
    ensures COLON in trackUri ==> exists k | 0 <= k < |trackUri| ::
      trackUri == trackUri[..k] + [COLON] + ExtractTrackId(trackUri)
    ensures COLON !in trackUri ==> ExtractTrackId(trackUri) == []
  {
    var id := ExtractTrackId(trackUri);
    if |trackUri| > 0 {
      var k := LastIndexOf(trackUri, COLON, |trackUri| - 1);
      if k != -1 {
        assert trackUri == trackUri[..k] + [COLON] + id;
        forall j | 0 <= j < |id| ensures id[j] != COLON {
          assert id[j] == trackUri[k + 1 + j];
        }
      }
    }
  }

  /** A Spotify URI yields its id. */
  lemma ExtractTrackIdExample()
    ensures ExtractTrackId([115, 58, 116, 58, 65, 66]) == [65, 66]
  {
    assert LastIndexOf([115, 58, 116, 58, 65, 66], COLON, 5) == 3;
  }

  // ---------------------------------------------------------------- the encoder's globals

  /** A request the handlers make to the Spotify Web API. */
  datatype Request = SetVolume(volume: int) | SaveTrack(trackId: Bytes) | Pause | Play

  /**
   * The encoder's globals and the handlers that update them. The interrupt
   * routines and the main loop share the position, the flags and the click
   * count; the Spotify requests are recorded in `requests` instead of sent.
   */
  class RotaryEncoder {
    var encoderPos: int
    var encoderChanged: bool
    var lastInterruptTime: U32
    var lastClkState: Bit
    var lastDtState: Bit
    var encoderState: int

    var buttonPressed: bool
    var lastButtonTime: U32
    var buttonPressStartTime: U32
    var buttonCurrentlyHeld: bool
    var clickCount: int
    var firstClickTime: U32

    var currentVolume: int
    var lastEncoderPos: int
    var lastEncoderTime: U32
    var encoderClicksPerInterval: int

    var currentTrackUri: Bytes
    var trackLiked: bool
    var isCurrentlyPlaying: bool
    /** The static `lastActionTime` of `handleEncoderButtonPress`. */
    var lastActionTime: U32

    /** The flag shared with the polling loop, raised around every API call. */
    const gate: PollGate
    ghost var requests: seq<Request>

    /** The quadrature state is a 2-bit value, at most two clicks are pending, the volume is a percentage and the URI fits its buffer. */
    predicate Valid()
      reads this
    {
      0 <= encoderState <= 3 && 0 <= clickCount <= 2
      && VOLUME_MIN <= currentVolume <= VOLUME_MAX && FitsBuffer(currentTrackUri)
    }

    function Encoder(): EncoderState
      reads this
    {
      EncoderState(encoderPos, encoderChanged, lastInterruptTime, lastClkState, lastDtState, encoderState)
    }

    function Button(): ButtonState
      reads this
    {
      ButtonState(buttonPressed, lastButtonTime, buttonPressStartTime, buttonCurrentlyHeld, clickCount, firstClickTime)
    }

    function Volume(): VolumeState
      reads this
    {
      VolumeState(currentVolume, encoderPos, lastEncoderPos, encoderClicksPerInterval, lastEncoderTime)
    }

    /** The globals' initial values: everything zero, the volume at 50 and no track. */
    constructor(gate: PollGate)
      ensures Valid() && this.gate == gate && requests == []
      ensures Encoder() == EncoderState(0, false, 0, LOW, LOW, 0)
      ensures Button() == ButtonState(false, 0, 0, false, 0, 0)
      ensures Volume() == VolumeState(INITIAL_VOLUME, 0, 0, 0, 0)
      ensures currentTrackUri == [] && !trackLiked && !isCurrentlyPlaying && lastActionTime == 0
    {
      encoderPos, encoderChanged, lastInterruptTime := 0, false, 0;
      lastClkState, lastDtState, encoderState := LOW, LOW, 0;
      buttonPressed, lastButtonTime, buttonPressStartTime := false, 0, 0;
      buttonCurrentlyHeld, clickCount, firstClickTime := false, 0, 0;
      currentVolume, lastEncoderPos, lastEncoderTime, encoderClicksPerInterval := INITIAL_VOLUME, 0, 0, 0;
      currentTrackUri, trackLiked, isCurrentlyPlaying, lastActionTime := [], false, false, 0;
      this.gate := gate;
      requests := [];
    }

    /** `encoderISR`, at time `now` with the pins reading `clk` and `dt`. */
    method EncoderISR(now: U32, clk: Bit, dt: Bit)
      requires Valid()
      modifies this`encoderPos, this`encoderChanged, this`lastInterruptTime
      modifies this`lastClkState, this`lastDtState, this`encoderState
      ensures Valid()
      ensures Encoder() == EncoderEdge(old(Encoder()), now, clk, dt)
    {
      if Elapsed(now, lastInterruptTime) > ENCODER_DEBOUNCE_MS {
        var newState := QuadratureState(clk, dt);
        var oldState := encoderState;
        if newState != oldState {
          encoderPos := encoderPos + QuadratureStep(oldState, newState);
          encoderState := newState;
          lastClkState, lastDtState := clk, dt;
          encoderChanged := true;
          lastInterruptTime := now;
        }
      }
    }

    /** `buttonISR`, at time `now` with the switch reading `level`. */
    method ButtonISR(now: U32, level: Bit)
      requires Valid()
      modifies this`buttonPressed, this`lastButtonTime, this`buttonPressStartTime
      modifies this`buttonCurrentlyHeld, this`clickCount, this`firstClickTime
      ensures Valid()
      ensures Button() == ButtonEdge(old(Button()), now, level)
    {
      if Elapsed(now, lastButtonTime) > BUTTON_DEBOUNCE_MS {
        if level == LOW && !buttonCurrentlyHeld {
          buttonCurrentlyHeld := true;
          buttonPressStartTime := now;
          lastButtonTime := now;
        } else if level == HIGH && buttonCurrentlyHeld {
          buttonCurrentlyHeld := false;
          buttonPressed := true;
          lastButtonTime := now;
          if clickCount == 0 {
            firstClickTime := now;
            clickCount := 1;
          } else if Elapsed(now, firstClickTime) < DOUBLE_CLICK_TIMEOUT {
            clickCount := 2;
          } else {
            firstClickTime := now;
            clickCount := 1;
          }
        }
      }
    }

    /**
     * `handleEncoderVolumeChange` as written: when the encoder moved, the
     * banked clicks become a new volume, and a changed volume is sent to
     * Spotify while polling is paused.
     */
    method HandleEncoderVolumeChange(now: U32)
      requires Valid()
      modifies this`encoderChanged, this`encoderPos, this`lastEncoderPos, this`lastEncoderTime
      modifies this`encoderClicksPerInterval, this`currentVolume, this`requests, gate`pauseSpotifyPolling
      ensures Valid()
      ensures !encoderChanged
      ensures old(encoderChanged) ==> Volume() == VolumeTurn(old(Volume()), now)
      ensures !old(encoderChanged) ==> Volume() == old(Volume())
      ensures currentVolume != old(currentVolume) ==>
        requests == old(requests) + [SetVolume(currentVolume)] && !gate.pauseSpotifyPolling
      ensures currentVolume == old(currentVolume) ==>
        requests == old(requests) && gate.pauseSpotifyPolling == old(gate.pauseSpotifyPolling)
    {
      if encoderChanged {
        encoderChanged := false;
        var currentPos := encoderPos;
        var clickDelta := currentPos - lastEncoderPos;
        if Elapsed(now, lastEncoderTime) > ACCELERATION_WINDOW_MS {
          encoderClicksPerInterval := 0;
          lastEncoderTime := now;
        } else {
          encoderClicksPerInterval := encoderClicksPerInterval + Abs(clickDelta);
        }
        var multiplier := MultiplierTenths(encoderClicksPerInterval);
        var newVolume := VolumeTarget(currentVolume, clickDelta, multiplier);
        if newVolume < VOLUME_MIN {
          newVolume := VOLUME_MIN;
          encoderPos := 0;
          encoderClicksPerInterval := 0;
        } else if newVolume > VOLUME_MAX {
          newVolume := VOLUME_MAX;
          encoderPos := 2 * (VOLUME_MAX - currentVolume);
          encoderClicksPerInterval := 0;
        }
        if newVolume != currentVolume {
          currentVolume := newVolume;
          lastEncoderPos := currentPos;
          gate.pauseSpotifyPolling := true;
          requests := requests + [SetVolume(currentVolume)];
          gate.pauseSpotifyPolling := false;
        }
      }
    }

    /**
     * `handleEncoderButtonPress` (add-only mode): a pending double click is
     * consumed and saves the current track; a single click is acted on once
     * 400 ms have passed without a second one, toggling playback unless the
     * last action was under 400 ms ago. `playbackOk` is whether Spotify
     * accepted the play or pause request.
     */
    method HandleEncoderButtonPress(now: U32, playbackOk: bool)
      requires Valid()
      modifies this`clickCount, this`buttonPressed, this`lastActionTime, this`isCurrentlyPlaying
      modifies this`requests, gate`pauseSpotifyPolling
      ensures Valid() && !buttonPressed
      ensures old(clickCount) == 2 ==>
        var id := ExtractTrackId(currentTrackUri);
        clickCount == 0 && isCurrentlyPlaying == old(isCurrentlyPlaying)
        && (id == [] ==> requests == old(requests) && lastActionTime == old(lastActionTime)
                         && gate.pauseSpotifyPolling == old(gate.pauseSpotifyPolling))
        && (id != [] ==> requests == old(requests) + [SaveTrack(id)] && lastActionTime == now
                         && !gate.pauseSpotifyPolling)
      ensures (old(clickCount) == 1 && Elapsed(now, firstClickTime) > DOUBLE_CLICK_TIMEOUT
        && Elapsed(now, old(lastActionTime)) > DOUBLE_CLICK_TIMEOUT) ==>
        clickCount == 0 && lastActionTime == now && !gate.pauseSpotifyPolling
        && requests == old(requests) + [if old(isCurrentlyPlaying) then Pause else Play]
        && isCurrentlyPlaying == (if playbackOk then !old(isCurrentlyPlaying) else old(isCurrentlyPlaying))
      ensures (old(clickCount) == 1 && Elapsed(now, firstClickTime) > DOUBLE_CLICK_TIMEOUT
        && Elapsed(now, old(lastActionTime)) <= DOUBLE_CLICK_TIMEOUT) ==>
        clickCount == 0 && lastActionTime == old(lastActionTime) && requests == old(requests)
        && isCurrentlyPlaying == old(isCurrentlyPlaying) && gate.pauseSpotifyPolling == old(gate.pauseSpotifyPolling)
      ensures old(clickCount) == 0 || (old(clickCount) == 1 && Elapsed(now, firstClickTime) <= DOUBLE_CLICK_TIMEOUT) ==>
        clickCount == old(clickCount) && lastActionTime == old(lastActionTime) && requests == old(requests)
        && isCurrentlyPlaying == old(isCurrentlyPlaying) && gate.pauseSpotifyPolling == old(gate.pauseSpotifyPolling)
    {
      if clickCount == 2 {
        clickCount := 0;
        buttonPressed := false;
        if |currentTrackUri| == 0 {
          return;
        }
        var trackId := ExtractTrackId(currentTrackUri);
        if |trackId| == 0 {
          return;
        }
        // saveTrackToLiked pauses polling for the request and resumes it on every path
        gate.pauseSpotifyPolling := true;
        requests := requests + [SaveTrack(trackId)];
        gate.pauseSpotifyPolling := false;
        lastActionTime := now;
        return;
      }
      if buttonPressed {
        buttonPressed := false;
      }
      if clickCount == 1 && Elapsed(now, firstClickTime) > DOUBLE_CLICK_TIMEOUT {
        if Elapsed(now, lastActionTime) > DOUBLE_CLICK_TIMEOUT {
          clickCount := 0;
          gate.pauseSpotifyPolling := true;
          if isCurrentlyPlaying {
            requests := requests + [Pause];
          } else {
            requests := requests + [Play];
          }
          gate.pauseSpotifyPolling := false;
          if playbackOk {
            isCurrentlyPlaying := !isCurrentlyPlaying;
          }
          lastActionTime := now;
        } else {
          clickCount := 0;
        }
      }
    }

    /** `updateCurrentTrackUri`: a new URI is copied in and its liked flag reset; a null pointer changes nothing. */
    method UpdateCurrentTrackUri(trackUri: Option<Bytes>)
      requires Valid()
      requires trackUri.Some? ==> FitsBuffer(trackUri.value)
      modifies this`currentTrackUri, this`trackLiked
      ensures Valid()
      ensures trackUri.Some? ==> currentTrackUri == trackUri.value && !trackLiked
      ensures trackUri.None? ==> currentTrackUri == old(currentTrackUri) && trackLiked == old(trackLiked)
    {
      if trackUri.Some? {
        currentTrackUri := trackUri.value;
        trackLiked := false;
      }
    }

    /** `updatePlayingState`. */
    method UpdatePlayingState(isPlaying: bool)
      modifies this`isCurrentlyPlaying
      ensures isCurrentlyPlaying == isPlaying
    {
      isCurrentlyPlaying := isPlaying;
    }
  }
}
