/**
 * The C and Arduino primitives the firmware relies on, written out over
 * unbounded integers and byte sequences: bytes, the 32-bit `millis()` clock,
 * division that truncates toward zero, and `String::lastIndexOf`.
 */
module CInt {

  /** One byte of a C string. */
  type Byte = x: int | 0 <= x < 256

  /** A C string without its terminator, as raw UTF-8 bytes. */
  type Bytes = seq<Byte>

  const U32_MODULUS: int := 0x1_0000_0000

  /** An `unsigned long` on the ESP32, as returned by `millis()`. */
  type U32 = x: int | 0 <= x < U32_MODULUS

  /** A pin level read by `digitalRead`: LOW is 0, HIGH is 1. */
  type Bit = x: int | 0 <= x <= 1

  const LOW: Bit := 0
  const HIGH: Bit := 1

  function Abs(x: int): (r: nat)
    ensures r == x || r == -x
  {
    if x < 0 then -x else x
  }

  function Min(a: int, b: int): (r: int)
    ensures r <= a && r <= b && (r == a || r == b)
  {
    if a <= b then a else b
  }

  /**
   * C's `/` by a positive divisor: the quotient is truncated toward zero, so
   * for a negative dividend it differs from Dafny's Euclidean `/`.
   */
  function TruncDiv(a: int, b: int): (q: int)
    requires b > 0
    ensures a >= 0 ==> 0 <= q && q * b <= a < q * b + b
    ensures a < 0 ==> q <= 0 && q * b - b < a <= q * b
  {
    if a >= 0 then a / b else -((-a) / b)
  }

  /** Truncation toward zero in terms of Dafny's Euclidean `/` on the magnitude. */
  lemma TruncDivOfMagnitude(a: int, b: int)
    requires b > 0
    ensures a >= 0 ==> TruncDiv(a, b) == a / b
    ensures a < 0 ==> TruncDiv(a, b) == -((-a) / b)
  {
  }

  /** C's `%` by a positive divisor: the remainder takes the sign of the dividend. */
  function TruncMod(a: int, b: int): (r: int)
    requires b > 0
    ensures a >= 0 ==> r == a % b
  {
    a - b * TruncDiv(a, b)
  }

  /** Truncating division by a positive divisor is monotone in the dividend. */
  lemma TruncDivMonotone(a: int, b: int, d: int)
    requires a <= b && d > 0
    ensures TruncDiv(a, d) <= TruncDiv(b, d)
  {
    if a >= 0 {
      DivMonotone(a, b, d);
    } else if b <= 0 {
      DivMonotone(-b, -a, d);
      assert TruncDiv(a, d) == -((-a) / d) && TruncDiv(b, d) == -((-b) / d);
    } else {
      assert TruncDiv(a, d) <= 0 <= b / d;
    }
  }

  lemma DivMonotone(a: nat, b: nat, d: int)
    requires a <= b && d > 0
    ensures a / d <= b / d
  {
    var qa, qb := a / d, b / d;
    assert qa * d <= a && b < qb * d + d;
    MulLess(qa, qb + 1, d);
  }

  /** Multiplying by a positive number and dividing by it again gives the number back. */
  lemma MulDivCancel(e: nat, n: int)
    requires n > 0
    ensures e * n / n == e
  {
    var q, r := e * n / n, e * n % n;
    assert e * n == q * n + r && 0 <= r < n;
    MulLess(q, e + 1, n);
    MulLess(e, q + 1, n);
  }

  /** Multiplying by a positive number keeps the order. */
  lemma MulLess(x: int, y: int, n: int)
    requires n > 0
    ensures x < y <==> x * n < y * n
  {
    assert y * n - x * n == (y - x) * n;
  }

  lemma MulLe(x: int, y: int, d: nat)
    requires x <= y
    ensures x * d <= y * d
  {
    assert y * d - x * d == (y - x) * d;
  }

  /**
   * `now - since` on `unsigned long`: the time elapsed on the wrapping 32-bit
   * millisecond clock.
   */
  function Elapsed(now: U32, since: U32): (d: U32)
    ensures (since + d) % U32_MODULUS == now
  {
    if now >= since then now - since else now - since + U32_MODULUS
  }

  /** `now + delay` on `unsigned long`. */
  function AddU32(now: U32, delay: nat): (r: U32)
    ensures r == (now + delay) % U32_MODULUS
  {
    if now + delay < U32_MODULUS then now + delay else (now + delay) % U32_MODULUS
  }

  /**
   * Waiting `k` milliseconds on the wrapping clock and measuring the time
   * since the start gives `k` back, as long as `k` is below one wrap.
   */
  lemma ElapsedAfterDelay(since: U32, k: nat)
    requires k < U32_MODULUS
    ensures Elapsed(AddU32(since, k), since) == k
  {
  }

  /** Concatenation is associative; stated once so that proofs about logs need not rediscover it. */
  lemma AppendAssoc<T>(a: seq<T>, b: seq<T>, c: seq<T>)
    ensures a + (b + c) == (a + b) + c
  {
  }

  /**
   * ESP32 `String::lastIndexOf(ch, from)`: the last index at or before
   * `from` holding `c`, or -1; a start at or past the end finds nothing.
   */
  function LastIndexOf(s: Bytes, c: Byte, from: int): (k: int)
    requires from >= 0
    ensures -1 <= k <= from && k < |s|
    ensures from >= |s| ==> k == -1
    ensures k >= 0 ==> s[k] == c
    ensures from < |s| ==> forall j | k < j <= from :: s[j] != c
    decreases from
  {
    if from >= |s| then -1
    else if s[from] == c then from
    else if from == 0 then -1
    else LastIndexOf(s, c, from - 1)
  }
}
