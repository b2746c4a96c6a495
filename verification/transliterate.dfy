/**
 * The glyph fallback of the display driver: the FreeSans fonts only carry the
 * base Latin range, so a fixed table of two-byte UTF-8 letters (Polish, Czech,
 * Turkish) is rewritten to their ASCII base letters before any measurement.
 */
module Transliterate {
  import opened CInt

  /** One `result.replace(lead trail, ascii)` entry of the table. */
  datatype Replacement = Replacement(lead: Byte, trail: Byte, ascii: Byte)

  /** The 36 entries, in the order the driver applies them. */
  const TABLE: seq<Replacement> := [
    // Polish
    Replacement(0xC5, 0x82, 'l' as int), Replacement(0xC5, 0x81, 'L' as int),
    Replacement(0xC4, 0x85, 'a' as int), Replacement(0xC4, 0x84, 'A' as int),
    Replacement(0xC4, 0x87, 'c' as int), Replacement(0xC4, 0x86, 'C' as int),
    Replacement(0xC4, 0x99, 'e' as int), Replacement(0xC4, 0x98, 'E' as int),
    Replacement(0xC5, 0x84, 'n' as int), Replacement(0xC5, 0x83, 'N' as int),
    Replacement(0xC3, 0xB3, 'o' as int), Replacement(0xC3, 0x93, 'O' as int),
    Replacement(0xC5, 0x9B, 's' as int), Replacement(0xC5, 0x9A, 'S' as int),
    Replacement(0xC5, 0xBA, 'z' as int), Replacement(0xC5, 0xB9, 'Z' as int),
    Replacement(0xC5, 0xBC, 'z' as int), Replacement(0xC5, 0xBB, 'Z' as int),
    // Czech
    Replacement(0xC5, 0x99, 'r' as int), Replacement(0xC5, 0x98, 'R' as int),
    Replacement(0xC4, 0x8D, 'c' as int), Replacement(0xC4, 0x8C, 'C' as int),
    Replacement(0xC5, 0xA1, 's' as int), Replacement(0xC5, 0xA0, 'S' as int),
    Replacement(0xC5, 0xBE, 'z' as int), Replacement(0xC5, 0xBD, 'Z' as int),
    Replacement(0xC5, 0xAF, 'u' as int), Replacement(0xC5, 0xAE, 'U' as int),
    Replacement(0xC4, 0x9B, 'e' as int), Replacement(0xC4, 0x9A, 'E' as int),
    // Turkish
    Replacement(0xC4, 0x9F, 'g' as int), Replacement(0xC4, 0x9E, 'G' as int),
    Replacement(0xC5, 0x9F, 's' as int), Replacement(0xC5, 0x9E, 'S' as int),
    Replacement(0xC4, 0xB0, 'I' as int), Replacement(0xC4, 0xB1, 'i' as int)
  ]

  predicate IsAscii(b: Byte) { b < 0x80 }

  predicate AllAscii(s: Bytes) { forall i | 0 <= i < |s| :: IsAscii(s[i]) }

  /** A two-byte UTF-8 letter replaced by one ASCII byte. */
  predicate WellFormed(r: Replacement)
  {
    !IsAscii(r.lead) && !IsAscii(r.trail) && IsAscii(r.ascii)
  }

  /** The two-byte sequence `a b` occurs somewhere in `s`. */
  predicate Occurs(s: Bytes, a: Byte, b: Byte)
  {
    |s| >= 2 && ((s[0] == a && s[1] == b) || Occurs(s[1..], a, b))
  }

  /** Arduino's `String::replace` of a two-byte pattern by one byte: a left-to-right scan
      that rewrites non-overlapping occurrences. */
  function ReplaceAll(s: Bytes, r: Replacement): (t: Bytes)
    ensures |t| <= |s|
    decreases |s|
  {
    if |s| < 2 then s
    else if s[0] == r.lead && s[1] == r.trail then [r.ascii] + ReplaceAll(s[2..], r)
    else [s[0]] + ReplaceAll(s[1..], r)
  }

  /** The first `n` table entries applied in order. */
  function ReplaceFirst(s: Bytes, n: nat): (t: Bytes)
    requires n <= |TABLE|
  {
    if n == 0 then s else ReplaceAll(ReplaceFirst(s, n - 1), TABLE[n - 1])
  }

  /** What `replaceUnsupportedChars` returns for `s`. */
  function Transliterated(s: Bytes): Bytes
  {
    ReplaceFirst(s, |TABLE|)
  }

  lemma TableWellFormed()
    ensures forall k | 0 <= k < |TABLE| :: WellFormed(TABLE[k])
  {
  }

  lemma {:induction false} ReplaceAllAscii(s: Bytes, r: Replacement)
    requires AllAscii(s) && WellFormed(r)
    ensures ReplaceAll(s, r) == s
    decreases |s|
  {
    if |s| >= 2 {
      assert AllAscii(s[1..]);
      ReplaceAllAscii(s[1..], r);
    }
  }

  /** Without an occurrence of the pattern, the replacement changes nothing. */
  lemma {:induction false} ReplaceAllAbsent(s: Bytes, r: Replacement)
    requires !Occurs(s, r.lead, r.trail)
    ensures ReplaceAll(s, r) == s
    decreases |s|
  {
    if |s| >= 2 {
      ReplaceAllAbsent(s[1..], r);
    }
  }

  lemma {:induction false} OccursTail(s: Bytes, k: nat, a: Byte, b: Byte)
    requires k <= |s| && Occurs(s[k..], a, b)
    ensures Occurs(s, a, b)
    decreases k
  {
    if k > 0 {
      assert s[1..][k - 1..] == s[k..];
      OccursTail(s[1..], k - 1, a, b);
    }
  }

  /**
   * Every occurrence of a two-byte non-ASCII sequence in the output was
   * already in the input, and the replaced pattern itself no longer occurs:
   * the single ASCII byte written in its place cannot start or end one.
   */
  lemma {:induction false} ReplaceAllOccurrences(s: Bytes, r: Replacement, a: Byte, b: Byte)
    requires WellFormed(r) && !IsAscii(a) && !IsAscii(b)
    requires Occurs(ReplaceAll(s, r), a, b)
    ensures Occurs(s, a, b) && !(a == r.lead && b == r.trail)
    decreases |s|
  {
    var t := ReplaceAll(s, r);
    if |s| < 2 {
    } else if s[0] == r.lead && s[1] == r.trail {
      var rest := ReplaceAll(s[2..], r);
      assert t == [r.ascii] + rest && t[1..] == rest;
      ReplaceAllOccurrences(s[2..], r, a, b);
      OccursTail(s, 2, a, b);
    } else {
      var rest := ReplaceAll(s[1..], r);
      assert t == [s[0]] + rest && t[1..] == rest;
      if t[0] == a && t[1] == b {
        if !(|s[1..]| >= 2 && s[1] == r.lead && s[2] == r.trail) {
          assert rest[0] == s[1];
        }
      } else {
        ReplaceAllOccurrences(s[1..], r, a, b);
      }
    }
  }

  lemma {:induction false} ReplaceFirstProperties(s: Bytes, n: nat)
    requires n <= |TABLE|
    ensures |ReplaceFirst(s, n)| <= |s|
    ensures AllAscii(s) ==> ReplaceFirst(s, n) == s
    ensures forall k | 0 <= k < n :: !Occurs(ReplaceFirst(s, n), TABLE[k].lead, TABLE[k].trail)
  {
    TableWellFormed();
    if n > 0 {
      ReplaceFirstProperties(s, n - 1);
      var before := ReplaceFirst(s, n - 1);
      var r := TABLE[n - 1];
      if AllAscii(s) {
        ReplaceAllAscii(before, r);
      }
      forall k | 0 <= k < n
        ensures !Occurs(ReplaceAll(before, r), TABLE[k].lead, TABLE[k].trail)
      {
        if Occurs(ReplaceAll(before, r), TABLE[k].lead, TABLE[k].trail) {
          ReplaceAllOccurrences(before, r, TABLE[k].lead, TABLE[k].trail);
        }
      }
    }
  }

  /**
   * The transliteration never lengthens a string, returns ASCII text
   * unchanged, and leaves none of the 36 table sequences behind.
   */
  lemma TransliteratedProperties(s: Bytes)
    ensures |Transliterated(s)| <= |s|
    ensures AllAscii(s) ==> Transliterated(s) == s
    ensures forall k | 0 <= k < |TABLE| :: !Occurs(Transliterated(s), TABLE[k].lead, TABLE[k].trail)
  {
    ReplaceFirstProperties(s, |TABLE|);
  }

  lemma {:induction false} ReplaceFirstClean(s: Bytes, n: nat)
    requires n <= |TABLE|
    requires forall k | 0 <= k < |TABLE| :: !Occurs(s, TABLE[k].lead, TABLE[k].trail)
    ensures ReplaceFirst(s, n) == s
  {
    if n > 0 {
      ReplaceFirstClean(s, n - 1);
      ReplaceAllAbsent(s, TABLE[n - 1]);
    }
  }

  /** Transliterating twice is the same as transliterating once. */
  lemma TransliteratedIdempotent(s: Bytes)
    ensures Transliterated(Transliterated(s)) == Transliterated(s)
  {
    TransliteratedProperties(s);
    ReplaceFirstClean(Transliterated(s), |TABLE|);
  }

  /** `replaceUnsupportedChars`: the table applied entry by entry to a copy of the text. */
  method ReplaceUnsupportedChars(text: Bytes) returns (result: Bytes)
    ensures result == Transliterated(text)
    ensures |result| <= |text|
    ensures AllAscii(text) ==> result == text
    ensures forall k | 0 <= k < |TABLE| :: !Occurs(result, TABLE[k].lead, TABLE[k].trail)
  {
    result := text;
    var k := 0;
    while k < |TABLE|
      invariant 0 <= k <= |TABLE|
      invariant result == ReplaceFirst(text, k)
    {
      result := ReplaceAll(result, TABLE[k]);
      k := k + 1;
    }
    TransliteratedProperties(text);
  }
}
