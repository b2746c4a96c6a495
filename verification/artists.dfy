/**
 * The artist line of the now-playing screen: every artist name, with its
 * unsupported letters transliterated, joined by ", " and, before the last
 * name, by " & ".
 */
module Artists {
  import opened CInt
  import opened Transliterate

  const COMMA: Bytes := [44, 32]
  const AMPERSAND: Bytes := [32, 38, 32]

  /** What the loop appends before artist `i` of `n`: nothing before the first, " & " before the last. */
  function Separator(i: nat, n: nat): Bytes
  {
    if i == 0 then [] else if i == n - 1 then AMPERSAND else COMMA
  }

  /** The string after the loop has appended the first `k` artists. */
  function JoinedPrefix(names: seq<Bytes>, k: nat): Bytes
    requires k <= |names|
  {
    if k == 0 then []
    else JoinedPrefix(names, k - 1) + Separator(k - 1, |names|) + Transliterated(names[k - 1])
  }

  /** What the artist-join loop builds. */
  function ArtistsText(names: seq<Bytes>): Bytes
  {
    JoinedPrefix(names, |names|)
  }

  /** Every name transliterated. */
  function TransliteratedAll(names: seq<Bytes>): (ts: seq<Bytes>)
    ensures |ts| == |names|
    ensures forall k | 0 <= k < |names| :: ts[k] == Transliterated(names[k])
  {
    if names == [] then [] else TransliteratedAll(names[..|names| - 1]) + [Transliterated(names[|names| - 1])]
  }

  /** An independent reading of a list: the items separated by ", ". */
  function CommaList(items: seq<Bytes>): Bytes
  {
    if items == [] then []
    else if |items| == 1 then items[0]
    else CommaList(items[..|items| - 1]) + COMMA + items[|items| - 1]
  }

  /** Before the last artist is reached, the loop has built the comma-separated list. */
  lemma {:induction false} JoinedPrefixCommas(names: seq<Bytes>, k: nat)
    requires k < |names|
    ensures JoinedPrefix(names, k) == CommaList(TransliteratedAll(names[..k]))
  {
    if k > 0 {
      JoinedPrefixCommas(names, k - 1);
      var ts := TransliteratedAll(names[..k]);
      assert names[..k][..k - 1] == names[..k - 1];
      assert TransliteratedAll(names[..k - 1]) == ts[..k - 1];
    }
  }

  /**
   * The artist line reads "A", "A & B", "A, B & C", ...: the names but the
   * last separated by ", ", then " & " and the last name.
   */
  lemma ArtistsTextShape(names: seq<Bytes>)
    ensures names == [] ==> ArtistsText(names) == []
    ensures |names| == 1 ==> ArtistsText(names) == Transliterated(names[0])
    ensures |names| >= 2 ==>
      ArtistsText(names) ==
        CommaList(TransliteratedAll(names[..|names| - 1])) + AMPERSAND + Transliterated(names[|names| - 1])
  {
    if |names| >= 1 {
      JoinedPrefixCommas(names, |names| - 1);
    }
  }

  /** The artist-join loop of `printCurrentlyPlayingToScreen`. */
  method JoinArtists(names: seq<Bytes>) returns (allArtists: Bytes)
    ensures allArtists == ArtistsText(names)
    ensures |names| >= 2 ==>
      allArtists == CommaList(TransliteratedAll(names[..|names| - 1])) + AMPERSAND + Transliterated(names[|names| - 1])
  {
    allArtists := [];
    var i := 0;
    while i < |names|
      invariant 0 <= i <= |names|
      invariant allArtists == JoinedPrefix(names, i)
    {
      if i > 0 {
        if i == |names| - 1 {
          allArtists := allArtists + AMPERSAND;
        } else {
          allArtists := allArtists + COMMA;
        }
      }
      var name := ReplaceUnsupportedChars(names[i]);
      allArtists := allArtists + name;
      i := i + 1;
    }
    ArtistsTextShape(names);
  }
}
