/**
 * The text layout of the display driver: greedy word wrap measured with the
 * font's `textWidth`, ellipsis truncation to one or two lines, and the
 * bounded multi-line print.
 *
 * The font metric comes from TFT_eSPI, which is not part of this model: it is
 * the parameter `width`, any total function from byte strings to pixels.
 * Only where a property needs more (the binary search finding the LONGEST
 * candidate) is an assumption about it stated, as `CandidatesMonotone`.
 */
module TextLayout {
  import opened CInt

  const SPACE: Byte := 32
  const NUL: Byte := 0
  const DOT: Byte := 46
  const ELLIPSIS: Bytes := [DOT, DOT, DOT]

  /** The loops split words at a space, or at a NUL byte. */
  predicate IsSep(b: Byte) { b == SPACE || b == NUL }

  predicate SepFree(s: Bytes) { forall i | 0 <= i < |s| :: !IsSep(s[i]) }

  // ---------------------------------------------------------------------------
  // Words
  // ---------------------------------------------------------------------------

  /** The state of a left-to-right word scan: the words closed so far and the run being read. */
  datatype Scan = Scan(closed: seq<Bytes>, run: Bytes)

  /** Closing a run at a separator keeps it only when it is non-empty. */
  function Close(closed: seq<Bytes>, run: Bytes): seq<Bytes>
  {
    if run == [] then closed else closed + [run]
  }

  /** The scan of `s`, one byte at a time. */
  function ScanOf(s: Bytes): Scan
  {
    if s == [] then Scan([], [])
    else
      var st := ScanOf(s[..|s| - 1]);
      var b := s[|s| - 1];
      if IsSep(b) then Scan(Close(st.closed, st.run), [])
      else Scan(st.closed, st.run + [b])
  }

  /** `scanned` is the scan of the first `i` bytes, whose open run starts at `wordStart`. */
  predicate Scanned(text: Bytes, i: nat, wordStart: nat, scanned: Scan)
  {
    wordStart <= i <= |text| && scanned == ScanOf(text[..i]) && text[wordStart..i] == scanned.run
  }

  /** A separator closes the run being read. */
  lemma ScannedSep(text: Bytes, i: nat, wordStart: nat, scanned: Scan)
    requires Scanned(text, i, wordStart, scanned) && i < |text| && IsSep(text[i])
    ensures Scanned(text, i + 1, i + 1, Scan(Close(scanned.closed, scanned.run), []))
  {
    assert text[..i + 1][..i] == text[..i];
  }

  /** Any other byte extends the run being read. */
  lemma ScannedByte(text: Bytes, i: nat, wordStart: nat, scanned: Scan)
    requires Scanned(text, i, wordStart, scanned) && i < |text| && !IsSep(text[i])
    ensures Scanned(text, i + 1, wordStart, Scan(scanned.closed, scanned.run + [text[i]]))
  {
    assert text[..i + 1][..i] == text[..i];
    assert text[wordStart..i + 1] == text[wordStart..i] + [text[i]];
  }

  /** At the end of the text, the open run is the last word. */
  lemma ScannedEnd(text: Bytes, wordStart: nat, scanned: Scan)
    requires Scanned(text, |text|, wordStart, scanned)
    ensures Words(text) == Close(scanned.closed, scanned.run)
  {
    assert text[..|text|] == text;
  }

  /** The words closed after any prefix of the text are a prefix of all its words. */
  lemma {:induction false} ClosedPrefix(text: Bytes, i: nat)
    requires i <= |text|
    ensures ScanOf(text[..i]).closed <= Words(text)
    decreases |text| - i
  {
    if i == |text| {
      assert text[..i] == text;
    } else {
      ClosedPrefix(text, i + 1);
      assert text[..i + 1][..i] == text[..i];
    }
  }

  /** The non-empty, separator-free runs of `s`, in order. */
  function Words(s: Bytes): seq<Bytes>
  {
    var st := ScanOf(s);
    Close(st.closed, st.run)
  }

  predicate IsWord(w: Bytes) { w != [] && SepFree(w) }

  /** Closed words are non-empty and separator-free, and each one used up at least two bytes:
      its own and its separator's. */
  lemma {:induction false} ScanWords(s: Bytes)
    ensures forall w | w in ScanOf(s).closed :: IsWord(w)
    ensures SepFree(ScanOf(s).run)
    ensures 2 * |ScanOf(s).closed| + |ScanOf(s).run| <= |s|
  {
    if s != [] {
      var init := s[..|s| - 1];
      ScanWords(init);
      var st := ScanOf(init);
      if !IsSep(s[|s| - 1]) {
        assert forall i | 0 <= i < |st.run| :: (st.run + [s[|s| - 1]])[i] == st.run[i];
      } else if st.run != [] {
        assert forall w | w in st.closed + [st.run] :: w in st.closed || w == st.run;
      }
    }
  }

  /** Every word is non-empty and free of separators. */
  lemma WordsAreWords(s: Bytes)
    ensures forall w | w in Words(s) :: IsWord(w)
  {
    ScanWords(s);
    var st := ScanOf(s);
    assert forall w | w in Close(st.closed, st.run) :: w in st.closed || w == st.run;
  }

  /** A text of n bytes holds at most (n + 1) / 2 words. */
  lemma WordCount(s: Bytes)
    ensures |Words(s)| <= (|s| + 1) / 2
  {
    ScanWords(s);
  }

  // ---------------------------------------------------------------------------
  // Greedy line counting (`countTextLines`)
  // ---------------------------------------------------------------------------

  /** The running state of the greedy wrap: lines started so far and the width of the current one. */
  datatype Wrap = Wrap(lines: int, current: int)

  /** One word placed by the greedy wrap: it joins the current line, or opens a new line
      when it would overflow a line that already holds something. */
  function Place(st: Wrap, word: Bytes, maxWidth: int, width: Bytes -> nat): Wrap
  {
    var wordWidth := width(word);
    var total := if st.current > 0 then st.current + width([SPACE]) + wordWidth else wordWidth;
    if total > maxWidth && st.current > 0 then Wrap(st.lines + 1, wordWidth)
    else Wrap(st.lines, total)
  }

  /** The greedy wrap of a word list, starting from one empty line. */
  function Greedy(ws: seq<Bytes>, maxWidth: int, width: Bytes -> nat): Wrap
  {
    if ws == [] then Wrap(1, 0)
    else Place(Greedy(ws[..|ws| - 1], maxWidth, width), ws[|ws| - 1], maxWidth, width)
  }

  lemma GreedyAppend(ws: seq<Bytes>, w: Bytes, maxWidth: int, width: Bytes -> nat)
    ensures Greedy(ws + [w], maxWidth, width) == Place(Greedy(ws, maxWidth, width), w, maxWidth, width)
  {
    assert (ws + [w])[..|ws|] == ws;
  }

  /** Closing a run places it as one more word, unless it is empty. */
  lemma GreedyClose(closed: seq<Bytes>, run: Bytes, maxWidth: int, width: Bytes -> nat)
    ensures Greedy(Close(closed, run), maxWidth, width) ==
      if run == [] then Greedy(closed, maxWidth, width)
      else Place(Greedy(closed, maxWidth, width), run, maxWidth, width)
  {
    if run != [] {
      GreedyAppend(closed, run, maxWidth, width);
    }
  }

  /** What `countTextLines` returns: 1 when the whole text fits, else the greedy count. */
  function CountLines(text: Bytes, maxWidth: int, width: Bytes -> nat): int
  {
    if width(text) <= maxWidth then 1 else Greedy(Words(text), maxWidth, width).lines
  }

  /**
   * A new line is opened only when the current one is non-empty, so the
   * greedy wrap never uses more lines than there are words, and always at
   * least one.
   */
  lemma {:induction false} GreedyBounds(ws: seq<Bytes>, maxWidth: int, width: Bytes -> nat)
    ensures 1 <= Greedy(ws, maxWidth, width).lines
    ensures Greedy(ws, maxWidth, width).lines <= if ws == [] then 1 else |ws|
    ensures Greedy(ws, maxWidth, width).current >= 0
    ensures ws == [] ==> Greedy(ws, maxWidth, width).current == 0
  {
    if ws != [] {
      GreedyBounds(ws[..|ws| - 1], maxWidth, width);
    }
  }

  lemma CountLinesBounds(text: Bytes, maxWidth: int, width: Bytes -> nat)
    ensures width(text) <= maxWidth ==> CountLines(text, maxWidth, width) == 1
    ensures 1 <= CountLines(text, maxWidth, width)
    ensures CountLines(text, maxWidth, width) <= if Words(text) == [] then 1 else |Words(text)|
  {
    GreedyBounds(Words(text), maxWidth, width);
  }

  /** `countTextLines`: a byte scan that measures each word as its separator (or the end) is reached. */
  method CountTextLines(text: Bytes, maxWidth: int, width: Bytes -> nat) returns (lines: int)
    ensures lines == CountLines(text, maxWidth, width)
  {
    if width(text) <= maxWidth {
      return 1;
    }
    lines := 1;
    var currentLineWidth := 0;
    var wordStart := 0;
    var spaceWidth := width([SPACE]);
    ghost var scanned := Scan([], []);
    ghost var wrap := Greedy([], maxWidth, width);
    for i := 0 to |text| + 1
      invariant i <= |text| ==> Scanned(text, i, wordStart, scanned) && wrap == Greedy(scanned.closed, maxWidth, width)
      invariant i == |text| + 1 ==> wrap == Greedy(Words(text), maxWidth, width)
      invariant wrap == Wrap(lines, currentLineWidth)
    {
      if i == |text| || IsSep(text[i]) {
        GreedyClose(scanned.closed, scanned.run, maxWidth, width);
        if i > wordStart {
          var word := text[wordStart..i];
          wrap := Place(wrap, word, maxWidth, width);
          var wordWidth := width(word);
          var totalWidth := currentLineWidth;
          if currentLineWidth > 0 {
            totalWidth := totalWidth + spaceWidth + wordWidth;
          } else {
            totalWidth := wordWidth;
          }
          if totalWidth > maxWidth && currentLineWidth > 0 {
            lines := lines + 1;
            currentLineWidth := wordWidth;
          } else {
            currentLineWidth := totalWidth;
          }
        }
        if i < |text| {
          ScannedSep(text, i, wordStart, scanned);
        } else {
          ScannedEnd(text, wordStart, scanned);
        }
        scanned := Scan(Close(scanned.closed, scanned.run), []);
        wordStart := i + 1;
      } else {
        ScannedByte(text, i, wordStart, scanned);
        scanned := Scan(scanned.closed, scanned.run + [text[i]]);
      }
    }
  }

  // ---------------------------------------------------------------------------
  // Ellipsis truncation (`truncateToOneLine`, `truncateToTwoLines`)
  // ---------------------------------------------------------------------------

  /** The string tried for a cut at `m`: the first `m` bytes followed by "...". */
  function Candidate(text: Bytes, m: int): (c: Bytes)
    requires 0 <= m <= |text|
    ensures |c| == m + 3 && c[..m] == text[..m] && c[m..] == ELLIPSIS
  {
    text[..m] + ELLIPSIS
  }

  /** Accepting a candidate also accepts every shorter one; the search is only maximal under this. */
  ghost predicate CandidatesMonotone(text: Bytes, accept: Bytes -> bool)
  {
    forall m, m' | 0 <= m <= m' <= |text| :: accept(Candidate(text, m')) ==> accept(Candidate(text, m))
  }

  /** The font metric adds up: the width of a concatenation is the sum of the widths. */
  ghost predicate Additive(width: Bytes -> nat)
  {
    forall a: Bytes, b: Bytes {:trigger width(a + b)} :: width(a + b) == width(a) + width(b)
  }

  /** With an additive metric, a shorter candidate is never wider, so "fits in one line" is monotone. */
  lemma OneLineMonotone(text: Bytes, maxWidth: int, width: Bytes -> nat)
    requires Additive(width)
    ensures CandidatesMonotone(text, (t: Bytes) => width(t) <= maxWidth)
  {
    forall m, m' | 0 <= m <= m' <= |text|
      ensures width(Candidate(text, m)) <= width(Candidate(text, m'))
    {
      assert Candidate(text, m') == text[..m] + (text[m..m'] + ELLIPSIS);
      assert width(Candidate(text, m')) == width(text[..m]) + width(text[m..m'] + ELLIPSIS);
      assert width(text[m..m'] + ELLIPSIS) == width(text[m..m']) + width(ELLIPSIS);
    }
  }

  /**
   * The binary search shared by both truncations: the longest cut whose
   * candidate is accepted, found over `left`/`right` bounds. `best` stays
   * "..." when no candidate is accepted.
   */
  method SearchCut(text: Bytes, accept: Bytes -> bool) returns (best: Bytes, ghost cut: int)
    ensures -1 <= cut <= |text|
    ensures best == if cut < 0 then ELLIPSIS else Candidate(text, cut)
    ensures cut >= 0 ==> accept(best)
    ensures CandidatesMonotone(text, accept) ==>
      forall m | cut < m <= |text| :: !accept(Candidate(text, m))
  {
    var left := 0;
    var right := |text|;
    best := ELLIPSIS;
    cut := -1;
    while left <= right
      invariant 0 <= left <= right + 1 <= |text| + 1
      invariant cut == left - 1
      invariant best == if cut < 0 then ELLIPSIS else Candidate(text, cut)
      invariant cut >= 0 ==> accept(best)
      invariant CandidatesMonotone(text, accept) ==>
        forall m | right < m <= |text| :: !accept(Candidate(text, m))
      decreases right - left
    {
      var mid := (left + right) / 2;
      var testStr := text[..mid] + ELLIPSIS;
      if accept(testStr) {
        best := testStr;
        cut := mid;
        left := mid + 1;
      } else {
        if CandidatesMonotone(text, accept) {
          forall m | mid <= m <= |text|
            ensures !accept(Candidate(text, m))
          {
            assert Candidate(text, mid) == testStr;
          }
        }
        right := mid - 1;
      }
    }
  }

  /**
   * The cut pulled back to a word boundary: to the last space at or before
   * `pos`, but only when that space lies strictly past 70% of `pos`.
   */
  function WordBoundaryCut(text: Bytes, pos: int): (r: int)
    requires 0 <= pos <= |text|
    ensures 0 <= r <= pos
    ensures r == pos || (text[r] == SPACE && 10 * r > 7 * pos)
    ensures pos > 0 && 0 <= LastIndexOf(text, SPACE, pos) && 10 * LastIndexOf(text, SPACE, pos) > 7 * pos ==>
      r == LastIndexOf(text, SPACE, pos)
    ensures !(pos > 0 && 0 <= LastIndexOf(text, SPACE, pos) && 10 * LastIndexOf(text, SPACE, pos) > 7 * pos) ==>
      r == pos
    ensures pos == |text| ==> r == pos
  {
    if pos > 0 then
      var lastSpace := LastIndexOf(text, SPACE, pos);
      if 10 * lastSpace > 7 * pos then lastSpace else pos
    else pos
  }

  /**
   * The part both truncations share once the text is known not to fit: the
   * search, then the pull-back of the cut to a word boundary.
   */
  method TruncateWith(text: Bytes, accept: Bytes -> bool) returns (result: Bytes, ghost cut: int)
    ensures -1 <= cut <= |text|
    ensures cut < 0 ==> result == ELLIPSIS
    ensures cut >= 0 ==> accept(Candidate(text, cut)) && result == Candidate(text, WordBoundaryCut(text, cut))
    ensures CandidatesMonotone(text, accept) ==>
      (forall m | cut < m <= |text| :: !accept(Candidate(text, m))) && (cut >= 0 ==> accept(result))
  {
    var best;
    best, cut := SearchCut(text, accept);
    var truncatePos := |best| - |ELLIPSIS|;
    assert truncatePos == if cut < 0 then 0 else cut;
    if truncatePos > 0 {
      var lastSpace := LastIndexOf(text, SPACE, truncatePos);
      if 10 * lastSpace > 7 * truncatePos {
        best := text[..lastSpace] + ELLIPSIS;
      }
    }
    result := best;
  }

  /** `truncateToOneLine`: the text itself when it fits, else the longest fitting cut plus "...". */
  method TruncateToOneLine(text: Bytes, maxWidth: int, width: Bytes -> nat) returns (result: Bytes, ghost cut: int)
    ensures width(text) <= maxWidth ==> result == text
    ensures width(text) > maxWidth ==> -1 <= cut <= |text|
    ensures width(text) > maxWidth && cut < 0 ==> result == ELLIPSIS
    ensures width(text) > maxWidth && cut >= 0 ==>
      width(Candidate(text, cut)) <= maxWidth && result == Candidate(text, WordBoundaryCut(text, cut))
    ensures width(text) > maxWidth && Additive(width) ==>
      (forall m | cut < m <= |text| :: width(Candidate(text, m)) > maxWidth) &&
      (cut >= 0 ==> width(result) <= maxWidth)
  {
    if width(text) <= maxWidth {
      return text, |text|;
    }
    if Additive(width) {
      OneLineMonotone(text, maxWidth, width);
    }
    result, cut := TruncateWith(text, (t: Bytes) => width(t) <= maxWidth);
  }

  /** `maxWidth * 0.90` stored in an `int`: the product truncated toward zero. */
  function SafeMaxWidth(maxWidth: int): (w: int)
    ensures maxWidth >= 0 ==> 0 <= w <= maxWidth
  {
    TruncDiv(9 * maxWidth, 10)
  }

  /** `truncateToTwoLines`: the text itself when it fits one line, else the longest cut plus "..."
      that wraps into at most two lines at 90% of the width. */
  method TruncateToTwoLines(text: Bytes, maxWidth: int, width: Bytes -> nat) returns (result: Bytes, ghost cut: int)
    ensures width(text) <= maxWidth ==> result == text
    ensures width(text) > maxWidth ==> -1 <= cut <= |text|
    ensures width(text) > maxWidth && cut < 0 ==> result == ELLIPSIS
    ensures width(text) > maxWidth && cut >= 0 ==>
      CountLines(Candidate(text, cut), SafeMaxWidth(maxWidth), width) <= 2 &&
      result == Candidate(text, WordBoundaryCut(text, cut))
    ensures width(text) > maxWidth && cut == |text| ==> result == text + ELLIPSIS
    ensures (width(text) > maxWidth &&
             CandidatesMonotone(text, (t: Bytes) => CountLines(t, SafeMaxWidth(maxWidth), width) <= 2)) ==>
      (forall m | cut < m <= |text| :: CountLines(Candidate(text, m), SafeMaxWidth(maxWidth), width) > 2) &&
      (cut >= 0 ==> CountLines(result, SafeMaxWidth(maxWidth), width) <= 2)
  {
    if width(text) <= maxWidth {
      return text, |text|;
    }
    var safeMaxWidth := SafeMaxWidth(maxWidth);
    result, cut := TruncateWith(text, (t: Bytes) => CountLines(t, safeMaxWidth, width) <= 2);
  }

  /** The width of a text in a monospaced font: one pixel per byte. */
  function ByteCount(t: Bytes): nat
  {
    |t|
  }

  /** The scan of a text with one more byte is one more scan step. */
  lemma ScanSnoc(s: Bytes, b: Byte)
    ensures ScanOf(s + [b]) ==
      if IsSep(b) then Scan(Close(ScanOf(s).closed, ScanOf(s).run), []) else Scan(ScanOf(s).closed, ScanOf(s).run + [b])
  {
    assert (s + [b])[..|s|] == s;
  }

  /** Every cut of "a b" plus "..." wraps into at most two lines of one pixel. */
  lemma ShortTitleCandidatesFit()
    ensures forall m | 0 <= m <= 3 :: CountLines(Candidate([97, SPACE, 98], m), 1, ByteCount) <= 2
  {
    var text: Bytes := [97, SPACE, 98];
    forall m | 0 <= m <= 3
      ensures CountLines(Candidate(text, m), 1, ByteCount) <= 2
    {
      var c := Candidate(text, m);
      CountLinesBounds(c, 1, ByteCount);
      // the scan of the cut, then of its three dots
      var p := text[..m];
      var closed := if m >= 2 then [[97]] else [];
      assert ScanOf(p).closed == closed by {
        assert ScanOf([]) == Scan([], []);
        ScanSnoc([], 97);
        assert [] + [97] == [97];
        ScanSnoc([97], SPACE);
        assert [97] + [SPACE] == [97, SPACE];
        ScanSnoc([97, SPACE], 98);
        assert [97, SPACE] + [98] == [97, SPACE, 98];
        assert p == if m == 0 then [] else if m == 1 then [97] else if m == 2 then [97, SPACE] else [97, SPACE, 98];
      }
      ScanSnoc(p, DOT);
      ScanSnoc(p + [DOT], DOT);
      ScanSnoc(p + [DOT] + [DOT], DOT);
      assert c == p + [DOT] + [DOT] + [DOT];
      assert Words(c) == Close(closed, ScanOf(c).run);
    }
  }

  /**
   * A title too wide for one line whose every cut fits two lines keeps all
   * of its text and still gets "..." appended: the search accepts the cut
   * at the very end, where `lastIndexOf` finds no space. With a
   * one-pixel-per-byte font and a width of 2, "a b" becomes "a b...".
   */
  method TwoLinesAppendsEllipsis() returns (result: Bytes)
    ensures result == [97, SPACE, 98] + ELLIPSIS
  {
    var text: Bytes := [97, SPACE, 98];
    ShortTitleCandidatesFit();
    assert SafeMaxWidth(2) == 1;
    ghost var accept := (t: Bytes) => CountLines(t, SafeMaxWidth(2), ByteCount) <= 2;
    assert forall m | 0 <= m <= |text| :: accept(Candidate(text, m));
    assert CandidatesMonotone(text, accept);
    ghost var cut;
    result, cut := TruncateToTwoLines(text, 2, ByteCount);
    assert ByteCount(text) > 2;
    assert cut == |text| by {
      assert accept(Candidate(text, |text|));
    }
  }

  // ---------------------------------------------------------------------------
  // Bounded multi-line print (`printTextWithBounds`)
  // ---------------------------------------------------------------------------

  /** One `tft.print` of a line with the cursor at (x, y). */
  datatype Draw = Draw(x: int, y: int, line: Bytes)

  /** Where the text goes: the cursor column, the first row, the width and the floor. */
  datatype Box = Box(x: int, y: int, maxWidth: int, maxY: int, fontHeight: nat)

  /** Words joined by single spaces, as the print loop builds `currentLine`. */
  function Join(ws: seq<Bytes>): Bytes
  {
    if ws == [] then []
    else if |ws| == 1 then ws[0]
    else Join(ws[..|ws| - 1]) + [SPACE] + ws[|ws| - 1]
  }

  /** The words of all lines, in order. */
  function Flatten(lines: seq<seq<Bytes>>): seq<Bytes>
  {
    if lines == [] then [] else Flatten(lines[..|lines| - 1]) + lines[|lines| - 1]
  }

  lemma JoinAppend(ws: seq<Bytes>, w: Bytes)
    ensures Join(ws + [w]) == if ws == [] then w else Join(ws) + [SPACE] + w
  {
    if ws != [] {
      assert (ws + [w])[..|ws|] == ws;
    }
  }

  lemma FlattenAppend(lines: seq<seq<Bytes>>, line: seq<Bytes>)
    ensures Flatten(lines + [line]) == Flatten(lines) + line
  {
    assert (lines + [line])[..|lines|] == lines;
  }

  /**
   * The state of the print loop between words: the draws made, the words of
   * each drawn line, the words and bytes of `currentLine`, `currentY`, and
   * whether the loop has returned early.
   */
  datatype Printer = Printer(draws: seq<Draw>, lines: seq<seq<Bytes>>, open: seq<Bytes>, line: Bytes,
                             row: int, stopped: bool)

  /**
   * One word reached by the print loop: it joins `currentLine` unless the
   * joined line is too wide and `currentLine` is non-empty; then
   * `currentLine` is printed, the row advances, and the loop returns when a
   * line on the new row would cross `maxY`.
   */
  function PrintWord(p: Printer, word: Bytes, box: Box, width: Bytes -> nat): Printer
  {
    if p.stopped then p
    else
      var testLine := (if |p.line| > 0 then p.line + [SPACE] else p.line) + word;
      if width(testLine) > box.maxWidth && |p.line| > 0 then
        var row := p.row + box.fontHeight;
        var flushed := p.(draws := p.draws + [Draw(box.x, p.row, p.line)], lines := p.lines + [p.open], row := row);
        if row + box.fontHeight > box.maxY then flushed.(stopped := true)
        else flushed.(open := [word], line := word)
      else p.(open := p.open + [word], line := testLine)
  }

  /** The print loop over a list of words. */
  function PrintWords(ws: seq<Bytes>, box: Box, width: Bytes -> nat): Printer
  {
    if ws == [] then Printer([], [], [], [], box.y, false)
    else PrintWord(PrintWords(ws[..|ws| - 1], box, width), ws[|ws| - 1], box, width)
  }

  /** After the loop: the last line is printed if there is one and it stays above `maxY`. */
  function FinishPrint(p: Printer, box: Box): Printer
  {
    if !p.stopped && |p.line| > 0 && p.row + box.fontHeight <= box.maxY then
      p.(draws := p.draws + [Draw(box.x, p.row, p.line)], lines := p.lines + [p.open])
    else p
  }

  /** What `printTextWithBounds` draws for `text`. */
  function PrintText(text: Bytes, box: Box, width: Bytes -> nat): Printer
  {
    FinishPrint(PrintWords(Words(text), box, width), box)
  }

  lemma PrintWordsAppend(ws: seq<Bytes>, w: Bytes, box: Box, width: Bytes -> nat)
    ensures PrintWords(ws + [w], box, width) == PrintWord(PrintWords(ws, box, width), w, box, width)
  {
    assert (ws + [w])[..|ws|] == ws;
  }

  /** Once the loop has returned, later words change nothing. */
  lemma {:induction false} PrintWordsStopped(ws: seq<Bytes>, more: seq<Bytes>, box: Box, width: Bytes -> nat)
    requires PrintWords(ws, box, width).stopped
    ensures PrintWords(ws + more, box, width) == PrintWords(ws, box, width)
    decreases |more|
  {
    if more == [] {
      assert ws + more == ws;
    } else {
      var init := more[..|more| - 1];
      PrintWordsStopped(ws, init, box, width);
      assert ws + more == (ws + init) + [more[|more| - 1]];
      PrintWordsAppend(ws + init, more[|more| - 1], box, width);
    }
  }

  /** The draws so far: line j of `lines` at column x, the first on row y and each
      following one `fontHeight` pixels below the one before. */
  ghost predicate Drawn(draws: seq<Draw>, lines: seq<seq<Bytes>>, x: int, y: int, fontHeight: nat)
  {
    |draws| == |lines| &&
    (forall j | 0 <= j < |draws| :: draws[j].x == x && draws[j].line == Join(lines[j])) &&
    (draws != [] ==> draws[0].y == y) &&
    (forall j | 0 < j < |draws| :: draws[j].y == draws[j - 1].y + fontHeight)
  }

  /** The row the next line would be printed on. */
  function NextRow(draws: seq<Draw>, y: int, fontHeight: nat): int
  {
    if draws == [] then y else draws[|draws| - 1].y + fontHeight
  }

  /** The rows are evenly spaced: line j sits at y + j * fontHeight. */
  lemma {:induction false} DrawnRows(draws: seq<Draw>, lines: seq<seq<Bytes>>, x: int, y: int, fontHeight: nat)
    requires Drawn(draws, lines, x, y, fontHeight)
    ensures forall j | 0 <= j < |draws| :: draws[j].y == y + j * fontHeight
    ensures NextRow(draws, y, fontHeight) == y + |draws| * fontHeight
  {
    if draws != [] {
      var n := |draws| - 1;
      DrawnRows(draws[..n], lines[..n], x, y, fontHeight);
      assert n == 0 || draws[n].y == draws[n - 1].y + fontHeight;
    }
  }

  /** Drawing a line at the next row extends the drawn lines. */
  lemma DrawnAppend(draws: seq<Draw>, lines: seq<seq<Bytes>>, open: seq<Bytes>, x: int, y: int, fontHeight: nat)
    requires Drawn(draws, lines, x, y, fontHeight)
    ensures Drawn(draws + [Draw(x, NextRow(draws, y, fontHeight), Join(open))], lines + [open], x, y, fontHeight)
  {
  }

  /**
   * The greedy wrap of the printed lines: none is empty, a line of two or
   * more words fits, and each line was closed because the next word did not
   * fit after it.
   */
  ghost predicate Wrapped(lines: seq<seq<Bytes>>, maxWidth: int, width: Bytes -> nat)
  {
    (forall j | 0 <= j < |lines| :: lines[j] != [] && (|lines[j]| >= 2 ==> width(Join(lines[j])) <= maxWidth)) &&
    (forall j | 0 <= j < |lines| - 1 :: width(Join(lines[j]) + [SPACE] + lines[j + 1][0]) > maxWidth)
  }

  /** The line still being filled after `lines`: it fits if it has two or more words, and
      it began with the word that did not fit after the last closed line. */
  ghost predicate OpenLine(lines: seq<seq<Bytes>>, open: seq<Bytes>, maxWidth: int, width: Bytes -> nat)
  {
    (|open| >= 2 ==> width(Join(open)) <= maxWidth) &&
    (lines != [] ==> open != [] && width(Join(lines[|lines| - 1]) + [SPACE] + open[0]) > maxWidth)
  }

  /** A word that fits joins the open line. */
  lemma OpenLineJoin(lines: seq<seq<Bytes>>, open: seq<Bytes>, word: Bytes, maxWidth: int, width: Bytes -> nat)
    requires OpenLine(lines, open, maxWidth, width)
    requires open == [] || width(Join(open) + [SPACE] + word) <= maxWidth
    ensures OpenLine(lines, open + [word], maxWidth, width)
  {
    JoinAppend(open, word);
    if open != [] {
      assert (open + [word])[0] == open[0];
    }
  }

  /** Closing a non-empty open line keeps the printed lines wrapped. */
  lemma WrappedClose(lines: seq<seq<Bytes>>, open: seq<Bytes>, maxWidth: int, width: Bytes -> nat)
    requires Wrapped(lines, maxWidth, width) && OpenLine(lines, open, maxWidth, width) && open != []
    ensures Wrapped(lines + [open], maxWidth, width)
  {
    var after := lines + [open];
    assert forall j | 0 <= j < |lines| :: after[j] == lines[j];
  }

  /** `currentLine` is its words joined by spaces, and empty only when it has no words. */
  ghost predicate Joined(p: Printer)
  {
    p.line == Join(p.open) && (p.line == [] <==> p.open == [])
  }

  /** The rows: evenly spaced draws, every one after the first above `maxY`, and the loop
      returned exactly when the next row would cross `maxY`. */
  ghost predicate Laid(p: Printer, box: Box)
  {
    Drawn(p.draws, p.lines, box.x, box.y, box.fontHeight) &&
    p.row == NextRow(p.draws, box.y, box.fontHeight) &&
    (forall j | 1 <= j < |p.draws| :: p.draws[j].y + box.fontHeight <= box.maxY) &&
    (p.draws != [] && !p.stopped ==> p.row + box.fontHeight <= box.maxY) &&
    (p.stopped ==> p.row + box.fontHeight > box.maxY)
  }

  /** The greedy wrap of the drawn lines and of the line being filled. */
  ghost predicate WrapKept(p: Printer, box: Box, width: Bytes -> nat)
  {
    Wrapped(p.lines, box.maxWidth, width) && (!p.stopped ==> OpenLine(p.lines, p.open, box.maxWidth, width))
  }

  /** The words placed so far: all of `ws` until the loop returns, a prefix after. */
  ghost predicate Covers(p: Printer, ws: seq<Bytes>)
  {
    (!p.stopped ==> Flatten(p.lines) + p.open == ws) && (p.stopped ==> Flatten(p.lines) <= ws)
  }

  lemma JoinedStep(p: Printer, word: Bytes, box: Box, width: Bytes -> nat)
    requires Joined(p) && word != []
    ensures Joined(PrintWord(p, word, box, width))
  {
    JoinAppend(p.open, word);
  }

  lemma LaidStep(p: Printer, word: Bytes, box: Box, width: Bytes -> nat)
    requires Laid(p, box) && Joined(p)
    ensures Laid(PrintWord(p, word, box, width), box)
  {
    var q := PrintWord(p, word, box, width);
    var fh := box.fontHeight;
    if q.draws != p.draws {
      assert q.draws == p.draws + [Draw(box.x, p.row, p.line)] && q.lines == p.lines + [p.open];
      assert q.row == p.row + fh && q.stopped == (q.row + fh > box.maxY);
      DrawnAppend(p.draws, p.lines, p.open, box.x, box.y, fh);
      assert forall j | 1 <= j < |q.draws| :: q.draws[j].y + fh <= box.maxY by {
        assert p.draws != [] ==> p.row + fh <= box.maxY;
      }
    }
  }

  lemma WrapKeptStep(p: Printer, word: Bytes, box: Box, width: Bytes -> nat)
    requires WrapKept(p, box, width) && Joined(p) && word != []
    ensures WrapKept(PrintWord(p, word, box, width), box, width)
  {
    var q := PrintWord(p, word, box, width);
    if !p.stopped {
      JoinAppend(p.open, word);
      if q.lines != p.lines {
        assert q.lines == p.lines + [p.open];
        assert width(Join(p.open) + [SPACE] + word) > box.maxWidth;
        WrappedClose(p.lines, p.open, box.maxWidth, width);
      } else {
        assert q.open == p.open + [word];
        OpenLineJoin(p.lines, p.open, word, box.maxWidth, width);
      }
    }
  }

  lemma CoversStep(p: Printer, ws: seq<Bytes>, word: Bytes, box: Box, width: Bytes -> nat)
    requires Covers(p, ws)
    ensures Covers(PrintWord(p, word, box, width), ws + [word])
  {
    var q := PrintWord(p, word, box, width);
    if !p.stopped {
      FlattenAppend(p.lines, p.open);
    }
  }

  lemma {:induction false} JoinedAll(ws: seq<Bytes>, box: Box, width: Bytes -> nat)
    requires forall k | 0 <= k < |ws| :: ws[k] != []
    ensures Joined(PrintWords(ws, box, width))
  {
    if ws != [] {
      JoinedAll(ws[..|ws| - 1], box, width);
      JoinedStep(PrintWords(ws[..|ws| - 1], box, width), ws[|ws| - 1], box, width);
    }
  }

  lemma {:induction false} LaidAll(ws: seq<Bytes>, box: Box, width: Bytes -> nat)
    requires forall k | 0 <= k < |ws| :: ws[k] != []
    ensures Laid(PrintWords(ws, box, width), box)
  {
    if ws != [] {
      LaidAll(ws[..|ws| - 1], box, width);
      JoinedAll(ws[..|ws| - 1], box, width);
      LaidStep(PrintWords(ws[..|ws| - 1], box, width), ws[|ws| - 1], box, width);
    }
  }

  lemma {:induction false} WrapKeptAll(ws: seq<Bytes>, box: Box, width: Bytes -> nat)
    requires forall k | 0 <= k < |ws| :: ws[k] != []
    ensures WrapKept(PrintWords(ws, box, width), box, width)
  {
    if ws != [] {
      WrapKeptAll(ws[..|ws| - 1], box, width);
      JoinedAll(ws[..|ws| - 1], box, width);
      WrapKeptStep(PrintWords(ws[..|ws| - 1], box, width), ws[|ws| - 1], box, width);
    }
  }

  lemma {:induction false} CoversAll(ws: seq<Bytes>, box: Box, width: Bytes -> nat)
    ensures Covers(PrintWords(ws, box, width), ws)
  {
    if ws != [] {
      var init := ws[..|ws| - 1];
      CoversAll(init, box, width);
      CoversStep(PrintWords(init, box, width), init, ws[|ws| - 1], box, width);
      assert init + [ws[|ws| - 1]] == ws;
    }
  }

  /** The guarantees of the bounded print for a final state `r` and the words `ws`. */
  ghost predicate PrintedWell(r: Printer, ws: seq<Bytes>, box: Box, width: Bytes -> nat)
  {
    Drawn(r.draws, r.lines, box.x, box.y, box.fontHeight) &&
    (forall j | 1 <= j < |r.draws| :: r.draws[j].y + box.fontHeight <= box.maxY) &&
    Wrapped(r.lines, box.maxWidth, width) &&
    Flatten(r.lines) <= ws &&
    (Flatten(r.lines) == ws || NextRow(r.draws, box.y, box.fontHeight) + box.fontHeight > box.maxY)
  }

  /** Printing the last line after the loop keeps the guarantees. */
  lemma FinishPrintLast(p: Printer, ws: seq<Bytes>, box: Box, width: Bytes -> nat)
    requires Joined(p) && Laid(p, box) && WrapKept(p, box, width) && Covers(p, ws)
    requires !p.stopped && |p.line| > 0 && p.row + box.fontHeight <= box.maxY
    ensures PrintedWell(FinishPrint(p, box), ws, box, width)
  {
    var r := FinishPrint(p, box);
    var fh := box.fontHeight;
    assert r.draws == p.draws + [Draw(box.x, p.row, p.line)] && r.lines == p.lines + [p.open];
    WrappedClose(p.lines, p.open, box.maxWidth, width);
    DrawnAppend(p.draws, p.lines, p.open, box.x, box.y, fh);
    FlattenAppend(p.lines, p.open);
    assert forall j | 1 <= j < |r.draws| :: r.draws[j].y + fh <= box.maxY by {
      assert forall j | 1 <= j < |p.draws| :: p.draws[j].y + fh <= box.maxY;
    }
  }

  /** The state after the loop, and after printing the last line, keeps the loop's guarantees. */
  lemma FinishPrintProperties(p: Printer, ws: seq<Bytes>, box: Box, width: Bytes -> nat)
    requires Joined(p) && Laid(p, box) && WrapKept(p, box, width) && Covers(p, ws)
    ensures PrintedWell(FinishPrint(p, box), ws, box, width)
  {
    if !p.stopped && |p.line| > 0 && p.row + box.fontHeight <= box.maxY {
      FinishPrintLast(p, ws, box, width);
    } else {
      assert FinishPrint(p, box) == p;
      if !p.stopped && p.line == [] {
        assert Flatten(p.lines) + [] == Flatten(p.lines);
      }
    }
  }

  /**
   * What the bounded print guarantees: lines are drawn at x on evenly spaced
   * rows starting at y; every line after the first lies above `maxY`; a line
   * of two or more words fits the width and each line was broken because
   * the next word did not fit; the drawn words are a prefix of the text's
   * words, and all of them unless the next row would cross `maxY`.
   */
  lemma PrintTextProperties(text: Bytes, box: Box, width: Bytes -> nat)
    ensures var r := PrintText(text, box, width);
      Drawn(r.draws, r.lines, box.x, box.y, box.fontHeight) &&
      (forall j | 0 <= j < |r.draws| :: r.draws[j].y == box.y + j * box.fontHeight) &&
      (forall j | 1 <= j < |r.draws| :: r.draws[j].y + box.fontHeight <= box.maxY) &&
      Wrapped(r.lines, box.maxWidth, width) &&
      Flatten(r.lines) <= Words(text) &&
      (Flatten(r.lines) == Words(text) || box.y + |r.draws| * box.fontHeight + box.fontHeight > box.maxY)
  {
    var ws := Words(text);
    WordsAreWords(text);
    assert forall k | 0 <= k < |ws| :: ws[k] != [] by {
      assert forall k | 0 <= k < |ws| :: ws[k] in ws;
    }
    JoinedAll(ws, box, width);
    LaidAll(ws, box, width);
    WrapKeptAll(ws, box, width);
    CoversAll(ws, box, width);
    var p := PrintWords(ws, box, width);
    FinishPrintProperties(p, ws, box, width);
    var r := PrintText(text, box, width);
    DrawnRows(r.draws, r.lines, box.x, box.y, box.fontHeight);
  }

  /**
   * `printTextWithBounds`: the byte scan of `countTextLines`, printing each
   * line when the next word overflows it and returning as soon as a line on
   * the next row would cross `maxY`. Returns the draws in order, with the
   * words of each drawn line.
   */
  method PrintTextWithBounds(x: int, y: int, text: Bytes, maxWidth: int, maxY: int, fontHeight: nat,
                             width: Bytes -> nat)
    returns (draws: seq<Draw>, ghost lineWords: seq<seq<Bytes>>)
    ensures draws == PrintText(text, Box(x, y, maxWidth, maxY, fontHeight), width).draws
    ensures lineWords == PrintText(text, Box(x, y, maxWidth, maxY, fontHeight), width).lines
  {
    ghost var box := Box(x, y, maxWidth, maxY, fontHeight);
    var currentY := y;
    var wordStart := 0;
    var currentLine: Bytes := [];
    draws := [];
    lineWords := [];
    ghost var lineOpen: seq<Bytes> := [];
    ghost var scanned := Scan([], []);
    ghost var state := PrintWords([], box, width);
    for i := 0 to |text| + 1
      invariant i <= |text| ==> Scanned(text, i, wordStart, scanned) && state == PrintWords(scanned.closed, box, width)
      invariant i == |text| + 1 ==> state == PrintWords(Words(text), box, width)
      invariant state == Printer(draws, lineWords, lineOpen, currentLine, currentY, false)
    {
      if i == |text| || IsSep(text[i]) {
        if i > wordStart {
          var word := text[wordStart..i];
          PrintWordsAppend(scanned.closed, word, box, width);
          ghost var before := state;
          state := PrintWord(state, word, box, width);
          var testLine := currentLine;
          if |testLine| > 0 {
            testLine := testLine + [SPACE];
          }
          testLine := testLine + word;
          assert testLine == (if |before.line| > 0 then before.line + [SPACE] else before.line) + word;
          var testWidth := width(testLine);
          if testWidth > maxWidth && |currentLine| > 0 {
            draws := draws + [Draw(x, currentY, currentLine)];
            lineWords := lineWords + [lineOpen];
            currentY := currentY + fontHeight;
            if currentY + fontHeight > maxY {
              PrintStopped(text, i, wordStart, scanned, box, width);
              return;
            }
            currentLine := word;
            lineOpen := [word];
          } else {
            currentLine := testLine;
            lineOpen := lineOpen + [word];
          }
        }
        if i < |text| {
          ScannedSep(text, i, wordStart, scanned);
        } else {
          ScannedEnd(text, wordStart, scanned);
        }
        scanned := Scan(Close(scanned.closed, scanned.run), []);
        wordStart := i + 1;
      } else {
        ScannedByte(text, i, wordStart, scanned);
        scanned := Scan(scanned.closed, scanned.run + [text[i]]);
      }
    }
    if |currentLine| > 0 && currentY + fontHeight <= maxY {
      draws := draws + [Draw(x, currentY, currentLine)];
      lineWords := lineWords + [lineOpen];
    }
  }

  /** An early return at a word that closes a run: the rest of the text prints nothing more. */
  lemma PrintStopped(text: Bytes, i: nat, wordStart: nat, scanned: Scan, box: Box, width: Bytes -> nat)
    requires Scanned(text, i, wordStart, scanned) && (i == |text| || IsSep(text[i])) && wordStart < i
    requires PrintWords(scanned.closed + [scanned.run], box, width).stopped
    ensures PrintText(text, box, width) == PrintWords(scanned.closed + [scanned.run], box, width)
  {
    var ws := scanned.closed + [scanned.run];
    if i < |text| {
      ScannedSep(text, i, wordStart, scanned);
      ClosedPrefix(text, i + 1);
    } else {
      ScannedEnd(text, wordStart, scanned);
    }
    var words := Words(text);
    assert words == ws + words[|ws|..];
    PrintWordsStopped(ws, words[|ws|..], box, width);
  }
}
