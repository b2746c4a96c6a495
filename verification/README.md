# SpotifyDiyThing firmware core, modelled in Dafny

SpotifyDiyThing is ESP32 firmware for a "Cheap Yellow Display" board that
shows what Spotify is playing: the track name, the artists, the album art and
a progress bar. A rotary encoder sets the volume. Its push button toggles
playback on a single click and saves the track to the user's liked songs on a
double click.

This project models four parts of that firmware and proves properties about
them.

- **Text layout** (`transliterate.dfy`, `textlayout.dfy`, `artists.dfy`).
  - The transliteration table for letters the fonts lack.
  - Greedy word wrap with line counting.
  - The binary-search truncation to one or two lines, with its pull-back to a word boundary.
  - The bounded multi-line print.
  - The artist list of the now-playing screen.
- **Display driver** (`timelabel.dfy`, `progressbar.dfy`, `backlight.dfy`, `cheapyellow.dfy`, `spotifydisplay.dfy`).
  - The `MM:SS` labels.
  - The progress bar renderer, whose function statics become fields of the display class.
  - Backlight fades and the clamp.
  - Album-image bookkeeping.
  - The base class's dimension and URL state.
  - Every TFT_eSPI call is appended to a ghost log of drawing calls, and every `ledcWrite` to a ghost log of backlight duties.
- **Rotary encoder** (`rotaryencoder.dfy`).
  - The quadrature and button interrupt routines, each one atomic step taking the time and the pin levels.
  - The accelerated volume handler.
  - The click handler.
  - The track-id helper.
  - Requests to the Spotify Web API are recorded in a ghost list instead of being sent.
- **Polling loop** (`spotifylogic.dfy`).
  - Track-change detection.
  - The progress extrapolation between polls.
  - The pause gate shared with the encoder.
  - The five-second poll with its fade-out, redraw and fade-in.

`cint.dfy` writes out the C and Arduino primitives the firmware relies on:
- division that truncates toward zero;
- the wrapping 32-bit `millis()` clock;
- `String::lastIndexOf`.

`spotifyapi.dfy` holds the record the Spotify client library hands over.

Some things the real firmware gets from outside are parameters of the model:
- the clock (`now`);
- the HTTP status of a poll and its parsed payload;
- the result of the image download;
- whether a play/pause request succeeded;
- the font metric (`width`, and `fontHeight`).

The font metric is any total function on byte strings. Only the maximality of the truncation search needs more than that. It is stated as a hypothesis: `CandidatesMonotone`, which follows from `Additive`.

Where the firmware's documentation and its code disagree, the model follows the code:
- **Percentage.** The bar's percentage is truncated but never clamped (`ProgressBar.FillWidthNotClamped`).
- **Volume steps.** One encoder click at rest changes the volume by half a step. The cast to `int` drops that half, so the click is banked rather than applied (`Rotary.SingleClickBanked`).
- **Two-line titles.** A title too wide for one line whose every candidate still wraps into two lines is not shortened: the whole text comes back with "..." appended (`TextLayout.TwoLinesAppendsEllipsis`).
- **Failed image download.** The poll clears `albumArtChanged` on any non-zero `displayImage` result, the error codes -1 and -2 included. No image is then on screen and `albumDisplayed` stays false, so the next poll's `processImageInfo` flags the art again.

## Model

| member | source | states |
|---|---|---|
| CInt.TruncDiv | SpotifyDiyThing/cheapYellowLCD.h:186 | for a divisor b > 0 the quotient q satisfies q*b <= a < q*b + b when a >= 0 and q*b - b < a <= q*b when a < 0: C's truncation toward zero, with the sign of q following a |
| CInt.Elapsed | SpotifyDiyThing/rotaryEncoder.h:102 | `now - since` on `unsigned long`: a value in 0..2^32-1 which, added to `since` modulo 2^32, gives `now` back (the time elapsed on the wrapping clock) |
| CInt.AddU32 | SpotifyDiyThing/spotifyLogic.h:302 | `millis() + delay` on `unsigned long`: the sum modulo 2^32 |
| CInt.ElapsedAfterDelay | SpotifyDiyThing/spotifyLogic.h:302 | the time elapsed from `since` to `since + k` (wrapping) is k, for any k below 2^32 |
| CInt.LastIndexOf | SpotifyDiyThing/cheapYellowLCD.h:629 | the result is -1 or an index at or before `from` holding the byte, with no later occurrence up to `from`; a start past the end finds nothing |
| Transliterate.ReplaceUnsupportedChars | SpotifyDiyThing/cheapYellowLCD.h:448-497 | the result is the 36 replacements applied in order: it is never longer than the text, ASCII text comes back unchanged, and none of the 36 two-byte sequences is left |
| Transliterate.TableWellFormed | SpotifyDiyThing/cheapYellowLCD.h:455-494 | every table entry turns a two-byte non-ASCII sequence into one ASCII byte |
| Transliterate.ReplaceAllAscii | SpotifyDiyThing/cheapYellowLCD.h:455-494 | one `String::replace` leaves ASCII text unchanged |
| Transliterate.ReplaceAllAbsent | SpotifyDiyThing/cheapYellowLCD.h:455-494 | a replacement whose pattern does not occur changes nothing |
| Transliterate.ReplaceAll | SpotifyDiyThing/cheapYellowLCD.h:455-494 | one `String::replace` of a two-byte pattern by one byte never lengthens the text |
| Transliterate.ReplaceFirstClean | SpotifyDiyThing/cheapYellowLCD.h:455-494 | text holding none of the 36 patterns passes through any prefix of the table unchanged |
| Transliterate.ReplaceAllOccurrences | SpotifyDiyThing/cheapYellowLCD.h:455-494 | every non-ASCII pair in the output of one replacement was in its input, and the replaced pattern no longer occurs |
| Transliterate.ReplaceFirstProperties | SpotifyDiyThing/cheapYellowLCD.h:455-494 | after the first n entries: not longer, ASCII unchanged, none of those n patterns left |
| Transliterate.TransliteratedProperties | SpotifyDiyThing/cheapYellowLCD.h:448-497 | the whole table: not longer, ASCII unchanged, none of the 36 patterns left |
| Transliterate.TransliteratedIdempotent | SpotifyDiyThing/cheapYellowLCD.h:448-497 | transliterating twice gives the same text as once |
| Artists.TransliteratedAll | SpotifyDiyThing/cheapYellowLCD.h:835 | each artist name is transliterated, position by position |
| Artists.JoinedPrefixCommas | SpotifyDiyThing/cheapYellowLCD.h:820-836 | until the last artist is reached, the loop has built the names joined by ", " |
| Artists.ArtistsTextShape | SpotifyDiyThing/cheapYellowLCD.h:820-836 | the artist line is empty, the one name, or the names but the last joined by ", " followed by " & " and the last name |
| Artists.JoinArtists | SpotifyDiyThing/cheapYellowLCD.h:820-836 | the loop builds exactly that artist line |
| TimeLabel.NatDigits | SpotifyDiyThing/cheapYellowLCD.h:236-240 | `String(int)` of a natural number is at least one byte, every byte a decimal digit |
| TimeLabel.PaddedTwoDigits | SpotifyDiyThing/cheapYellowLCD.h:239-240 | a value below 100 is written as its two decimal digits |
| TimeLabel.MinutesOfSeconds | SpotifyDiyThing/cheapYellowLCD.h:230-232 | whole minutes of whole seconds are `ms / 60000` |
| TimeLabel.FormatTimeShape | SpotifyDiyThing/cheapYellowLCD.h:228-242 | below 100 minutes the label is five bytes `MM:SS`, with minutes `ms/60000` and seconds `(ms/1000)%60`, each zero-padded |
| TimeLabel.LabelRoundTrip | SpotifyDiyThing/cheapYellowLCD.h:228-242 | reading a label back gives the whole seconds it was made from |
| TimeLabel.SameLabelSameSecond | SpotifyDiyThing/cheapYellowLCD.h:228-242 | two times get the same label exactly when they fall in the same second |
| TimeLabel.FormatTimeNegative | SpotifyDiyThing/cheapYellowLCD.h:228-242 | a negative time is not guarded: -61 s gives "0-1:0-1" |
| TimeLabel.FormatTimeLong | SpotifyDiyThing/cheapYellowLCD.h:228-242 | 100 minutes gives the six-byte label "100:00" |
| TextLayout.ScannedSep | SpotifyDiyThing/cheapYellowLCD.h:550-568 | a separator closes the word being read |
| TextLayout.ScannedByte | SpotifyDiyThing/cheapYellowLCD.h:550-568 | any other byte extends the word being read |
| TextLayout.ScannedEnd | SpotifyDiyThing/cheapYellowLCD.h:550-568 | at the terminator the scan has produced the text's words |
| TextLayout.ClosedPrefix | SpotifyDiyThing/cheapYellowLCD.h:550-568 | the words closed after any prefix are a prefix of all the words |
| TextLayout.ScanWords | SpotifyDiyThing/cheapYellowLCD.h:550-568 | closed words are non-empty and separator-free, each using up at least two bytes |
| TextLayout.WordsAreWords | SpotifyDiyThing/cheapYellowLCD.h:550-568 | every word is non-empty and free of spaces and NULs |
| TextLayout.WordCount | SpotifyDiyThing/cheapYellowLCD.h:550-568 | a text of n bytes has at most (n + 1) / 2 words |
| TextLayout.GreedyAppend | SpotifyDiyThing/cheapYellowLCD.h:555-566 | wrapping one more word is one more greedy placement |
| TextLayout.GreedyClose | SpotifyDiyThing/cheapYellowLCD.h:555-566 | closing a run places it, unless it is empty |
| TextLayout.GreedyBounds | SpotifyDiyThing/cheapYellowLCD.h:555-566 | a new line opens only after a non-empty one: at least one line, at most one per word |
| TextLayout.CountLinesBounds | SpotifyDiyThing/cheapYellowLCD.h:532-584 | 1 when the whole text fits; otherwise between 1 and max(1, number of words) |
| TextLayout.CountTextLines | SpotifyDiyThing/cheapYellowLCD.h:532-584 | the byte loop returns the greedy line count of the text's words |
| TextLayout.Candidate | SpotifyDiyThing/cheapYellowLCD.h:611 | the candidate is the first m bytes followed by "..." |
| TextLayout.OneLineMonotone | SpotifyDiyThing/cheapYellowLCD.h:608-623 | with an additive metric, "the candidate fits one line" holds for every cut below an accepted one |
| TextLayout.SearchCut | SpotifyDiyThing/cheapYellowLCD.h:604-623 | the search returns "..." or an accepted candidate; under monotone acceptance no longer candidate is accepted and, with no cut found, not even the empty one |
| TextLayout.WordBoundaryCut | SpotifyDiyThing/cheapYellowLCD.h:626-634 | the cut moves back to the last space at or before it exactly when that space lies strictly past 70% of the cut, and stays otherwise |
| TextLayout.TruncateWith | SpotifyDiyThing/cheapYellowLCD.h:598-636 | the search and then the pull-back: "..." when nothing is accepted, else the pulled-back candidate of the longest accepted cut |
| TextLayout.TruncateToOneLine | SpotifyDiyThing/cheapYellowLCD.h:587-637 | the text itself when it fits; otherwise "..." or a prefix plus "..." whose search candidate fits, the longest such under an additive metric |
| TextLayout.SafeMaxWidth | SpotifyDiyThing/cheapYellowLCD.h:654 | 90% of a non-negative width, truncated, lies between 0 and the width |
| TextLayout.TruncateToTwoLines | SpotifyDiyThing/cheapYellowLCD.h:640-691 | the text itself when it fits one line; otherwise "..." or a prefix plus "..." whose candidate wraps into at most two lines at 90% of the width, the longest such under monotone acceptance; a text too wide for one line whose cut is its full length gives the text plus "..." |
| TextLayout.ShortTitleCandidatesFit | SpotifyDiyThing/cheapYellowLCD.h:662-677 | with one pixel per byte, every candidate of "a b" wraps into at most two lines of width 1 |
| TextLayout.TwoLinesAppendsEllipsis | SpotifyDiyThing/cheapYellowLCD.h:640-691 | "a b" at width 2 (one pixel per byte) is too wide for one line, yet comes back whole with "..." appended |
| TextLayout.JoinAppend | SpotifyDiyThing/cheapYellowLCD.h:733-744 | adding a word to a line adds a space and the word, except to an empty line |
| TextLayout.FlattenAppend | SpotifyDiyThing/cheapYellowLCD.h:712-759 | the words of the drawn lines grow by the words of each new line |
| TextLayout.PrintWordsAppend | SpotifyDiyThing/cheapYellowLCD.h:712-745 | the print loop over one more word is one more loop step |
| TextLayout.PrintWordsStopped | SpotifyDiyThing/cheapYellowLCD.h:726-730 | after the early return, later words change nothing |
| TextLayout.DrawnRows | SpotifyDiyThing/cheapYellowLCD.h:722-730 | drawn line j sits at y + j * fontHeight |
| TextLayout.DrawnAppend | SpotifyDiyThing/cheapYellowLCD.h:722-730 | printing the current line on the next row extends the drawn lines |
| TextLayout.OpenLineJoin | SpotifyDiyThing/cheapYellowLCD.h:733-744 | a word that fits joins the line being filled |
| TextLayout.WrappedClose | SpotifyDiyThing/cheapYellowLCD.h:718-730 | flushing a non-empty line keeps the drawn lines greedily wrapped |
| TextLayout.JoinedStep | SpotifyDiyThing/cheapYellowLCD.h:718-744 | one loop step keeps `currentLine` equal to its words joined by spaces |
| TextLayout.LaidStep | SpotifyDiyThing/cheapYellowLCD.h:718-744 | one loop step keeps rows evenly spaced, every line after the first ending by maxY, and the loop stopped exactly when the next row would cross maxY |
| TextLayout.WrapKeptStep | SpotifyDiyThing/cheapYellowLCD.h:718-744 | one loop step keeps every line of two or more words within the width, each line broken because the next word did not fit |
| TextLayout.CoversStep | SpotifyDiyThing/cheapYellowLCD.h:718-744 | one loop step keeps the placed words equal to the words seen, until the early return |
| TextLayout.JoinedAll | SpotifyDiyThing/cheapYellowLCD.h:712-745 | the whole loop keeps `currentLine` joined |
| TextLayout.LaidAll | SpotifyDiyThing/cheapYellowLCD.h:712-745 | the whole loop keeps the row layout |
| TextLayout.WrapKeptAll | SpotifyDiyThing/cheapYellowLCD.h:712-745 | the whole loop keeps the greedy wrap |
| TextLayout.CoversAll | SpotifyDiyThing/cheapYellowLCD.h:712-745 | the whole loop places a prefix of the words, all of them unless it returned early |
| TextLayout.FinishPrintLast | SpotifyDiyThing/cheapYellowLCD.h:748-758 | printing the last line after the loop keeps every guarantee |
| TextLayout.FinishPrintProperties | SpotifyDiyThing/cheapYellowLCD.h:745-758 | the state after the loop and the final print keeps every guarantee |
| TextLayout.PrintTextProperties | SpotifyDiyThing/cheapYellowLCD.h:694-759 | lines at x on rows y, y+fontHeight, ...; every line after the first, the last included, ends by maxY; lines of two or more words fit; the drawn words are a prefix of the text's words, all of them unless the next row would cross maxY |
| TextLayout.PrintTextWithBounds | SpotifyDiyThing/cheapYellowLCD.h:694-759 | the byte loop draws exactly the lines of that specification, in order |
| TextLayout.PrintStopped | SpotifyDiyThing/cheapYellowLCD.h:726-730 | an early return at a word ends the print with the words seen so far |
| ProgressBar.FillWidthBounds | SpotifyDiyThing/cheapYellowLCD.h:279-288 | 0% fills nothing, 100% fills the track (the 8-pixel floor when the track is narrower than that), any visible fill is at least 8 pixels, and 0..100% stays inside the track |
| ProgressBar.FillWidthMonotone | SpotifyDiyThing/cheapYellowLCD.h:282-288 | a larger percentage never gives a narrower fill |
| ProgressBar.FillWidthNotClamped | SpotifyDiyThing/cheapYellowLCD.h:268-282 | 150% on a 320-pixel screen gives a fill of 402, wider than the 268-pixel track |
| ProgressBar.PercentageBounds | SpotifyDiyThing/cheapYellowLCD.h:267-268 | progress within a positive duration gives a percentage in 0..100 |
| ProgressBar.GradientLinesInside | SpotifyDiyThing/cheapYellowLCD.h:337-369 | every gradient line lies in the track rows, within columns [barPadding+1, barPadding+1+fill) |
| ProgressBar.FillOpsShape | SpotifyDiyThing/cheapYellowLCD.h:322-380 | a fill update draws lines inside the new fill and, exactly when it shrank, one clear of the uncovered columns; a zero fill draws no line |
| ProgressBar.TrackDrawnOnlyWhenNeeded | SpotifyDiyThing/cheapYellowLCD.h:300-319 | the two rounded rectangles of the track are drawn first, and only when it was never drawn or a reset was pending; nothing else draws one |
| ProgressBar.ShrinkClearsExactly | SpotifyDiyThing/cheapYellowLCD.h:325-330 | a shrink clears exactly columns [1+barPadding+new, 1+barPadding+old) of the track rows, and nothing else paints the track colour |
| ProgressBar.LinesInsideFill | SpotifyDiyThing/cheapYellowLCD.h:333-377 | every horizontal line of a refresh lies inside the new fill |
| ProgressBar.TextOnlyWhenChanged | SpotifyDiyThing/cheapYellowLCD.h:383-431 | a refresh prints some text exactly when either formatted time differs from its cache |
| ProgressBar.LabelsOnlyWhenChanged | SpotifyDiyThing/cheapYellowLCD.h:383-431 | labels are printed exactly when either formatted time differs from its cache; a pending reset does not clear the cache, so with a reset pending text is printed exactly as without |
| ProgressBar.RefreshSettles | SpotifyDiyThing/cheapYellowLCD.h:296-432 | after a refresh the track is drawn, no reset is pending, the fill and labels are cached, and repeating the refresh draws nothing |
| Backlight.ClampBrightness | SpotifyDiyThing/cheapYellowLCD.h:208 | the duty lies in 0..255, equals an in-range input, and is 0 below and 255 above |
| Backlight.FadeLevels | SpotifyDiyThing/cheapYellowLCD.h:184-189 | the n duties of steps 0..n-1 |
| Backlight.FadeStepsCases | SpotifyDiyThing/cheapYellowLCD.h:174-182 | 50 steps from 50 ms on, one per millisecond below, a negative count for a negative duration, and a delay of at least 1 ms |
| Backlight.ScaledDistance | SpotifyDiyThing/cheapYellowLCD.h:186 | the step i of a non-negative distance lies between 0 and the distance, reaching both ends |
| Backlight.FadeLevelBetween | SpotifyDiyThing/cheapYellowLCD.h:184-189 | every duty lies between from and to; step 0 is from and the last step is to |
| Backlight.FadeLevelMonotone | SpotifyDiyThing/cheapYellowLCD.h:184-189 | the duties move toward the target without turning back |
| Backlight.FadeProperties | SpotifyDiyThing/cheapYellowLCD.h:172-191 | a positive duration writes at least two duties from `from` to `to`, all between them; a negative one writes nothing |
| CheapYellow.CheapYellowDisplay.constructor | SpotifyDiyThing/cheapYellowLCD.h:128-137 | brightness 153, bar never drawn, 150x150 corner image, empty logs |
| CheapYellow.CheapYellowDisplay.FadeBacklight | SpotifyDiyThing/cheapYellowLCD.h:172-191 | appends exactly the fade's duties to the backlight log; a positive duration ends at the target, a negative one changes nothing |
| CheapYellow.CheapYellowDisplay.FadeBacklightOut | SpotifyDiyThing/cheapYellowLCD.h:194-198 | a fade from the current brightness to the target |
| CheapYellow.CheapYellowDisplay.FadeBacklightIn | SpotifyDiyThing/cheapYellowLCD.h:200-203 | a fade from the current brightness to the target |
| CheapYellow.CheapYellowDisplay.SetBacklightBrightness | SpotifyDiyThing/cheapYellowLCD.h:206-212 | one write of the clamped duty, which becomes the current brightness |
| CheapYellow.CheapYellowDisplay.ResetProgressBar | SpotifyDiyThing/cheapYellowLCD.h:214-219 | only the reset flag is raised; nothing is drawn |
| CheapYellow.CheapYellowDisplay.DisplayTrackProgress | SpotifyDiyThing/cheapYellowLCD.h:265-432 | the bar state and the drawing calls are exactly those of one `Render` from the previous state |
| CheapYellow.CheapYellowDisplay.UpdateFill | SpotifyDiyThing/cheapYellowLCD.h:321-380 | the fill calls from the previous width to the new one, which is cached |
| CheapYellow.CheapYellowDisplay.DrawGradient | SpotifyDiyThing/cheapYellowLCD.h:337-369 | one gradient line per track row, indented at the rounded ends |
| CheapYellow.CheapYellowDisplay.UpdateTimeLabels | SpotifyDiyThing/cheapYellowLCD.h:383-431 | the labels are cleared and printed when either changed, and cached |
| CheapYellow.CheapYellowDisplay.ClearImage | SpotifyDiyThing/cheapYellowLCD.h:875-882 | one black rectangle over the art and the gap to the text |
| CheapYellow.CheapYellowDisplay.ProcessImageInfo | SpotifyDiyThing/cheapYellowLCD.h:884-901 | true exactly when no album is displayed or the second-to-last image's URL differs from the stored one; then half its size is recorded in both places and the album is marked not displayed, otherwise the sizes stay; afterwards that URL is the stored one |
| CheapYellow.CheapYellowDisplay.DisplayImage | SpotifyDiyThing/cheapYellowLCD.h:903-915 | returns the download result and marks the album displayed only on success (1) |
| DisplayBase.SpotifyDisplay.constructor | SpotifyDiyThing/spotifyDisplay.h:64-70 | dimensions zero, empty URL, album not displayed |
| DisplayBase.SpotifyDisplay.SetAlbumArtUrl | SpotifyDiyThing/spotifyDisplay.h:33-43 | afterwards the stored URL is the argument and `isSameAlbum` holds for it and for nothing else |
| DisplayBase.SpotifyDisplay.SetWidth | SpotifyDiyThing/spotifyDisplay.h:45-48 | the width is set and the centre is half of it, truncated |
| DisplayBase.SpotifyDisplay.SetHeight | SpotifyDiyThing/spotifyDisplay.h:50-52 | only the height changes |
| DisplayBase.SpotifyDisplay.SetImageHeight | SpotifyDiyThing/spotifyDisplay.h:54-56 | only the image height changes |
| DisplayBase.SpotifyDisplay.SetImageWidth | SpotifyDiyThing/spotifyDisplay.h:58-60 | only the image width changes |
| SpotifyApi.PollGate.constructor | SpotifyDiyThing/spotifyLogic.h:31 | polling starts unpaused |
| Rotary.QuadratureState | SpotifyDiyThing/rotaryEncoder.h:103-104 | the 2-bit state of two pin levels lies in 0..3 |
| Rotary.QuadratureStepProperties | SpotifyDiyThing/rotaryEncoder.h:107-127 | a transition moves by at most one, the reverse transition undoes it, and diagonal jumps and non-transitions do not move |
| Rotary.EncoderEdgeProperties | SpotifyDiyThing/rotaryEncoder.h:98-136 | within 2 ms, or showing the recorded state, nothing changes; otherwise the position moves by the transition's step and the state, levels, time and flag are recorded |
| Rotary.FullCycles | SpotifyDiyThing/rotaryEncoder.h:98-136 | a full clockwise cycle adds 4 and a counter-clockwise one subtracts 4, both ending in state 00 |
| Rotary.ButtonEdgeProperties | SpotifyDiyThing/rotaryEncoder.h:64-95 | the click count stays in {0,1,2}; bounced or redundant edges change nothing; a press only arms the button; a release gives 1, 2 within 400 ms of the first click, else a new 1 |
| Rotary.DoubleClick | SpotifyDiyThing/rotaryEncoder.h:64-95 | press, release, press, release with the second release within 400 ms of the first is a double click |
| Rotary.MultiplierTenths | SpotifyDiyThing/rotaryEncoder.h:196-205 | the acceleration multiplier lies in [1.0, 3.0] |
| Rotary.TurnProperties | SpotifyDiyThing/rotaryEncoder.h:173-248 | volume stays in [0,100]; a low clamp zeroes position and count, a high clamp sets the position to 2*(100-previous) and zeroes the count; the window restarts after 200 ms and otherwise accumulates; without a clamp the last position advances only when the volume changes |
| Rotary.SingleClickBanked | SpotifyDiyThing/rotaryEncoder.h:207-224 | one clockwise click at rest truncates away and stays banked |
| Rotary.ClockwiseClickLowersVolume | SpotifyDiyThing/rotaryEncoder.h:211-226 | as written: after a clamp at 100, one clockwise click lowers the volume to 99 |
| Rotary.TargetNotBelow | SpotifyDiyThing/rotaryEncoder.h:208-209 | clockwise clicks never lower the target volume |
| Rotary.TargetBelow | SpotifyDiyThing/rotaryEncoder.h:208-209 | counter-clockwise clicks lower the target from a positive volume |
| Rotary.FixedLeavesNoNegativeBank | SpotifyDiyThing/rotaryEncoder.h:211-226 | with the clamp re-basing the last position, no negative clicks stay banked unless the volume is 0 |
| Rotary.ClockwiseNeverLowers | SpotifyDiyThing/rotaryEncoder.h:173-248 | with that fix, clockwise clicks after any handler run never lower the volume |
| Rotary.ClockwiseClickJumpsFromZero | SpotifyDiyThing/rotaryEncoder.h:211-226 | as written, the mirror case: a clamp at 0 zeroes `encoderPos` but leaves `lastEncoderPos` at -4, so one later clockwise click reads as +5 clicks and the volume jumps from 0 to 3 |
| Rotary.FixedClampLeavesNoBank | SpotifyDiyThing/rotaryEncoder.h:211-226 | with the fix, a clamp at either end leaves no clicks banked |
| Rotary.ExtractTrackIdProperties | SpotifyDiyThing/rotaryEncoder.h:451-458 | the id holds no ':' and the URI is its text up to the last ':' followed by the id; no ':' gives "" |
| Rotary.ExtractTrackIdExample | SpotifyDiyThing/rotaryEncoder.h:451-458 | "s:t:AB" gives "AB" |
| Rotary.RotaryEncoder.constructor | SpotifyDiyThing/rotaryEncoder.h:16-48 | the globals' initial values: all zero, volume 50, no track |
| Rotary.RotaryEncoder.EncoderISR | SpotifyDiyThing/rotaryEncoder.h:98-136 | the encoder globals become one `EncoderEdge` step of their old values |
| Rotary.RotaryEncoder.ButtonISR | SpotifyDiyThing/rotaryEncoder.h:64-95 | the button globals become one `ButtonEdge` step of their old values |
| Rotary.RotaryEncoder.HandleEncoderVolumeChange | SpotifyDiyThing/rotaryEncoder.h:173-248 | a pending move becomes one `VolumeTurn` step, the handler as written; a changed volume is sent once with polling paused around it; otherwise nothing is sent |
| Rotary.RotaryEncoder.HandleEncoderButtonPress | SpotifyDiyThing/rotaryEncoder.h:461-579 | a double click is consumed and saves the current track when it has an id; a single click waits for the 400 ms window, then toggles playback (the state flips only on success) or is dropped within 400 ms of the last action |
| Rotary.RotaryEncoder.UpdateCurrentTrackUri | SpotifyDiyThing/rotaryEncoder.h:582-590 | a non-null URI is stored and its liked flag reset; null changes nothing |
| Rotary.RotaryEncoder.UpdatePlayingState | SpotifyDiyThing/rotaryEncoder.h:593-595 | the playing flag becomes the argument |
| SpotifyLogic.EstimatedProgress | SpotifyDiyThing/spotifyLogic.h:221-226 | the estimate never exceeds the duration and is the elapsed time or the duration |
| SpotifyLogic.EstimatedProgressAdvances | SpotifyDiyThing/spotifyLogic.h:206-226 | a song started from a reported position is shown at that position plus the time since, held at the duration, with a percentage in 0..100 |
| SpotifyLogic.SpotifyLogic.constructor | SpotifyDiyThing/spotifyLogic.h:12-31 | no track, nothing stale, every request due, polling shared with the encoder |
| SpotifyLogic.SpotifyLogic.SetTrackUri | SpotifyDiyThing/spotifyLogic.h:47-56 | afterwards `isSameTrack` holds for the stored URI and for nothing else |
| SpotifyLogic.SpotifyLogic.SetTrackContextUri | SpotifyDiyThing/spotifyLogic.h:58-68 | a null context is stored as "", any other copied verbatim |
| SpotifyLogic.SpotifyLogic.HandleCurrentlyPlaying | SpotifyDiyThing/spotifyLogic.h:176-215 | no track changes nothing; a different track is stored and marks the text stale; the art flag is `processImageInfo`'s answer; the bar is refreshed; the start time is now - progress while playing, else 0 |
| SpotifyLogic.SpotifyLogic.RecordTrack | SpotifyDiyThing/spotifyLogic.h:178-195 | the track bookkeeping of a payload with a track |
| SpotifyLogic.SpotifyLogic.ShowPlayback | SpotifyDiyThing/spotifyLogic.h:197-213 | the art flag is `processImageInfo`'s answer, the bar is one refresh at the reported progress, and the start time is now - progress while playing, else 0 |
| SpotifyLogic.SpotifyLogic.UpdateProgressBar | SpotifyDiyThing/spotifyLogic.h:217-229 | with a song running and the half-second up, one refresh at the estimated progress and the next due in 500 ms; otherwise nothing. "Up" is the source's own test `now > due` (`DueAt`) |
| SpotifyLogic.SpotifyLogic.RedrawScreen | SpotifyDiyThing/spotifyLogic.h:252-286 | a stale or forced redraw fades to 0 and back to 153, resets the bar, prints stale text and redraws stale art; otherwise nothing |
| SpotifyLogic.SpotifyLogic.RedrawText | SpotifyDiyThing/spotifyLogic.h:264-268 | stale or forced text is printed and no longer stale |
| SpotifyLogic.SpotifyLogic.RedrawArt | SpotifyDiyThing/spotifyLogic.h:271-284 | stale or forced art is cleared and drawn; any non-zero image result clears the flag |
| SpotifyLogic.SpotifyLogic.PollSucceeded | SpotifyDiyThing/spotifyLogic.h:250-287 | after status 200 the text is never stale, the art only when its image returned 0, a redraw fades out and in and resets the bar, and a named track's bar is drawn at the reported position |
| SpotifyLogic.SpotifyLogic.UpdateCurrentlyPlaying | SpotifyDiyThing/spotifyLogic.h:231-304 | unless forced, a paused or not yet due poll changes nothing; a poll that runs schedules the next one 5 s on; 204 stops the bar; other errors change nothing else; 200 is a successful poll. "Due" is the source's own test `now > due` (`DueAt`) |
| SpotifyLogic.DueTimeAtWrap | SpotifyDiyThing/spotifyLogic.h:239-302 | as written: a poll at 2^32 - 1 - interval sets the due time 2^32 - 1, which no clock value exceeds; a poll at 2^32 - interval sets due time 0, exceeded at once |
| SpotifyLogic.DueSinceFires | SpotifyDiyThing/spotifyLogic.h:239-302 | comparing elapsed time instead, a request made at `last` is not due for the next `interval` ms and is due one ms later, wherever the clock wraps |

## Left out

- Font metrics: TFT_eSPI's `textWidth` and `fontHeight` are parameters. The model does not draw glyphs or select fonts.
- Delays and PWM timing: `delay` between fade steps, and `ledcSetup`/`ledcAttachPin`. Only the duties written are modelled.
- Floating point:
  - the colour gradient (`interpolateColor`) is a row tag;
  - `boostSaturation` and `applyRoundedCorners` are not part of this model;
  - the percentage and the volume change are computed exactly in integers. Rounding of a float product that lands exactly on an integer is not modelled.
- Rotary.VolumeTarget: computes `volume + clickDelta * 0.5 * multiplier` exactly in tenths, rather than in single-precision float.
- TextLayout.SafeMaxWidth: `maxWidth * 0.90` is exact, rather than rounded in double precision.
- TextLayout.WordBoundaryCut: the 70% comparison is exact.
- Image download and decoding (`displayImageUsingFile`, JPEG callbacks, SPIFFS): their outcome is the `imageStatus` parameter.
- Network, HTTP and OAuth (`getCurrentlyPlaying`, `setVolume`, play/pause, `saveTrackToLiked`, token refresh): the status, the parsed payload and the play/pause outcome are parameters. Requests are recorded in a ghost list.
- Rotary.RotaryEncoder.HandleEncoderButtonPress: the result of the `saveTrackToLiked` request is not modelled. The source only logs it.
- The unlike path of the double click (`removeTrackFromLiked`) is not modelled: it is disabled by `ENABLE_UNLIKE_FEATURE`. The model follows the add-only branch.
- Interrupt concurrency: `volatile` reads, the `noInterrupts()` section, and the main loop's write to `encoderPos` racing an interrupt. Each interrupt routine is one atomic step.
- `printCurrentlyPlayingToScreen`: only its artist join is modelled (`Artists.JoinArtists`). The poll records in a ghost list the payloads it would be printed with.
- `fadeBacklight` with a zero duration divides by zero in C. The model requires a non-zero duration.
- URIs and URLs are copied with `strcpy` into 200-byte buffers. The model requires that they fit (an overflow is undefined behaviour) and compares them as whole byte strings, as `strcmp` does for text without NUL bytes.
- `processImageInfo` indexes `albumImages[numImages - 2]`. The model requires at least two images.
- `handleCurrentlyPlaying` divides by the duration. The model requires a non-zero duration for a payload with a track.
- `songStartMillis` and `songDuration` are `long` in the source. They are unbounded integers here, so the wrap of `millis() - progressMs` after about 24.8 days is not modelled. A song that started exactly at millisecond 0 counts as "not running", as in the source.
- Each handler reads the clock once (`now`). The source calls `millis()` again when it schedules the next poll or refresh.
- Setup and configuration screens: `displaySetup`, `spotifySetup`'s client setup, `setupRotaryEncoder`, `showDefaultScreen`, `drawWifiManagerMessage`, `drawRefreshTokenMessage`, `WifiManagerHandler.h`, `refreshToken.h`, `touchScreen.h`.
- The classes run the source as written. `Rotary.RotaryEncoder.HandleEncoderVolumeChange` keeps the clamp's stale `lastEncoderPos`, and `UpdateCurrentlyPlaying`/`UpdateProgressBar` compare `now > due`. The corrected volume handler (`Rotary.VolumeTurnFixed`) and the elapsed-time schedule (`SpotifyLogic.DueSince`) are stated and proved beside them, not run by them.
- `checkRotaryEncoderInput`, `onVolumeChanged` and `onButtonPressed`: these only dispatch and log.

## Findings

| source | as written | input that shows it | evidently intended | confidence | as-written member | corrected member |
|---|---|---|---|---|---|---|
| SpotifyDiyThing/rotaryEncoder.h:211-224 | a clamp at 100 snaps `encoderPos` to 2*(100 - old volume), but `lastEncoderPos` takes `currentPos`, the position read before the snap | volume 99, encoder at 4 with `lastEncoderPos` 0 and 3 clicks in the window: the volume goes to 100 and `encoderPos` to 2 with `lastEncoderPos` 4; one clockwise click then reads as delta -1 and the volume drops to 99 | the snap re-bases the handler, so that no clicks stay banked against the direction of travel (`lastEncoderPos` follows the snapped `encoderPos`) | high; not executed | Rotary.ClockwiseClickLowersVolume | Rotary.ClockwiseNeverLowers |
| SpotifyDiyThing/rotaryEncoder.h:211-224 | the mirror case: a clamp at 0 zeroes `encoderPos` but `lastEncoderPos` takes the pre-snap `currentPos` | volume 1, encoder at -4 with `lastEncoderPos` 0 and 1 click in the window: the volume clamps to 0 with `encoderPos` 0 and `lastEncoderPos` -4; one clockwise click then reads as delta +5 and the volume jumps to 3 | the same re-base at the low clamp | high; not executed | Rotary.ClockwiseClickJumpsFromZero | Rotary.FixedClampLeavesNoBank |
| SpotifyDiyThing/spotifyLogic.h:219-227, 239-302 | the next poll is due at `millis() + 5000` (refresh: + 500), tested by `millis() > requestDueTime` on `unsigned long` | a poll at 2^32 - 5001 ms sets the due time 2^32 - 1, which no `millis()` exceeds, so unforced polling stops for good; a poll within 5000 ms of the wrap sets a small due time that is exceeded at once | poll every 5 s (refresh every 0.5 s) across the wrap, comparing elapsed time `millis() - lastRequest > interval` | high; not executed | SpotifyLogic.DueTimeAtWrap | SpotifyLogic.DueSinceFires |
