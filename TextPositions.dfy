/**
 * Mapping a (line, column) position reported by the embedded JavaScript
 * parser back to a character index in the code string, as the error
 * reporter's `offsetFromStart` does.
 *
 * The scan keeps a line counter and a column counter. An end-of-line
 * character resets the column counter to 0 and the same iteration then
 * increments it, so the first character of every line after the first is
 * reached with column 1, while on the first line columns start at 0.
 * The text is a sequence of UTF-16 code units, as `length()` and `charAt`
 * see it. Which code units end a line is the parser library's business, so
 * it is a parameter `eol` over their integer values throughout; `checked`
 * says whether the JVM runs with assertions enabled, which decides whether
 * the scan's `assert` can fire.
 */
module TextPositions {
  import opened JavaText

  /** Result of the scan: an index in [0, |text|], or the assertion error
      raised when more end-of-line characters are crossed than `line`. */
  datatype Scan = Offset(index: nat) | LineAssertionFailed

  /** Number of end-of-line characters among text[0..n). */
  function LinesBefore(text: JavaString, n: nat, eol: int -> bool): (r: nat)
    requires n <= |text|
    ensures r <= n
    ensures n > 0 && eol(text[n - 1] as int) ==> r > 0
  {
    if n == 0 then 0
    else LinesBefore(text, n - 1, eol) + (if eol(text[n - 1] as int) then 1 else 0)
  }

  /** Index of the first character of the line that position n lies on:
      one past the last end-of-line character before n, or 0. */
  function LineStart(text: JavaString, n: nat, eol: int -> bool): (r: nat)
    requires n <= |text|
    ensures r <= n
    ensures r > 0 ==> eol(text[r - 1] as int)
    ensures forall j :: r <= j < n ==> !eol(text[j] as int)
  {
    if n == 0 then 0
    else if eol(text[n - 1] as int) then n
    else LineStart(text, n - 1, eol)
  }

  /** The column counter's value when the scan reaches index n: the distance
      from the line start, plus one on every line but the first. */
  function ScanColumn(text: JavaString, n: nat, eol: int -> bool): nat
    requires n <= |text|
  {
    n - LineStart(text, n, eol) + (if LinesBefore(text, n, eol) > 0 then 1 else 0)
  }

  /** Index n is the requested position. */
  predicate Matches(text: JavaString, line: int, column: int, eol: int -> bool, n: nat)
    requires n < |text|
  {
    LinesBefore(text, n, eol) == line && ScanColumn(text, n, eol) == column
  }

  /** The character at n ends a line and takes the line count past `line`. */
  predicate Overflows(text: JavaString, line: int, eol: int -> bool, n: nat)
    requires n < |text|
  {
    eol(text[n] as int) && LinesBefore(text, n + 1, eol) > line
  }

  /** Scanning from i, the end of line at j takes the line count past `line`
      before any index in [i, j] has matched. */
  predicate OvershootsAt(text: JavaString, line: int, column: int, eol: int -> bool, i: nat, j: nat)
  {
    i <= j < |text| && Overflows(text, line, eol, j) &&
    forall k :: i <= k <= j ==> !Matches(text, line, column, eol, k)
  }

  /** The first stop of the scan from index i on: a matching index, the
      failing assertion (only when checked), or the end of the text. */
  function FirstStop(text: JavaString, line: int, column: int, eol: int -> bool, checked: bool, i: nat): (r: Scan)
    requires i <= |text|
    ensures r.Offset? ==> i <= r.index <= |text|
    ensures r.Offset? && r.index < |text| ==> Matches(text, line, column, eol, r.index)
    ensures r.LineAssertionFailed? ==> checked
    decreases |text| - i
  {
    if i == |text| then Offset(|text|)
    else if Matches(text, line, column, eol, i) then Offset(i)
    else if checked && Overflows(text, line, eol, i) then LineAssertionFailed
    else FirstStop(text, line, column, eol, checked, i + 1)
  }

  /** What `offsetFromStart(text, line, column)` returns. */
  function OffsetOf(text: JavaString, line: int, column: int, eol: int -> bool, checked: bool): Scan
  {
    FirstStop(text, line, column, eol, checked, 0)
  }

  /** The scan itself: three counters advanced one character at a time. */
  method OffsetFromStart(text: JavaString, line: int, column: int, eol: int -> bool, checked: bool)
    returns (r: Scan)
    ensures r == OffsetOf(text, line, column, eol, checked)
  {
    var i := 0;
    var lineCount := 0;
    var offsetInLine := 0;
    while i < |text|
      invariant 0 <= i <= |text|
      invariant lineCount == LinesBefore(text, i, eol)
      invariant offsetInLine == ScanColumn(text, i, eol)
      invariant FirstStop(text, line, column, eol, checked, i) == OffsetOf(text, line, column, eol, checked)
    {
      var c := text[i];
      if lineCount == line && offsetInLine == column {
        return Offset(i);
      }
      if eol(c as int) {
        offsetInLine := 0;
        lineCount := lineCount + 1;
        if checked && !(lineCount <= line) {
          return LineAssertionFailed;
        }
      }
      i := i + 1;
      offsetInLine := offsetInLine + 1;
    }
    return Offset(|text|);
  }

  // ---------------------------------------------------------------------
  // Properties of the scan

  /** The line count never decreases along the text. */
  lemma {:induction false} LinesBeforeMonotone(text: JavaString, m: nat, n: nat, eol: int -> bool)
    requires m <= n <= |text|
    ensures LinesBefore(text, m, eol) <= LinesBefore(text, n, eol)
    decreases n - m
  {
    if m < n {
      LinesBeforeMonotone(text, m, n - 1, eol);
    }
  }

  /** With no end-of-line character before n, position n is on the first
      line and its column counter equals n. */
  lemma {:induction false} FirstLineColumn(text: JavaString, n: nat, eol: int -> bool)
    requires n <= |text|
    requires forall j :: 0 <= j < n ==> !eol(text[j] as int)
    ensures LinesBefore(text, n, eol) == 0
    ensures ScanColumn(text, n, eol) == n
  {
    if n > 0 {
      FirstLineColumn(text, n - 1, eol);
    }
  }

  /** Once the line count has passed `line`, no later index matches. */
  lemma OverflowIsFinal(text: JavaString, line: int, column: int, eol: int -> bool, j: nat, k: nat)
    requires j < k < |text|
    requires Overflows(text, line, eol, j)
    ensures !Matches(text, line, column, eol, k)
  {
    LinesBeforeMonotone(text, j + 1, k, eol);
  }

  /** The scan from i stops at k < |text| exactly when k is the first index
      from i on that matches, with no assertion failure in between. */
  lemma {:induction false} FirstStopAt(text: JavaString, line: int, column: int, eol: int -> bool, checked: bool, i: nat, k: nat)
    requires i <= k < |text|
    ensures FirstStop(text, line, column, eol, checked, i) == Offset(k) <==>
      Matches(text, line, column, eol, k) &&
      forall j :: i <= j < k ==> !Matches(text, line, column, eol, j) && !(checked && Overflows(text, line, eol, j))
    decreases |text| - i
  {
    if i < k {
      FirstStopAt(text, line, column, eol, checked, i + 1, k);
    }
  }

  /** The scan from i runs to the end of the text exactly when nothing from
      i on matches and (when checked) no assertion fails. */
  lemma {:induction false} FirstStopAtEnd(text: JavaString, line: int, column: int, eol: int -> bool, checked: bool, i: nat)
    requires i <= |text|
    ensures FirstStop(text, line, column, eol, checked, i) == Offset(|text|) <==>
      forall j :: i <= j < |text| ==> !Matches(text, line, column, eol, j) && !(checked && Overflows(text, line, eol, j))
    decreases |text| - i
  {
    if i < |text| {
      FirstStopAtEnd(text, line, column, eol, checked, i + 1);
    }
  }

  /**
   * `offsetFromStart` returns an index k < |text| exactly when k is the
   * first index where the line counter equals `line` and the column counter
   * equals `column`, and no end-of-line character before k took the line
   * count past `line` while assertions were enabled. In particular the text
   * before k holds exactly `line` end-of-line characters.
   */
  lemma OffsetOfFound(text: JavaString, line: int, column: int, eol: int -> bool, checked: bool, k: nat)
    requires k < |text|
    ensures OffsetOf(text, line, column, eol, checked) == Offset(k) <==>
      LinesBefore(text, k, eol) == line && ScanColumn(text, k, eol) == column &&
      forall j :: 0 <= j < k ==> !Matches(text, line, column, eol, j) && !(checked && Overflows(text, line, eol, j))
    ensures OffsetOf(text, line, column, eol, checked) == Offset(k) ==> LinesBefore(text, k, eol) == line
  {
    FirstStopAt(text, line, column, eol, checked, 0, k);
  }

  /** When the target is never reached (and no assertion fails),
      `offsetFromStart` returns exactly the length of the text. */
  lemma OffsetOfNotFound(text: JavaString, line: int, column: int, eol: int -> bool, checked: bool)
    ensures OffsetOf(text, line, column, eol, checked) == Offset(|text|) <==>
      forall j :: 0 <= j < |text| ==> !Matches(text, line, column, eol, j) && !(checked && Overflows(text, line, eol, j))
  {
    FirstStopAtEnd(text, line, column, eol, checked, 0);
  }

  /** The scan's assertion fails exactly when assertions are enabled and some
      end-of-line character takes the line count past `line` before the
      target has been matched. */
  lemma {:induction false} AssertionFailsWhenLineOvershot(text: JavaString, line: int, column: int, eol: int -> bool, checked: bool)
    ensures OffsetOf(text, line, column, eol, checked) == LineAssertionFailed <==>
      checked && exists j :: OvershootsAt(text, line, column, eol, 0, j)
  {
    if OffsetOf(text, line, column, eol, checked) == LineAssertionFailed {
      FailedAtSome(text, line, column, eol, checked, 0);
    }
    if checked && exists j :: OvershootsAt(text, line, column, eol, 0, j) {
      var j :| OvershootsAt(text, line, column, eol, 0, j);
      FailsBy(text, line, column, eol, 0, j);
    }
  }

  /** A checked scan from i that meets an overshooting end of line at j
      before any match fails its assertion (at j or earlier). */
  lemma {:induction false} FailsBy(text: JavaString, line: int, column: int, eol: int -> bool, i: nat, j: nat)
    requires OvershootsAt(text, line, column, eol, i, j)
    ensures FirstStop(text, line, column, eol, true, i) == LineAssertionFailed
    decreases j - i
  {
    if !Overflows(text, line, eol, i) {
      FailsBy(text, line, column, eol, i + 1, j);
    }
  }

  /** If the scan from i fails its assertion, some index from i on is the
      overshooting end of line with no match up to it. */
  lemma {:induction false} FailedAtSome(text: JavaString, line: int, column: int, eol: int -> bool, checked: bool, i: nat)
    requires i <= |text|
    requires FirstStop(text, line, column, eol, checked, i) == LineAssertionFailed
    ensures exists j :: OvershootsAt(text, line, column, eol, i, j)
    decreases |text| - i
  {
    if Overflows(text, line, eol, i) {
      assert OvershootsAt(text, line, column, eol, i, i);
    } else {
      FailedAtSome(text, line, column, eol, checked, i + 1);
      var j :| OvershootsAt(text, line, column, eol, i + 1, j);
      assert OvershootsAt(text, line, column, eol, i, j);
    }
  }

  /**
   * The assertion only guards positions that cannot be matched any more:
   * disabling assertions never changes a returned index, and where the
   * assertion fails the unchecked scan returns the length of the text.
   */
  lemma {:induction false} AssertionGuardsUnreachable(text: JavaString, line: int, column: int, eol: int -> bool, i: nat)
    requires i <= |text|
    ensures FirstStop(text, line, column, eol, true, i).Offset? ==>
      FirstStop(text, line, column, eol, false, i) == FirstStop(text, line, column, eol, true, i)
    ensures FirstStop(text, line, column, eol, true, i) == LineAssertionFailed ==>
      FirstStop(text, line, column, eol, false, i) == Offset(|text|)
    decreases |text| - i
  {
    if i < |text| && !Matches(text, line, column, eol, i) {
      if Overflows(text, line, eol, i) {
        forall k | i < k < |text| ensures !Matches(text, line, column, eol, k) {
          OverflowIsFinal(text, line, column, eol, i, k);
        }
        FirstStopAtEnd(text, line, column, eol, false, i + 1);
      } else {
        AssertionGuardsUnreachable(text, line, column, eol, i + 1);
      }
    }
  }

  /** On the first line the column is the index: if the first `column`
      characters hold no end of line, (0, column) maps to `column`. */
  lemma FirstLineOffset(text: JavaString, column: int, eol: int -> bool, checked: bool)
    requires 0 <= column < |text|
    requires forall j :: 0 <= j < column ==> !eol(text[j] as int)
    ensures OffsetOf(text, 0, column, eol, checked) == Offset(column)
  {
    forall j | 0 <= j <= column
      ensures LinesBefore(text, j, eol) == 0 && ScanColumn(text, j, eol) == j
    {
      FirstLineColumn(text, j, eol);
    }
    forall j | 0 <= j < column
      ensures !Matches(text, 0, column, eol, j) && !(checked && Overflows(text, 0, eol, j))
    {
    }
    OffsetOfFound(text, 0, column, eol, checked, column);
  }

  /** After an end of line the column counter restarts at 1, not 0: the
      first character of a later line is reached with column 1. */
  lemma ColumnAfterEndOfLine(text: JavaString, n: nat, eol: int -> bool)
    requires 0 < n < |text|
    requires eol(text[n - 1] as int)
    ensures ScanColumn(text, n, eol) == 1
  {
  }

  /** On "a\nb" (the code units 97, 10, 98), (1, 1) maps to 2 (the 'b') and
      (1, 0) is never reached, so it maps to 3, the length of the text. */
  lemma SecondLineExample(eol: int -> bool, checked: bool)
    requires eol(10) && !eol(97) && !eol(98)
    ensures OffsetOf([97, 10, 98], 1, 1, eol, checked) == Offset(2)
    ensures OffsetOf([97, 10, 98], 1, 0, eol, checked) == Offset(3)
  {
  }
}
