/**
 * The older module-level whitespace checker. Its line check splits the line
 * with `(\.)*(\s+)`: any whitespace anywhere is reported, not only at the
 * end; the column is the 0-based start of the first match and the message
 * is a fixed text, because its format string has no placeholder.
 */
module WhitespaceLinter {
  import opened LintTypes
  import opened EolSplit

  const LinterName: string := "Trailing WhiteSpace Linter"

  /** The message every finding carries: the literal text, `$ws` included. */
  const Message: string := "Found trailing whitespace '$ws'"

  /** A value of the pairs `lint_patch` receives: a string, or anything else. */
  datatype PyValue = Str(s: string) | NotStr

  /** `(\.)*(\s+)` matches at `i`: its dots are followed by whitespace.
      Giving back dots cannot help, since a dot is not whitespace. */
  predicate WsMatchesAt(s: string, i: nat)
    requires i <= |s|
  {
    DotRun(s, i) < |s| && IsSpace(s[DotRun(s, i)])
  }

  /** The start of the leftmost match at or after `i`. */
  function FirstMatch(s: string, i: nat): Option<nat>
    requires i <= |s|
    decreases |s| - i
  {
    if i == |s| then None
    else if WsMatchesAt(s, i) then Some(i)
    else FirstMatch(s, i + 1)
  }

  /** `has_trailing_whitespace(line_number, line)`: `len(split[0])` is the
      start of the first match, and more than one piece means a match. */
  function HasTrailingWhitespace(lineNumber: int, line: string): seq<LintError> {
    match FirstMatch(line, 0)
    case None => []
    case Some(c) => [LintError(lineNumber, c, Message)]
  }

  /** Index of the first whitespace character. */
  function FirstSpace(s: string): (w: Option<nat>)
    ensures w.None? <==> forall j :: 0 <= j < |s| ==> !IsSpace(s[j])
    ensures w.Some? ==>
      w.value < |s| && IsSpace(s[w.value]) && forall j :: 0 <= j < w.value ==> !IsSpace(s[j])
  {
    if s == [] then None
    else if IsSpace(s[0]) then Some(0)
    else
      match FirstSpace(s[1..])
      case None => None
      case Some(w) => Some(w + 1)
  }

  /** Start of the maximal run of dots that ends at `w`. */
  function DotStart(s: string, w: nat): (c: nat)
    requires w <= |s|
    ensures c <= w
    ensures forall j :: c <= j < w ==> s[j] == '.'
    ensures c == 0 || s[c - 1] != '.'
  {
    if w > 0 && s[w - 1] == '.' then DotStart(s, w - 1) else w
  }

  /** Dots from `i` up to a non-dot at `w`: the greedy run stops at `w`. */
  lemma {:induction false} DotRunTo(s: string, i: nat, w: nat)
    requires i <= w < |s| && s[w] != '.'
    requires forall j :: i <= j < w ==> s[j] == '.'
    ensures DotRun(s, i) == w
    decreases w - i
  {
    if i < w {
      DotRunTo(s, i + 1, w);
    }
  }

  /** Without whitespace before `w`, no match starts before the dot run that
      ends at `w`, and one starts there when `s[w]` is whitespace. */
  lemma {:induction false} FirstMatchFrom(s: string, i: nat, w: nat)
    requires w < |s| && IsSpace(s[w])
    requires forall j :: 0 <= j < w ==> !IsSpace(s[j])
    requires i <= DotStart(s, w)
    ensures FirstMatch(s, i) == Some(DotStart(s, w))
    decreases DotStart(s, w) - i
  {
    var c := DotStart(s, w);
    if i == c {
      DotRunTo(s, c, w);
    } else {
      var m := DotRun(s, i);
      DotRunDots(s, i);
      assert s[c - 1] != '.';
      assert m < c;
      assert !IsSpace(s[m]);
      FirstMatchFrom(s, i + 1, w);
    }
  }

  /** A line without whitespace has no match anywhere. */
  lemma {:induction false} NoSpaceNoMatch(s: string, i: nat)
    requires i <= |s|
    requires forall j :: 0 <= j < |s| ==> !IsSpace(s[j])
    ensures FirstMatch(s, i) == None
    decreases |s| - i
  {
    if i < |s| {
      NoSpaceNoMatch(s, i + 1);
    }
  }

  /** No finding exactly when the line holds no whitespace at all; otherwise
      one finding, on the given line number with the fixed message, whose
      column is where the run of dots directly before the first whitespace
      character starts (that character itself when no dot precedes it). */
  lemma HasTrailingWhitespaceSpec(lineNumber: int, line: string)
    ensures HasTrailingWhitespace(lineNumber, line) == [] <==>
      forall j :: 0 <= j < |line| ==> !IsSpace(line[j])
    ensures FirstSpace(line).Some? ==>
      var w := FirstSpace(line).value;
      var r := HasTrailingWhitespace(lineNumber, line);
      && |r| == 1
      && r[0].lineNumber == lineNumber
      && r[0].msg == Message
      && r[0].column <= w
      && (forall j :: r[0].column <= j < w ==> line[j] == '.')
      && (r[0].column == 0 || line[r[0].column - 1] != '.')
  {
    match FirstSpace(line)
    case None => NoSpaceNoMatch(line, 0);
    case Some(w) => FirstMatchFrom(line, 0, w);
  }

  /** `lint_file(file, eol)`: one entry per element after the first of the
      split, each that element's (possibly empty) list, numbered from 1. */
  method LintFile(file: string, eol: Eol) returns (total: seq<seq<LintError>>)
    ensures |total| == |Split(file, eol)| - 1
    ensures forall i :: 0 <= i < |total| ==>
      total[i] == HasTrailingWhitespace(i + 1, Split(file, eol)[i + 1])
    ensures eol == Lf ==> |total| == 2 * Newlines(file)
  {
    total := [];
    var lines := Split(file, eol)[1..];
    var lineNumber := 1;
    for i := 0 to |lines|
      invariant |total| == i && lineNumber == i + 1
      invariant forall k :: 0 <= k < i ==> total[k] == HasTrailingWhitespace(k + 1, lines[k])
    {
      total := total + [HasTrailingWhitespace(lineNumber, lines[i])];
      lineNumber := lineNumber + 1;
    }
    if eol == Lf {
      SplitLfShape(file);
    }
  }

  /** `lint_patch(lines)`: one entry per (number, line) pair, in input order
      and with the supplied numbers; a line that is not a string fails the
      assertion, and the call then returns nothing. */
  method LintPatch(lines: seq<(int, PyValue)>) returns (total: seq<seq<LintError>>, outcome: Outcome)
    ensures outcome.Raised? <==> exists i :: 0 <= i < |lines| && lines[i].1.NotStr?
    ensures outcome.Raised? ==> outcome.error == AssertionError && total == []
    ensures outcome.Ok? ==> |total| == |lines|
    ensures outcome.Ok? ==>
      forall i :: 0 <= i < |lines| ==> total[i] == HasTrailingWhitespace(lines[i].0, lines[i].1.s)
  {
    total := [];
    for i := 0 to |lines|
      invariant |total| == i
      invariant forall k :: 0 <= k < i ==> lines[k].1.Str?
      invariant forall k :: 0 <= k < i ==> total[k] == HasTrailingWhitespace(lines[k].0, lines[k].1.s)
    {
      var (lineNumber, line) := lines[i];
      if line.NotStr? {
        return [], Raised(AssertionError);
      }
      total := total + [HasTrailingWhitespace(lineNumber, line.s)];
    }
    outcome := Ok;
  }
}
