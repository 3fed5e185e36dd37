/**
 * The trailing-whitespace matcher shared by both versions of
 * WhitespaceFileLinter: Python's `re.match` of `^(.*?)(\s+)$` against one
 * line, and the finding it turns a match into. `Findings` is the per-line
 * numbering that both versions' `lint` loops compute.
 */
module TrailingWhitespace {
  import opened LintTypes

  /** Length of `s` without its maximal run of trailing whitespace. */
  function StripEnd(s: string): (k: nat)
    ensures k <= |s|
    ensures AllSpace(s[k..])
    ensures k > 0 ==> !IsSpace(s[k - 1])
  {
    if s == [] || !IsSpace(s[|s| - 1]) then |s|
    else
      var k := StripEnd(s[..|s| - 1]);
      assert s[k..] == s[..|s| - 1][k..] + [s[|s| - 1]];
      k
  }

  /** With group 1 fixed to `s[..k]`, the rest of the pattern, `(\s+)$`,
      matches: the greedy `\s+` takes whitespace from `k` on, and `$` accepts
      the end of the string or the position just before a final newline. */
  predicate AcceptsAt(s: string, k: nat)
    requires k <= |s|
  {
    (k < |s| && AllSpace(s[k..]))
    || (k < |s| - 1 && s[|s| - 1] == '\n' && AllSpace(s[k..|s| - 1]))
  }

  /** The lazy `(.*?)` tries group 1 = `s[..k]` for k = 0, 1, 2, ... and
      stops at the first that lets the rest match; `.` never consumes '\n'. */
  function SearchFrom(s: string, k: nat): (r: Option<nat>)
    requires k <= |s|
    ensures r.Some? ==> k <= r.value < |s|
    decreases |s| - k
  {
    if AcceptsAt(s, k) then Some(k)
    else if k < |s| && s[k] != '\n' then SearchFrom(s, k + 1)
    else None
  }

  predicate NoNewline(s: string) {
    forall i :: 0 <= i < |s| ==> s[i] != '\n'
  }

  /** The search finds a match exactly when the line ends in whitespace and
      no newline comes before that trailing run; group 1 is then everything
      before the run. */
  lemma {:induction false} SearchFromFindsTrailingRun(s: string, k: nat)
    requires k <= StripEnd(s)
    requires NoNewline(s[..k])
    ensures SearchFrom(s, k) ==
      if StripEnd(s) < |s| && NoNewline(s[..StripEnd(s)]) then Some(StripEnd(s)) else None
    decreases StripEnd(s) - k
  {
    var t := StripEnd(s);
    if k < t {
      assert !IsSpace(s[t - 1]);
      assert !AcceptsAt(s, k) by {
        assert s[k..][t - 1 - k] == s[t - 1];
        if s[|s| - 1] == '\n' {
          assert s[k..|s| - 1][t - 1 - k] == s[t - 1];
        }
      }
      if s[k] != '\n' {
        assert s[..k + 1] == s[..k] + [s[k]];
        SearchFromFindsTrailingRun(s, k + 1);
      } else {
        assert s[..t][k] == '\n';
      }
    } else if t == |s| {
      assert !AcceptsAt(s, k);
    }
  }

  /** `ws_regex.match(line)`: the length of group 1 when the line matches. */
  function Match(line: string): Option<nat> {
    SearchFrom(line, 0)
  }

  /** The line matches exactly when it ends in whitespace and no newline
      comes before its trailing run; group 1 is then the text before the run. */
  lemma MatchTrailingRun(line: string)
    ensures Match(line).None? <==> (StripEnd(line) == |line| || !NoNewline(line[..StripEnd(line)]))
    ensures Match(line).Some? ==> Match(line).value == StripEnd(line)
  {
    SearchFromFindsTrailingRun(line, 0);
  }

  /** The message quoting group 1. */
  function Message(prefix: string): string {
    "Found trailing whitespace: '" + prefix + "'"
  }

  /** `has_trailing_whitespace(line_number, line)` */
  function HasTrailingWhitespace(lineNumber: int, line: string): Option<LintError> {
    match Match(line)
    case None => None
    case Some(k) => Some(LintError(lineNumber, k + 1, Message(line[..k])))
  }

  /** No finding for the empty line or a line whose last character is not
      whitespace; for a line without an inner newline, a finding exactly when
      it ends in whitespace. A finding carries the given line number, a column
      one past the text before the maximal trailing whitespace run, so
      between 1 and the line's length, and a message quoting that text. */
  lemma HasTrailingWhitespaceSpec(lineNumber: int, line: string)
    ensures line == [] ==> HasTrailingWhitespace(lineNumber, line).None?
    ensures line != [] && !IsSpace(line[|line| - 1]) ==> HasTrailingWhitespace(lineNumber, line).None?
    ensures line != [] && NoNewline(line[..|line| - 1]) ==>
      (HasTrailingWhitespace(lineNumber, line).Some? <==> IsSpace(line[|line| - 1]))
    ensures HasTrailingWhitespace(lineNumber, line).Some? ==>
      var e := HasTrailingWhitespace(lineNumber, line).value;
      var k := e.column - 1;
      && 0 <= k < |line|
      && e.lineNumber == lineNumber
      && e.msg == Message(line[..k])
      && AllSpace(line[k..])
      && (k == 0 || !IsSpace(line[k - 1]))
  {
    MatchTrailingRun(line);
    var t := StripEnd(line);
    if line != [] && NoNewline(line[..|line| - 1]) && t < |line| {
      assert line[..t] == line[..|line| - 1][..t];
    }
  }

  /** A line made of text that does not end in whitespace and contains no
      newline, followed by a non-empty run of whitespace, yields the finding
      at the first character of that run, quoting the text. */
  lemma TrailingRunFinding(n: int, text: string, run: string)
    requires text == [] || !IsSpace(text[|text| - 1])
    requires NoNewline(text)
    requires run != [] && AllSpace(run)
    ensures HasTrailingWhitespace(n, text + run) == Some(LintError(n, |text| + 1, Message(text)))
  {
    var s := text + run;
    assert s[..|text|] == text;
    assert s[|text|..] == run;
    StripEndUnique(s, |text|);
    MatchTrailingRun(s);
  }

  /** The trailing run is determined by where it starts: a position with only
      whitespace after it and no whitespace just before it. */
  lemma {:induction false} StripEndUnique(s: string, t: nat)
    requires t <= |s| && AllSpace(s[t..])
    requires t == 0 || !IsSpace(s[t - 1])
    ensures StripEnd(s) == t
  {
    if t < |s| {
      var s' := s[..|s| - 1];
      assert IsSpace(s[t..][|s| - 1 - t]);
      assert s'[t..] == s[t..][..|s| - 1 - t];
      StripEndUnique(s', t);
    }
  }

  /** The checker's own unit-test cases: no finding for an empty line or for
      one ending in '.'. */
  lemma PinnedCleanLines()
    ensures HasTrailingWhitespace(1, "") == None
    ensures HasTrailingWhitespace(1, "This is a test string with no whitespace.") == None
  {
    HasTrailingWhitespaceSpec(1, "This is a test string with no whitespace.");
  }

  /** The checker's own unit-test cases: a lone tab or space is a finding at
      column 1 quoting nothing. */
  lemma PinnedBlankLines()
    ensures HasTrailingWhitespace(1, "\t") == Some(LintError(1, 1, "Found trailing whitespace: ''"))
    ensures HasTrailingWhitespace(1, " ") == Some(LintError(1, 1, "Found trailing whitespace: ''"))
  {
    TrailingRunFinding(1, "", "\t");
    TrailingRunFinding(1, "", " ");
    assert "" + "\t" == "\t" && "" + " " == " ";
    assert Message("") == "Found trailing whitespace: ''";
  }

  /** The checker's unit-test case with CR LF after two spaces: column 39. */
  lemma PinnedCrLfLine(text: string, run: string)
    requires text == "This is a test string with whitespace."
    requires run == "  \r\n"
    ensures HasTrailingWhitespace(1, text + run) == Some(LintError(1, 39, Message(text)))
  {
    assert HasTrailingWhitespace(1, text + run) == Some(LintError(1, 39, Message(text))) by {
      TrailingRunFinding(1, text, run);
    }
  }

  /** The findings of consecutive lines numbered from `first`. */
  function Findings(lines: seq<string>, first: int): (r: seq<LintError>)
    ensures |r| <= |lines|
    decreases |lines|
  {
    if lines == [] then []
    else
      (match HasTrailingWhitespace(first, lines[0]) case None => [] case Some(e) => [e])
      + Findings(lines[1..], first + 1)
  }

  /** At most one finding per line, in strictly increasing line order, each
      numbered within the range of the lines. */
  lemma {:induction false} FindingsOrdered(lines: seq<string>, first: int)
    ensures forall j :: 0 <= j < |Findings(lines, first)| ==>
      first <= Findings(lines, first)[j].lineNumber < first + |lines|
    ensures forall i, j :: 0 <= i < j < |Findings(lines, first)| ==>
      Findings(lines, first)[i].lineNumber < Findings(lines, first)[j].lineNumber
    decreases |lines|
  {
    if lines != [] {
      FindingsOrdered(lines[1..], first + 1);
    }
  }

  /** Every line's finding is reported. */
  lemma {:induction false} FindingsComplete(lines: seq<string>, first: int)
    ensures forall i :: 0 <= i < |lines| && HasTrailingWhitespace(first + i, lines[i]).Some? ==>
      HasTrailingWhitespace(first + i, lines[i]).value in Findings(lines, first)
    decreases |lines|
  {
    if lines != [] {
      FindingsComplete(lines[1..], first + 1);
      var r := Findings(lines, first);
      forall i | 0 <= i < |lines| && HasTrailingWhitespace(first + i, lines[i]).Some?
        ensures HasTrailingWhitespace(first + i, lines[i]).value in r
      {
        if i > 0 {
          assert lines[1..][i - 1] == lines[i];
          assert first + 1 + (i - 1) == first + i;
        }
      }
    }
  }

  /** Nothing but the lines' own findings is reported: each finding is the
      one its line number names. */
  lemma {:induction false} FindingsSound(lines: seq<string>, first: int)
    ensures forall j :: 0 <= j < |Findings(lines, first)| ==>
      var e := Findings(lines, first)[j];
      first <= e.lineNumber < first + |lines|
      && HasTrailingWhitespace(e.lineNumber, lines[e.lineNumber - first]) == Some(e)
    decreases |lines|
  {
    if lines != [] {
      FindingsSound(lines[1..], first + 1);
      var h := HasTrailingWhitespace(first, lines[0]);
      var head: seq<LintError> := match h case None => [] case Some(e) => [e];
      var tail := Findings(lines[1..], first + 1);
      assert Findings(lines, first) == head + tail;
      forall j | |head| <= j < |head| + |tail|
        ensures var e := (head + tail)[j];
          first <= e.lineNumber < first + |lines|
          && HasTrailingWhitespace(e.lineNumber, lines[e.lineNumber - first]) == Some(e)
      {
        var e := tail[j - |head|];
        assert (head + tail)[j] == e;
        assert lines[1..][e.lineNumber - (first + 1)] == lines[e.lineNumber - first];
      }
    }
  }

  /** Findings of the lines from `i` on, split into line `i` and the rest. */
  lemma FindingsStep(lines: seq<string>, i: nat, first: int)
    requires i < |lines|
    ensures Findings(lines[i..], first + i)
      == (match HasTrailingWhitespace(first + i, lines[i]) case None => [] case Some(e) => [e])
         + Findings(lines[i + 1..], first + i + 1)
  {
    assert lines[i..][1..] == lines[i + 1..];
  }

  /** The numbering loop of both checkers' `lint`: line numbers start at 1
      and go up by one per line; a line's finding, if any, is appended. */
  method NumberedFindings(lines: seq<string>) returns (total: seq<LintError>)
    ensures total == Findings(lines, 1)
  {
    total := [];
    var lineNumber := 1;
    var i := 0;
    while i < |lines|
      invariant 0 <= i <= |lines|
      invariant lineNumber == i + 1
      invariant total + Findings(lines[i..], lineNumber) == Findings(lines, 1)
    {
      FindingsStep(lines, i, 1);
      var lintError := HasTrailingWhitespace(lineNumber, lines[i]);
      ghost var found: seq<LintError> := match lintError case None => [] case Some(e) => [e];
      AppendAssoc(total, found, Findings(lines[i + 1..], lineNumber + 1));
      if lintError.Some? {
        total := total + [lintError.value];
      }
      lineNumber := lineNumber + 1;
      i := i + 1;
    }
    assert lines[i..] == [];
  }
}
