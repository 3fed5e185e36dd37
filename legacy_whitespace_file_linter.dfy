/**
 * The older WhitespaceFileLinter. Its `lint` treats its argument as the text
 * itself, splits it with the UNIX line-break pattern, drops the first
 * element and numbers the rest from 1 — captured dot runs included, so the
 * elements at odd numbers are dot runs and only even numbers can carry a
 * finding. Each element is checked with the same matcher as the newer linter.
 */
module LegacyWhitespaceFileLinter {
  import opened LintTypes
  import opened EolSplit
  import opened TrailingWhitespace

  /** The elements `lint` numbers: `lf_regex.split(text)[1:]`. */
  function Elements(text: string): seq<string> {
    Split(text, Lf)[1..]
  }

  /** What `lint(text)` returns. */
  function TextFindings(text: string): seq<LintError> {
    Findings(Elements(text), 1)
  }

  /** `lint(text)` */
  method Lint(text: string) returns (total: seq<LintError>)
    ensures total == TextFindings(text)
  {
    var lines := Split(text, Lf)[1..];
    total := NumberedFindings(lines);
  }

  /** Text without a '\n' splits into one element, which is dropped: no findings. */
  lemma NoNewlineNoFindings(text: string)
    requires EolSplit.NoNewline(text)
    ensures TextFindings(text) == []
  {
    SplitLfNoNewline(text);
  }

  /** The elements at even positions, numbered 1, 3, 5, ..., are the
      captured dot runs. */
  lemma DotElements(text: string)
    ensures forall i :: 0 <= i < |Elements(text)| && i % 2 == 0 ==> AllDots(Elements(text)[i])
  {
    SplitDots(text, Lf);
    forall i | 0 <= i < |Elements(text)| && i % 2 == 0 ensures AllDots(Elements(text)[i]) {
      assert Elements(text)[i] == Split(text, Lf)[2 * (i / 2) + 1];
    }
  }

  /** A run of dots never ends in whitespace. */
  lemma DotsAreClean(n: int, line: string)
    ensures AllDots(line) ==> HasTrailingWhitespace(n, line).None?
  {
    HasTrailingWhitespaceSpec(n, line);
  }

  /** There are two elements per '\n', the captured dots and the text after
      it; findings sit only on the text elements, at even numbers. */
  lemma FindingsOnTextElements(text: string)
    ensures |Elements(text)| == 2 * Newlines(text)
    ensures forall j :: 0 <= j < |TextFindings(text)| ==>
      var n := TextFindings(text)[j].lineNumber;
      2 <= n <= 2 * Newlines(text) && n % 2 == 0
  {
    SplitLfShape(text);
    DotElements(text);
    var lines := Elements(text);
    var r := TextFindings(text);
    FindingsSound(lines, 1);
    forall j | 0 <= j < |r| ensures r[j].lineNumber % 2 == 0 {
      var n := r[j].lineNumber;
      DotsAreClean(n, lines[n - 1]);
    }
  }
}
