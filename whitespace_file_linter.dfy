/**
 * The newer WhitespaceFileLinter: reads a file from the scratch file system
 * line by line and reports, per line, the trailing whitespace that
 * `TrailingWhitespace` finds. An unreadable file has no lines.
 */
module WhitespaceFileLinter {
  import opened LintTypes
  import opened Paths
  import opened TrailingWhitespace

  /** What `repr` of the checker gives; the driver passes it to `lint_file`. */
  const Name: string := "Whitespace Linter"

  /** Length of the first line of `text`, its '\n' included. */
  function LineLength(text: string): (n: nat)
    requires text != []
    ensures 1 <= n <= |text|
    ensures forall j :: 0 <= j < n - 1 ==> text[j] != '\n'
    ensures n < |text| ==> text[n - 1] == '\n'
  {
    if text[0] == '\n' || |text| == 1 then 1 else 1 + LineLength(text[1..])
  }

  /** `file.readlines()`: the text cut after every '\n'. */
  function ReadLines(text: string): seq<string>
    decreases |text|
  {
    if text == [] then [] else
      var n := LineLength(text);
      [text[..n]] + ReadLines(text[n..])
  }

  function Concat(lines: seq<string>): string {
    if lines == [] then [] else lines[0] + Concat(lines[1..])
  }

  lemma ConcatCons(line: string, rest: seq<string>)
    ensures Concat([line] + rest) == line + Concat(rest)
  {
    assert ([line] + rest)[1..] == rest;
  }

  /** Reading lines loses nothing and adds nothing. */
  lemma {:induction false} ReadLinesConcat(text: string)
    ensures Concat(ReadLines(text)) == text
    decreases |text|
  {
    if text != [] {
      var n := LineLength(text);
      var rest := ReadLines(text[n..]);
      assert ReadLines(text) == [text[..n]] + rest;
      ReadLinesConcat(text[n..]);
      ConcatCons(text[..n], rest);
      assert text == text[..n] + text[n..];
    }
  }

  /** Every line is non-empty, holds a '\n' only as its last character, and
      every line but the last ends with one. */
  lemma {:induction false} ReadLinesShape(text: string)
    ensures forall i :: 0 <= i < |ReadLines(text)| ==>
      var line := ReadLines(text)[i];
      line != [] && forall j :: 0 <= j < |line| - 1 ==> line[j] != '\n'
    ensures forall i :: 0 <= i < |ReadLines(text)| - 1 ==>
      var line := ReadLines(text)[i];
      line[|line| - 1] == '\n'
    decreases |text|
  {
    if text != [] {
      var n := LineLength(text);
      var rest := ReadLines(text[n..]);
      ReadLinesShape(text[n..]);
      assert ReadLines(text) == [text[..n]] + rest;
      assert forall i :: 1 <= i < |rest| + 1 ==> ReadLines(text)[i] == rest[i - 1];
    }
  }

  /** `get_lines(filename)`: the file's lines, or none when it cannot be read. */
  function GetLines(fs: FileSystem, filename: string): seq<string> {
    if filename in fs.files then ReadLines(fs.files[filename]) else []
  }

  /** What `lint(filename)` returns. */
  function FileFindings(fs: FileSystem, filename: string): seq<LintError> {
    Findings(GetLines(fs, filename), 1)
  }

  /** `lint(filename)`: numbers the file's lines from 1 and collects their
      findings; a file that cannot be read yields none rather than an error. */
  method Lint(fs: FileSystem, filename: string) returns (total: seq<LintError>)
    ensures total == FileFindings(fs, filename)
    ensures filename !in fs.files ==> total == []
  {
    var lines := GetLines(fs, filename);
    total := NumberedFindings(lines);
  }

  /** Each finding names a line of the file, at most one per line, in line
      order, and is exactly that line's finding. */
  lemma FileFindingsAreLineFindings(fs: FileSystem, filename: string)
    ensures forall j :: 0 <= j < |FileFindings(fs, filename)| ==>
      var e := FileFindings(fs, filename)[j];
      1 <= e.lineNumber <= |GetLines(fs, filename)|
      && HasTrailingWhitespace(e.lineNumber, GetLines(fs, filename)[e.lineNumber - 1]) == Some(e)
    ensures forall i, j :: 0 <= i < j < |FileFindings(fs, filename)| ==>
      FileFindings(fs, filename)[i].lineNumber < FileFindings(fs, filename)[j].lineNumber
  {
    FindingsSound(GetLines(fs, filename), 1);
    FindingsOrdered(GetLines(fs, filename), 1);
  }
}
