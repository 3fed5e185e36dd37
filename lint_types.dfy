/**
 * Values shared by every stage of the differential-lint pipeline: the finding
 * record, the per-file report (an insertion-ordered dictionary, as Python's
 * dict is), the Python exceptions the model distinguishes, and the whitespace
 * class that the checkers' regular expressions use.
 */
module LintTypes {

  datatype Option<T> = None | Some(value: T)

  /** A finding. The source declares it as a NamedTuple, so two findings are
      equal exactly when their three fields are. */
  datatype LintError = LintError(lineNumber: int, column: int, msg: string)

  /** The Python exceptions that can end a call in this model. */
  datatype PyError =
    | TypeError(call: string)
    | AttributeError(name: string)
    | AssertionError
    | GitCommandError(object: string)
    | BadName(rev: string)
    | FileExistsError(path: string)
    | IsADirectoryError(path: string)
    | IntegrityError(table: string)
    | ValueError(what: string)

  /** How a Python call ended: it returned, or it raised. */
  datatype Outcome = Ok | Raised(error: PyError)

  /** The characters `\s` matches. Python's `\s` on `str` also matches the
      other Unicode separators; the model keeps to the six ASCII ones. */
  predicate IsSpace(c: char) {
    c == ' ' || c == '\t' || c == '\n' || c == '\r' || c == '\U{000B}' || c == '\U{000C}'
  }

  predicate AllSpace(s: string) {
    forall i :: 0 <= i < |s| ==> IsSpace(s[i])
  }

  /** Concatenation regroups freely. */
  lemma AppendAssoc<T>(a: seq<T>, b: seq<T>, c: seq<T>)
    ensures a + b + c == a + (b + c)
  {
  }

  predicate AllDots(s: string) {
    forall i :: 0 <= i < |s| ==> s[i] == '.'
  }

  /** One entry of a LintReport's `errors` dictionary. */
  datatype Entry = Entry(filename: string, errors: seq<LintError>)

  /** `LintReport.errors`: a dictionary from file name to its findings, kept
      in insertion order as Python dictionaries are. */
  type LintReport = seq<Entry>

  function Keys(r: LintReport): (ks: seq<string>)
    ensures |ks| == |r|
    ensures forall i :: 0 <= i < |r| ==> ks[i] == r[i].filename
  {
    if r == [] then [] else [r[0].filename] + Keys(r[1..])
  }

  /** No file name occurs twice: what makes a sequence of entries a dictionary. */
  predicate DistinctKeys(r: LintReport) {
    Distinct(Keys(r))
  }

  predicate Distinct<T(==)>(s: seq<T>) {
    forall i, j :: 0 <= i < j < |s| ==> s[i] != s[j]
  }

  /** `report[k]`, or None when `k` is not a key. */
  function Get(r: LintReport, k: string): (v: Option<seq<LintError>>)
    ensures v.None? <==> k !in Keys(r)
  {
    if r == [] then None
    else if r[0].filename == k then Some(r[0].errors)
    else Get(r[1..], k)
  }

  /** Dictionary item assignment `report[k] = v`: an existing key keeps its
      position and takes the new value; a new key goes to the end. */
  function Put(r: LintReport, k: string, v: seq<LintError>): (r': LintReport)
    ensures Keys(r') == if k in Keys(r) then Keys(r) else Keys(r) + [k]
    ensures Get(r', k) == Some(v)
  {
    if r == [] then [Entry(k, v)]
    else if r[0].filename == k then [Entry(k, v)] + r[1..]
    else
      var tail := Put(r[1..], k, v);
      assert ([r[0]] + tail)[1..] == tail;
      [r[0]] + tail
  }

  /** Assigning one key leaves every other key's value as it was. */
  lemma {:induction false} PutOther(r: LintReport, k: string, v: seq<LintError>, k': string)
    requires k' != k
    ensures Get(Put(r, k, v), k') == Get(r, k')
  {
    if r != [] && r[0].filename != k {
      PutOther(r[1..], k, v, k');
      assert Put(r, k, v)[1..] == Put(r[1..], k, v);
    }
  }

  /** Assignment keeps the keys distinct. */
  lemma PutDistinct(r: LintReport, k: string, v: seq<LintError>)
    requires DistinctKeys(r)
    ensures DistinctKeys(Put(r, k, v))
  {
    var ks, ks' := Keys(r), Keys(Put(r, k, v));
    if k !in ks {
      forall i, j | 0 <= i < j < |ks'| ensures ks'[i] != ks'[j] {
        if j == |ks| { assert ks'[i] == ks[i]; }
      }
    }
  }

  /** Total number of findings over all files of a report. */
  function TotalErrors(r: LintReport): nat {
    if r == [] then 0 else |r[0].errors| + TotalErrors(r[1..])
  }

  /** Decimal rendering of a natural number, as Python's `str.format` prints it. */
  function NatToString(n: nat): (s: string)
    ensures |s| >= 1
    ensures forall i :: 0 <= i < |s| ==> '0' <= s[i] <= '9'
  {
    if n < 10 then [Digit(n)] else NatToString(n / 10) + [Digit(n % 10)]
  }

  function Digit(d: nat): (c: char)
    requires d < 10
    ensures '0' <= c <= '9'
  {
    ['0', '1', '2', '3', '4', '5', '6', '7', '8', '9'][d]
  }
}
