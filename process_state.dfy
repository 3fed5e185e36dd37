/**
 * The six stages of a lint job. Both packages declare the same enumeration;
 * one datatype serves both. The declared values carry a quirk: the first
 * five members are written with a trailing comma, which makes each value a
 * one-element tuple, while the last is a plain integer.
 */
module ProcessStates {
  import opened LintTypes

  datatype ProcessState = STARTED | CLONE_REPO | RETRIEVE_FILES | LINT_FILES | REPORT | FINISHED

  /** A Python enum member's value: a one-element tuple `(n,)` or an int. */
  datatype EnumValue = Tuple1(n: int) | Int(n: int)

  /** The members in declaration order. */
  const Members: seq<ProcessState> := [STARTED, CLONE_REPO, RETRIEVE_FILES, LINT_FILES, REPORT, FINISHED]

  /** The declared value of each member. */
  function Value(s: ProcessState): EnumValue {
    match s
    case STARTED => Tuple1(1)
    case CLONE_REPO => Tuple1(2)
    case RETRIEVE_FILES => Tuple1(3)
    case LINT_FILES => Tuple1(4)
    case REPORT => Tuple1(5)
    case FINISHED => Int(6)
  }

  /** The member's name, which is also the status text the job table stores. */
  function Name(s: ProcessState): string {
    match s
    case STARTED => "STARTED"
    case CLONE_REPO => "CLONE_REPO"
    case RETRIEVE_FILES => "RETRIEVE_FILES"
    case LINT_FILES => "LINT_FILES"
    case REPORT => "REPORT"
    case FINISHED => "FINISHED"
  }

  /** Position in declaration order. */
  function Ordinal(s: ProcessState): (i: nat)
    ensures i < |Members| && Members[i] == s
  {
    match s
    case STARTED => 0
    case CLONE_REPO => 1
    case RETRIEVE_FILES => 2
    case LINT_FILES => 3
    case REPORT => 4
    case FINISHED => 5
  }

  /** The intended progression the declaration comments describe. */
  function Next(s: ProcessState): (t: Option<ProcessState>)
    ensures t.Some? <==> s != FINISHED
    ensures t.Some? ==> Ordinal(t.value) == Ordinal(s) + 1
  {
    if s == FINISHED then None else Some(Members[Ordinal(s) + 1])
  }

  /** Exactly six members, each listed once, and the values tell them apart:
      five one-element tuples (1,) to (5,) and the plain integer 6. */
  lemma MembersAndValues()
    ensures |Members| == 6
    ensures forall i, j :: 0 <= i < j < |Members| ==> Members[i] != Members[j]
    ensures forall s :: s in Members
    ensures forall s, t :: Value(s) == Value(t) ==> s == t
    ensures forall s :: Value(s).Tuple1? <==> s != FINISHED
    ensures forall s :: Value(s).n == Ordinal(s) + 1
  {
    forall s ensures s in Members { assert Members[Ordinal(s)] == s; }
  }

  /** Names tell the members apart. */
  lemma NamesDistinct(s: ProcessState, t: ProcessState)
    ensures Name(s) == Name(t) <==> s == t
  {
  }

  /** Following the progression from STARTED visits every member once, in
      declaration order, and ends at FINISHED. */
  lemma ProgressionFollowsDeclaration()
    ensures forall i :: 0 <= i < |Members| - 1 ==> Next(Members[i]) == Some(Members[i + 1])
    ensures Next(Members[|Members| - 1]) == None
  {
  }
}
