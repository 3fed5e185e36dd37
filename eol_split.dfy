/**
 * Python's `re.split` with the line-break patterns `(\.*)\n`, `(\.*)\r\n` and
 * `(\.*)\r` that the older checkers split their text with. Each match is a
 * (possibly empty) run of dots followed by the terminator; the dots are a
 * capture group, so the result alternates text between matches and the
 * captured dots: [text0, dots0, text1, dots1, ..., textN].
 */
module EolSplit {
  import opened LintTypes

  /** The three compiled line-break patterns: UNIX, Windows and classic Mac. */
  datatype Eol = Lf | CrLf | Cr

  function Terminator(e: Eol): (t: string)
    ensures t != []
  {
    match e
    case Lf => "\n"
    case CrLf => "\r\n"
    case Cr => "\r"
  }

  /** End of the greedy `\.*` that starts at `i`. */
  function DotRun(s: string, i: nat): (k: nat)
    requires i <= |s|
    ensures i <= k <= |s|
    ensures k == |s| || s[k] != '.'
    decreases |s| - i
  {
    if i < |s| && s[i] == '.' then DotRun(s, i + 1) else i
  }

  /** Every character of the greedy run is a dot. */
  lemma {:induction false} DotRunDots(s: string, i: nat)
    requires i <= |s|
    ensures forall j :: i <= j < DotRun(s, i) ==> s[j] == '.'
    decreases |s| - i
  {
    if i < |s| && s[i] == '.' {
      DotRunDots(s, i + 1);
    }
  }

  /** The greedy run, as a string, is all dots. */
  lemma DotRunAllDots(s: string, i: nat)
    requires i <= |s|
    ensures AllDots(s[i..DotRun(s, i)])
  {
    var k := DotRun(s, i);
    DotRunDots(s, i);
    forall j | 0 <= j < k - i
      ensures s[i..k][j] == '.'
    {
      assert s[i..k][j] == s[i + j];
    }
  }

  /** At a newline, the UNIX pattern matches with no dots. */
  lemma LfAt(s: string, i: nat)
    requires i < |s| && s[i] == '\n'
    ensures DotRun(s, i) == i && MatchesAt(s, i, "\n")
  {
    assert s[i..i + 1] == "\n";
  }

  /** When the UNIX pattern matches, a newline ends the dots. */
  lemma LfMatched(s: string, i: nat)
    requires i <= |s| && MatchesAt(s, i, "\n")
    ensures DotRun(s, i) < |s| && s[DotRun(s, i)] == '\n'
  {
    var k := DotRun(s, i);
    assert s[k..k + 1][0] == s[k];
  }

  /** The terminator follows the dots at `k`. */
  predicate TerminatorAt(s: string, k: nat, t: string) {
    k + |t| <= |s| && s[k..k + |t|] == t
  }

  /** The pattern matches at `i`: backing off the greedy dots cannot help,
      because a shorter run is followed by a dot, never by a terminator. */
  predicate MatchesAt(s: string, i: nat, t: string)
    requires i <= |s|
  {
    TerminatorAt(s, DotRun(s, i), t)
  }

  /** The split of `s[start..]`, where every position in `start..i` has
      already been tried without a match. */
  function SplitFrom(s: string, t: string, start: nat, i: nat): (r: seq<string>)
    requires t != []
    requires start <= i <= |s|
    ensures |r| % 2 == 1
    decreases |s| - i
  {
    if i == |s| then [s[start..]]
    else if MatchesAt(s, i, t) then
      var k := DotRun(s, i);
      [s[start..i], s[i..k]] + SplitFrom(s, t, k + |t|, k + |t|)
    else SplitFrom(s, t, start, i + 1)
  }

  /** `eol.split(s)` */
  function Split(s: string, e: Eol): (r: seq<string>)
    ensures |r| % 2 == 1
  {
    SplitFrom(s, Terminator(e), 0, 0)
  }

  /** Every captured group, at the odd positions, is a run of dots. */
  predicate DotsAtOdd(r: seq<string>) {
    forall j :: 0 <= j < |r| / 2 ==> AllDots(r[2 * j + 1])
  }

  lemma DotsCons(a: string, b: string, rest: seq<string>)
    requires AllDots(b) && DotsAtOdd(rest)
    ensures DotsAtOdd([a, b] + rest)
  {
    var r := [a, b] + rest;
    forall j | 0 <= j < |r| / 2 ensures AllDots(r[2 * j + 1]) {
      if j > 0 {
        assert r[2 * j + 1] == rest[2 * (j - 1) + 1];
      }
    }
  }

  /** A match adds a run of dots in front of the rest of the split. */
  lemma SplitFromMatchDots(s: string, t: string, start: nat, i: nat)
    requires t != []
    requires start <= i < |s| && MatchesAt(s, i, t)
    requires DotsAtOdd(SplitFrom(s, t, DotRun(s, i) + |t|, DotRun(s, i) + |t|))
    ensures DotsAtOdd(SplitFrom(s, t, start, i))
  {
    DotRunAllDots(s, i);
    SplitFromMatch(s, t, start, i);
    DotsCons(s[start..i], s[i..DotRun(s, i)], SplitFrom(s, t, DotRun(s, i) + |t|, DotRun(s, i) + |t|));
  }

  lemma {:induction false} SplitFromDots(s: string, t: string, start: nat, i: nat)
    requires t != []
    requires start <= i <= |s|
    ensures DotsAtOdd(SplitFrom(s, t, start, i))
    decreases |s| - i
  {
    if i < |s| {
      if MatchesAt(s, i, t) {
        var k := DotRun(s, i);
        SplitFromDots(s, t, k + |t|, k + |t|);
        SplitFromMatchDots(s, t, start, i);
      } else {
        SplitFromDots(s, t, start, i + 1);
      }
    }
  }

  /** Odd elements of a split are the captured dot runs. */
  lemma SplitDots(s: string, e: Eol)
    ensures DotsAtOdd(Split(s, e))
  {
    SplitFromDots(s, Terminator(e), 0, 0);
  }

  /** Rejoins a split: text, dots and a terminator, repeated, then the last text. */
  function Join(p: seq<string>, t: string): string
    requires |p| % 2 == 1
    decreases |p|
  {
    if |p| == 1 then p[0] else p[0] + p[1] + t + Join(p[2..], t)
  }

  /** One step of the scan when the pattern matches at `i`. */
  lemma SplitFromMatch(s: string, t: string, start: nat, i: nat)
    requires t != []
    requires start <= i < |s| && MatchesAt(s, i, t)
    ensures SplitFrom(s, t, start, i)
      == [s[start..i], s[i..DotRun(s, i)]] + SplitFrom(s, t, DotRun(s, i) + |t|, DotRun(s, i) + |t|)
  {
  }

  /** A match adds a text and a dots element. */
  lemma SplitFromMatchLength(s: string, t: string, start: nat, i: nat)
    requires t != []
    requires start <= i < |s| && MatchesAt(s, i, t)
    ensures |SplitFrom(s, t, start, i)| == 2 + |SplitFrom(s, t, DotRun(s, i) + |t|, DotRun(s, i) + |t|)|
  {
    SplitFromMatch(s, t, start, i);
  }

  /** One step of the scan when it does not. */
  lemma SplitFromSkip(s: string, t: string, start: nat, i: nat)
    requires t != []
    requires start <= i < |s| && !MatchesAt(s, i, t)
    ensures SplitFrom(s, t, start, i) == SplitFrom(s, t, start, i + 1)
  {
  }

  lemma JoinCons(a: string, b: string, rest: seq<string>, t: string)
    requires |rest| % 2 == 1
    ensures Join([a, b] + rest, t) == a + b + t + Join(rest, t)
  {
    assert ([a, b] + rest)[2..] == rest;
  }

  /** Text, dots, terminator and the remainder make up the suffix again. */
  lemma Reassemble(s: string, start: nat, i: nat, k: nat, t: string)
    requires start <= i <= k && k + |t| <= |s| && s[k..k + |t|] == t
    ensures s[start..] == s[start..i] + s[i..k] + t + s[k + |t|..]
  {
    assert s[start..] == s[start..i] + s[i..k] + s[k..k + |t|] + s[k + |t|..];
  }

  /** A match's text and dots, the terminator and the rejoined remainder
      give back the suffix from `start`. */
  lemma JoinMatchStep(s: string, t: string, start: nat, i: nat, k: nat, rest: seq<string>)
    requires start <= i <= k && k + |t| <= |s| && s[k..k + |t|] == t
    requires |rest| % 2 == 1 && Join(rest, t) == s[k + |t|..]
    ensures Join([s[start..i], s[i..k]] + rest, t) == s[start..]
  {
    JoinCons(s[start..i], s[i..k], rest, t);
    Reassemble(s, start, i, k, t);
  }

  /** A match rejoins when the rest of the split does. */
  lemma SplitFromMatchJoin(s: string, t: string, start: nat, i: nat)
    requires t != []
    requires start <= i < |s| && MatchesAt(s, i, t)
    requires Join(SplitFrom(s, t, DotRun(s, i) + |t|, DotRun(s, i) + |t|), t) == s[DotRun(s, i) + |t|..]
    ensures Join(SplitFrom(s, t, start, i), t) == s[start..]
  {
    var k := DotRun(s, i);
    var rest := SplitFrom(s, t, k + |t|, k + |t|);
    SplitFromMatch(s, t, start, i);
    JoinMatchStep(s, t, start, i, k, rest);
  }

  lemma {:induction false} SplitFromJoin(s: string, t: string, start: nat, i: nat)
    requires t != []
    requires start <= i <= |s|
    ensures Join(SplitFrom(s, t, start, i), t) == s[start..]
    decreases |s| - i, 1
  {
    if i == |s| {
      return;
    }
    if MatchesAt(s, i, t) {
      SplitFromJoinMatch(s, t, start, i);
    } else {
      SplitFromSkip(s, t, start, i);
      SplitFromJoin(s, t, start, i + 1);
    }
  }

  /** The rejoining when the pattern matches at `i`. */
  lemma {:induction false} SplitFromJoinMatch(s: string, t: string, start: nat, i: nat)
    requires t != []
    requires start <= i < |s| && MatchesAt(s, i, t)
    ensures Join(SplitFrom(s, t, start, i), t) == s[start..]
    decreases |s| - i, 0
  {
    var k := DotRun(s, i);
    SplitFromJoin(s, t, k + |t|, k + |t|);
    SplitFromMatchJoin(s, t, start, i);
  }

  /** Splitting loses nothing: rejoining with the terminator gives the text back. */
  lemma SplitJoin(s: string, e: Eol)
    ensures Join(Split(s, e), Terminator(e)) == s
  {
    SplitFromJoin(s, Terminator(e), 0, 0);
  }

  /** Number of '\n' characters from `i` on. */
  function NewlinesFrom(s: string, i: nat): nat
    requires i <= |s|
    decreases |s| - i
  {
    if i == |s| then 0 else (if s[i] == '\n' then 1 else 0) + NewlinesFrom(s, i + 1)
  }

  /** Number of '\n' characters. */
  function Newlines(s: string): nat {
    NewlinesFrom(s, 0)
  }

  predicate NoNewline(s: string) {
    forall j :: 0 <= j < |s| ==> s[j] != '\n'
  }

  lemma {:induction false} NewlinesAfterDots(s: string, i: nat, k: nat)
    requires i <= k < |s| && s[k] == '\n'
    requires forall j :: i <= j < k ==> s[j] == '.'
    ensures NewlinesFrom(s, i) == 1 + NewlinesFrom(s, k + 1)
    decreases k - i
  {
    if i < k {
      NewlinesAfterDots(s, i + 1, k);
    }
  }

  /** Where the UNIX pattern does not match, there is no newline. */
  lemma LfSkip(s: string, i: nat)
    requires i < |s| && !MatchesAt(s, i, "\n")
    ensures s[i] != '\n' && NewlinesFrom(s, i) == NewlinesFrom(s, i + 1)
  {
    if s[i] == '\n' {
      LfAt(s, i);
    }
  }

  /** A UNIX match consumes exactly one newline. */
  lemma NewlinesAtMatch(s: string, i: nat)
    requires i <= |s| && MatchesAt(s, i, "\n")
    ensures DotRun(s, i) < |s|
    ensures NewlinesFrom(s, i) == 1 + NewlinesFrom(s, DotRun(s, i) + 1)
  {
    LfMatched(s, i);
    DotRunDots(s, i);
    NewlinesAfterDots(s, i, DotRun(s, i));
  }

  lemma {:induction false} SplitFromLfLength(s: string, start: nat, i: nat)
    requires start <= i <= |s|
    ensures |SplitFrom(s, "\n", start, i)| == 2 * NewlinesFrom(s, i) + 1
    decreases |s| - i, 1
  {
    if i == |s| {
      return;
    }
    if MatchesAt(s, i, "\n") {
      SplitFromLfLengthMatch(s, start, i);
    } else {
      LfSkip(s, i);
      SplitFromSkip(s, "\n", start, i);
      SplitFromLfLength(s, start, i + 1);
    }
  }

  /** The count when the UNIX pattern matches at `i`. */
  lemma {:induction false} SplitFromLfLengthMatch(s: string, start: nat, i: nat)
    requires start <= i < |s| && MatchesAt(s, i, "\n")
    ensures |SplitFrom(s, "\n", start, i)| == 2 * NewlinesFrom(s, i) + 1
    decreases |s| - i, 0
  {
    var k := DotRun(s, i);
    NewlinesAtMatch(s, i);
    SplitFromMatchLength(s, "\n", start, i);
    SplitFromLfLength(s, k + 1, k + 1);
  }

  /** No text element (the even positions) holds a '\n'. */
  predicate TextsWithoutNewline(r: seq<string>)
    requires |r| % 2 == 1
    decreases |r|
  {
    NoNewline(r[0]) && (|r| == 1 || TextsWithoutNewline(r[2..]))
  }

  lemma TextsCons(a: string, b: string, rest: seq<string>)
    requires |rest| % 2 == 1 && NoNewline(a) && TextsWithoutNewline(rest)
    ensures TextsWithoutNewline([a, b] + rest)
  {
    assert ([a, b] + rest)[2..] == rest;
  }

  /** A match keeps the texts clean when the text before it is. */
  lemma SplitFromMatchTexts(s: string, t: string, start: nat, i: nat)
    requires t != []
    requires start <= i < |s| && MatchesAt(s, i, t) && NoNewline(s[start..i])
    requires TextsWithoutNewline(SplitFrom(s, t, DotRun(s, i) + |t|, DotRun(s, i) + |t|))
    ensures TextsWithoutNewline(SplitFrom(s, t, start, i))
  {
    SplitFromMatch(s, t, start, i);
    TextsCons(s[start..i], s[i..DotRun(s, i)], SplitFrom(s, t, DotRun(s, i) + |t|, DotRun(s, i) + |t|));
  }

  /** The recursive statement read position by position. */
  lemma {:induction false} TextsAt(r: seq<string>)
    requires |r| % 2 == 1 && TextsWithoutNewline(r)
    ensures forall j :: 0 <= j <= |r| / 2 ==> NoNewline(r[2 * j])
    decreases |r|
  {
    if |r| > 1 {
      TextsAt(r[2..]);
      forall j | 1 <= j <= |r| / 2 ensures NoNewline(r[2 * j]) {
        assert r[2 * j] == r[2..][2 * (j - 1)];
      }
    }
  }

  lemma {:induction false} SplitFromLfBodies(s: string, start: nat, i: nat)
    requires start <= i <= |s|
    requires NoNewline(s[start..i])
    ensures TextsWithoutNewline(SplitFrom(s, "\n", start, i))
    decreases |s| - i, 1
  {
    if i == |s| {
      assert SplitFrom(s, "\n", start, i) == [s[start..]];
    } else if MatchesAt(s, i, "\n") {
      SplitFromLfBodiesMatch(s, start, i);
    } else {
      LfSkip(s, i);
      assert s[start..i + 1] == s[start..i] + [s[i]];
      SplitFromSkip(s, "\n", start, i);
      SplitFromLfBodies(s, start, i + 1);
    }
  }

  /** The text elements when the UNIX pattern matches at `i`. */
  lemma {:induction false} SplitFromLfBodiesMatch(s: string, start: nat, i: nat)
    requires start <= i < |s| && MatchesAt(s, i, "\n")
    requires NoNewline(s[start..i])
    ensures TextsWithoutNewline(SplitFrom(s, "\n", start, i))
    decreases |s| - i, 0
  {
    var k := DotRun(s, i);
    LfMatched(s, i);
    SplitFromLfBodies(s, k + 1, k + 1);
    SplitFromMatchTexts(s, "\n", start, i);
  }

  /** Under the UNIX pattern there is one match per '\n': the split has
      2n + 1 elements for n newlines, and no text element holds a '\n'. */
  lemma SplitLfShape(s: string)
    ensures |Split(s, Lf)| == 2 * Newlines(s) + 1
    ensures forall j :: 0 <= j <= |Split(s, Lf)| / 2 ==> NoNewline(Split(s, Lf)[2 * j])
  {
    SplitFromLfLength(s, 0, 0);
    SplitFromLfBodies(s, 0, 0);
    TextsAt(Split(s, Lf));
  }

  /** Text without a '\n' is not split at all. */
  lemma SplitLfNoNewline(s: string)
    requires NoNewline(s)
    ensures Split(s, Lf) == [s]
  {
    SplitLfShape(s);
    SplitJoin(s, Lf);
    NoNewlineCount(s, 0);
  }

  lemma {:induction false} NoNewlineCount(s: string, i: nat)
    requires i <= |s| && NoNewline(s)
    ensures NewlinesFrom(s, i) == 0
    decreases |s| - i
  {
    if i < |s| {
      NoNewlineCount(s, i + 1);
    }
  }
}
