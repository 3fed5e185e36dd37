/**
 * The GitHub status updater: a delegate that posts commit statuses with the
 * context "Lintable". It posts "pending" when the job starts, "pending" once
 * when the first file is linted, and "success" or "failure" with a summary
 * when the report arrives; every other notification is ignored.
 */
module StatusHandlers {
  import opened LintTypes
  import opened ProcessEvents

  const Context: string := "Lintable"

  /** One `create_status` call on the GitHub commit. */
  datatype CommitStatus = CommitStatus(state: string, targetUrl: string, description: string, context: string)

  /** What a StatusHandler holds: whether linting was announced, and the
      statuses posted so far, oldest first. */
  datatype StatusView = StatusView(lintingFiles: bool, posted: seq<CommitStatus>)

  const StartingText: string := "Starting linting process"
  const LintingText: string := "Linting files"

  /** Number of files whose list of findings is not empty. */
  function FilesWithErrors(r: LintReport): nat {
    if r == [] then 0 else (if r[0].errors != [] then 1 else 0) + FilesWithErrors(r[1..])
  }

  /** The report's summary line: files processed, then files with errors,
      separated by a tab and a space. */
  function Summary(processed: nat, withErrors: nat): string {
    "Total number of files processed: " + NatToString(processed)
      + "\t Files with errors: " + NatToString(withErrors)
  }

  /** The status posted for a report. */
  function Verdict(targetUrl: string, r: LintReport): CommitStatus {
    var k := FilesWithErrors(r);
    CommitStatus(if k == 0 then "success" else "failure", targetUrl, Summary(|r|, k), Context)
  }

  /** The effect of one notification on a StatusHandler. */
  function StatusAfter(targetUrl: string, v: StatusView, e: Event): StatusView {
    match e
    case Started =>
      v.(posted := v.posted + [CommitStatus("pending", targetUrl, StartingText, Context)])
    case LintFile(_, _) =>
      if v.lintingFiles then v
      else StatusView(true, v.posted + [CommitStatus("pending", targetUrl, LintingText, Context)])
    case Report(r) =>
      v.(posted := v.posted + [Verdict(targetUrl, r)])
    case _ => v
  }

  /** The effect of a sequence of notifications, first to last. */
  function StatusReplay(targetUrl: string, v: StatusView, es: seq<Event>): StatusView
    decreases |es|
  {
    if es == [] then v else StatusReplay(targetUrl, StatusAfter(targetUrl, v, es[0]), es[1..])
  }

  lemma {:induction false} StatusReplaySnoc(targetUrl: string, v: StatusView, es: seq<Event>, e: Event)
    ensures StatusReplay(targetUrl, v, es + [e]) == StatusAfter(targetUrl, StatusReplay(targetUrl, v, es), e)
    decreases |es|
  {
    if es != [] {
      assert (es + [e])[1..] == es[1..] + [e];
      StatusReplaySnoc(targetUrl, StatusAfter(targetUrl, v, es[0]), es[1..], e);
    }
  }

  /** No file has findings exactly when the count is 0; every file has some
      exactly when the count is the number of files. */
  lemma {:induction false} FilesWithErrorsBounds(r: LintReport)
    ensures FilesWithErrors(r) <= |r|
    ensures FilesWithErrors(r) == 0 <==> forall i :: 0 <= i < |r| ==> r[i].errors == []
    ensures FilesWithErrors(r) == |r| <==> forall i :: 0 <= i < |r| ==> r[i].errors != []
  {
    if r != [] {
      FilesWithErrorsBounds(r[1..]);
      assert forall i :: 1 <= i < |r| ==> r[i] == r[1..][i - 1];
    }
  }

  /** A report posts "success" exactly when no file has findings, and
      "failure" otherwise, with the counts in its summary. */
  lemma VerdictSpec(targetUrl: string, r: LintReport)
    ensures Verdict(targetUrl, r).state == "success" <==> forall i :: 0 <= i < |r| ==> r[i].errors == []
    ensures Verdict(targetUrl, r).state != "success" ==> Verdict(targetUrl, r).state == "failure"
    ensures Verdict(targetUrl, r).description == Summary(|r|, FilesWithErrors(r))
    ensures Verdict(targetUrl, r).context == Context && Verdict(targetUrl, r).targetUrl == targetUrl
  {
    FilesWithErrorsBounds(r);
  }

  /** Number of posted statuses that announce linting. */
  function LintingPosts(ps: seq<CommitStatus>): nat {
    if ps == [] then 0 else LintingPosts(ps[..|ps| - 1]) + (if ps[|ps| - 1].description == LintingText then 1 else 0)
  }

  predicate HasLintFile(es: seq<Event>) {
    exists i :: 0 <= i < |es| && es[i].LintFile?
  }

  /** Statuses are only ever added: a replay extends what was posted. */
  lemma {:induction false} ReplayAppends(targetUrl: string, v: StatusView, es: seq<Event>)
    ensures |v.posted| <= |StatusReplay(targetUrl, v, es).posted|
    ensures StatusReplay(targetUrl, v, es).posted[..|v.posted|] == v.posted
    decreases |es|
  {
    if es != [] {
      var v1 := StatusAfter(targetUrl, v, es[0]);
      ReplayAppends(targetUrl, v1, es[1..]);
      assert v1.posted[..|v.posted|] == v.posted;
    }
  }

  /** One notification announces linting when it is the first file linted,
      and posts nothing else that reads as the announcement. */
  lemma LintingStep(targetUrl: string, v: StatusView, e: Event)
    ensures StatusAfter(targetUrl, v, e).lintingFiles == (v.lintingFiles || e.LintFile?)
    ensures LintingPosts(StatusAfter(targetUrl, v, e).posted)
      == LintingPosts(v.posted) + (if !v.lintingFiles && e.LintFile? then 1 else 0)
  {
    var p := StatusAfter(targetUrl, v, e).posted;
    if p != v.posted {
      assert p[..|p| - 1] == v.posted;
      match e
      case Started =>
        assert StartingText[0] != LintingText[0];
      case Report(r) =>
        assert Summary(|r|, FilesWithErrors(r))[0] != LintingText[0];
      case _ =>
    }
  }

  /** Some file is linted in a non-empty sequence exactly when the first
      notification lints one or some later one does. */
  lemma HasLintFileCons(es: seq<Event>)
    requires es != []
    ensures HasLintFile(es) <==> es[0].LintFile? || HasLintFile(es[1..])
  {
    if HasLintFile(es) && !es[0].LintFile? {
      var i :| 0 <= i < |es| && es[i].LintFile?;
      assert es[1..][i - 1] == es[i];
    }
    if HasLintFile(es[1..]) {
      var i :| 0 <= i < |es[1..]| && es[1..][i].LintFile?;
      assert es[i + 1] == es[1..][i];
    }
  }

  /** Linting is announced once per job at most: over any sequence of
      notifications, a handler that has not announced it yet posts the
      announcement exactly once if some file is linted and never otherwise,
      and one that has announced it never posts it again. */
  lemma {:induction false} LintingAnnouncedOnce(targetUrl: string, v: StatusView, es: seq<Event>)
    ensures var w := StatusReplay(targetUrl, v, es);
      && w.lintingFiles == (v.lintingFiles || HasLintFile(es))
      && LintingPosts(w.posted) == LintingPosts(v.posted) + (if !v.lintingFiles && HasLintFile(es) then 1 else 0)
    decreases |es|
  {
    if es != [] {
      LintingStep(targetUrl, v, es[0]);
      HasLintFileCons(es);
      LintingAnnouncedOnce(targetUrl, StatusAfter(targetUrl, v, es[0]), es[1..]);
    }
  }

  /** The delegate that posts commit statuses to GitHub. */
  class StatusHandler {
    const targetUrl: string
    var lintingFiles: bool
    /** The statuses created on the commit, oldest first. */
    var posted: seq<CommitStatus>

    constructor (targetUrl: string)
      ensures this.targetUrl == targetUrl
      ensures View() == StatusView(false, [])
    {
      this.targetUrl := targetUrl;
      lintingFiles := false;
      posted := [];
    }

    function View(): StatusView
      reads this
    {
      StatusView(lintingFiles, posted)
    }

    /** `started`: announces the job. It returns nothing, so the comment id
        the ProcessHandler keeps is always None. */
    method Started() returns (commentId: Option<int>)
      modifies this
      ensures View() == StatusAfter(targetUrl, old(View()), Event.Started)
      ensures commentId == None
    {
      posted := posted + [CommitStatus("pending", targetUrl, StartingText, Context)];
      commentId := None;
    }

    /** `lint_file`: announces linting the first time only. */
    method LintFile(linter: string, file: string)
      modifies this
      ensures View() == StatusAfter(targetUrl, old(View()), Event.LintFile(linter, file))
    {
      if !lintingFiles {
        lintingFiles := true;
        posted := posted + [CommitStatus("pending", targetUrl, LintingText, Context)];
      }
    }

    /** `report`: posts the verdict and the summary. */
    method Report(report: LintReport)
      modifies this
      ensures View() == StatusAfter(targetUrl, old(View()), Event.Report(report))
    {
      var processed := |report|;
      var withErrors := FilesWithErrors(report);
      var state := if withErrors == 0 then "success" else "failure";
      posted := posted + [CommitStatus(state, targetUrl, Summary(processed, withErrors), Context)];
    }
  }
}
