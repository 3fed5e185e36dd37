/**
 * The database delegate. On `started` it looks the repository up and creates
 * the job row; later notifications move the job's status along and save it;
 * the report becomes one report row per finding. Every notification but
 * `started` and `retrieve_changed_file_set` touches the job, so before a job
 * exists they fail the way attribute access on None does.
 */
module DbHandlers {
  import opened LintTypes
  import opened ProcessEvents

  /** The job row as the handler holds it. */
  datatype Job = Job(jobId: string, ended: bool, status: string)

  /** One row of the report table. `job` is the job the row belongs to. */
  datatype ReportRow = ReportRow(job: string, fileName: string, column: int, lineNumber: int, message: string)

  /** What a DBHandler holds and has written: the repository it found, its
      job, the report rows it created, and every write of the job row, in
      order. */
  datatype DbView = DbView(repoFk: Option<int>, job: Option<Job>, rows: seq<ReportRow>, saves: seq<Job>)

  /** The rows for one file's findings, in order. */
  function EntryRows(jobId: string, filename: string, errors: seq<LintError>): (rows: seq<ReportRow>)
    ensures |rows| == |errors|
  {
    if errors == [] then []
    else
      var e := errors[|errors| - 1];
      EntryRows(jobId, filename, errors[..|errors| - 1]) + [ReportRow(jobId, filename, e.column, e.lineNumber, e.msg)]
  }

  /** The rows for a whole report: file by file, finding by finding. */
  function ReportRows(jobId: string, r: LintReport): seq<ReportRow> {
    if r == [] then []
    else ReportRows(jobId, r[..|r| - 1]) + EntryRows(jobId, r[|r| - 1].filename, r[|r| - 1].errors)
  }

  /** Set the job's status and save it; there must be a job. */
  function SetStatus(v: DbView, status: string): (DbView, Outcome) {
    if v.job.None? then (v, Raised(AttributeError("status")))
    else
      var j := v.job.value.(status := status);
      (v.(job := Some(j), saves := v.saves + [j]), Ok)
  }

  /** The effect of one notification on a DBHandler for job `uuid` whose
      repository id is `repoId`; `repos` are the ids the lookup can find.
      Only the handler's own job is in view: `started` breaks the uniqueness
      of `Jobs.job_id` when that job already has the id `uuid`, and jobs of
      other handlers are not modelled. */
  function DbAfter(repos: set<int>, repoId: int, uuid: string, v: DbView, e: Event): (DbView, Outcome) {
    match e
    case Started =>
      if repoId !in repos then
        (v.(repoFk := None), Raised(AttributeError("owner_id")))
      else if v.job.Some? && v.job.value.jobId == uuid then
        (v.(repoFk := Some(repoId)), Raised(IntegrityError("jobs")))
      else
        var j := Job(uuid, false, "STARTED");
        (v.(repoFk := Some(repoId), job := Some(j), saves := v.saves + [j, j]), Ok)
    case CloneRepo(_) => SetStatus(v, "CLONE_REPO")
    case RetrieveChangedFileSet(_, _) => (v, Ok)
    case RetrieveFileFromCommit(_, _) => SetStatus(v, "RETRIEVE_FILES")
    case LintFile(_, _) =>
      if v.job.Some? && v.job.value.status == "LINT_FILES" then (v, Ok) else SetStatus(v, "LINT_FILES")
    case Report(r) =>
      if v.job.None? then
        (v, Raised(if TotalErrors(r) > 0 then IntegrityError("report") else AttributeError("status")))
      else
        SetStatus(v.(rows := v.rows + ReportRows(v.job.value.jobId, r)), "REPORT")
    case Finish =>
      if v.job.None? then (v, Raised(AttributeError("end_time")))
      else
        var j := v.job.value.(ended := true, status := "FINISHED");
        (v.(job := Some(j), saves := v.saves + [j]), Ok)
  }

  /** The effect of a sequence of notifications, first to last, up to the
      first one that raises. */
  function DbReplay(repos: set<int>, repoId: int, uuid: string, v: DbView, es: seq<Event>): (DbView, Outcome)
    decreases |es|
  {
    if es == [] then (v, Ok)
    else
      var (w, o) := DbAfter(repos, repoId, uuid, v, es[0]);
      if o.Raised? then (w, o) else DbReplay(repos, repoId, uuid, w, es[1..])
  }

  lemma {:induction false} DbReplaySnoc(repos: set<int>, repoId: int, uuid: string, v: DbView, es: seq<Event>, e: Event)
    requires DbReplay(repos, repoId, uuid, v, es).1 == Ok
    ensures DbReplay(repos, repoId, uuid, v, es + [e]) == DbAfter(repos, repoId, uuid, DbReplay(repos, repoId, uuid, v, es).0, e)
    decreases |es|
  {
    if es != [] {
      assert (es + [e])[1..] == es[1..] + [e];
      var (w, o) := DbAfter(repos, repoId, uuid, v, es[0]);
      DbReplaySnoc(repos, repoId, uuid, w, es[1..], e);
    }
  }

  /** A file's rows are its findings, one each, in order, under its name. */
  lemma {:induction false} EntryRowsSpec(jobId: string, filename: string, errors: seq<LintError>)
    ensures forall i :: 0 <= i < |errors| ==>
      EntryRows(jobId, filename, errors)[i]
        == ReportRow(jobId, filename, errors[i].column, errors[i].lineNumber, errors[i].msg)
    decreases |errors|
  {
    if errors != [] {
      EntryRowsSpec(jobId, filename, errors[..|errors| - 1]);
    }
  }

  lemma {:induction false} TotalErrorsSnoc(r: LintReport)
    requires r != []
    ensures TotalErrors(r) == TotalErrors(r[..|r| - 1]) + |r[|r| - 1].errors|
  {
    if |r| > 1 {
      TotalErrorsSnoc(r[1..]);
      assert r[1..][..|r| - 2] == r[..|r| - 1][1..];
    }
  }

  /** A report writes exactly one row per finding. */
  lemma {:induction false} ReportRowsCount(jobId: string, r: LintReport)
    ensures |ReportRows(jobId, r)| == TotalErrors(r)
  {
    if r != [] {
      ReportRowsCount(jobId, r[..|r| - 1]);
      TotalErrorsSnoc(r);
    }
  }

  /** No findings at all exactly when every file's list is empty. */
  lemma {:induction false} TotalErrorsZero(r: LintReport)
    ensures TotalErrors(r) == 0 <==> forall i :: 0 <= i < |r| ==> r[i].errors == []
  {
    if r != [] {
      TotalErrorsZero(r[1..]);
      assert forall i :: 1 <= i < |r| ==> r[i] == r[1..][i - 1];
    }
  }

  /** Unless the job `uuid` already exists, a missing repository fails
      `started` on its owner and leaves the job as it was, and a found one
      creates the job. */
  lemma StartedNeedsRepository(repos: set<int>, repoId: int, uuid: string, v: DbView)
    requires v.job.None? || v.job.value.jobId != uuid
    ensures DbAfter(repos, repoId, uuid, v, Started).1.Ok? <==> repoId in repos
    ensures repoId !in repos ==>
      DbAfter(repos, repoId, uuid, v, Started).1 == Raised(AttributeError("owner_id"))
      && DbAfter(repos, repoId, uuid, v, Started).0.job == v.job
    ensures repoId in repos ==>
      DbAfter(repos, repoId, uuid, v, Started).0.job == Some(Job(uuid, false, "STARTED"))
  {
  }

  /** Only the first of a run of `lint_file` notifications writes; the next
      ones change nothing. */
  lemma LintFileIdempotent(repos: set<int>, repoId: int, uuid: string, v: DbView, a: Event, b: Event)
    requires a.LintFile? && b.LintFile?
    requires DbAfter(repos, repoId, uuid, v, a).1.Ok?
    ensures var w := DbAfter(repos, repoId, uuid, v, a).0;
      DbAfter(repos, repoId, uuid, w, b) == (w, Ok)
  {
  }

  /** Before any job exists, the report fails: on the first row's missing job
      when there are findings, on the job's status otherwise. Nothing is
      written either way. */
  lemma ReportWithoutJob(repos: set<int>, repoId: int, uuid: string, v: DbView, r: LintReport)
    requires v.job.None?
    ensures DbAfter(repos, repoId, uuid, v, Report(r)).0 == v
    ensures DbAfter(repos, repoId, uuid, v, Report(r)).1
      == Raised(if exists i :: 0 <= i < |r| && r[i].errors != [] then IntegrityError("report") else AttributeError("status"))
  {
    TotalErrorsZero(r);
  }

  /** With a job, a report adds one row per finding and marks the job REPORT. */
  lemma ReportWithJob(repos: set<int>, repoId: int, uuid: string, v: DbView, r: LintReport)
    requires v.job.Some?
    ensures var (w, o) := DbAfter(repos, repoId, uuid, v, Report(r));
      && o == Ok
      && |w.rows| == |v.rows| + TotalErrors(r)
      && w.rows[..|v.rows|] == v.rows
      && w.job == Some(v.job.value.(status := "REPORT"))
  {
    ReportRowsCount(v.job.value.jobId, r);
    var w := DbAfter(repos, repoId, uuid, v, Report(r)).0;
    assert w.rows == v.rows + ReportRows(v.job.value.jobId, r);
  }

  /** The database delegate. */
  class DBHandler {
    const repoId: int
    /** The repository ids that the lookup finds in the database. */
    const repos: set<int>
    var repoFk: Option<int>
    var job: Option<Job>
    /** The report rows created, oldest first. */
    var rows: seq<ReportRow>
    /** Every write of the job row, oldest first. */
    var saves: seq<Job>

    constructor (repoId: int, repos: set<int>)
      ensures this.repoId == repoId && this.repos == repos
      ensures View() == DbView(None, None, [], [])
    {
      this.repoId := repoId;
      this.repos := repos;
      repoFk := None;
      job := None;
      rows := [];
      saves := [];
    }

    function View(): DbView
      reads this
    {
      DbView(repoFk, job, rows, saves)
    }

    /** `started`: finds the repository and creates the job. */
    method Started(uuid: string) returns (outcome: Outcome)
      modifies this
      ensures (View(), outcome) == DbAfter(repos, repoId, uuid, old(View()), Event.Started)
    {
      if repoId !in repos {
        repoFk := None;
        return Raised(AttributeError("owner_id"));
      }
      repoFk := Some(repoId);
      if job.Some? && job.value.jobId == uuid {
        return Raised(IntegrityError("jobs"));
      }
      var j := Job(uuid, false, "STARTED");
      job := Some(j);
      saves := saves + [j, j];
      outcome := Ok;
    }

    /** Set the job's status and save it. */
    method SaveStatus(status: string) returns (outcome: Outcome)
      modifies this
      ensures (View(), outcome) == SetStatus(old(View()), status)
    {
      if job.None? {
        return Raised(AttributeError("status"));
      }
      job := Some(job.value.(status := status));
      saves := saves + [job.value];
      outcome := Ok;
    }

    method CloneRepo(localPath: string) returns (outcome: Outcome)
      modifies this
      ensures (View(), outcome) == DbAfter(repos, repoId, "", old(View()), Event.CloneRepo(localPath))
    {
      outcome := SaveStatus("CLONE_REPO");
    }

    method RetrieveFileFromCommit(file: string, commit: Option<Sha>) returns (outcome: Outcome)
      modifies this
      ensures (View(), outcome) == DbAfter(repos, repoId, "", old(View()), Event.RetrieveFileFromCommit(file, commit))
    {
      outcome := SaveStatus("RETRIEVE_FILES");
    }

    /** `lint_file`: writes only when the status changes. */
    method LintFile(linter: string, file: string) returns (outcome: Outcome)
      modifies this
      ensures (View(), outcome) == DbAfter(repos, repoId, "", old(View()), Event.LintFile(linter, file))
    {
      if job.Some? && job.value.status == "LINT_FILES" {
        return Ok;
      }
      outcome := SaveStatus("LINT_FILES");
    }

    /** The inner loop of `report`: one row per finding of one file, in
        order. */
    method InsertRows(jobId: string, filename: string, errors: seq<LintError>)
      modifies this`rows
      ensures rows == old(rows) + EntryRows(jobId, filename, errors)
    {
      for j := 0 to |errors|
        invariant rows == old(rows) + EntryRows(jobId, filename, errors[..j])
      {
        var e := errors[j];
        var row := ReportRow(jobId, filename, e.column, e.lineNumber, e.msg);
        AppendAssoc(old(rows), EntryRows(jobId, filename, errors[..j]), [row]);
        rows := rows + [row];
        assert errors[..j + 1][..j] == errors[..j];
      }
      assert errors[..|errors|] == errors;
    }

    /** `report`: one row per finding, file by file, then the status. */
    method Report(report: LintReport) returns (outcome: Outcome)
      modifies this
      ensures (View(), outcome) == DbAfter(repos, repoId, "", old(View()), Event.Report(report))
    {
      TotalErrorsZero(report);
      for i := 0 to |report|
        invariant job == old(job) && saves == old(saves) && repoFk == old(repoFk)
        invariant job.None? ==> rows == old(rows) && forall k :: 0 <= k < i ==> report[k].errors == []
        invariant job.Some? ==> rows == old(rows) + ReportRows(job.value.jobId, report[..i])
      {
        var entry := report[i];
        if job.None? {
          if entry.errors != [] {
            // the row would have no job: its non-null reference is refused
            return Raised(IntegrityError("report"));
          }
        } else {
          AppendAssoc(old(rows), ReportRows(job.value.jobId, report[..i]), EntryRows(job.value.jobId, entry.filename, entry.errors));
          InsertRows(job.value.jobId, entry.filename, entry.errors);
        }
        assert report[..i + 1][..i] == report[..i];
      }
      assert report[..|report|] == report;
      outcome := SaveStatus("REPORT");
    }

    /** `finish`: marks the job ended and FINISHED. */
    method Finish() returns (outcome: Outcome)
      modifies this
      ensures (View(), outcome) == DbAfter(repos, repoId, "", old(View()), Event.Finish)
    {
      if job.None? {
        return Raised(AttributeError("end_time"));
      }
      job := Some(job.value.(ended := true, status := "FINISHED"));
      saves := saves + [job.value];
      outcome := Ok;
    }
  }
}
