/**
 * The ProcessHandler: the hub between the git layer and the lint driver. It
 * keeps the job's stage, the commits and clone path it was told about and
 * the names of the files retrieved, and passes every notification to its
 * delegates in turn: the logger, the status updater, the database.
 *
 * The logger only writes log lines, so it has no state here. A missing
 * status updater or database stands for the do-nothing default. Only the
 * database delegate can raise, and it is called last, so a raise leaves the
 * handler and the status updater already updated.
 */
module ProcessHandlers {
  import opened LintTypes
  import opened ProcessStates
  import opened ProcessEvents
  import opened StatusHandlers
  import opened DbHandlers

  /** The stage a notification moves the job to. `started` and each
      retrieved file leave the stage where it is. */
  function StateAfter(s: ProcessState, e: Event): ProcessState {
    match e
    case Started => s
    case CloneRepo(_) => CLONE_REPO
    case RetrieveChangedFileSet(_, _) => RETRIEVE_FILES
    case RetrieveFileFromCommit(_, _) => s
    case LintFile(_, _) => LINT_FILES
    case Report(_) => REPORT
    case Finish => FINISHED
  }

  /** The stage after a sequence of notifications, first to last. */
  function StateReplay(s: ProcessState, es: seq<Event>): ProcessState
    decreases |es|
  {
    if es == [] then s else StateReplay(StateAfter(s, es[0]), es[1..])
  }

  /** The stage each kind of notification belongs to. */
  function Stage(e: Event): ProcessState {
    match e
    case Started => STARTED
    case CloneRepo(_) => CLONE_REPO
    case RetrieveChangedFileSet(_, _) => RETRIEVE_FILES
    case RetrieveFileFromCommit(_, _) => RETRIEVE_FILES
    case LintFile(_, _) => LINT_FILES
    case Report(_) => REPORT
    case Finish => FINISHED
  }

  /** Notifications in the order a job sends them: stages never go back, and
      files are only retrieved once the changed set was announced. */
  predicate InJobOrder(es: seq<Event>) {
    && (forall i, j :: 0 <= i < j < |es| ==> Ordinal(Stage(es[i])) <= Ordinal(Stage(es[j])))
    && (forall j :: 0 <= j < |es| && es[j].RetrieveFileFromCommit? ==>
          exists i :: 0 <= i < j && es[i].RetrieveChangedFileSet?)
  }

  /** Replaying a job from its first stage lands on the stage of its last
      notification; a job that sent `finish` is FINISHED. */
  lemma {:induction false} StateFollowsJobOrder(es: seq<Event>)
    requires InJobOrder(es) && es != []
    ensures StateReplay(STARTED, es) == Stage(es[|es| - 1])
    decreases |es|
  {
    var n := |es|;
    var init := es[..n - 1];
    var last := es[n - 1];
    assert es == init + [last];
    StateReplaySnoc(STARTED, init, last);
    if init == [] {
      assert !last.RetrieveFileFromCommit?;
    } else {
      assert InJobOrder(init) by {
        assert forall j :: 0 <= j < |init| ==> init[j] == es[j];
      }
      StateFollowsJobOrder(init);
      assert init[|init| - 1] == es[n - 2];
      assert Ordinal(Stage(es[n - 2])) <= Ordinal(Stage(last));
      if last.RetrieveFileFromCommit? {
        var i :| 0 <= i < n - 1 && es[i].RetrieveChangedFileSet?;
        assert Ordinal(Stage(es[i])) <= Ordinal(Stage(es[n - 2]));
      }
    }
  }

  lemma {:induction false} StateReplaySnoc(s: ProcessState, es: seq<Event>, e: Event)
    ensures StateReplay(s, es + [e]) == StateAfter(StateReplay(s, es), e)
    decreases |es|
  {
    if es != [] {
      assert (es + [e])[1..] == es[1..] + [e];
      StateReplaySnoc(StateAfter(s, es[0]), es[1..], e);
    }
  }

  /** The database's job status follows the handler's stage: when they agree
      before a notification the database accepts, they agree after it, except
      that announcing the changed file set moves only the handler, and
      `started` creates the job afresh. */
  lemma JobStatusTracksState(repos: set<int>, repoId: int, uuid: string, v: DbView, s: ProcessState, e: Event)
    requires v.job.Some? && v.job.value.status == Name(s)
    requires DbAfter(repos, repoId, uuid, v, e).1.Ok?
    requires !e.Started?
    requires e.RetrieveFileFromCommit? ==> s == RETRIEVE_FILES
    ensures var w := DbAfter(repos, repoId, uuid, v, e).0;
      && w.job.Some?
      && (e.RetrieveChangedFileSet? ==> w.job == v.job && StateAfter(s, e) == RETRIEVE_FILES)
      && (!e.RetrieveChangedFileSet? ==> w.job.value.status == Name(StateAfter(s, e)))
  {
  }

  /** Once a job exists, the database takes every notification but
      `started` and keeps its job. */
  lemma JobAcceptsAll(repos: set<int>, repoId: int, uuid: string, v: DbView, e: Event)
    requires v.job.Some? && !e.Started?
    ensures DbAfter(repos, repoId, uuid, v, e).1 == Ok
    ensures DbAfter(repos, repoId, uuid, v, e).0.job.Some?
  {
  }

  /** The attributes `__init__` gives a ProcessHandler; it has no others. */
  const AttributeNames: set<string> :=
    {"state", "uuid", "repo", "logger", "status_updater", "db", "a_commit", "b_commit", "local_path", "files", "comment_id"}

  class ProcessHandler {
    var state: ProcessState
    const uuid: string
    /** The repository the job is about, by name. */
    const repo: string
    const statusUpdater: StatusHandler?
    const db: DBHandler?
    var aCommit: Option<Sha>
    var bCommit: Option<Sha>
    var localPath: Option<string>
    /** Every file retrieved, in retrieval order, repeats included. */
    var files: seq<string>
    var commentId: Option<int>
    /** The notifications received so far. */
    ghost var events: seq<Event>
    /** What the delegates held when the handler was made. */
    ghost const statusStart: StatusView
    ghost const dbStart: DbView

    /** The delegates hold what replaying the notifications received so far
        on their starting state gives, and the database has not raised. */
    ghost predicate Tracked()
      reads this, statusUpdater, db
    {
      && (statusUpdater != null ==>
            statusUpdater.View() == StatusReplay(statusUpdater.targetUrl, statusStart, events))
      && (db != null ==> DbReplay(db.repos, db.repoId, uuid, dbStart, events) == (db.View(), Ok))
    }

    constructor (uuid: string, repo: string, statusUpdater: StatusHandler?, db: DBHandler?)
      ensures this.uuid == uuid && this.repo == repo
      ensures this.statusUpdater == statusUpdater && this.db == db
      ensures state == STARTED
      ensures aCommit == None && bCommit == None && localPath == None
      ensures files == [] && commentId == None && events == []
      ensures Tracked()
    {
      state := STARTED;
      this.uuid := uuid;
      this.repo := repo;
      this.statusUpdater := statusUpdater;
      this.db := db;
      aCommit := None;
      bCommit := None;
      localPath := None;
      files := [];
      commentId := None;
      events := [];
      statusStart := if statusUpdater != null then statusUpdater.View() else StatusView(false, []);
      dbStart := if db != null then db.View() else DbView(None, None, [], []);
    }

    /** The notification `e` was recorded and passed on: the stage moved as
        `StateAfter` says, the status updater and the database took it as
        their own specifications say, and the outcome is the database's. */
    twostate predicate Forwarded(e: Event, outcome: Outcome)
      reads this, statusUpdater, db
    {
      && events == old(events) + [e]
      && state == StateAfter(old(state), e)
      && (statusUpdater != null ==>
            statusUpdater.View() == StatusAfter(statusUpdater.targetUrl, old(statusUpdater.View()), e))
      && (db != null ==> (db.View(), outcome) == DbAfter(db.repos, db.repoId, uuid, old(db.View()), e))
      && (db == null ==> outcome == Ok)
    }

    /** Reading attribute `name` as the directory argument of
        `os.path.join`: a name `__init__` never assigns raises
        AttributeError. The strings `lint_github` stores, `repo` and
        `uuid`, are joined as they are, and so is `local_path` once
        `clone_repo` set it. Every other attribute (the stage, the
        delegates, the two commit objects, the file list, the comment id,
        `local_path` while still None) is no string, and joining it raises
        TypeError. */
    function PathAttribute(name: string): (r: (Outcome, string))
      reads this
      ensures name !in AttributeNames ==> r.0 == Raised(AttributeError(name))
      ensures r.0.Ok? <==> name == "repo" || name == "uuid" || (name == "local_path" && localPath.Some?)
      ensures name == "repo" ==> r == (Ok, repo)
      ensures name == "uuid" ==> r == (Ok, uuid)
      ensures name == "local_path" && localPath.Some? ==> r == (Ok, localPath.value)
      ensures name in AttributeNames && !r.0.Ok? ==> r.0 == Raised(TypeError("join"))
    {
      if name !in AttributeNames then (Raised(AttributeError(name)), "")
      else if name == "repo" then (Ok, repo)
      else if name == "uuid" then (Ok, uuid)
      else if name == "local_path" && localPath.Some? then (Ok, localPath.value)
      else (Raised(TypeError("join")), "")
    }

    /** The delegates take every notification but `started` without
        raising: there is no database, or its job exists. */
    predicate Ready()
      reads this, db
    {
      db == null || db.job.Some?
    }

    /** `started`: the status updater's answer becomes the comment id, which
        is always None, and the job begins. */
    method Started() returns (outcome: Outcome)
      modifies this, statusUpdater, db
      ensures Forwarded(Event.Started, outcome)
      ensures old(Tracked()) && outcome.Ok? ==> Tracked()
      ensures db == null || (db.repoId in db.repos && old(db.job).None?) ==> outcome == Ok && Ready()
      ensures commentId == None
      ensures aCommit == old(aCommit) && bCommit == old(bCommit)
      ensures localPath == old(localPath) && files == old(files)
    {
      commentId := None;
      if statusUpdater != null {
        commentId := statusUpdater.Started();
      }
      outcome := Ok;
      if db != null {
        outcome := db.Started(uuid);
      }
      events := events + [Event.Started];
      if statusUpdater != null {
        StatusReplaySnoc(statusUpdater.targetUrl, statusStart, old(events), Event.Started);
      }
      if db != null && DbReplay(db.repos, db.repoId, uuid, dbStart, old(events)).1 == Ok {
        DbReplaySnoc(db.repos, db.repoId, uuid, dbStart, old(events), Event.Started);
      }
    }

    /** `clone_repo(local_path)` */
    method CloneRepo(path: string) returns (outcome: Outcome)
      modifies this, statusUpdater, db
      ensures Forwarded(Event.CloneRepo(path), outcome)
      ensures old(Tracked()) && outcome.Ok? ==> Tracked()
      ensures old(Ready()) ==> outcome == Ok && Ready()
      ensures !old(Ready()) ==> outcome == Raised(AttributeError("status"))
      ensures localPath == Some(path)
      ensures aCommit == old(aCommit) && bCommit == old(bCommit)
      ensures files == old(files) && commentId == old(commentId)
    {
      state := CLONE_REPO;
      localPath := Some(path);
      outcome := Ok;
      if db != null {
        outcome := db.CloneRepo(path);
      }
      events := events + [Event.CloneRepo(path)];
      if statusUpdater != null {
        StatusReplaySnoc(statusUpdater.targetUrl, statusStart, old(events), Event.CloneRepo(path));
      }
      if db != null && DbReplay(db.repos, db.repoId, uuid, dbStart, old(events)).1 == Ok {
        DbReplaySnoc(db.repos, db.repoId, uuid, dbStart, old(events), Event.CloneRepo(path));
      }
    }

    /** `retrieve_changed_file_set(a_commit, b_commit)` */
    method RetrieveChangedFileSet(a: Option<Sha>, b: Option<Sha>) returns (outcome: Outcome)
      modifies this, statusUpdater, db
      ensures Forwarded(Event.RetrieveChangedFileSet(a, b), outcome)
      ensures old(Tracked()) && outcome.Ok? ==> Tracked()
      ensures outcome == Ok && Ready() == old(Ready())
      ensures aCommit == a && bCommit == b
      ensures localPath == old(localPath) && files == old(files) && commentId == old(commentId)
    {
      state := RETRIEVE_FILES;
      aCommit := a;
      bCommit := b;
      outcome := Ok;
      events := events + [Event.RetrieveChangedFileSet(a, b)];
      if statusUpdater != null {
        StatusReplaySnoc(statusUpdater.targetUrl, statusStart, old(events), Event.RetrieveChangedFileSet(a, b));
      }
      if db != null && DbReplay(db.repos, db.repoId, uuid, dbStart, old(events)).1 == Ok {
        DbReplaySnoc(db.repos, db.repoId, uuid, dbStart, old(events), Event.RetrieveChangedFileSet(a, b));
      }
    }

    /** `retrieve_file_from_commit(file, commit)`: remembers the file. */
    method RetrieveFileFromCommit(file: string, commit: Option<Sha>) returns (outcome: Outcome)
      modifies this, statusUpdater, db
      ensures Forwarded(Event.RetrieveFileFromCommit(file, commit), outcome)
      ensures old(Tracked()) && outcome.Ok? ==> Tracked()
      ensures old(Ready()) ==> outcome == Ok && Ready()
      ensures files == old(files) + [file]
      ensures aCommit == old(aCommit) && bCommit == old(bCommit)
      ensures localPath == old(localPath) && commentId == old(commentId)
    {
      files := files + [file];
      outcome := Ok;
      if db != null {
        outcome := db.RetrieveFileFromCommit(file, commit);
      }
      events := events + [Event.RetrieveFileFromCommit(file, commit)];
      if statusUpdater != null {
        StatusReplaySnoc(statusUpdater.targetUrl, statusStart, old(events), Event.RetrieveFileFromCommit(file, commit));
      }
      if db != null && DbReplay(db.repos, db.repoId, uuid, dbStart, old(events)).1 == Ok {
        DbReplaySnoc(db.repos, db.repoId, uuid, dbStart, old(events), Event.RetrieveFileFromCommit(file, commit));
      }
    }

    /** `lint_file(linter, file)` */
    method LintFile(linter: string, file: string) returns (outcome: Outcome)
      modifies this, statusUpdater, db
      ensures Forwarded(Event.LintFile(linter, file), outcome)
      ensures old(Tracked()) && outcome.Ok? ==> Tracked()
      ensures old(Ready()) ==> outcome == Ok && Ready()
      ensures aCommit == old(aCommit) && bCommit == old(bCommit)
      ensures localPath == old(localPath) && files == old(files) && commentId == old(commentId)
    {
      state := LINT_FILES;
      if statusUpdater != null {
        statusUpdater.LintFile(linter, file);
      }
      outcome := Ok;
      if db != null {
        outcome := db.LintFile(linter, file);
      }
      events := events + [Event.LintFile(linter, file)];
      if statusUpdater != null {
        StatusReplaySnoc(statusUpdater.targetUrl, statusStart, old(events), Event.LintFile(linter, file));
      }
      if db != null && DbReplay(db.repos, db.repoId, uuid, dbStart, old(events)).1 == Ok {
        DbReplaySnoc(db.repos, db.repoId, uuid, dbStart, old(events), Event.LintFile(linter, file));
      }
    }

    /** `report(report)` */
    method Report(report: LintReport) returns (outcome: Outcome)
      modifies this, statusUpdater, db
      ensures Forwarded(Event.Report(report), outcome)
      ensures old(Tracked()) && outcome.Ok? ==> Tracked()
      ensures old(Ready()) ==> outcome == Ok && Ready()
      ensures aCommit == old(aCommit) && bCommit == old(bCommit)
      ensures localPath == old(localPath) && files == old(files) && commentId == old(commentId)
    {
      state := REPORT;
      if statusUpdater != null {
        statusUpdater.Report(report);
      }
      outcome := Ok;
      if db != null {
        outcome := db.Report(report);
      }
      events := events + [Event.Report(report)];
      if statusUpdater != null {
        StatusReplaySnoc(statusUpdater.targetUrl, statusStart, old(events), Event.Report(report));
      }
      if db != null && DbReplay(db.repos, db.repoId, uuid, dbStart, old(events)).1 == Ok {
        DbReplaySnoc(db.repos, db.repoId, uuid, dbStart, old(events), Event.Report(report));
      }
    }

    /** `finish()` */
    method Finish() returns (outcome: Outcome)
      modifies this, statusUpdater, db
      ensures Forwarded(Event.Finish, outcome)
      ensures old(Tracked()) && outcome.Ok? ==> Tracked()
      ensures old(Ready()) ==> outcome == Ok && Ready()
      ensures aCommit == old(aCommit) && bCommit == old(bCommit)
      ensures localPath == old(localPath) && files == old(files) && commentId == old(commentId)
    {
      state := FINISHED;
      outcome := Ok;
      if db != null {
        outcome := db.Finish();
      }
      events := events + [Event.Finish];
      if statusUpdater != null {
        StatusReplaySnoc(statusUpdater.targetUrl, statusStart, old(events), Event.Finish);
      }
      if db != null && DbReplay(db.repos, db.repoId, uuid, dbStart, old(events)).1 == Ok {
        DbReplaySnoc(db.repos, db.repoId, uuid, dbStart, old(events), Event.Finish);
      }
    }
  }
}
