/**
 * The older GitHandler: opens the repository at its URL as a local path,
 * clones it, finds the newest merge and that merge's first parent, and
 * writes the files each of the two commits touched into the `a` and `b`
 * directories, telling the ProcessHandler at every step.
 *
 * As for the newer handler, the repository found at the URL and the scratch
 * file system are parameters.
 */
module LegacyGitHandlers {
  import opened LintTypes
  import opened Paths
  import opened ProcessEvents
  import opened ProcessHandlers
  import opened GitRepositories

  /** `get_last_merge()`: `repo.commit` of what `git log` prints. With no
      merge it prints nothing, and resolving the empty name reads it as
      `^0`, whose leading `^` applies to the commit of the branch HEAD
      points at; an unborn branch has no commit. */
  function LastMerge(r: Repository): (res: (Option<Sha>, Outcome))
    ensures res.1.Ok? <==> res.0.Some?
    ensures res.0.Some? ==> res.0.value in r.commits
    ensures r.lastMerge.Some? ==> res.0.None? || res.0 == r.lastMerge
    ensures r.lastMerge.Some? && r.lastMerge.value in r.commits ==> res == (r.lastMerge, Ok)
    ensures r.lastMerge.None? && r.head.Some? && r.head.value in r.commits ==> res == (r.head, Ok)
    ensures r.lastMerge.None? && r.head.None? ==> res.1 == Raised(ValueError("HEAD"))
  {
    match r.lastMerge
    case Some(m) => if m in r.commits then (Some(m), Ok) else (None, Raised(BadName(m)))
    case None =>
      match r.head
      case None => (None, Raised(ValueError("HEAD")))
      case Some(h) => if h in r.commits then (Some(h), Ok) else (None, Raised(BadName(h)))
  }

  /** `repo.commit(m + '~1')`: the first parent of `m`, which a root commit
      does not have. */
  function FirstParent(r: Repository, m: Sha): (res: (Option<Sha>, Outcome))
    ensures res.1.Ok? <==> res.0.Some?
    ensures res.0.Some? <==> m in r.firstParent && r.firstParent[m] in r.commits
    ensures res.0.Some? ==> res.0.value == r.firstParent[m]
    ensures res.1.Raised? ==> res.1 == Raised(BadName(m + "~1"))
  {
    if m in r.firstParent && r.firstParent[m] in r.commits then (Some(r.firstParent[m]), Ok)
    else (None, Raised(BadName(m + "~1")))
  }

  class GitHandler {
    const processHandler: ProcessHandler
    const repoUrl: string
    const uuid: string
    /** Whether `repo` is set; it is then always the repository at `repoUrl`. */
    var cloned: bool
    /** The files the last merge touched, once retrieved. */
    var files: seq<string>
    const localPath: string
    var lastMerge: Option<Sha>
    var previousCommit: Option<Sha>
    /** The repository found at `repoUrl`. */
    const origin: Repository
    /** The scratch file system. */
    var fs: FileSystem

    /** The last merge found is what `get_last_merge()` resolves; the
        previous commit is only found once it is, and is its first parent. */
    predicate Valid()
      reads this
    {
      && (lastMerge.Some? ==> cloned && lastMerge == LastMerge(origin).0 && lastMerge.value in origin.commits)
      && (previousCommit.Some? ==>
            && lastMerge.Some?
            && lastMerge.value in origin.firstParent
            && previousCommit.value == origin.firstParent[lastMerge.value]
            && previousCommit.value in origin.commits)
    }

    /** A given, non-empty local path is used as it is; otherwise a fresh
        temporary directory, `tempDir`, is made. */
    constructor (processHandler: ProcessHandler, repoUrl: string, localPath: Option<string>,
                 tempDir: string, origin: Repository, fs: FileSystem)
      ensures this.processHandler == processHandler && this.repoUrl == repoUrl && this.origin == origin
      ensures uuid == processHandler.uuid
      ensures !cloned && files == [] && lastMerge == None && previousCommit == None
      ensures localPath.Some? && localPath.value != [] ==> this.localPath == localPath.value && this.fs == fs
      ensures localPath.None? || localPath.value == [] ==>
        this.localPath == tempDir && this.fs == fs.(dirs := fs.dirs + {tempDir})
      ensures Valid()
    {
      this.processHandler := processHandler;
      this.repoUrl := repoUrl;
      uuid := processHandler.uuid;
      cloned := false;
      files := [];
      lastMerge := None;
      previousCommit := None;
      this.origin := origin;
      if localPath.Some? && localPath.value != [] {
        this.localPath := localPath.value;
        this.fs := fs;
      } else {
        this.localPath := tempDir;
        this.fs := fs.(dirs := fs.dirs + {tempDir});
      }
    }

    /** `started()`: passes the start on to the ProcessHandler. */
    method Started() returns (outcome: Outcome)
      modifies processHandler, processHandler.statusUpdater, processHandler.db
      ensures processHandler.Forwarded(Event.Started, outcome)
      ensures old(processHandler.Tracked()) && outcome.Ok? ==> processHandler.Tracked()
      ensures processHandler.files == old(processHandler.files)
    {
      outcome := processHandler.Started();
    }

    /** `clone_repo()`: tells the ProcessHandler the clone directory, opens
        and clones the repository, then finds the last merge and its first
        parent; a failure keeps what was found before it. */
    method CloneRepo() returns (outcome: Outcome)
      requires Valid()
      modifies this`cloned, this`fs, this`lastMerge, this`previousCommit
      modifies processHandler, processHandler.statusUpdater, processHandler.db
      ensures Valid()
      ensures processHandler.events == old(processHandler.events) + [Event.CloneRepo(ClonedRepoPath(localPath))]
      ensures processHandler.files == old(processHandler.files)
      ensures old(processHandler.Tracked()) && outcome.Ok? ==> processHandler.Tracked()
      ensures old(processHandler.Ready()) ==>
        && processHandler.Ready()
        && cloned
        && fs == old(fs).(dirs := old(fs).dirs + {ClonedRepoPath(localPath)})
        && lastMerge == (if LastMerge(origin).0.Some? then LastMerge(origin).0 else old(lastMerge))
        && previousCommit == (if LastMerge(origin).0.Some? && FirstParent(origin, LastMerge(origin).0.value).0.Some?
                              then FirstParent(origin, LastMerge(origin).0.value).0
                              else old(previousCommit))
        && outcome == (if LastMerge(origin).1.Raised? then LastMerge(origin).1
                       else FirstParent(origin, LastMerge(origin).0.value).1)
      ensures outcome.Ok? ==>
        && lastMerge == LastMerge(origin).0
        && previousCommit.Some? && previousCommit.value == origin.firstParent[lastMerge.value]
      ensures !old(processHandler.Ready()) ==>
        && outcome == Raised(AttributeError("status"))
        && fs == old(fs) && cloned == old(cloned) && lastMerge == old(lastMerge) && previousCommit == old(previousCommit)
    {
      outcome := processHandler.CloneRepo(ClonedRepoPath(localPath));
      if outcome.Raised? {
        return;
      }
      fs := fs.(dirs := fs.dirs + {ClonedRepoPath(localPath)});
      cloned := true;
      var (m, found) := LastMerge(origin);
      if found.Raised? {
        return found;
      }
      lastMerge := m;
      var (p, parentFound) := FirstParent(origin, m.value);
      if parentFound.Raised? {
        return parentFound;
      }
      previousCommit := p;
      outcome := Ok;
    }

    /** The pulls of `retrieve_changed_files_from_commit()`: the files the
        merge `m` touched become the job's files and are pulled from `m`
        into `a`, then the files its parent `p` touched are pulled from `p`
        into `b`. */
    method PullCommitFiles(m: Sha, p: Sha) returns (outcome: Outcome)
      modifies this`files, this`fs, processHandler, processHandler.statusUpdater, processHandler.db
      ensures files == origin.stats(m)
      ensures outcome.Ok? ==>
        && processHandler.events == old(processHandler.events) + Retrievals(origin.stats(m), m)
             + Retrievals(origin.stats(p), p)
        && processHandler.files == old(processHandler.files) + origin.stats(m) + origin.stats(p)
        && Extends(fs, old(fs))
        && (forall f :: f in origin.stats(m) ==> (m, f) in origin.contents)
        && (forall f :: f in origin.stats(p) ==> (p, f) in origin.contents)
      ensures outcome.Ok? && old(processHandler.Tracked()) ==> processHandler.Tracked()
      ensures outcome.Ok? && (forall f :: f in origin.stats(m) ==> Relative(f))
              && (forall f :: f in origin.stats(p) ==> Relative(f)) ==>
        && CheckedOut(fs, APath(localPath), origin, m, origin.stats(m))
        && CheckedOut(fs, BPath(localPath), origin, p, origin.stats(p))
    {
      files := origin.stats(m);
      fs, outcome := PullPair(processHandler, origin, fs, localPath, m, origin.stats(m), p, origin.stats(p));
    }

    /** `retrieve_changed_files_from_commit()`: announces the two commits,
        makes the `a` and `b` directories, and pulls the files each commit
        touched. Before both commits are found, reading a commit's `stats`
        fails. */
    method RetrieveChangedFilesFromCommit() returns (outcome: Outcome)
      requires Valid()
      modifies this`files, this`fs, processHandler, processHandler.statusUpdater, processHandler.db
      ensures Valid()
      ensures Exists(old(fs), APath(localPath)) ==>
        outcome == Raised(FileExistsError(APath(localPath))) && files == old(files)
      ensures !Exists(old(fs), APath(localPath)) && Exists(old(fs), BPath(localPath)) ==>
        outcome == Raised(FileExistsError(BPath(localPath))) && files == old(files)
      ensures (!Exists(old(fs), APath(localPath)) && !Exists(old(fs), BPath(localPath)) && lastMerge.None?) ==>
        outcome == Raised(AttributeError("stats")) && files == old(files)
      ensures previousCommit.None? ==> outcome.Raised?
      ensures outcome.Ok? ==> lastMerge.Some? && previousCommit.Some?
      ensures outcome.Ok? ==>
        && files == origin.stats(lastMerge.value)
        && processHandler.events == old(processHandler.events) + [RetrieveChangedFileSet(lastMerge, previousCommit)]
             + Retrievals(files, lastMerge.value) + Retrievals(origin.stats(previousCommit.value), previousCommit.value)
        && processHandler.files == old(processHandler.files) + files + origin.stats(previousCommit.value)
        && APath(localPath) in fs.dirs && BPath(localPath) in fs.dirs
      ensures outcome.Ok? && old(processHandler.Tracked()) ==> processHandler.Tracked()
      ensures outcome.Ok? && (forall f :: f in files ==> Relative(f))
              && (forall f :: f in origin.stats(previousCommit.value) ==> Relative(f)) ==>
        && CheckedOut(fs, APath(localPath), origin, lastMerge.value, files)
        && CheckedOut(fs, BPath(localPath), origin, previousCommit.value, origin.stats(previousCommit.value))
    {
      outcome := processHandler.RetrieveChangedFileSet(lastMerge, previousCommit);
      if outcome.Raised? {
        return;
      }
      fs, outcome := ScratchDirs(fs, localPath).0, ScratchDirs(fs, localPath).1;
      if outcome.Raised? {
        return;
      }
      if lastMerge.None? {
        return Raised(AttributeError("stats"));
      }
      if previousCommit.None? {
        // the merge's own files are pulled before its parent is looked at
        var m := lastMerge.value;
        files := origin.stats(m);
        ghost var k;
        fs, outcome, k := PullFilesFromCommit(processHandler, origin, fs, m, files, APath(localPath));
        if outcome.Raised? {
          return;
        }
        return Raised(AttributeError("stats"));
      }
      outcome := PullCommitFiles(lastMerge.value, previousCommit.value);
    }
  }
}
