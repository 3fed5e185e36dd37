/**
 * The newer GitHandler: clones the repository, resolves the two commits of
 * the pull request, works out which files changed between them, and writes
 * those files from each commit into the `a` and `b` directories under its
 * local path, telling the ProcessHandler at every step.
 *
 * The repository found at the URL is a parameter (`origin`), as is the
 * scratch file system; a clone creates the clone directory and always
 * succeeds here.
 */
module GitHandlers {
  import opened LintTypes
  import opened Paths
  import opened ProcessEvents
  import opened ProcessHandlers
  import opened GitRepositories

  predicate IsAsciiLetter(c: char) {
    'a' <= c <= 'z' || 'A' <= c <= 'Z'
  }

  /** The characters a URL scheme may contain. */
  predicate IsSchemeChar(c: char) {
    IsAsciiLetter(c) || '0' <= c <= '9' || c == '+' || c == '-' || c == '.'
  }

  /** `url.find(':')` */
  function FirstColon(url: string): (i: Option<nat>)
    ensures i.None? <==> ':' !in url
    ensures i.Some? ==> i.value < |url| && url[i.value] == ':' && ':' !in url[..i.value]
  {
    if url == [] then None
    else if url[0] == ':' then Some(0)
    else
      match FirstColon(url[1..])
      case None => None
      case Some(i) =>
        assert url[..i + 1] == [url[0]] + url[1..][..i];
        Some(i + 1)
  }

  /** `urlparse(url).scheme != ""`: the text before the first ':' is a
      scheme, starting with a letter and made of scheme characters only. */
  predicate HasScheme(url: string) {
    match FirstColon(url)
    case None => false
    case Some(i) => i > 0 && IsAsciiLetter(url[0]) && forall j :: 0 <= j < i ==> IsSchemeChar(url[j])
  }

  /** The first ':' is the one with no ':' before it. */
  lemma FirstColonAt(url: string, i: nat)
    requires i < |url| && url[i] == ':' && ':' !in url[..i]
    ensures FirstColon(url) == Some(i)
  {
  }

  /** A URL whose first ':' closes a letter followed by scheme characters
      has a scheme, and no other URL has one. */
  lemma HasSchemeSpec(url: string, i: nat)
    requires i < |url| && url[i] == ':' && ':' !in url[..i]
    ensures HasScheme(url) <==> i > 0 && IsAsciiLetter(url[0]) && forall j :: 0 <= j < i ==> IsSchemeChar(url[j])
  {
    FirstColonAt(url, i);
  }

  /** An https URL is remote, whatever follows the scheme. */
  lemma HttpsIsRemote(rest: string)
    ensures HasScheme("https:" + rest)
  {
    var url := "https:" + rest;
    assert url[..5] == "https";
    FirstColonAt(url, 5);
  }

  /** An absolute path is local, and so is an scp-style address
      `user@host:path`, whose text before the ':' holds the '@'. */
  lemma PathsAreLocal(path: string, user: string, host: string, repoPath: string)
    requires ':' !in path && ':' !in user && ':' !in host
    ensures !HasScheme(path)
    ensures !HasScheme(user + "@" + host + ":" + repoPath)
  {
    var scp := user + "@" + host + ":" + repoPath;
    var i := |user| + 1 + |host|;
    assert scp[..i] == user + "@" + host;
    assert scp[|user|] == '@';
    FirstColonAt(scp, i);
  }

  class GitHandler {
    const processHandler: ProcessHandler
    const repoUrl: string
    /** Whether the URL names a remote repository. */
    const remote: bool
    const uuid: string
    const sha1A: Sha
    const sha1B: Sha
    var commitA: Option<Sha>
    var commitB: Option<Sha>
    /** Whether `repo` is set; it is then always the repository at `repoUrl`. */
    var cloned: bool
    /** The files of the first commit that the job checks. */
    var files: set<string>
    const localPath: string
    /** The repository found at `repoUrl`. */
    const origin: Repository
    /** The scratch file system. */
    var fs: FileSystem

    /** The second commit is only resolved after the first, and both belong
        to the cloned repository. */
    predicate Valid()
      reads this
    {
      && (commitB.Some? ==> commitA.Some?)
      && (commitA.Some? ==> cloned && commitA.value in origin.commits)
      && (commitB.Some? ==> commitB.value in origin.commits)
    }

    /** A given, non-empty local path is used as it is; otherwise a fresh
        temporary directory, `tempDir`, is made. */
    constructor (processHandler: ProcessHandler, repoUrl: string, sha1A: Sha, sha1B: Sha,
                 localPath: Option<string>, tempDir: string, origin: Repository, fs: FileSystem)
      ensures this.processHandler == processHandler && this.repoUrl == repoUrl
      ensures this.sha1A == sha1A && this.sha1B == sha1B && this.origin == origin
      ensures remote == HasScheme(repoUrl) && uuid == processHandler.uuid
      ensures commitA == None && commitB == None && !cloned && files == {}
      ensures localPath.Some? && localPath.value != [] ==> this.localPath == localPath.value && this.fs == fs
      ensures localPath.None? || localPath.value == [] ==>
        this.localPath == tempDir && this.fs == fs.(dirs := fs.dirs + {tempDir})
      ensures Valid()
    {
      this.processHandler := processHandler;
      this.repoUrl := repoUrl;
      remote := HasScheme(repoUrl);
      uuid := processHandler.uuid;
      this.sha1A := sha1A;
      this.sha1B := sha1B;
      commitA := None;
      commitB := None;
      cloned := false;
      files := {};
      this.origin := origin;
      if localPath.Some? && localPath.value != [] {
        this.localPath := localPath.value;
        this.fs := fs;
      } else {
        this.localPath := tempDir;
        this.fs := fs.(dirs := fs.dirs + {tempDir});
      }
    }

    /** `started()`: passes the start on to the ProcessHandler. */
    method Started() returns (outcome: Outcome)
      modifies processHandler, processHandler.statusUpdater, processHandler.db
      ensures processHandler.Forwarded(Event.Started, outcome)
      ensures old(processHandler.Tracked()) && outcome.Ok? ==> processHandler.Tracked()
      ensures processHandler.files == old(processHandler.files)
    {
      outcome := processHandler.Started();
    }

    /** `clone_repo()`: tells the ProcessHandler where the job works, clones
        the repository, then resolves the first and the second commit; an
        unknown revision fails with the commits resolved so far kept. */
    method CloneRepo() returns (outcome: Outcome)
      requires Valid()
      modifies this`fs, this`cloned, this`commitA, this`commitB
      modifies processHandler, processHandler.statusUpdater, processHandler.db
      ensures Valid()
      ensures processHandler.events == old(processHandler.events) + [Event.CloneRepo(localPath)]
      ensures processHandler.files == old(processHandler.files)
      ensures old(processHandler.Tracked()) && outcome.Ok? ==> processHandler.Tracked()
      ensures outcome.Ok? ==> commitA == Some(sha1A) && commitB == Some(sha1B)
      ensures !old(processHandler.Ready()) ==>
        && outcome == Raised(AttributeError("status"))
        && fs == old(fs) && cloned == old(cloned) && commitA == old(commitA) && commitB == old(commitB)
      ensures old(processHandler.Ready()) ==>
        && processHandler.Ready()
        && cloned
        && fs == old(fs).(dirs := old(fs).dirs + {ClonedRepoPath(localPath)})
        && commitA == (if sha1A in origin.commits then Some(sha1A) else old(commitA))
        && commitB == (if sha1A in origin.commits && sha1B in origin.commits then Some(sha1B) else old(commitB))
        && outcome == (if sha1A !in origin.commits then Raised(BadName(sha1A))
                       else if sha1B !in origin.commits then Raised(BadName(sha1B))
                       else Ok)
    {
      outcome := processHandler.CloneRepo(localPath);
      if outcome.Raised? {
        return;
      }
      // a remote URL is cloned into the clone directory; a local one is
      // opened where it is and cloned there too
      fs := fs.(dirs := fs.dirs + {ClonedRepoPath(localPath)});
      cloned := true;
      if sha1A !in origin.commits {
        return Raised(BadName(sha1A));
      }
      commitA := Some(sha1A);
      if sha1B !in origin.commits {
        return Raised(BadName(sha1B));
      }
      commitB := Some(sha1B);
    }

    /** The pulls of `retrieve_changed_files_from_commit()`: classifies the
        diff from the second commit to the first, keeps the first set as the
        job's files, and pulls each set, in its own iteration order (given
        back as `aOrder` and `bOrder`), from its commit into `a` and `b`. */
    method PullChangedFiles(a: Sha, b: Sha) returns (outcome: Outcome, ghost aOrder: seq<string>, ghost bOrder: seq<string>)
      modifies this`files, this`fs, processHandler, processHandler.statusUpdater, processHandler.db
      ensures outcome.Ok? ==>
        var changed := ChangedFiles(origin.diff(b, a));
        && files == changed.0
        && Distinct(aOrder) && (forall f :: f in aOrder <==> f in changed.0)
        && Distinct(bOrder) && (forall f :: f in bOrder <==> f in changed.1)
        && processHandler.events == old(processHandler.events) + Retrievals(aOrder, a) + Retrievals(bOrder, b)
        && processHandler.files == old(processHandler.files) + aOrder + bOrder
        && Extends(fs, old(fs))
        && (forall f :: f in aOrder ==> (a, f) in origin.contents)
        && (forall f :: f in bOrder ==> (b, f) in origin.contents)
      ensures outcome.Ok? && old(processHandler.Tracked()) ==> processHandler.Tracked()
      ensures outcome.Ok? && (forall f :: f in aOrder ==> Relative(f)) && (forall f :: f in bOrder ==> Relative(f)) ==>
        && CheckedOut(fs, APath(localPath), origin, a, aOrder)
        && CheckedOut(fs, BPath(localPath), origin, b, bOrder)
    {
      var aFiles, bFiles := GetFilesChangedBetweenCommits(origin.diff(b, a));
      files := aFiles;
      var aNames := IterationOrder(aFiles);
      var bNames := IterationOrder(bFiles);
      aOrder, bOrder := aNames, bNames;
      fs, outcome := PullPair(processHandler, origin, fs, localPath, a, aNames, b, bNames);
    }

    /** `retrieve_changed_files_from_commit()`: announces the commits, makes
        the `a` and `b` directories, and pulls the changed files of the
        first commit into `a` and the matching files of the second into
        `b`. Without a second commit, taking the diff fails. */
    method RetrieveChangedFilesFromCommit() returns (outcome: Outcome, ghost aOrder: seq<string>, ghost bOrder: seq<string>)
      requires Valid()
      modifies this`files, this`fs, processHandler, processHandler.statusUpdater, processHandler.db
      ensures Valid()
      ensures Exists(old(fs), APath(localPath)) ==>
        outcome == Raised(FileExistsError(APath(localPath))) && files == old(files)
      ensures !Exists(old(fs), APath(localPath)) && Exists(old(fs), BPath(localPath)) ==>
        outcome == Raised(FileExistsError(BPath(localPath))) && files == old(files)
      ensures (!Exists(old(fs), APath(localPath)) && !Exists(old(fs), BPath(localPath)) && commitB.None?) ==>
        outcome == Raised(AttributeError("diff")) && files == old(files)
      ensures outcome.Ok? ==> commitB.Some?
      ensures outcome.Ok? ==>
        var changed := ChangedFiles(origin.diff(commitB.value, commitA.value));
        && files == changed.0
        && Distinct(aOrder) && (forall f :: f in aOrder <==> f in changed.0)
        && Distinct(bOrder) && (forall f :: f in bOrder <==> f in changed.1)
        && processHandler.events == old(processHandler.events) + [RetrieveChangedFileSet(commitA, commitB)]
             + Retrievals(aOrder, commitA.value) + Retrievals(bOrder, commitB.value)
        && processHandler.files == old(processHandler.files) + aOrder + bOrder
        && APath(localPath) in fs.dirs && BPath(localPath) in fs.dirs
        && (forall f :: f in aOrder ==> (commitA.value, f) in origin.contents)
        && (forall f :: f in bOrder ==> (commitB.value, f) in origin.contents)
      ensures outcome.Ok? && old(processHandler.Tracked()) ==> processHandler.Tracked()
      ensures outcome.Ok? && (forall f :: f in aOrder ==> Relative(f)) && (forall f :: f in bOrder ==> Relative(f)) ==>
        && CheckedOut(fs, APath(localPath), origin, commitA.value, aOrder)
        && CheckedOut(fs, BPath(localPath), origin, commitB.value, bOrder)
    {
      aOrder, bOrder := [], [];
      outcome := processHandler.RetrieveChangedFileSet(commitA, commitB);
      if outcome.Raised? {
        return;
      }
      fs, outcome := ScratchDirs(fs, localPath).0, ScratchDirs(fs, localPath).1;
      if outcome.Raised? {
        return;
      }
      if commitB.None? {
        return Raised(AttributeError("diff")), aOrder, bOrder;
      }
      outcome, aOrder, bOrder := PullChangedFiles(commitA.value, commitB.value);
    }
  }
}
