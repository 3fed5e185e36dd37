/**
 * What both GitHandlers share: the repository as the model sees it, the
 * scratch directories under the job's local path, the classification of a
 * diff into the files to lint, and pulling files out of a commit into a
 * directory while telling the ProcessHandler about each one.
 */
module GitRepositories {
  import opened LintTypes
  import opened Paths
  import opened ProcessEvents
  import opened ProcessHandlers

  /** One record of a diff between two commits. Blobs are named by their
      SHA; a side without a blob is None. */
  datatype DiffRecord = DiffRecord(newFile: bool, aBlob: Option<Sha>, bBlob: Option<Sha>, aPath: string, bPath: string)

  /** A git repository as the handlers query it. */
  datatype Repository = Repository(
    /** The revisions `repo.commit(name)` resolves. */
    commits: set<Sha>,
    /** `git show sha:path` for every file of every commit. */
    contents: map<(Sha, string), string>,
    /** `b.diff(other=a)`, by (b, a). */
    diff: (Sha, Sha) -> seq<DiffRecord>,
    /** `git log --merges -n 1 --format=%H`: the newest merge, if any. */
    lastMerge: Option<Sha>,
    /** The commit of the branch HEAD points at; None on an unborn branch. */
    head: Option<Sha>,
    /** `sha~1`: the first parent, when there is one. */
    firstParent: map<Sha, Sha>,
    /** `commit.stats.files` keys, in order. */
    stats: Sha -> seq<string>)

  /** `os.path.join(local_path, 'a')`: where the files of the first commit go. */
  function APath(localPath: string): string { Join(localPath, "a") }

  /** `os.path.join(local_path, 'b')`: where the files of the second commit go. */
  function BPath(localPath: string): string { Join(localPath, "b") }

  /** `os.path.join(local_path, 'repo')`: where the clone goes. */
  function ClonedRepoPath(localPath: string): string { Join(localPath, "repo") }

  /** The three directories differ, and no relative name pulled under `a`
      lands on a name pulled under `b`. */
  lemma ScratchPathsDisjoint(localPath: string, n1: string, n2: string)
    requires Relative(n1) && Relative(n2)
    ensures APath(localPath) != BPath(localPath)
    ensures APath(localPath) != ClonedRepoPath(localPath) && BPath(localPath) != ClonedRepoPath(localPath)
    ensures Join(APath(localPath), n1) != Join(BPath(localPath), n2)
  {
    var k := |JoinPrefix(localPath)|;
    JoinRelative(localPath, "a");
    JoinRelative(localPath, "b");
    JoinRelative(localPath, "repo");
    assert APath(localPath)[k] == 'a' && BPath(localPath)[k] == 'b' && ClonedRepoPath(localPath)[k] == 'r';
    JoinRelative(APath(localPath), n1);
    JoinRelative(BPath(localPath), n2);
    assert Join(APath(localPath), n1)[k] == 'a';
    assert Join(BPath(localPath), n2)[k] == 'b';
  }

  /** A record names a file to lint: it is new, or both sides have a blob
      and the blobs differ. */
  predicate Qualifies(d: DiffRecord) {
    d.newFile || (d.aBlob.Some? && d.bBlob.Some? && d.aBlob != d.bBlob)
  }

  /** The two name sets of a diff: every qualifying record's first path, and
      the second path of every qualifying record that is not a new file. */
  function ChangedFiles(diffs: seq<DiffRecord>): (r: (set<string>, set<string>))
    ensures forall p :: p in r.0 <==> exists i :: 0 <= i < |diffs| && Qualifies(diffs[i]) && diffs[i].aPath == p
    ensures forall p :: p in r.1 <==>
      exists i :: 0 <= i < |diffs| && Qualifies(diffs[i]) && !diffs[i].newFile && diffs[i].bPath == p
    decreases |diffs|
  {
    if diffs == [] then ({}, {})
    else
      var d := diffs[|diffs| - 1];
      var (a, b) := ChangedFiles(diffs[..|diffs| - 1]);
      assert forall i :: 0 <= i < |diffs| - 1 ==> diffs[..|diffs| - 1][i] == diffs[i];
      (if Qualifies(d) then a + {d.aPath} else a,
       if Qualifies(d) && !d.newFile then b + {d.bPath} else b)
  }

  /** `get_files_changed_between_commits`: classifies the diff records one
      by one. */
  method GetFilesChangedBetweenCommits(diffs: seq<DiffRecord>) returns (aFiles: set<string>, bFiles: set<string>)
    ensures (aFiles, bFiles) == ChangedFiles(diffs)
  {
    aFiles, bFiles := {}, {};
    for i := 0 to |diffs|
      invariant (aFiles, bFiles) == ChangedFiles(diffs[..i])
    {
      var d := diffs[i];
      if d.newFile || (d.aBlob.Some? && d.bBlob.Some? && d.aBlob != d.bBlob) {
        aFiles := aFiles + {d.aPath};
        if !d.newFile {
          bFiles := bFiles + {d.bPath};
        }
      }
      assert diffs[..i + 1][..i] == diffs[..i];
    }
    assert diffs[..|diffs|] == diffs;
  }

  /** A new file is only looked for in the first commit; a changed file in
      both, under each side's own path; an unchanged or deleted one in
      neither. */
  lemma ChangedFilesOfOneRecord(d: DiffRecord)
    ensures ChangedFiles([d]).0 == if Qualifies(d) then {d.aPath} else {}
    ensures ChangedFiles([d]).1 == if Qualifies(d) && !d.newFile then {d.bPath} else {}
    ensures d.newFile ==> ChangedFiles([d]) == ({d.aPath}, {})
    ensures !d.newFile && (d.aBlob.None? || d.bBlob.None? || d.aBlob == d.bBlob) ==> ChangedFiles([d]) == ({}, {})
  {
    assert [d][..0] == [];
  }

  /** A Python set iterated: its elements in some order, each once. */
  method IterationOrder(s: set<string>) returns (q: seq<string>)
    ensures Distinct(q)
    ensures forall x :: x in q <==> x in s
    ensures |q| == |s|
  {
    q := [];
    var rest := s;
    while rest != {}
      invariant rest <= s
      invariant forall x :: x in q <==> x in s && x !in rest
      invariant Distinct(q)
      invariant |q| + |rest| == |s|
      decreases |rest|
    {
      var x :| x in rest;
      q := q + [x];
      rest := rest - {x};
    }
  }

  /** Before writing `name` under `path`: its directory is created when the
      name has one and it does not exist yet. */
  function PrepareDir(fs: FileSystem, path: string, name: string): FileSystem {
    var d := DirName(name);
    if d != [] && !Exists(fs, Join(path, d)) then MakeDirs(fs, Join(path, d)) else fs
  }

  /** Writing one pulled file: its directory first, then its contents. */
  function WriteOne(fs: FileSystem, r: Repository, commit: Sha, name: string, path: string): (fs': FileSystem)
    requires (commit, name) in r.contents
    ensures Extends(fs', fs)
    ensures DirName(name) != [] ==> Exists(fs', Join(path, DirName(name)))
    ensures Join(path, name) in fs'.files && fs'.files[Join(path, name)] == r.contents[(commit, name)]
    ensures forall p :: p in fs.files && p != Join(path, name) ==> fs'.files[p] == fs.files[p]
  {
    var fs1 := PrepareDir(fs, path, name);
    MakeDirsExtends(fs, Join(path, DirName(name)));
    fs1.(files := fs1.files[Join(path, name) := r.contents[(commit, name)]])
  }

  /** Pulling `names` out of `commit` into `path`, one after the other: a
      name the commit does not have fails `git show`; a target that is a
      directory cannot be opened; otherwise the file is written. */
  function Pulled(fs: FileSystem, r: Repository, commit: Sha, names: seq<string>, path: string): (FileSystem, Outcome)
    decreases |names|
  {
    if names == [] then (fs, Ok)
    else
      var name := names[0];
      if (commit, name) !in r.contents then (fs, Raised(GitCommandError(commit + ":" + name)))
      else if Join(path, name) in PrepareDir(fs, path, name).dirs then
        (PrepareDir(fs, path, name), Raised(IsADirectoryError(Join(path, name))))
      else Pulled(WriteOne(fs, r, commit, name, path), r, commit, names[1..], path)
  }

  /** The notifications a pull sends, one per file. */
  function Retrievals(names: seq<string>, commit: Sha): (es: seq<Event>)
    ensures |es| == |names|
    ensures forall i :: 0 <= i < |names| ==> es[i] == RetrieveFileFromCommit(names[i], Some(commit))
  {
    if names == [] then [] else [RetrieveFileFromCommit(names[0], Some(commit))] + Retrievals(names[1..], commit)
  }

  /** A pull that succeeds found every name in the commit, kept every file
      that was there, leaves each name's target holding that name's
      contents in the commit, and leaves every other file as it was. */
  lemma {:induction false} PulledOk(fs: FileSystem, r: Repository, commit: Sha, names: seq<string>, path: string)
    requires forall i :: 0 <= i < |names| ==> Relative(names[i])
    requires Pulled(fs, r, commit, names, path).1.Ok?
    ensures forall i :: 0 <= i < |names| ==> (commit, names[i]) in r.contents
    ensures var out := Pulled(fs, r, commit, names, path).0;
      && Extends(out, fs)
      && (forall i :: 0 <= i < |names| ==>
            Join(path, names[i]) in out.files && out.files[Join(path, names[i])] == r.contents[(commit, names[i])])
      && (forall i :: 0 <= i < |names| && DirName(names[i]) != [] ==> Exists(out, Join(path, DirName(names[i]))))
      && (forall p :: p in fs.files && (forall i :: 0 <= i < |names| ==> p != Join(path, names[i])) ==>
            out.files[p] == fs.files[p])
    decreases |names|
  {
    if names == [] {
      return;
    }
    var name := names[0];
    var fs2 := WriteOne(fs, r, commit, name, path);
    var rest := names[1..];
    assert forall i :: 1 <= i < |names| ==> names[i] == rest[i - 1];
    PulledOk(fs2, r, commit, rest, path);
    var out := Pulled(fs, r, commit, names, path).0;
    assert out == Pulled(fs2, r, commit, rest, path).0;
    var target := Join(path, name);
    if forall i :: 0 <= i < |rest| ==> target != Join(path, rest[i]) {
      assert out.files[target] == fs2.files[target];
    } else {
      var i :| 0 <= i < |rest| && target == Join(path, rest[i]);
      JoinInjective(path, rest[i], name);
    }
  }

  /** A pull that succeeds found every name in the commit and kept
      everything that was there. */
  lemma {:induction false} PulledFound(fs: FileSystem, r: Repository, commit: Sha, names: seq<string>, path: string)
    requires Pulled(fs, r, commit, names, path).1.Ok?
    ensures forall i :: 0 <= i < |names| ==> (commit, names[i]) in r.contents
    ensures Extends(Pulled(fs, r, commit, names, path).0, fs)
    decreases |names|
  {
    if names != [] {
      var fs2 := WriteOne(fs, r, commit, names[0], path);
      PulledFound(fs2, r, commit, names[1..], path);
      assert forall i :: 1 <= i < |names| ==> names[i] == names[1..][i - 1];
    }
  }

  /** A name missing from the commit makes the pull fail. */
  lemma {:induction false} PulledMissing(fs: FileSystem, r: Repository, commit: Sha, names: seq<string>, path: string, i: nat)
    requires i < |names| && (commit, names[i]) !in r.contents
    ensures Pulled(fs, r, commit, names, path).1.Raised?
    decreases i
  {
    if (commit, names[0]) in r.contents && Join(path, names[0]) !in PrepareDir(fs, path, names[0]).dirs {
      assert names[1..][i - 1] == names[i];
      PulledMissing(WriteOne(fs, r, commit, names[0], path), r, commit, names[1..], path, i - 1);
    }
  }

  /** A pull from name `i` on fails at once on a name the commit lacks. */
  lemma PulledStopsAtMissing(fs: FileSystem, r: Repository, commit: Sha, names: seq<string>, path: string, i: nat)
    requires i < |names| && (commit, names[i]) !in r.contents
    ensures Pulled(fs, r, commit, names[i..], path) == (fs, Raised(GitCommandError(commit + ":" + names[i])))
  {
    assert names[i..][0] == names[i];
  }

  /** A pull from name `i` on fails at once when that name's target is a
      directory. */
  lemma PulledStopsAtDir(fs: FileSystem, r: Repository, commit: Sha, names: seq<string>, path: string, i: nat)
    requires i < |names| && (commit, names[i]) in r.contents
    requires Join(path, names[i]) in PrepareDir(fs, path, names[i]).dirs
    ensures Pulled(fs, r, commit, names[i..], path)
      == (PrepareDir(fs, path, names[i]), Raised(IsADirectoryError(Join(path, names[i]))))
  {
    assert names[i..][0] == names[i];
  }

  /** Otherwise name `i` is written and the pull goes on with the rest. */
  lemma PulledAdvance(fs: FileSystem, r: Repository, commit: Sha, names: seq<string>, path: string, i: nat)
    requires i < |names| && (commit, names[i]) in r.contents
    requires Join(path, names[i]) !in PrepareDir(fs, path, names[i]).dirs
    ensures Pulled(fs, r, commit, names[i..], path)
      == Pulled(WriteOne(fs, r, commit, names[i], path), r, commit, names[i + 1..], path)
  {
    assert names[i..][0] == names[i] && names[i..][1..] == names[i + 1..];
  }

  lemma RetrievalsSnoc(names: seq<string>, i: nat, commit: Sha)
    requires i < |names|
    ensures Retrievals(names[..i + 1], commit) == Retrievals(names[..i], commit) + [RetrieveFileFromCommit(names[i], Some(commit))]
  {
  }

  /** Hearing of one more name, after the first `i`, is hearing of the
      first `i + 1`. */
  lemma HeardOfNext(e0: seq<Event>, f0: seq<string>, e: seq<Event>, f: seq<string>, names: seq<string>, commit: Sha, i: nat)
    requires i < |names|
    requires HeardOf(e0, f0, e, f, names, commit, i)
    ensures HeardOf(e0, f0, e + [RetrieveFileFromCommit(names[i], Some(commit))], f + [names[i]], names, commit, i + 1)
  {
    RetrievalsSnoc(names, i, commit);
    assert names[..i + 1] == names[..i] + [names[i]];
    AppendAssoc(e0, Retrievals(names[..i], commit), [RetrieveFileFromCommit(names[i], Some(commit))]);
    AppendAssoc(f0, names[..i], [names[i]]);
  }

  /** `os.mkdir(a_path)` then `os.mkdir(b_path)`: each fails if something
      already exists at its path, the first failure ending the pair. */
  function ScratchDirs(fs: FileSystem, localPath: string): (r: (FileSystem, Outcome))
    ensures Exists(fs, APath(localPath)) ==> r.1 == Raised(FileExistsError(APath(localPath)))
    ensures !Exists(fs, APath(localPath)) && Exists(fs, BPath(localPath)) ==>
      r.1 == Raised(FileExistsError(BPath(localPath)))
    ensures r.1.Ok? <==> !Exists(fs, APath(localPath)) && !Exists(fs, BPath(localPath))
    ensures r.1.Ok? ==> r.0 == fs.(dirs := fs.dirs + {APath(localPath), BPath(localPath)})
  {
    var (fsA, madeA) := Mkdir(fs, APath(localPath));
    if !madeA then (fsA, Raised(FileExistsError(APath(localPath))))
    else
      ScratchPathsDisjoint(localPath, "", "");
      var (fsB, madeB) := Mkdir(fsA, BPath(localPath));
      if !madeB then (fsB, Raised(FileExistsError(BPath(localPath))))
      else (fsB, Ok)
  }

  /** Under `path`, the scratch files hold each of the names as it is in
      the commit, and each name's directory exists. */
  predicate CheckedOut(fs: FileSystem, path: string, r: Repository, commit: Sha, names: seq<string>) {
    forall f :: f in names ==>
      && (commit, f) in r.contents && Join(path, f) in fs.files
      && fs.files[Join(path, f)] == r.contents[(commit, f)]
      && (DirName(f) != [] ==> Exists(fs, Join(path, DirName(f))))
  }

  /** What a successful retrieval leaves in the scratch files: each file of
      the first pull under `a` and each of the second under `b`, holding its
      contents in its commit; the second pull leaves the first's files alone
      because the two directories are disjoint. */
  lemma {:induction false} PulledBoth(fsA: FileSystem, fsB: FileSystem, out: FileSystem, r: Repository,
                                      a: Sha, aNames: seq<string>, b: Sha, bNames: seq<string>, localPath: string)
    requires Pulled(fsA, r, a, aNames, APath(localPath)) == (fsB, Ok)
    requires Pulled(fsB, r, b, bNames, BPath(localPath)) == (out, Ok)
    ensures (forall f :: f in aNames ==> Relative(f)) && (forall f :: f in bNames ==> Relative(f)) ==>
      CheckedOut(out, APath(localPath), r, a, aNames) && CheckedOut(out, BPath(localPath), r, b, bNames)
  {
    if !((forall f :: f in aNames ==> Relative(f)) && (forall f :: f in bNames ==> Relative(f))) {
      return;
    }
    PulledOk(fsA, r, a, aNames, APath(localPath));
    PulledOk(fsB, r, b, bNames, BPath(localPath));
    forall f | f in aNames
      ensures (a, f) in r.contents && Join(APath(localPath), f) in out.files
        && out.files[Join(APath(localPath), f)] == r.contents[(a, f)]
        && (DirName(f) != [] ==> Exists(out, Join(APath(localPath), DirName(f))))
    {
      var i :| 0 <= i < |aNames| && aNames[i] == f;
      forall k | 0 <= k < |bNames|
        ensures Join(APath(localPath), f) != Join(BPath(localPath), bNames[k])
      {
        ScratchPathsDisjoint(localPath, f, bNames[k]);
      }
    }
    forall f | f in bNames
      ensures (b, f) in r.contents
    {
      var i :| 0 <= i < |bNames| && bNames[i] == f;
    }
  }

  /** The notifying half of one pull step: the handler hears of the file
      and records its name; the job's state does not move. */
  method Announce(handler: ProcessHandler, name: string, commit: Sha) returns (outcome: Outcome)
    modifies handler, handler.statusUpdater, handler.db
    ensures handler.events == old(handler.events) + [RetrieveFileFromCommit(name, Some(commit))]
    ensures handler.files == old(handler.files) + [name]
    ensures handler.state == old(handler.state)
    ensures old(handler.Ready()) ==> outcome.Ok? && handler.Ready()
    ensures old(handler.Tracked()) && outcome.Ok? ==> handler.Tracked()
  {
    outcome := handler.RetrieveFileFromCommit(name, Some(commit));
  }

  /** The writing half of one pull step: the file's directory is created if
      it is missing, then the file is opened and written, which fails when
      the target is a directory. */
  method WriteFile(fs0: FileSystem, r: Repository, commit: Sha, name: string, path: string)
      returns (fs: FileSystem, outcome: Outcome)
    requires (commit, name) in r.contents
    ensures outcome.Ok? <==> Join(path, name) !in PrepareDir(fs0, path, name).dirs
    ensures outcome.Ok? ==> fs == WriteOne(fs0, r, commit, name, path)
    ensures outcome.Raised? ==>
      fs == PrepareDir(fs0, path, name) && outcome == Raised(IsADirectoryError(Join(path, name)))
  {
    var contents := r.contents[(commit, name)];
    var target := Join(path, name);
    fs := fs0;
    var dir := DirName(name);
    if dir != [] && !Exists(fs, Join(path, dir)) {
      fs := MakeDirs(fs, Join(path, dir));
    }
    if target in fs.dirs {
      return fs, Raised(IsADirectoryError(target));
    }
    fs := fs.(files := fs.files[target := contents]);
    outcome := Ok;
  }

  /** One pass of `pull_files_from_commit`'s loop: `git show` first, so a
      name missing from the commit fails before the handler hears of it;
      then the handler is told, then the file is written. */
  method PullOne(handler: ProcessHandler, r: Repository, fs0: FileSystem, commit: Sha, name: string, path: string)
      returns (fs: FileSystem, outcome: Outcome)
    modifies handler, handler.statusUpdater, handler.db
    ensures (commit, name) !in r.contents ==>
      && fs == fs0 && outcome == Raised(GitCommandError(commit + ":" + name))
      && handler.events == old(handler.events) && handler.files == old(handler.files)
    ensures (commit, name) in r.contents ==>
      && handler.events == old(handler.events) + [RetrieveFileFromCommit(name, Some(commit))]
      && handler.files == old(handler.files) + [name]
    ensures (commit, name) in r.contents && (old(handler.Ready()) || outcome.Ok?) ==>
      (fs, outcome) == (if Join(path, name) in PrepareDir(fs0, path, name).dirs
                        then (PrepareDir(fs0, path, name), Raised(IsADirectoryError(Join(path, name))))
                        else (WriteOne(fs0, r, commit, name, path), Ok))
    ensures old(handler.Ready()) ==> handler.Ready()
    ensures old(handler.Tracked()) && outcome.Ok? ==> handler.Tracked()
    ensures handler.state == old(handler.state)
  {
    fs := fs0;
    if (commit, name) !in r.contents {
      return fs, Raised(GitCommandError(commit + ":" + name));
    }
    outcome := Announce(handler, name, commit);
    if outcome.Raised? {
      return;
    }
    fs, outcome := WriteFile(fs, r, commit, name, path);
  }

  /** Going from notifications `e0` and recorded files `f0` to `e` and
      `f`, the handler heard of the first `n` names, in order, and recorded
      them. */
  predicate HeardOf(e0: seq<Event>, f0: seq<string>, e: seq<Event>, f: seq<string>, names: seq<string>, commit: Sha, n: nat)
    requires n <= |names|
  {
    e == e0 + Retrievals(names[..n], commit) && f == f0 + names[..n]
  }

  /** `pull_files_from_commit(commit, files, path)`: for each name, reads it
      from the commit, tells the handler, creates its directory if needed
      and writes it. A pull that fails stops at name `k`, every name before
      it announced: a name missing from the commit fails before the handler
      hears of it, and any later failure comes after. */
  method PullFilesFromCommit(handler: ProcessHandler, r: Repository, fs0: FileSystem, commit: Sha, names: seq<string>, path: string)
      returns (fs: FileSystem, outcome: Outcome, ghost k: nat)
    modifies handler, handler.statusUpdater, handler.db
    ensures old(handler.Ready()) ==> (fs, outcome) == Pulled(fs0, r, commit, names, path) && handler.Ready()
    ensures outcome.Ok? ==> (fs, outcome) == Pulled(fs0, r, commit, names, path)
    ensures outcome.Ok? ==> handler.events == old(handler.events) + Retrievals(names, commit)
    ensures outcome.Ok? ==> handler.files == old(handler.files) + names
    ensures old(handler.Tracked()) && outcome.Ok? ==> handler.Tracked()
    ensures handler.state == old(handler.state)
    ensures outcome.Raised? ==> k < |names|
    ensures outcome.Raised? && (commit, names[k]) !in r.contents ==>
      outcome == Raised(GitCommandError(commit + ":" + names[k])) && HeardOf(old(handler.events), old(handler.files), handler.events, handler.files, names, commit, k)
    ensures outcome.Raised? && (commit, names[k]) in r.contents ==>
      && HeardOf(old(handler.events), old(handler.files), handler.events, handler.files, names, commit, k + 1)
      && (old(handler.Ready()) ==> outcome == Raised(IsADirectoryError(Join(path, names[k]))))
  {
    fs, k := fs0, 0;
    for i := 0 to |names|
      invariant Pulled(fs0, r, commit, names, path) == Pulled(fs, r, commit, names[i..], path)
      invariant HeardOf(old(handler.events), old(handler.files), handler.events, handler.files, names, commit, i)
      invariant old(handler.Ready()) ==> handler.Ready()
      invariant old(handler.Tracked()) ==> handler.Tracked()
      invariant handler.state == old(handler.state)
    {
      var name := names[i];
      k := i;
      ghost var before := fs;
      ghost var mid := (handler.events, handler.files);
      var o;
      fs, o := PullOne(handler, r, fs, commit, name, path);
      if (commit, name) !in r.contents {
        PulledStopsAtMissing(before, r, commit, names, path, i);
        return fs, o, k;
      }
      HeardOfNext(old(handler.events), old(handler.files), mid.0, mid.1, names, commit, i);
      if o.Raised? {
        if old(handler.Ready()) {
          PulledStopsAtDir(before, r, commit, names, path, i);
        }
        return fs, o, k;
      }
      PulledAdvance(before, r, commit, names, path, i);
    }
    assert names[..|names|] == names;
    outcome := Ok;
  }

  /** The two pulls of a retrieval: the files of `a` into the `a`
      directory, then the files of `b` into the `b` directory. */
  method PullPair(handler: ProcessHandler, r: Repository, fs0: FileSystem, localPath: string,
                  a: Sha, aNames: seq<string>, b: Sha, bNames: seq<string>)
      returns (fs: FileSystem, outcome: Outcome)
    modifies handler, handler.statusUpdater, handler.db
    ensures outcome.Ok? ==>
      && handler.events == old(handler.events) + Retrievals(aNames, a) + Retrievals(bNames, b)
      && handler.files == old(handler.files) + aNames + bNames
      && Extends(fs, fs0)
      && (forall f :: f in aNames ==> (a, f) in r.contents)
      && (forall f :: f in bNames ==> (b, f) in r.contents)
    ensures old(handler.Tracked()) && outcome.Ok? ==> handler.Tracked()
    ensures outcome.Ok? && (forall f :: f in aNames ==> Relative(f)) && (forall f :: f in bNames ==> Relative(f)) ==>
      && CheckedOut(fs, APath(localPath), r, a, aNames)
      && CheckedOut(fs, BPath(localPath), r, b, bNames)
  {
    ghost var k;
    fs, outcome, k := PullFilesFromCommit(handler, r, fs0, a, aNames, APath(localPath));
    if outcome.Raised? {
      return;
    }
    ghost var fsB := fs;
    // the handler's tracking, carried across the second pull as a plain fact
    ghost var tracked := handler.Tracked();
    assert old(handler.Tracked()) ==> tracked;
    fs, outcome, k := PullFilesFromCommit(handler, r, fs, b, bNames, BPath(localPath));
    if outcome.Raised? {
      return;
    }
    assert tracked ==> handler.Tracked();
    PulledFound(fs0, r, a, aNames, APath(localPath));
    PulledFound(fsB, r, b, bNames, BPath(localPath));
    PulledBoth(fs0, fsB, fs, r, a, aNames, b, bNames, localPath);
  }
}
