/**
 * The differential lint driver. For every file the ProcessHandler retrieved
 * it runs each linter on the head copy (under `a`) and the base copy (under
 * `b`), keeps the head findings that do not occur among the base findings,
 * and hands the per-file report to the ProcessHandler before finishing the
 * job. `lint_process` runs the whole job, and `lint_github` decides from a
 * webhook payload whether there is a job at all.
 */
module Lintball {
  import opened LintTypes
  import opened Paths
  import opened ProcessStates
  import opened ProcessEvents
  import opened StatusHandlers
  import opened ProcessHandlers
  import opened GitRepositories
  import GitHandlers
  import WhitespaceFileLinter

  /** A linter: its `str`, and what its `lint(filename)` returns given the
      scratch files. */
  datatype Linter = Linter(name: string, lint: (FileSystem, string) -> seq<LintError>)

  /** The linters `lint_process` uses when it is given none. */
  function DefaultLinters(): (ls: seq<Linter>)
    ensures |ls| == 1 && ls[0].name == WhitespaceFileLinter.Name
    ensures forall fs, f :: ls[0].lint(fs, f) == WhitespaceFileLinter.FileFindings(fs, f)
  {
    [Linter(WhitespaceFileLinter.Name, WhitespaceFileLinter.FileFindings)]
  }

  /** `[e for e in head if e not in base]`: the head findings that are not
      base findings, by value. */
  function NotIn(head: seq<LintError>, base: seq<LintError>): (r: seq<LintError>)
    ensures forall e :: e in r <==> e in head && e !in base
    ensures |r| <= |head|
  {
    if head == [] then []
    else (if head[0] in base then [] else [head[0]]) + NotIn(head[1..], base)
  }

  /** The filter works finding by finding, so it keeps the head's order. */
  lemma {:induction false} NotInAppend(h1: seq<LintError>, h2: seq<LintError>, base: seq<LintError>)
    ensures NotIn(h1 + h2, base) == NotIn(h1, base) + NotIn(h2, base)
  {
    if h1 == [] {
      assert h1 + h2 == h2;
    } else {
      assert (h1 + h2)[0] == h1[0] && (h1 + h2)[1..] == h1[1..] + h2;
      NotInAppend(h1[1..], h2, base);
    }
  }

  /** A finding that is not a base finding is kept as often as the head has
      it; one that is a base finding is dropped however often the head has
      it. So this is not a multiset difference. */
  lemma {:induction false} NotInCount(head: seq<LintError>, base: seq<LintError>, e: LintError)
    ensures multiset(NotIn(head, base))[e] == if e in base then 0 else multiset(head)[e]
  {
    if head != [] {
      NotInCount(head[1..], base, e);
      assert head == [head[0]] + head[1..];
    }
  }

  /** Against no base findings, every head finding is kept. */
  lemma {:induction false} NotInEmptyBase(head: seq<LintError>)
    ensures NotIn(head, []) == head
  {
    if head != [] {
      NotInEmptyBase(head[1..]);
    }
  }

  /** What `lint(filename, linters, handler)` returns: each linter's
      findings, in linter order. */
  function LintAll(fs: FileSystem, filename: string, linters: seq<Linter>): seq<LintError>
    decreases |linters|
  {
    if linters == [] then []
    else LintAll(fs, filename, linters[..|linters| - 1]) + linters[|linters| - 1].lint(fs, filename)
  }

  /** Concatenation distributes over the linter list. */
  lemma {:induction false} LintAllAppend(fs: FileSystem, filename: string, l1: seq<Linter>, l2: seq<Linter>)
    ensures LintAll(fs, filename, l1 + l2) == LintAll(fs, filename, l1) + LintAll(fs, filename, l2)
    decreases |l2|
  {
    if l2 == [] {
      assert l1 + l2 == l1;
    } else {
      var n := |l2|;
      assert (l1 + l2)[..|l1 + l2| - 1] == l1 + l2[..n - 1];
      assert (l1 + l2)[|l1 + l2| - 1] == l2[n - 1];
      LintAllAppend(fs, filename, l1, l2[..n - 1]);
    }
  }

  /** With a single linter, `lint` returns exactly that linter's findings. */
  lemma LintAllSingle(fs: FileSystem, filename: string, l: Linter)
    ensures LintAll(fs, filename, [l]) == l.lint(fs, filename)
  {
    assert [l][..0] == [];
  }

  /** The notifications `lint` sends: one `lint_file` per linter, in order,
      each naming the linter and the file. */
  function LintEvents(linters: seq<Linter>, filename: string): seq<Event>
    decreases |linters|
  {
    if linters == [] then []
    else LintEvents(linters[..|linters| - 1], filename) + [LintFile(linters[|linters| - 1].name, filename)]
  }

  lemma {:induction false} LintEventsSpec(linters: seq<Linter>, filename: string)
    ensures |LintEvents(linters, filename)| == |linters|
    ensures forall i :: 0 <= i < |linters| ==> LintEvents(linters, filename)[i] == LintFile(linters[i].name, filename)
    decreases |linters|
  {
    if linters != [] {
      var init := linters[..|linters| - 1];
      LintEventsSpec(init, filename);
      assert forall i :: 0 <= i < |init| ==> linters[i] == init[i];
    }
  }

  /** A copy is linted when it exists; a missing copy has no findings. */
  function CopyFindings(fs: FileSystem, path: string, linters: seq<Linter>): seq<LintError> {
    if Exists(fs, path) then LintAll(fs, path, linters) else []
  }

  function CopyEvents(fs: FileSystem, path: string, linters: seq<Linter>): seq<Event> {
    if Exists(fs, path) then LintEvents(linters, path) else []
  }

  /** One file's entry: its head findings missing from its base findings. */
  function FileDiff(fs: FileSystem, linters: seq<Linter>, aPath: string, bPath: string, filename: string): seq<LintError> {
    NotIn(CopyFindings(fs, Join(aPath, filename), linters), CopyFindings(fs, Join(bPath, filename), linters))
  }

  /** A file with no base copy reports every head finding; a file with no
      head copy reports nothing. */
  lemma FileDiffMissingCopy(fs: FileSystem, linters: seq<Linter>, aPath: string, bPath: string, filename: string)
    ensures !Exists(fs, Join(bPath, filename)) ==>
      FileDiff(fs, linters, aPath, bPath, filename) == CopyFindings(fs, Join(aPath, filename), linters)
    ensures !Exists(fs, Join(aPath, filename)) ==> FileDiff(fs, linters, aPath, bPath, filename) == []
  {
    NotInEmptyBase(CopyFindings(fs, Join(aPath, filename), linters));
  }

  /** Every name's entry, as a function of the name: its head findings
      missing from its base findings. */
  function Entries(fs: FileSystem, linters: seq<Linter>, aPath: string, bPath: string): (entry: string -> seq<LintError>)
    ensures forall k :: entry(k) == FileDiff(fs, linters, aPath, bPath, k)
  {
    k => FileDiff(fs, linters, aPath, bPath, k)
  }

  /** The report built by assigning each name of `files` its entry, in order. */
  function Assigned(files: seq<string>, entry: string -> seq<LintError>): LintReport
    decreases |files|
  {
    if files == [] then []
    else
      var last := files[|files| - 1];
      Put(Assigned(files[..|files| - 1], entry), last, entry(last))
  }

  /** The report `lintball` builds over `files`, one assignment per name. */
  function DiffReport(fs: FileSystem, linters: seq<Linter>, aPath: string, bPath: string, files: seq<string>): LintReport
    decreases |files|
  {
    if files == [] then []
    else
      var last := files[|files| - 1];
      Put(DiffReport(fs, linters, aPath, bPath, files[..|files| - 1]), last, FileDiff(fs, linters, aPath, bPath, last))
  }

  /** The report is the generic assignment of each name's entry. */
  lemma {:induction false} DiffReportAssigned(fs: FileSystem, linters: seq<Linter>, aPath: string, bPath: string, files: seq<string>)
    ensures DiffReport(fs, linters, aPath, bPath, files) == Assigned(files, Entries(fs, linters, aPath, bPath))
    decreases |files|
  {
    if files != [] {
      DiffReportAssigned(fs, linters, aPath, bPath, files[..|files| - 1]);
    }
  }

  /** The notifications `lintball` sends while linting `files`: for each
      name, the head copy's then the base copy's. */
  function DiffEvents(fs: FileSystem, linters: seq<Linter>, aPath: string, bPath: string, files: seq<string>): seq<Event>
    decreases |files|
  {
    if files == [] then []
    else
      var last := files[|files| - 1];
      DiffEvents(fs, linters, aPath, bPath, files[..|files| - 1])
        + CopyEvents(fs, Join(aPath, last), linters) + CopyEvents(fs, Join(bPath, last), linters)
  }

  /** One more name extends the report by one assignment. */
  lemma DiffReportSnoc(fs: FileSystem, linters: seq<Linter>, aPath: string, bPath: string, files: seq<string>, i: nat)
    requires i < |files|
    ensures DiffReport(fs, linters, aPath, bPath, files[..i + 1])
      == Put(DiffReport(fs, linters, aPath, bPath, files[..i]), files[i], FileDiff(fs, linters, aPath, bPath, files[i]))
  {
    var prefix := files[..i + 1];
    assert prefix[..|prefix| - 1] == files[..i];
    assert prefix[|prefix| - 1] == files[i];
  }

  /** One more name extends the notifications by that file's. */
  lemma DiffEventsSnoc(fs: FileSystem, linters: seq<Linter>, aPath: string, bPath: string, files: seq<string>, i: nat)
    requires i < |files|
    ensures DiffEvents(fs, linters, aPath, bPath, files[..i + 1])
      == DiffEvents(fs, linters, aPath, bPath, files[..i])
        + CopyEvents(fs, Join(aPath, files[i]), linters) + CopyEvents(fs, Join(bPath, files[i]), linters)
  {
    var prefix := files[..i + 1];
    assert prefix[..|prefix| - 1] == files[..i];
    assert prefix[|prefix| - 1] == files[i];
  }

  /** `r` maps exactly the names in `files`, each once, to its entry. */
  ghost predicate ReportsExactly(r: LintReport, files: seq<string>, entry: string -> seq<LintError>) {
    && DistinctKeys(r)
    && (forall k :: k in Keys(r) <==> k in files)
    && (forall k :: k in files ==> Get(r, k) == Some(entry(k)))
  }

  /** Assigning the next name's entry keeps a report that maps exactly the
      names seen so far to their entries. */
  lemma PutNext(r0: LintReport, init: seq<string>, last: string, entry: string -> seq<LintError>)
    requires ReportsExactly(r0, init, entry)
    ensures ReportsExactly(Put(r0, last, entry(last)), init + [last], entry)
  {
    var r := Put(r0, last, entry(last));
    PutDistinct(r0, last, entry(last));
    forall k | k in init + [last]
      ensures Get(r, k) == Some(entry(k))
    {
      if k != last {
        PutOther(r0, last, entry(last), k);
      }
    }
  }

  lemma {:induction false} AssignedExactly(files: seq<string>, entry: string -> seq<LintError>)
    ensures ReportsExactly(Assigned(files, entry), files, entry)
    decreases |files|
  {
    if files != [] {
      var init, last := files[..|files| - 1], files[|files| - 1];
      assert files == init + [last];
      var r0 := Assigned(init, entry);
      assert Assigned(files, entry) == Put(r0, last, entry(last));
      AssignedExactly(init, entry);
      PutNext(r0, init, last, entry);
    }
  }

  /** Every retrieved name is a key of the report, even with no findings,
      and nothing else is; a name retrieved twice is one key; and each key
      holds that file's differential findings. */
  lemma DiffReportKeys(fs: FileSystem, linters: seq<Linter>, aPath: string, bPath: string, files: seq<string>)
    ensures var r := DiffReport(fs, linters, aPath, bPath, files);
      && DistinctKeys(r)
      && (forall k :: k in Keys(r) <==> k in files)
      && (forall k :: k in files ==> Get(r, k) == Some(FileDiff(fs, linters, aPath, bPath, k)))
  {
    DiffReportAssigned(fs, linters, aPath, bPath, files);
    AssignedExactly(files, Entries(fs, linters, aPath, bPath));
  }

  /** `lint(filename, linters, handler)`: for each linter in order, tells
      the handler, then runs the linter and appends its findings. */
  method Lint(fs: FileSystem, filename: string, linters: seq<Linter>, handler: ProcessHandler)
      returns (errors: seq<LintError>, outcome: Outcome)
    modifies handler, handler.statusUpdater, handler.db
    ensures outcome.Ok? ==> errors == LintAll(fs, filename, linters)
    ensures outcome.Ok? ==> handler.events == old(handler.events) + LintEvents(linters, filename)
    ensures outcome.Ok? && linters != [] ==> handler.state == LINT_FILES
    ensures linters == [] ==> handler.state == old(handler.state)
    ensures old(handler.Ready()) ==> outcome.Ok? && handler.Ready()
    ensures old(handler.Tracked()) && outcome.Ok? ==> handler.Tracked()
    ensures handler.files == old(handler.files) && handler.localPath == old(handler.localPath)
  {
    errors := [];
    outcome := Ok;
    for i := 0 to |linters|
      invariant outcome.Ok?
      invariant errors == LintAll(fs, filename, linters[..i])
      invariant handler.events == old(handler.events) + LintEvents(linters[..i], filename)
      invariant i > 0 ==> handler.state == LINT_FILES
      invariant i == 0 ==> handler.state == old(handler.state)
      invariant old(handler.Ready()) ==> handler.Ready()
      invariant old(handler.Tracked()) ==> handler.Tracked()
      invariant handler.files == old(handler.files) && handler.localPath == old(handler.localPath)
    {
      var linter := linters[i];
      AppendAssoc(old(handler.events), LintEvents(linters[..i], filename), [LintFile(linter.name, filename)]);
      outcome := handler.LintFile(linter.name, filename);
      if outcome.Raised? {
        return;
      }
      errors := errors + linter.lint(fs, filename);
      assert linters[..i + 1][..i] == linters[..i];
    }
    assert linters[..|linters|] == linters;
  }

  /** One pass of `lintball`'s loop: lints the head copy of `filename` if
      it exists, then the base copy if it exists, and gives the file's
      entry. */
  method DiffOne(handler: ProcessHandler, linters: seq<Linter>, fs: FileSystem, aPath: string, bPath: string, filename: string)
      returns (entry: seq<LintError>, outcome: Outcome)
    modifies handler, handler.statusUpdater, handler.db
    ensures handler.files == old(handler.files) && handler.localPath == old(handler.localPath)
    ensures outcome.Ok? ==> entry == FileDiff(fs, linters, aPath, bPath, filename)
    ensures outcome.Ok? ==>
      handler.events == old(handler.events)
        + (CopyEvents(fs, Join(aPath, filename), linters) + CopyEvents(fs, Join(bPath, filename), linters))
    ensures old(handler.Ready()) ==> outcome.Ok? && handler.Ready()
    ensures old(handler.Tracked()) && outcome.Ok? ==> handler.Tracked()
  {
    var aFile, bFile := Join(aPath, filename), Join(bPath, filename);
    var aResults, bResults := [], [];
    entry, outcome := [], Ok;
    if Exists(fs, aFile) {
      aResults, outcome := Lint(fs, aFile, linters, handler);
      if outcome.Raised? {
        return;
      }
    }
    ghost var mid := handler.events;
    ghost var tracked := handler.Tracked();
    assert old(handler.Tracked()) ==> tracked;
    if Exists(fs, bFile) {
      bResults, outcome := Lint(fs, bFile, linters, handler);
      if outcome.Raised? {
        return;
      }
    }
    assert tracked ==> handler.Tracked();
    entry := NotIn(aResults, bResults);
  }

  /** With a status updater, the last status it posted is the report's
      verdict. */
  predicate VerdictPosted(handler: ProcessHandler, report: LintReport)
    reads handler, handler.statusUpdater
  {
    handler.statusUpdater != null ==>
      && |handler.statusUpdater.posted| > 0
      && handler.statusUpdater.posted[|handler.statusUpdater.posted| - 1] == Verdict(handler.statusUpdater.targetUrl, report)
  }

  /** The end of `lintball`: reports, then finishes unless the report
      raised. The report's verdict is the last status posted. */
  method ReportAndFinish(handler: ProcessHandler, report: LintReport) returns (outcome: Outcome)
    modifies handler, handler.statusUpdater, handler.db
    ensures handler.files == old(handler.files)
    ensures outcome.Ok? ==> handler.events == old(handler.events) + [Event.Report(report), Event.Finish]
    ensures outcome.Ok? ==> handler.state == FINISHED
    ensures outcome.Ok? ==> VerdictPosted(handler, report)
    ensures old(handler.Ready()) ==> outcome.Ok? && handler.Ready()
    ensures old(handler.Tracked()) && outcome.Ok? ==> handler.Tracked()
  {
    outcome := handler.Report(report);
    if outcome.Raised? {
      return;
    }
    ghost var tracked := handler.Tracked();
    assert old(handler.Tracked()) ==> tracked;
    outcome := handler.Finish();
    assert tracked && outcome.Ok? ==> handler.Tracked();
  }

  /** The loop of `lintball`: each retrieved name, in order, is linted in
      both copies and assigned its differential findings. */
  method DiffAll(handler: ProcessHandler, linters: seq<Linter>, fs: FileSystem, aPath: string, bPath: string)
      returns (report: LintReport, outcome: Outcome)
    modifies handler, handler.statusUpdater, handler.db
    ensures handler.files == old(handler.files)
    ensures outcome.Ok? ==> report == DiffReport(fs, linters, aPath, bPath, handler.files)
    ensures outcome.Ok? ==> handler.events == old(handler.events) + DiffEvents(fs, linters, aPath, bPath, handler.files)
    ensures old(handler.Ready()) ==> outcome.Ok? && handler.Ready()
    ensures old(handler.Tracked()) && outcome.Ok? ==> handler.Tracked()
  {
    var files := handler.files;
    report := [];
    outcome := Ok;
    for i := 0 to |files|
      invariant outcome.Ok? && handler.files == files
      invariant report == DiffReport(fs, linters, aPath, bPath, files[..i])
      invariant handler.events == old(handler.events) + DiffEvents(fs, linters, aPath, bPath, files[..i])
      invariant old(handler.Ready()) ==> handler.Ready()
      invariant old(handler.Tracked()) ==> handler.Tracked()
    {
      var filename := files[i];
      var entry;
      ghost var done := DiffEvents(fs, linters, aPath, bPath, files[..i]);
      ghost var linted := CopyEvents(fs, Join(aPath, filename), linters) + CopyEvents(fs, Join(bPath, filename), linters);
      entry, outcome := DiffOne(handler, linters, fs, aPath, bPath, filename);
      if outcome.Raised? {
        return;
      }
      report := Put(report, filename, entry);
      DiffReportSnoc(fs, linters, aPath, bPath, files, i);
      DiffEventsSnoc(fs, linters, aPath, bPath, files, i);
      AppendAssoc(done, CopyEvents(fs, Join(aPath, filename), linters), CopyEvents(fs, Join(bPath, filename), linters));
      AppendAssoc(old(handler.events), done, linted);
    }
    assert files[..|files|] == files;
  }

  /** `lintball(handler, linters)`, with the two copy directories as
      parameters: lints the head and base copy of every retrieved file,
      reports the differential findings once, then finishes the job. The
      final commit status is the report's verdict. */
  method Lintball(handler: ProcessHandler, linters: seq<Linter>, fs: FileSystem, aPath: string, bPath: string)
      returns (report: LintReport, outcome: Outcome)
    modifies handler, handler.statusUpdater, handler.db
    ensures handler.files == old(handler.files)
    ensures outcome.Ok? ==> report == DiffReport(fs, linters, aPath, bPath, handler.files)
    ensures outcome.Ok? ==>
      handler.events == old(handler.events) + DiffEvents(fs, linters, aPath, bPath, handler.files)
        + [Event.Report(report), Event.Finish]
    ensures outcome.Ok? ==> handler.state == FINISHED
    ensures outcome.Ok? ==> VerdictPosted(handler, report)
    ensures old(handler.Ready()) ==> outcome.Ok? && handler.Ready()
    ensures old(handler.Tracked()) && outcome.Ok? ==> handler.Tracked()
  {
    report, outcome := DiffAll(handler, linters, fs, aPath, bPath);
    if outcome.Raised? {
      return;
    }
    ghost var linted := handler.events;
    ghost var tracked := handler.Tracked();
    assert old(handler.Tracked()) ==> tracked;
    outcome := ReportAndFinish(handler, report);
    assert tracked && outcome.Ok? ==> handler.Tracked();
  }


  /** `lintball(handler, linters)` reading its two directories from the
      handler: each pass looks up attribute `aAttr`, then `bAttr`, and lints
      the file against them as `DiffOne` does. A lookup that fails on the
      first pass ends the call before anything is linted or announced. */
  method LintballReading(handler: ProcessHandler, linters: seq<Linter>, fs: FileSystem, aAttr: string, bAttr: string)
      returns (report: LintReport, outcome: Outcome)
    modifies handler, handler.statusUpdater, handler.db
    ensures handler.files == old(handler.files)
    ensures handler.files != [] && old(handler.PathAttribute(aAttr)).0.Raised? ==>
      && outcome == old(handler.PathAttribute(aAttr)).0
      && handler.events == old(handler.events) && handler.state == old(handler.state)
    ensures handler.files != [] && old(handler.PathAttribute(aAttr)).0.Ok? && old(handler.PathAttribute(bAttr)).0.Raised? ==>
      && outcome == old(handler.PathAttribute(bAttr)).0
      && handler.events == old(handler.events) && handler.state == old(handler.state)
    ensures outcome.Ok? ==>
      var aPath, bPath := old(handler.PathAttribute(aAttr)).1, old(handler.PathAttribute(bAttr)).1;
      && report == DiffReport(fs, linters, aPath, bPath, handler.files)
      && handler.events == old(handler.events) + DiffEvents(fs, linters, aPath, bPath, handler.files)
           + [Event.Report(report), Event.Finish]
      && handler.state == FINISHED
    ensures handler.files == [] && old(handler.Ready()) ==> outcome.Ok?
  {
    var files := handler.files;
    ghost var pa, pb := handler.PathAttribute(aAttr), handler.PathAttribute(bAttr);
    report := [];
    outcome := Ok;
    for i := 0 to |files|
      invariant outcome.Ok? && handler.files == files && handler.localPath == old(handler.localPath)
      invariant handler.PathAttribute(aAttr) == pa && handler.PathAttribute(bAttr) == pb
      invariant i > 0 ==> pa.0.Ok? && pb.0.Ok?
      invariant i == 0 ==> handler.state == old(handler.state)
      invariant report == DiffReport(fs, linters, pa.1, pb.1, files[..i])
      invariant handler.events == old(handler.events) + DiffEvents(fs, linters, pa.1, pb.1, files[..i])
      invariant old(handler.Ready()) ==> handler.Ready()
    {
      var (found, aPath) := handler.PathAttribute(aAttr);
      if found.Raised? {
        return report, found;
      }
      var (foundB, bPath) := handler.PathAttribute(bAttr);
      if foundB.Raised? {
        return report, foundB;
      }
      var filename := files[i];
      var entry;
      ghost var done := DiffEvents(fs, linters, aPath, bPath, files[..i]);
      ghost var linted := CopyEvents(fs, Join(aPath, filename), linters) + CopyEvents(fs, Join(bPath, filename), linters);
      entry, outcome := DiffOne(handler, linters, fs, aPath, bPath, filename);
      if outcome.Raised? {
        return;
      }
      report := Put(report, filename, entry);
      DiffReportSnoc(fs, linters, aPath, bPath, files, i);
      DiffEventsSnoc(fs, linters, aPath, bPath, files, i);
      AppendAssoc(done, CopyEvents(fs, Join(aPath, filename), linters), CopyEvents(fs, Join(bPath, filename), linters));
      AppendAssoc(old(handler.events), done, linted);
    }
    assert files[..|files|] == files;
    outcome := ReportAndFinish(handler, report);
  }

  /** `lintball(handler, linters)` as written: it reads `handler.a_path`,
      which a ProcessHandler does not have. With any file retrieved it
      raises before linting or telling the handler anything; with none it
      reports the empty report and finishes. Either way no finding is ever
      reported. */
  method LintballAsWritten(handler: ProcessHandler, linters: seq<Linter>, fs: FileSystem)
      returns (report: LintReport, outcome: Outcome)
    modifies handler, handler.statusUpdater, handler.db
    ensures handler.files == old(handler.files)
    ensures handler.files != [] ==>
      && outcome == Raised(AttributeError("a_path"))
      && handler.events == old(handler.events) && handler.state == old(handler.state)
    ensures handler.files == [] && outcome.Ok? ==>
      && report == []
      && handler.events == old(handler.events) + [Event.Report([]), Event.Finish]
      && handler.state == FINISHED
    ensures handler.files == [] && old(handler.Ready()) ==> outcome.Ok?
  {
    report, outcome := LintballReading(handler, linters, fs, "a_path", "b_path");
  }

  /** Read with the GitHandler's directories, the driver reports an entry
      for every retrieved file, which the code as written never does. */
  lemma CorrectedReportsEveryFile(fs: FileSystem, linters: seq<Linter>, localPath: string, files: seq<string>)
    requires files != []
    ensures forall f :: f in files ==> f in Keys(DiffReport(fs, linters, APath(localPath), BPath(localPath), files))
    ensures |Keys(DiffReport(fs, linters, APath(localPath), BPath(localPath), files))| > 0
  {
    DiffReportKeys(fs, linters, APath(localPath), BPath(localPath), files);
    assert files[0] in Keys(DiffReport(fs, linters, APath(localPath), BPath(localPath), files));
  }

  /** The first two steps of `lint_process`: the job is started and the
      repository cloned, each announced to the handler. */
  method StartAndClone(git: GitHandlers.GitHandler, handler: ProcessHandler) returns (outcome: Outcome)
    requires git.processHandler == handler && git.Valid()
    modifies git`fs, git`cloned, git`commitA, git`commitB
    modifies handler, handler.statusUpdater, handler.db
    ensures git.Valid()
    ensures outcome.Ok? ==> handler.events == old(handler.events) + [Event.Started, Event.CloneRepo(git.localPath)]
    ensures outcome.Ok? ==> git.commitA == Some(git.sha1A) && git.commitB == Some(git.sha1B)
    ensures handler.files == old(handler.files)
    ensures old(handler.Tracked()) && outcome.Ok? ==> handler.Tracked()
  {
    ghost var t0 := handler.Tracked();
    outcome := git.Started();
    if outcome.Raised? {
      return;
    }
    ghost var t1 := handler.Tracked();
    assert t0 ==> t1;
    outcome := git.CloneRepo();
  }

  /** What the retrieval leaves, for a handler that had the files `f0`
      before and has `f` after: the pulls in the orders `aOrder` and
      `bOrder` enumerate the diff's two changed sets, the handler recorded
      them in that order, and each relative name is checked out under `a`
      or `b` as it is in its commit. */
  ghost predicate Prepared(git: GitHandlers.GitHandler, f0: seq<string>, f: seq<string>, aOrder: seq<string>, bOrder: seq<string>)
    reads git
  {
    && Pulls(git, aOrder, bOrder)
    && f == f0 + (aOrder + bOrder)
    && ((forall n :: n in aOrder ==> Relative(n)) && (forall n :: n in bOrder ==> Relative(n)) ==>
          && CheckedOut(git.fs, APath(git.localPath), git.origin, git.sha1A, aOrder)
          && CheckedOut(git.fs, BPath(git.localPath), git.origin, git.sha1B, bOrder))
  }

  /** The notifications of the first three steps of `lint_process`, with
      the two pulls in the orders `aOrder` and `bOrder`. */
  function PrepareEvents(localPath: string, sha1A: Sha, sha1B: Sha, aOrder: seq<string>, bOrder: seq<string>): seq<Event> {
    [Event.Started, Event.CloneRepo(localPath), Event.RetrieveChangedFileSet(Some(sha1A), Some(sha1B))]
      + (Retrievals(aOrder, sha1A) + Retrievals(bOrder, sha1B))
  }

  /** The notifications of the start and the clone, followed by those of
      the retrieval, are the first three steps' notifications. */
  lemma PrepareEventsSplit(e0: seq<Event>, localPath: string, sha1A: Sha, sha1B: Sha, aOrder: seq<string>, bOrder: seq<string>)
    ensures e0 + [Event.Started, Event.CloneRepo(localPath)] + [Event.RetrieveChangedFileSet(Some(sha1A), Some(sha1B))]
              + (Retrievals(aOrder, sha1A) + Retrievals(bOrder, sha1B))
            == e0 + PrepareEvents(localPath, sha1A, sha1B, aOrder, bOrder)
  {
    var announced := [Event.Started, Event.CloneRepo(localPath)];
    var retrieve := Event.RetrieveChangedFileSet(Some(sha1A), Some(sha1B));
    AppendAssoc(e0, announced, [retrieve]);
    assert announced + [retrieve] == [Event.Started, Event.CloneRepo(localPath), retrieve];
    AppendAssoc(e0, announced + [retrieve], Retrievals(aOrder, sha1A) + Retrievals(bOrder, sha1B));
  }

  /** The third step of `lint_process`, once both commits are resolved:
      the changed files are retrieved, stated for the pull request's two
      SHAs. */
  method RetrieveChanged(git: GitHandlers.GitHandler, handler: ProcessHandler)
      returns (outcome: Outcome, ghost aOrder: seq<string>, ghost bOrder: seq<string>)
    requires git.processHandler == handler && git.Valid()
    requires git.commitA == Some(git.sha1A) && git.commitB == Some(git.sha1B)
    modifies git`fs, git`files, handler, handler.statusUpdater, handler.db
    ensures outcome.Ok? ==> Prepared(git, old(handler.files), handler.files, aOrder, bOrder)
    ensures outcome.Ok? ==>
      handler.events == old(handler.events) + [Event.RetrieveChangedFileSet(Some(git.sha1A), Some(git.sha1B))]
        + (Retrievals(aOrder, git.sha1A) + Retrievals(bOrder, git.sha1B))
    ensures old(handler.Tracked()) && outcome.Ok? ==> handler.Tracked()
  {
    outcome, aOrder, bOrder := git.RetrieveChangedFilesFromCommit();
    if outcome.Raised? {
      return;
    }
    AppendAssoc(old(handler.events) + [Event.RetrieveChangedFileSet(git.commitA, git.commitB)],
                Retrievals(aOrder, git.sha1A), Retrievals(bOrder, git.sha1B));
    AppendAssoc(old(handler.files), aOrder, bOrder);
  }

  /** The first steps of `lint_process`: the job is started, the
      repository cloned and the changed files retrieved, each announced to
      the handler in that order. The files of the first commit are pulled
      in the order `aOrder`, those of the second in the order `bOrder`;
      the handler records them all, and a name that is relative lands
      under `a` or `b` with its contents in its commit. */
  method PrepareFiles(git: GitHandlers.GitHandler, handler: ProcessHandler)
      returns (outcome: Outcome, ghost aOrder: seq<string>, ghost bOrder: seq<string>)
    requires git.processHandler == handler && git.Valid()
    modifies git`fs, git`cloned, git`commitA, git`commitB, git`files
    modifies handler, handler.statusUpdater, handler.db
    ensures outcome.Ok? ==> git.commitA == Some(git.sha1A) && git.commitB == Some(git.sha1B)
    ensures outcome.Ok? ==> Prepared(git, old(handler.files), handler.files, aOrder, bOrder)
    ensures outcome.Ok? ==>
      handler.events == old(handler.events) + PrepareEvents(git.localPath, git.sha1A, git.sha1B, aOrder, bOrder)
    ensures old(handler.Tracked()) && outcome.Ok? ==> handler.Tracked()
  {
    aOrder, bOrder := [], [];
    outcome := StartAndClone(git, handler);
    if outcome.Raised? {
      return;
    }
    ghost var e2 := handler.events;
    ghost var t2 := handler.Tracked();
    assert old(handler.Tracked()) ==> t2;
    outcome, aOrder, bOrder := RetrieveChanged(git, handler);
    if outcome.Raised? {
      return;
    }
    assert t2 ==> handler.Tracked();
    PrepareEventsSplit(old(handler.events), git.localPath, git.sha1A, git.sha1B, aOrder, bOrder);
  }

  /** `aOrder` and `bOrder` list, each name once, the two sets of files
      that the diff from the second commit to the first says changed. */
  ghost predicate Pulls(git: GitHandlers.GitHandler, aOrder: seq<string>, bOrder: seq<string>)
    reads git
  {
    var changed := ChangedFiles(git.origin.diff(git.sha1B, git.sha1A));
    && git.files == changed.0
    && Distinct(aOrder) && (forall f :: f in aOrder <==> f in changed.0)
    && Distinct(bOrder) && (forall f :: f in bOrder <==> f in changed.1)
  }

  /** For a job whose handler had retrieved nothing before, the report
      `lint_process` gives has a key for exactly the files the diff says
      changed, on either side. */
  lemma ReportCoversChanges(fs: FileSystem, linters: seq<Linter>, aPath: string, bPath: string,
                            diffs: seq<DiffRecord>, aOrder: seq<string>, bOrder: seq<string>)
    requires forall f :: f in aOrder <==> f in ChangedFiles(diffs).0
    requires forall f :: f in bOrder <==> f in ChangedFiles(diffs).1
    ensures forall k :: k in Keys(DiffReport(fs, linters, aPath, bPath, [] + (aOrder + bOrder))) <==>
      k in ChangedFiles(diffs).0 + ChangedFiles(diffs).1
  {
    assert [] + (aOrder + bOrder) == aOrder + bOrder;
    DiffReportKeys(fs, linters, aPath, bPath, aOrder + bOrder);
  }

  /** `lint_process(git_handler, process_handler, linters)`: starts the job,
      clones, retrieves the changed files, then lints them against the
      GitHandler's `a` and `b` directories. The first failure ends it. The
      files linted are those the handler had plus the two pulls, in the
      order they were pulled. */
  method LintProcess(git: GitHandlers.GitHandler, handler: ProcessHandler, linters: Option<seq<Linter>>)
      returns (report: LintReport, outcome: Outcome, ghost aOrder: seq<string>, ghost bOrder: seq<string>)
    requires git.processHandler == handler && git.Valid()
    modifies git`fs, git`cloned, git`commitA, git`commitB, git`files
    modifies handler, handler.statusUpdater, handler.db
    ensures outcome.Ok? ==> Prepared(git, old(handler.files), handler.files, aOrder, bOrder)
    ensures outcome.Ok? ==>
      var ls := if linters.Some? then linters.value else DefaultLinters();
      report == DiffReport(git.fs, ls, APath(git.localPath), BPath(git.localPath), handler.files)
    ensures outcome.Ok? ==>
      var ls := if linters.Some? then linters.value else DefaultLinters();
      handler.events == old(handler.events) + PrepareEvents(git.localPath, git.sha1A, git.sha1B, aOrder, bOrder)
        + DiffEvents(git.fs, ls, APath(git.localPath), BPath(git.localPath), handler.files)
        + [Event.Report(report), Event.Finish]
    ensures outcome.Ok? ==> handler.state == FINISHED
    ensures outcome.Ok? ==> VerdictPosted(handler, report)
    ensures old(handler.Tracked()) && outcome.Ok? ==> handler.Tracked()
  {
    var ls := if linters.Some? then linters.value else DefaultLinters();
    report := [];
    outcome, aOrder, bOrder := PrepareFiles(git, handler);
    if outcome.Raised? {
      return;
    }
    ghost var e3 := handler.events;
    ghost var t3 := handler.Tracked();
    assert old(handler.Tracked()) ==> t3;
    report, outcome := Lintball(handler, ls, git.fs, APath(git.localPath), BPath(git.localPath));
    if outcome.Raised? {
      return;
    }
    assert t3 ==> handler.Tracked();
  }


  /** The fields of a pull-request webhook payload that `lint_github` reads. */
  datatype Payload = Payload(action: Option<string>, fullName: string, headSha: Sha, baseSha: Sha, repoId: int)

  /** The job `lint_github` sets up: the clone URL, with the token in it,
      and the two commits. */
  datatype GithubJob = GithubJob(repoUrl: string, sha1A: Sha, sha1B: Sha, repoId: int)

  /** The actions that start a job. */
  const Actions: seq<string> := ["opened", "synchronize", "reopened"]

  /** `lint_github(payload, target_url)`: with `oauthKey` the owner's token,
      if any. The head of the pull request is the compared side, the base
      the reference. */
  function LintGithub(p: Payload, oauthKey: Option<string>): (job: Option<GithubJob>)
    ensures job.Some? <==> p.action.Some? && p.action.value in Actions && oauthKey.Some?
    ensures job.Some? ==>
      && job.value.sha1A == p.headSha && job.value.sha1B == p.baseSha && job.value.repoId == p.repoId
      && job.value.repoUrl == "https://" + oauthKey.value + "@github.com/" + p.fullName + ".git"
  {
    if p.action.None? then None
    else if p.action.value !in Actions then None
    else if oauthKey.None? then None
    else Some(GithubJob("https://" + oauthKey.value + "@github.com/" + p.fullName + ".git", p.headSha, p.baseSha, p.repoId))
  }

  /** The URL a job is given always has a scheme, so the GitHandler clones
      it as a remote repository. */
  lemma GithubJobIsRemote(p: Payload, oauthKey: Option<string>)
    requires LintGithub(p, oauthKey).Some?
    ensures GitHandlers.HasScheme(LintGithub(p, oauthKey).value.repoUrl)
  {
    var url := LintGithub(p, oauthKey).value.repoUrl;
    var rest := "//" + oauthKey.value + "@github.com/" + p.fullName + ".git";
    assert url == "https:" + rest;
    GitHandlers.HttpsIsRemote(rest);
  }
}
