# Lintable differential lint pipeline, modelled in Dafny

Lintable lints the files a pull request changes and reports only the findings
the pull request introduced. The model covers the core of that pipeline:

- **The whitespace checkers.** The newer `WhitespaceFileLinter` (regex
  `^(.*?)(\s+)$`, one finding per line, file read as lines) is modelled, and
  so is the older one. The older one uses the same matcher but splits its
  argument text with `(\.*)\n`. The older module-level checker (`(\.)*(\s+)`,
  0-based column, fixed message) is modelled too.
- **The differential driver.** `lint` runs the linters in order; `lintball`
  filters head findings by base findings, file by file, then reports and
  finishes. `lint_process` is the fixed call order, and `lint_github` is the
  payload acceptance.
- **The git layer (both GitHandlers).** It covers:
  - the scratch paths `a`, `b` and `repo`;
  - the classification of a diff into the files to lint;
  - the choice of commits;
  - pulling files out of a commit into a directory while telling the
    ProcessHandler.
- **The ProcessHandler.** It records the stage, commits, clone path and
  retrieved files, and forwards every notification to its delegates.
- **The delegates.** The GitHub status updater posts pending, success or
  failure. The database handler keeps the job status and one report row per
  finding. The do-nothing default is modelled too.

Pure code is modelled as functions and lemmas. Code that updates objects
becomes classes (`ProcessHandler`, `StatusHandler`, `DBHandler`, both
`GitHandler`s) whose methods carry `modifies` clauses and whose loops carry
invariants. Each method is proved against a specification function:
`Findings`, `DiffReport`, `Pulled`, `StatusAfter`, `DbAfter` or
`ChangedFiles`. The properties are proved about those functions.

Inputs and effects become values:

- The repository found at a URL is a `Repository` value: its commits, file
  contents, diff, last merge, HEAD commit, first parents and per-commit file
  lists.
- The scratch directory is a `FileSystem` value, holding a map of file
  contents and a set of directories.
- Python exceptions become an `Outcome` (`Ok` or `Raised(error)`). The first
  failure ends a call, as an uncaught exception does.

As written, the newer package's `started` fails on argument binding, and
`lintball` reads directories a ProcessHandler does not have (see Findings).
Both are modelled as written. The rest of the model, `lint_process`
included, runs on the corrected code: the base `started` declares
`comment_id=None`, and `lintball` lints against the GitHandler's `a` and
`b` directories.

## Model

| member | source | states |
|---|---|---|
| LintTypes.Get | lintball/lint_report.py:6 | looking a file up in the report gives nothing exactly when the file is not a key |
| LintTypes.Put | lintable_lintball/lintball.py:153-154 | `report[k] = v` makes `k` a key holding `v`; an existing key keeps its place and a new key goes last |
| LintTypes.PutOther | lintable_lintball/lintball.py:153-154 | assigning one file's entry leaves every other file's entry as it was |
| LintTypes.PutDistinct | lintball/lint_report.py:6 | assignment keeps the report a dictionary: no file name occurs twice |
| TrailingWhitespace.SearchFromFindsTrailingRun | lintable_linters/whitespace_file_linter.py:28 | the lazy `(.*?)` search succeeds exactly when the line ends in whitespace with no newline before that run, and stops where the maximal trailing run starts |
| TrailingWhitespace.MatchTrailingRun | lintable_linters/whitespace_file_linter.py:28 | `ws_regex.match` succeeds iff the line ends in whitespace and no newline comes before the trailing run; group 1 is then the text before the maximal run |
| TrailingWhitespace.HasTrailingWhitespaceSpec | lintable_linters/whitespace_file_linter.py:49-60 | covers both linter versions (the same matcher is at linters/whitespace_file_linter.py:57-65): no finding for "" or for a line not ending in whitespace; for a line without an inner newline, a finding iff it ends in whitespace; a finding has the given line number, a column 1..len(line) one past the text before the trailing run, and a message quoting that text |
| TrailingWhitespace.TrailingRunFinding | lintable_linters/whitespace_file_linter.py:53-58 | text not ending in whitespace and without a newline, followed by a whitespace run, gives exactly the finding at column len(text)+1 quoting the text |
| TrailingWhitespace.StripEndUnique | lintable_linters/whitespace_file_linter.py:57 | the column is determined: the only start of an all-whitespace suffix with no whitespace before it is the maximal trailing run |
| TrailingWhitespace.PinnedCleanLines | lintable_linters/test_whitespace_file_linter.py:28-63 | the empty line and "This is a test string with no whitespace." give no finding |
| TrailingWhitespace.PinnedBlankLines | lintable_linters/test_whitespace_file_linter.py:35-55 | a lone tab and a lone space each give column 1 and the message "Found trailing whitespace: ''" (also linters/test_whitespace_file_linter.py:16-32) |
| TrailingWhitespace.PinnedCrLfLine | lintable_linters/test_whitespace_file_linter.py:65-77 | the sample line ending in two spaces and CR LF gives column 39, quoting the text without the run |
| TrailingWhitespace.FindingsOrdered | lintable_linters/whitespace_file_linter.py:37-47 | at most one finding per line, in strictly increasing line-number order, each within the numbered range |
| TrailingWhitespace.FindingsComplete | lintable_linters/whitespace_file_linter.py:41-45 | every line whose check gives a finding has that finding reported |
| TrailingWhitespace.FindingsSound | lintable_linters/whitespace_file_linter.py:41-45 | every reported finding is exactly the check's result for the line its number names |
| TrailingWhitespace.NumberedFindings | lintable_linters/whitespace_file_linter.py:37-47 | the numbering loop (lines numbered from 1, one increment per line, a finding appended when there is one) computes `Findings(lines, 1)` |
| WhitespaceFileLinter.ReadLinesConcat | lintable_linters/whitespace_file_linter.py:66-67 | `readlines()` loses and adds nothing: the lines concatenate back to the text |
| WhitespaceFileLinter.ReadLinesShape | lintable_linters/whitespace_file_linter.py:66-67 | every line is non-empty and has a '\n' only at its end; every line but the last ends with one |
| WhitespaceFileLinter.Lint | lintable_linters/whitespace_file_linter.py:34-47 | `lint(filename)` returns the numbered findings of the file's lines; an unreadable file gives [] instead of raising (lines 62-72) |
| WhitespaceFileLinter.FileFindingsAreLineFindings | lintable_linters/whitespace_file_linter.py:34-47 | each finding names a line of the file and is that line's finding; findings come in increasing line order |
| EolSplit.Split | linters/whitespace_file_linter.py:33-37 | `re.split` with one capture group gives an odd number of pieces: texts alternating with captured groups |
| EolSplit.SplitJoin | linters/whitespace_file_linter.py:33-37 | the split loses nothing: text, captured dots and terminator, rejoined, give back the input, for each of the three patterns |
| EolSplit.SplitDots | linters/whitespace_file_linter.py:33-37 | every captured group is a run of dots |
| EolSplit.SplitLfShape | linters/whitespace_file_linter.py:33 | splitting on `(\.*)\n` gives 2·(number of '\n')+1 pieces, and no text piece contains a '\n' |
| EolSplit.SplitLfNoNewline | linters/whitespace_file_linter.py:45 | text without a '\n' splits into itself alone |
| LegacyWhitespaceFileLinter.Lint | linters/whitespace_file_linter.py:41-55 | `lint(text)` numbers the pieces after the first from 1 and returns their findings in order |
| LegacyWhitespaceFileLinter.NoNewlineNoFindings | linters/whitespace_file_linter.py:45 | text with no '\n' yields no findings, since the one piece is dropped |
| LegacyWhitespaceFileLinter.DotElements | linters/whitespace_file_linter.py:33-45 | the pieces numbered 1, 3, 5, … are the captured dot runs |
| LegacyWhitespaceFileLinter.DotsAreClean | linters/whitespace_file_linter.py:57-65 | a run of dots never yields a finding |
| LegacyWhitespaceFileLinter.FindingsOnTextElements | linters/whitespace_file_linter.py:41-55 | there are two numbered pieces per '\n', and findings carry only even line numbers in 2..2·(number of '\n') |
| WhitespaceLinter.FirstMatchFrom | linters/whitespace_linter.py:45-50 | the leftmost match of `(\.)*(\s+)` starts where the dot run directly before the first whitespace character starts |
| WhitespaceLinter.NoSpaceNoMatch | linters/whitespace_linter.py:45-53 | a line without whitespace has no match anywhere |
| WhitespaceLinter.HasTrailingWhitespaceSpec | linters/whitespace_linter.py:45-53 | [] iff the line holds no whitespace anywhere; otherwise one finding on the given line, 0-based column at the start of the dot run before the first whitespace character, and the literal message "Found trailing whitespace '$ws'" |
| WhitespaceLinter.LintFile | linters/whitespace_linter.py:21-32 | one entry per piece after the first, each that piece's (possibly empty) list numbered from 1; for the UNIX pattern, 2·(number of '\n') entries |
| WhitespaceLinter.LintPatch | linters/whitespace_linter.py:35-42 | one entry per (number, line) pair, in order, with the supplied numbers; fails with AssertionError iff some line is not a string |
| Lintball.DefaultLinters | lintable_lintball/lintball.py:122-123 | the default linter list is the single newer whitespace checker, named "Whitespace Linter" |
| Lintball.NotIn | lintable_lintball/lintball.py:153-154 | a finding is kept iff it is a head finding that is not among the base findings |
| Lintball.NotInAppend | lintable_lintball/lintball.py:153-154 | the filter works finding by finding, so it keeps head order |
| Lintball.NotInCount | lintable_lintball/lintball.py:153-154 | repeated head findings absent from the base are all kept, and a finding present in the base is dropped however often the head has it (not a multiset difference) |
| Lintball.NotInEmptyBase | lintable_lintball/lintball.py:146-149 | against no base findings every head finding is kept |
| Lintball.LintAllAppend | lintable_lintball/lintball.py:171-173 | `lint` concatenates findings over the linter list, which distributes over list concatenation |
| Lintball.LintAllSingle | lintable_lintball/lintball.py:171-173 | with one linter, `lint` returns exactly that linter's findings |
| Lintball.LintEventsSpec | lintable_lintball/lintball.py:171-172 | one `lint_file(str(linter), filename)` notification per linter, in linter order |
| Lintball.FileDiffMissingCopy | lintable_lintball/lintball.py:146-154 | a file with no base copy reports every head finding; one with no head copy reports nothing |
| Lintball.DiffReportAssigned | lintable_lintball/lintball.py:142-154 | the report is the result of assigning each retrieved name its differential entry, in retrieval order |
| Lintball.DiffReportKeys | lintable_lintball/lintball.py:142-154 | every retrieved name is a key, even with no findings; nothing else is; duplicates collapse to one key; each key holds its file's differential findings |
| Lintball.Lint | lintable_lintball/lintball.py:166-175 | for each linter, the handler is told before the linter runs; the result is the concatenation; the stage becomes LINT_FILES when there is a linter |
| Lintball.DiffOne | lintable_lintball/lintball.py:143-154 | one loop pass lints the head copy then the base copy (each only if it exists) and gives the file's differential entry |
| Lintball.ReportAndFinish | lintable_lintball/lintball.py:157-161 | `report` then `finish`, once each; the stage ends FINISHED and the last posted status is the report's verdict |
| Lintball.DiffAll | lintable_lintball/lintball.py:142-156 | the loop over `handler.files` builds `DiffReport` and sends, per name, the head copy's then the base copy's notifications |
| Lintball.Lintball | lintable_lintball/lintball.py:136-163 | with the two copy directories given, the report is `DiffReport` over the retrieved files; it is reported exactly once, then the job is finished; the final status is the report's verdict |
| Lintball.LintballReading | lintable_lintball/lintball.py:136-163 | each pass reads the two directories from the handler's attributes; a failed lookup on the first pass raises before anything is linted or announced; otherwise the report is `DiffReport` over the files, reported once, then the job finishes |
| Lintball.LintballAsWritten | lintable_lintball/lintball.py:142-161 | reading `a_path` from a ProcessHandler: with any file retrieved it raises AttributeError('a_path') with the handler told nothing and its stage unchanged; with none it reports the empty report then finishes |
| ProcessHandlers.ProcessHandler.PathAttribute | lintable_processes/process_handler.py:32-44 | an attribute `__init__` never assigns raises AttributeError; the strings `repo` and `uuid` (as `lint_github` builds the handler) and `local_path` once set are joined as they are; every other attribute, the commit objects and an unset `local_path` included, raises TypeError |
| Lintball.CorrectedReportsEveryFile | lintable_lintball/lintball.py:142-154 | read with the GitHandler's `a`/`b` directories, the driver reports an entry for every retrieved file |
| Lintball.StartAndClone | lintable_lintball/lintball.py:125-127 | `started` is sent before `clone_repo` |
| Lintball.PrepareFiles | lintable_lintball/lintball.py:125-129 | `started`, `clone_repo` and `retrieve_changed_file_set(sha1_a, sha1_b)` are sent in that order, then one retrieval per name of the first pull and of the second; the pulls enumerate, each name once, the diff's two changed sets, the handler records them in that order, and each relative name is checked out under `a` or `b` (with the base's `comment_id=None`; see Findings) |
| Lintball.ReportCoversChanges | lintable_lintball/lintball.py:117-133 | for a handler that had retrieved nothing before, the report's keys are exactly the files the diff says changed, on either side |
| Lintball.LintProcess | lintable_lintball/lintball.py:117-133 | started, clone, retrieve, then `lintball` with the given or default linters over the `a`/`b` directories; the files linted are the handler's earlier files followed by the two pulls, which enumerate the diff's two changed sets and are checked out under `a` and `b`; the job ends FINISHED with the verdict posted (with the base's `comment_id=None`; see Findings) |
| Lintball.LintGithub | lintable_lintball/lintball.py:48-110 | a job is made iff the payload has an action among opened/synchronize/reopened and the owner has a token; the head sha is the compared side (`sha1_a`), the base sha the reference, and the URL embeds the token |
| Lintball.GithubJobIsRemote | lintable_lintball/lintball.py:66-69 | every job URL has a scheme, so the GitHandler treats it as remote |
| Paths.JoinInjective | lintable_git/git_handler.py:173 | two relative names joined to one directory give one path only if they are the same name |
| Paths.DirNameShape | lintable_git/git_handler.py:175-178 | a name without '/' has no directory part; otherwise the directory part is shorter than the name |
| Paths.Mkdir | lintable_git/git_handler.py:141-142 | `os.mkdir` succeeds iff nothing exists at the path, and then adds exactly that directory |
| Paths.MakeDirs | lintable_git/git_handler.py:178-179 | `os.makedirs` leaves the directory existing and changes no file |
| Paths.MakeDirsExtends | lintable_git/git_handler.py:178-179 | creating directories never removes a directory or a file |
| GitRepositories.ScratchPathsDisjoint | lintable_git/git_handler.py:71-96 | `a`, `b` and `repo` under the local path are three distinct directories, and nothing pulled under `a` lands on a name pulled under `b` |
| GitRepositories.ChangedFiles | lintable_git/git_handler.py:200-211 | a path is in the first set iff some qualifying record (new file, or both blobs present and different) has it as `a_path`; in the second iff some qualifying non-new record has it as `b_path` |
| GitRepositories.GetFilesChangedBetweenCommits | lintable_git/git_handler.py:188-211 | the classification loop computes `ChangedFiles` of the diff |
| GitRepositories.ChangedFilesOfOneRecord | lintable_git/git_handler.py:205-209 | a new file counts only on the first side; a changed file on both; a deleted or unchanged one on neither |
| GitRepositories.IterationOrder | lintable_git/git_handler.py:151-154 | iterating a set visits each element exactly once |
| GitRepositories.WriteOne | lintable_git/git_handler.py:175-183 | writing one file leaves its directory existing, puts the commit's contents at path/name, and leaves every other file alone |
| GitRepositories.Retrievals | lintable_git/git_handler.py:174 | one `retrieve_file_from_commit(name, commit)` per name, in order |
| GitRepositories.PulledOk | lintable_git/git_handler.py:168-185 | a pull that succeeds found every name in the commit, leaves each target holding that name's contents and each name's directory existing, keeps every other file and every directory |
| GitRepositories.PulledFound | lintable_git/git_handler.py:168-185 | a pull that succeeds found every name in the commit and removed nothing |
| GitRepositories.PulledMissing | lintable_git/git_handler.py:170-172 | a name missing from the commit makes the pull fail |
| GitRepositories.PulledStopsAtMissing | lintable_git/git_handler.py:168-172 | from a name missing from the commit on, the pull fails at once with GitCommandError and writes nothing more |
| GitRepositories.PullOne | lintable_git/git_handler.py:168-183 | a missing name fails before the handler hears of it; otherwise the handler hears of it first, then the file is written, or IsADirectoryError |
| GitRepositories.PulledStopsAtDir | lintable_git/git_handler.py:182-183 | a target that is a directory cannot be opened: IsADirectoryError |
| GitRepositories.PulledAdvance | lintable_git/git_handler.py:168-183 | otherwise the name is written and the pull goes on with the rest |
| GitRepositories.ScratchDirs | lintable_git/git_handler.py:141-142 | `a` then `b` are created; an existing `a` or `b` raises FileExistsError for the first one that exists |
| GitRepositories.PulledBoth | lintable_git/git_handler.py:151-154 | after both pulls, `a` holds each first-side file as it is in the first commit and `b` each second-side file as in the second commit |
| GitRepositories.Announce | lintable_git/git_handler.py:174 | the handler hears of the file and records its name; the stage does not move |
| GitRepositories.WriteFile | lintable_git/git_handler.py:175-183 | writes the file (after making its directory) iff the target is not a directory; otherwise IsADirectoryError |
| GitRepositories.PullFilesFromCommit | lintable_git/git_handler.py:158-185 | the loop computes `Pulled`, and sends one notification per file, in order; the handler's files grow by the names; a failed pull stops at some name `k`: a name missing from the commit fails after the notifications for the names before it only, any other failure after the notification for name `k` too |
| GitRepositories.PullPair | lintable_git/git_handler.py:151-154 | the first commit's files into `a`, then the second's into `b`, with both checked out as in their commits |
| GitHandlers.FirstColon | lintable_git/git_handler.py:57 | finds the first ':' of the URL, if any |
| GitHandlers.HasSchemeSpec | lintable_git/git_handler.py:57 | a URL has a scheme iff the text before its first ':' is a letter followed by scheme characters |
| GitHandlers.HttpsIsRemote | lintable_git/git_handler.py:57 | an https URL is remote |
| GitHandlers.PathsAreLocal | lintable_git/git_handler.py:57 | a path without ':' and an scp-style `user@host:path` address are both local |
| GitHandlers.GitHandler.constructor | lintable_git/git_handler.py:40-66 | no commits, no repository, no files; `remote` iff the URL has a scheme; the given local path, or a fresh temporary directory |
| GitHandlers.GitHandler.Started | lintable_git/git_handler.py:98-109 | passes `started` on to the ProcessHandler once |
| GitHandlers.GitHandler.CloneRepo | lintable_git/git_handler.py:111-129 | notifies `clone_repo(local_path)` before cloning, then resolves `sha1_a` then `sha1_b`; an unknown revision raises BadName and keeps what was resolved; when the database has no job yet, the notification raises and nothing is cloned or resolved |
| GitHandlers.GitHandler.PullChangedFiles | lintable_git/git_handler.py:145-154 | the job's files are the first changed set; each set is pulled, in its own iteration order, from its commit into `a` and `b` |
| GitHandlers.GitHandler.RetrieveChangedFilesFromCommit | lintable_git/git_handler.py:131-156 | announces both commits, makes `a` and `b` (FileExistsError if either exists), classifies the diff and pulls; the notifications come in exactly that order; the announcement itself never fails, and a failure before the pulls leaves the job's files as they were |
| LegacyGitHandlers.LastMerge | git_handler/git_handler.py:146-153 | the newest merge when there is one; with no merge, the commit of the branch HEAD points at (the empty name resolves as `^0`); ValueError on an unborn branch |
| LegacyGitHandlers.FirstParent | git_handler/git_handler.py:92-93 | `merge~1` resolves iff the merge has a first parent in the repository |
| LegacyGitHandlers.GitHandler.constructor | git_handler/git_handler.py:31-46 | no repository, no merge, no previous commit, no files; the given local path or a fresh temporary directory |
| LegacyGitHandlers.GitHandler.Started | git_handler/git_handler.py:72-80 | passes `started` on to the ProcessHandler once |
| LegacyGitHandlers.GitHandler.CloneRepo | git_handler/git_handler.py:82-94 | notifies `clone_repo(cloned_repo_path)` before cloning; the last merge becomes `last_merge` and its first parent `previous_commit`; when the database has no job yet, the notification raises and nothing is cloned or resolved |
| LegacyGitHandlers.GitHandler.PullCommitFiles | git_handler/git_handler.py:107-113 | the merge's files become the job's files and are pulled from the merge into `a`, then the parent's files from the parent into `b` |
| LegacyGitHandlers.GitHandler.RetrieveChangedFilesFromCommit | git_handler/git_handler.py:96-115 | announces the merge and its parent, makes `a` and `b`, pulls both file lists; without a merge or a parent, reading `stats` raises AttributeError; the announcement itself never fails, and a failure before the pulls leaves the job's files as they were |
| ProcessStates.Ordinal | lintable_processes/process_state.py:21-26 | each member's position in declaration order |
| ProcessStates.Next | lintable_processes/process_state.py:21-26 | every member but FINISHED has a successor, the next one in declaration order |
| ProcessStates.MembersAndValues | lintable_processes/process_state.py:21-26 | six members declared once each; values (1,) to (5,) as one-element tuples and the plain 6; values pairwise distinct (the same for process_handler/process_state.py:5-10) |
| ProcessStates.NamesDistinct | process_handler/process_state.py:4-10 | member names tell the members apart |
| ProcessStates.ProgressionFollowsDeclaration | lintable_processes/process_state.py:21-26 | the commented progression started → clone → retrieve → lint → report → finished follows the declaration order |
| ProcessHandlers.StateFollowsJobOrder | lintable_processes/process_handler.py:63-134 | replaying notifications sent in job order from STARTED lands on the stage of the last one |
| ProcessHandlers.StateReplaySnoc | lintable_processes/process_handler.py:63-134 | one more notification moves the replayed stage by one step |
| ProcessHandlers.JobStatusTracksState | lintable_processes/db_handler.py:70-103 | the database's job status follows the handler's stage, notification by notification, except for the announcement of the changed file set |
| ProcessHandlers.JobAcceptsAll | lintable_processes/db_handler.py:39-103 | once a job exists, the database accepts every notification but `started` |
| ProcessHandlers.ProcessHandler.constructor | lintable_processes/process_handler.py:32-44 | stage STARTED, no files, and None for the comment id, clone path and commits |
| ProcessHandlers.ProcessHandler.Started | lintable_processes/process_handler.py:46-54 | the status updater's answer, always None, becomes the comment id; the stage is unchanged; the database creates the job (with the base's `comment_id=None`; see Findings) |
| ProcessHandlers.ProcessHandler.CloneRepo | lintable_processes/process_handler.py:56-68 | stage CLONE_REPO and `local_path` set; delegates take the notification in order; without a database job it raises AttributeError on `status` |
| ProcessHandlers.ProcessHandler.RetrieveChangedFileSet | lintable_processes/process_handler.py:70-84 | stage RETRIEVE_FILES, both commits recorded; it never raises, since the database ignores this notification |
| ProcessHandlers.ProcessHandler.RetrieveFileFromCommit | lintable_processes/process_handler.py:86-99 | the file is appended to `files`, keeping order and repeats; the stage is unchanged |
| ProcessHandlers.ProcessHandler.LintFile | lintable_processes/process_handler.py:101-113 | stage LINT_FILES, whatever it was |
| ProcessHandlers.ProcessHandler.Report | lintable_processes/process_handler.py:115-126 | stage REPORT; the status updater posts the verdict and the database writes the rows |
| ProcessHandlers.ProcessHandler.Finish | lintable_processes/process_handler.py:128-138 | stage FINISHED |
| StatusHandlers.StatusReplaySnoc | lintable_processes/status_handler.py:37-68 | replaying one more notification applies its effect to the replayed state |
| StatusHandlers.FilesWithErrorsBounds | lintable_processes/status_handler.py:48-59 | the number of files with errors is at most the number of files; it is 0 iff no file has findings, and the file count iff every file has some |
| StatusHandlers.VerdictSpec | lintable_processes/status_handler.py:46-60 | "success" iff every file's list is empty, else "failure"; the description gives the file count and the count with errors; context 'Lintable' and the handler's target URL |
| StatusHandlers.ReplayAppends | lintable_processes/status_handler.py:37-68 | statuses are only ever added |
| StatusHandlers.LintingStep | lintable_processes/status_handler.py:37-44 | one notification sets the flag iff it lints a file, and posts the "Linting files" status iff it is the first |
| StatusHandlers.LintingAnnouncedOnce | lintable_processes/status_handler.py:37-44 | over any sequence, "Linting files" is posted exactly once if some file is linted and the flag was unset, never otherwise |
| StatusHandlers.StatusHandler.constructor | lintable_processes/status_handler.py:30-35 | `linting_files` is False and nothing is posted |
| StatusHandlers.StatusHandler.Started | lintable_processes/status_handler.py:62-68 | posts one pending "Starting linting process" and returns None (with the base's `comment_id=None`; see Findings) |
| StatusHandlers.StatusHandler.LintFile | lintable_processes/status_handler.py:37-44 | posts pending "Linting files" and sets the flag the first time only |
| StatusHandlers.StatusHandler.Report | lintable_processes/status_handler.py:46-60 | posts the report's verdict with its summary |
| DbHandlers.EntryRowsSpec | lintable_processes/db_handler.py:43-51 | a file's rows are its findings, one each, in order, carrying file name, column, line number and message |
| DbHandlers.ReportRowsCount | lintable_processes/db_handler.py:39-54 | a report writes exactly one row per finding across all files |
| DbHandlers.TotalErrorsZero | lintable_processes/db_handler.py:39-54 | no rows at all iff every file's list is empty |
| DbHandlers.StartedNeedsRepository | lintable_processes/db_handler.py:56-68 | unless the handler's job already has that uuid, `started` succeeds iff the repository is found, and then creates the job with the uuid, not ended, status STARTED (with the base's `comment_id=None`; see Findings) |
| DbHandlers.LintFileIdempotent | lintable_processes/db_handler.py:70-76 | after one `lint_file`, further ones change nothing |
| DbHandlers.ReportWithoutJob | lintable_processes/db_handler.py:39-54 | with no job, `report` writes nothing and fails: on the first row when there are findings, on the status otherwise |
| DbHandlers.ReportWithJob | lintable_processes/db_handler.py:39-54 | with a job, `report` adds one row per finding after the existing rows and sets status REPORT |
| DbHandlers.DbReplaySnoc | lintable_processes/db_handler.py:39-103 | replaying one more notification applies its effect to the replayed state |
| DbHandlers.DBHandler.constructor | lintable_processes/db_handler.py:33-37 | no repository found yet, no job, no rows |
| DbHandlers.DBHandler.Started | lintable_processes/db_handler.py:56-68 | looks the repository up, then creates and saves the job; fails if the repository is missing, or with IntegrityError if its job already has that uuid (`Jobs.job_id` is unique) (with the base's `comment_id=None`; see Findings) |
| DbHandlers.DBHandler.SaveStatus | lintable_processes/db_handler.py:98-103 | sets the job's status and saves it; fails without a job |
| DbHandlers.DBHandler.CloneRepo | lintable_processes/db_handler.py:98-103 | status CLONE_REPO |
| DbHandlers.DBHandler.RetrieveFileFromCommit | lintable_processes/db_handler.py:86-91 | status RETRIEVE_FILES on every file |
| DbHandlers.DBHandler.LintFile | lintable_processes/db_handler.py:70-76 | status LINT_FILES, saved only when it changes |
| DbHandlers.DBHandler.InsertRows | lintable_processes/db_handler.py:43-51 | one row per finding of one file, in order |
| DbHandlers.DBHandler.Report | lintable_processes/db_handler.py:39-54 | the rows of the whole report, file by file, then status REPORT |
| DbHandlers.DBHandler.Finish | lintable_processes/db_handler.py:78-84 | the job is marked ended with status FINISHED |
| DoNothingHandlers.BaseStarted | lintable_processes/do_nothing_handler.py:29-32 | a call to the base `started` binds iff the base declares `comment_id` or only the uuid is passed |
| DoNothingHandlers.StartedAsWrittenAlwaysRaises | lintable_processes/do_nothing_handler.py:29-32 | as written, `ProcessHandler.started` raises TypeError whatever the delegates are |
| DoNothingHandlers.StartedWithDefaultAccepted | process_handler/do_nothing_handler.py:29-30 | with `comment_id=None` declared, every delegate combination accepts `started` |

## Left out

- **Python's `\s` on `str`** also matches the other Unicode separators. The model's whitespace is the six ASCII characters.
- **Text-mode newline translation in `get_lines`** is not modelled. A file's lines are its stored text cut after each '\n'.
- **GitPython** is not modelled. Clone, commit resolution, `git show`, the diff, `log --merges` and `stats` are read from a `Repository` value. A clone always succeeds, and the clone's files are not modelled.
- **Temporary directories and `__del__`.** `mkdtemp` is a parameter (`tempDir`). The removal in `__del__` is not modelled.
- **`end_time`** is a flag. The date and time are not modelled.
- **Owner lookup (`lint_github`).** The owner's token lookup is a parameter. Repository registration, the target URL, the GitHub API object and the logger lines are not modelled.
- **Missing payload fields.** A `KeyError` from a payload without the fields `lint_github` reads is not modelled.
- **The logging observers** (lintable_processes/log_handler.py) have no state in the model. Apart from `started`, which binds arguments like the other delegates (log_handler.py:65; see Findings), they only write log lines.
- **`urlparse` versions.** Scheme detection follows the RFC 3986 scheme syntax. Version-specific `urlparse` quirks are not modelled.
- **Path normalisation.** Paths are compared as strings.
- **Failures of `os.makedirs`,** and a directory component that is a file (`NotADirectoryError`), are not modelled.
- **Python's `-O`** removes `assert`. `lint_patch` is modelled with assertions on.
- **Web views, the ORM, Celery, the CLI, settings, `lint_wrapper`,** the lintball/ package's driver and the patch linter are not part of this model.
- **`comment_number`.** The newer handler stores `comment_number` on the job. The model's job record does not keep it, because it is always None.
- **The newer handler's `get_last_merge`** (lintable_git/git_handler.py:213) is never called. It is not modelled.
- **Set iteration order.** The order in which a Python set is iterated is an arbitrary order of its elements (`IterationOrder`).
- Lintball.LintProcess: requires the GitHandler to report to the same ProcessHandler the driver uses, as `lint_github` builds them.
- WhitespaceLinter.LintFile: the Windows and classic Mac patterns are covered through `Eol`; the entry count is stated for the UNIX pattern only.
- TrailingWhitespace.PinnedCrLfLine: states the message as `Message(text)`, which is the literal "Found trailing whitespace: 'This is a test string with whitespace.'".
- **The older ProcessHandler** (process_handler/process_handler.py) has the same fields and forwarding as the newer one, with a `commenter` delegate in the status-updater slot. The same class models both.

## Findings

| source | as written | input that shows it | evidently intended | confidence | as-written member | corrected member |
|---|---|---|---|---|---|---|
| lintable_processes/do_nothing_handler.py:29-32 | the base `started(self, uuid)` declares no `comment_id`, yet `ProcessHandler.started` calls the logger and the database with `comment_id=`, and each subclass passes `(uuid, comment_id)` to the base | any job: `ProcessHandler.started()` with the default delegates raises TypeError | `started(self, uuid, comment_id=None)`, as in process_handler/do_nothing_handler.py:29 | high, not executed | DoNothingHandlers.StartedAsWrittenAlwaysRaises | DoNothingHandlers.StartedWithDefaultAccepted |
| lintable_lintball/lintball.py:143-144 | `lintball` reads `handler.a_path` and `handler.b_path`, which a ProcessHandler does not define | any job that retrieved at least one file raises AttributeError before linting | the GitHandler's `a_path` and `b_path` directories | high, not executed | Lintball.LintballAsWritten | Lintball.CorrectedReportsEveryFile |
