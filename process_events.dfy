/**
 * The notifications that drive a lint job. The git layer and the lint driver
 * send them to a ProcessHandler, which records the job's progress and passes
 * each one on to its delegates (a logger, a GitHub status updater and the
 * database). Commits are named by their SHA; a commit that was never
 * resolved is `None`, as the handler's `None` attributes are.
 */
module ProcessEvents {
  import opened LintTypes

  /** A commit, named by its hexadecimal SHA. */
  type Sha = string

  datatype Event =
    | Started
    | CloneRepo(localPath: string)
    | RetrieveChangedFileSet(aCommit: Option<Sha>, bCommit: Option<Sha>)
    | RetrieveFileFromCommit(file: string, commit: Option<Sha>)
    | LintFile(linter: string, file: string)
    | Report(report: LintReport)
    | Finish
}
