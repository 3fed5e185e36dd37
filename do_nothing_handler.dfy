/**
 * The do-nothing delegate and how `started` binds its arguments.
 *
 * Every delegate class derives from DoNothingHandler, whose notifications all
 * return None. In the newer package its `started` declares the job id only,
 * yet each subclass's `started` forwards `(uuid, comment_id)` to it, and the
 * ProcessHandler calls the logger and the database with a `comment_id`
 * keyword. Python refuses both calls. The older package declares
 * `comment_id=None`, which is what the rest of this model assumes.
 */
module DoNothingHandlers {
  import opened LintTypes

  /** The class a delegate slot of the ProcessHandler holds. */
  datatype DelegateKind = DoNothing | Logging | Status | Database

  /** The arguments a `started` call passes besides `self`. */
  datatype StartedArgs = UuidOnly | UuidAndCommentId

  /** Binding arguments to the base `started` with the given signature: one
      that declares `comment_id` accepts both calls; the newer package's
      declares the job id only and refuses a second argument. */
  function BaseStarted(declaresCommentId: bool, args: StartedArgs): (o: Outcome)
    ensures o.Ok? <==> declaresCommentId || args == UuidOnly
    ensures o.Raised? ==> o.error == TypeError("started")
  {
    if declaresCommentId || args == UuidOnly then Ok else Raised(TypeError("started"))
  }

  /** A delegate's `started`: the do-nothing class is the base itself; every
      subclass declares `comment_id=None` and first calls the base with both
      arguments, whatever it was given. */
  function DelegateStarted(declaresCommentId: bool, kind: DelegateKind, args: StartedArgs): Outcome {
    if kind == DoNothing then BaseStarted(declaresCommentId, args)
    else BaseStarted(declaresCommentId, UuidAndCommentId)
  }

  /** The argument binding of ProcessHandler.started: the status updater gets
      the job id only, then the logger and the database get the comment id
      too. The first refusal ends the call. */
  function ProcessStarted(declaresCommentId: bool, logger: DelegateKind, status: DelegateKind, db: DelegateKind): Outcome {
    var s := DelegateStarted(declaresCommentId, status, UuidOnly);
    if s.Raised? then s
    else
      var l := DelegateStarted(declaresCommentId, logger, UuidAndCommentId);
      if l.Raised? then l else DelegateStarted(declaresCommentId, db, UuidAndCommentId)
  }

  /** As written in the newer package, starting a job fails on argument
      binding whatever the delegates are: with do-nothing delegates the logger
      refuses the comment id, and a subclass refuses it in its own call to
      the base. */
  lemma StartedAsWrittenAlwaysRaises(logger: DelegateKind, status: DelegateKind, db: DelegateKind)
    ensures ProcessStarted(false, logger, status, db) == Raised(TypeError("started"))
  {
  }

  /** With `comment_id` declared, as in the older package, every binding is
      accepted for every combination of delegates. */
  lemma StartedWithDefaultAccepted(logger: DelegateKind, status: DelegateKind, db: DelegateKind)
    ensures ProcessStarted(true, logger, status, db) == Ok
    ensures forall k, a :: DelegateStarted(true, k, a) == Ok
  {
  }
}
