/**
 * The controller that comments on a pull request when an Application's sync
 * operation changes phase: its update filter, and one pass of its reconcile
 * loop as a decision over the outcomes of the calls it makes.
 *
 * The helpers it calls are parameters: `phaseOf` is `argocd.GetOperationPhase`
 * and `newComment` is `notification.NewCommentOnOnPhaseChanged`.
 */
module PhaseCommentController {
  import opened Wrappers
  import opened ArgoCD
  import Notification

  /**
   * `applicationPhaseCommentFilter.Compare`: an update is worth reconciling
   * when the new operation phase is set, differs from the old one and is one
   * the commenter reports on.
   */
  function Compare(phaseOf: Application -> string, applicationOld: Application, applicationNew: Application): (r: bool)
    ensures r <==> phaseOf(applicationNew) in ReportedPhases && phaseOf(applicationNew) != phaseOf(applicationOld)
    ensures phaseOf(applicationNew) == "" ==> !r
    ensures phaseOf(applicationNew) == phaseOf(applicationOld) ==> !r
  {
    var phaseOld, phaseNew := phaseOf(applicationOld), phaseOf(applicationNew);
    if phaseNew == "" then false
    else if phaseOld == phaseNew then false
    else
      phaseNew == OperationRunning || phaseNew == OperationSucceeded
      || phaseNew == OperationFailed || phaseNew == OperationError
  }

  /** Entering a phase outside the reported ones, such as Terminating, is never worth a comment. */
  lemma CompareIgnoresTerminating(phaseOf: Application -> string, applicationOld: Application, applicationNew: Application)
    requires phaseOf(applicationNew) == OperationTerminating
    ensures !Compare(phaseOf, applicationOld, applicationNew)
  {
  }

  /** Applications with the same operation phases get the same verdict, whatever else differs. */
  lemma CompareDependsOnlyOnPhases(phaseOf: Application -> string, a: Application, b: Application, a': Application, b': Application)
    requires phaseOf(a) == phaseOf(a') && phaseOf(b) == phaseOf(b')
    ensures Compare(phaseOf, a, b) == Compare(phaseOf, a', b')
  {
  }

  /**
   * The filter and the check-run generator agree: when the filter lets a
   * phase change through and the phase is the one recorded in the operation
   * state, a phase-change event yields a check-run payload.
   */
  lemma ComparedPhaseHasCheckRun(phaseOf: Application -> string, applicationOld: Application, applicationNew: Application, argoCDURL: string, healthIsChanged: bool)
    requires Compare(phaseOf, applicationOld, applicationNew)
    requires applicationNew.status.operationState.Some?
    requires phaseOf(applicationNew) == applicationNew.status.operationState.value.phase
    ensures Notification.GenerateCheckRun(Notification.Event(applicationNew, argoCDURL, true, healthIsChanged)).Some?
  {
  }

  /** The outcome of reading the Application the request names. */
  datatype Fetch = Found(app: Application) | NotFound | FetchFailed(err: string)

  datatype EventType = Normal | Warning

  /** A Kubernetes event recorded against the Application. */
  datatype RecordedEvent = RecordedEvent(eventType: EventType, reason: string, message: string)

  /**
   * One reconcile pass: the comment it tries to create, the event it
   * records, and the error it returns to the controller runtime.
   */
  datatype ReconcileOutcome<C> = ReconcileOutcome(
    commentAttempt: Option<C>,
    recorded: Option<RecordedEvent>,
    err: Option<string>)

  /**
   * `Reconcile`. A missing Application ends the pass quietly and any other
   * read error is returned; an Application being deleted is left alone.
   * Otherwise the comment for the current phase, if there is one, is
   * created; `createErr` is the outcome of that call. A failure is recorded
   * as a Warning event, never returned.
   */
  function Reconcile<C>(
    fetch: Fetch,
    phaseOf: Application -> string,
    argoCDURL: string,
    newComment: (Application, string) -> Option<C>,
    createErr: Option<string>): (r: ReconcileOutcome<C>)
    ensures r.err.Some? <==> fetch.FetchFailed?
    ensures r.err.Some? ==> r.err.value == fetch.err && r.commentAttempt.None? && r.recorded.None?
    ensures fetch.Found? && BeingDeleted(fetch.app) ==> r == ReconcileOutcome(None, None, None)
    ensures r.commentAttempt.Some? <==>
      fetch.Found? && !BeingDeleted(fetch.app) && newComment(fetch.app, argoCDURL).Some?
    ensures r.commentAttempt.Some? ==> r.commentAttempt == newComment(fetch.app, argoCDURL)
    ensures r.recorded.Some? <==> r.commentAttempt.Some?
    ensures r.recorded.Some? ==> (r.recorded.value.eventType == Warning <==> createErr.Some?)
  {
    match fetch
    case NotFound => ReconcileOutcome(None, None, None)
    case FetchFailed(err) => ReconcileOutcome(None, None, Some(err))
    case Found(app) =>
      if BeingDeleted(app) then ReconcileOutcome(None, None, None)
      else
        var phase := phaseOf(app);
        match newComment(app, argoCDURL)
        case None => ReconcileOutcome(None, None, None)
        case Some(comment) =>
          match createErr
          case Some(err) =>
            ReconcileOutcome(Some(comment),
              Some(RecordedEvent(Warning, "CreateCommentError",
                "unable to create a comment by " + phase + ": " + err)),
              None)
          case None =>
            ReconcileOutcome(Some(comment),
              Some(RecordedEvent(Normal, "CreatedComment", "created a comment by " + phase)),
              None)
  }
}
