/**
 * Turning an Application event into a GitHub check-run update: the payload
 * generator and the dispatcher that sends it to the check run named in the
 * Application's annotation.
 */
module Notification {
  import opened Wrappers
  import opened ArgoCD
  import opened GitHub

  /** The annotation holding the URL of the check run to update. */
  const CheckRunURLAnnotation: string := "argocd-commenter.int128.github.io/check-run-url"

  const StatusInProgress: string := "in_progress"
  const StatusCompleted: string := "completed"
  const ConclusionSuccess: string := "success"
  const ConclusionFailure: string := "failure"

  /** A notable change of an Application, and the Argo CD URL to link to. */
  datatype Event = Event(
    application: Application,
    argoCDURL: string,
    phaseIsChanged: bool,
    healthIsChanged: bool)

  /** Total length of the strings in `xs`. */
  function TotalLength(xs: seq<string>): nat
  {
    if |xs| == 0 then 0 else |xs[0]| + TotalLength(xs[1..])
  }

  /**
   * `strings.Join(xs, sep)`: the elements in order, with `sep` between
   * neighbours and nowhere else.
   */
  function Join(xs: seq<string>, sep: string): (r: string)
    ensures |xs| == 0 ==> r == ""
    ensures |xs| >= 1 ==> xs[0] <= r
    ensures |xs| >= 1 ==> |xs[|xs| - 1]| <= |r| && r[|r| - |xs[|xs| - 1]|..] == xs[|xs| - 1]
    ensures |xs| >= 1 ==> |r| == TotalLength(xs) + (|xs| - 1) * |sep|
  {
    if |xs| == 0 then ""
    else if |xs| == 1 then xs[0]
    else xs[0] + sep + Join(xs[1..], sep)
  }

  /** Regrouping `a + sep + (b + sep + c)` as `(a + sep + b) + sep + c`. */
  lemma Regroup(a: string, sep: string, b: string, c: string)
    ensures a + sep + (b + sep + c) == (a + sep + b) + sep + c
  {
    assert a + sep + (b + sep + c) == a + (sep + b + sep + c);
  }

  /**
   * Joining from the front and from the back agree: appending an element
   * adds one separator and the element to the end.
   */
  lemma {:induction false} JoinAppend(xs: seq<string>, x: string, sep: string)
    requires |xs| >= 1
    ensures Join(xs + [x], sep) == Join(xs, sep) + sep + x
    decreases |xs|
  {
    var ys := xs + [x];
    assert ys[0] == xs[0] && ys[1..] == xs[1..] + [x];
    if |xs| == 1 {
      assert ys[1..] == [x];
    } else {
      JoinAppend(xs[1..], x, sep);
      Regroup(xs[0], sep, Join(xs[1..], sep), x);
    }
  }

  /** The Application's page in the Argo CD UI. */
  function ApplicationURL(e: Event): (r: string)
    ensures e.argoCDURL <= r && r[|e.argoCDURL|..] == "/applications/" + e.application.name
    ensures e.argoCDURL == "" ==> r == "/applications/" + e.application.name
  {
    e.argoCDURL + "/applications/" + e.application.name
  }

  const SummaryHeading: string := "\n## Argo CD\n"
  const ExternalURLHeading: string := "\n\n## External URL\n"

  /**
   * The Markdown summary every check-run payload of this event carries: the
   * "Argo CD" heading, the Application's link, the "External URL" heading and
   * the external URLs one per line.
   */
  function Summary(e: Event): (r: string)
    ensures |r| == |SummaryHeading| + |ApplicationURL(e)| + |ExternalURLHeading|
      + |Join(e.application.status.summary.externalURLs, "\n")| + 1
    ensures SummaryHeading <= r
    ensures var urls := Join(e.application.status.summary.externalURLs, "\n");
      var tail := ExternalURLHeading + urls + "\n";
      |tail| <= |r| && r[|r| - |tail|..] == tail
  {
    var urls := Join(e.application.status.summary.externalURLs, "\n");
    (SummaryHeading + ApplicationURL(e)) + (ExternalURLHeading + urls + "\n")
  }

  /**
   * A payload GitHub accepts: an in-progress run has no conclusion, a
   * completed run concludes in success or failure.
   */
  predicate WellFormed(cr: CheckRun) {
    || (cr.status == StatusInProgress && cr.conclusion == "")
    || (cr.status == StatusCompleted && cr.conclusion in {ConclusionSuccess, ConclusionFailure})
  }

  /** The payload for an operation phase; other phases give none. */
  function PhaseCheckRun(state: OperationState, summary: string): (r: Option<CheckRun>)
    ensures r.Some? <==> state.phase in ReportedPhases
    ensures r.Some? ==> WellFormed(r.value) && r.value.summary == summary
  {
    if state.phase == OperationRunning then
      Some(CheckRun(StatusInProgress, "", "Syncing: " + state.message, summary))
    else if state.phase == OperationSucceeded then
      Some(CheckRun(StatusCompleted, ConclusionSuccess, "Synced: " + state.message, summary))
    else if state.phase == OperationFailed then
      Some(CheckRun(StatusCompleted, ConclusionFailure, "Sync Failed: " + state.message, summary))
    else if state.phase == OperationError then
      Some(CheckRun(StatusCompleted, ConclusionFailure, "Sync Error: " + state.message, summary))
    else
      None
  }

  /** The payload for a health status; other statuses give none. */
  function HealthCheckRun(health: HealthStatus, summary: string): (r: Option<CheckRun>)
    ensures r.Some? <==> health.status in ReportedHealth
    ensures r.Some? ==> WellFormed(r.value) && r.value.summary == summary
  {
    if health.status == HealthProgressing then
      Some(CheckRun(StatusInProgress, "", "Progressing: " + health.message, summary))
    else if health.status == HealthHealthy then
      Some(CheckRun(StatusCompleted, ConclusionSuccess, "Healthy: " + health.message, summary))
    else if health.status == HealthDegraded then
      Some(CheckRun(StatusCompleted, ConclusionFailure, "Degraded: " + health.message, summary))
    else
      None
  }

  /**
   * `generateCheckRun`. A phase change is looked at first: with no operation
   * state it yields nothing at all; a reported phase yields its payload; any
   * other phase falls through to the health change, if there is one.
   */
  function GenerateCheckRun(e: Event): (r: Option<CheckRun>)
    ensures !e.phaseIsChanged && !e.healthIsChanged ==> r.None?
    ensures e.phaseIsChanged && e.application.status.operationState.None? ==> r.None?
    ensures r.Some? ==> WellFormed(r.value) && r.value.summary == Summary(e)
    ensures r.Some? ==> e.phaseIsChanged || e.healthIsChanged
  {
    var summary := Summary(e);
    var status := e.application.status;
    if e.phaseIsChanged && status.operationState.None? then None
    else if e.phaseIsChanged && PhaseCheckRun(status.operationState.value, summary).Some? then
      PhaseCheckRun(status.operationState.value, summary)
    else if e.healthIsChanged then HealthCheckRun(status.health, summary)
    else None
  }

  /** Prefix of the error `client.CheckRun` wraps a failed update in. */
  const DispatchErrorPrefix: string := "unable to create a deployment status: "

  /** What `client.CheckRun` does: the update it sends, if any, and the error it returns. */
  datatype DispatchOutcome = DispatchOutcome(update: Option<UpdateRequest>, err: Option<string>)

  /** The dispatch once the check-run URL is parsed and the payload generated. */
  function DispatchTo(id: Option<CheckRunID>, cr: Option<CheckRun>, restErr: Option<string>): (r: DispatchOutcome)
    ensures r.update.Some? <==> id.Some? && cr.Some?
    ensures r.update.Some? ==>
      && r.update.value.owner == id.value.repository.owner
      && r.update.value.repo == id.value.repository.name
      && r.update.value.checkRunID == id.value.id
      && CheckRunOf(r.update.value.options) == cr.value
      && r.update.value.options == UpdateOptionsOf(cr.value)
    ensures r.err.Some? <==> r.update.Some? && restErr.Some?
    ensures r.err.Some? ==> r.err.value == DispatchErrorPrefix + UpdateErrorPrefix + restErr.value
  {
    match id
    case None => DispatchOutcome(None, None)
    case Some(id) =>
      match cr
      case None => DispatchOutcome(None, None)
      case Some(cr) =>
        var result := UpdateCheckRun(id, cr, restErr);
        match result.err
        case None => DispatchOutcome(Some(result.request), None)
        case Some(err) =>
          DispatchOutcome(Some(result.request), Some(DispatchErrorPrefix + err))
  }

  /**
   * `client.CheckRun`. Without a parsable check-run URL, or without a payload,
   * nothing is sent and no error is returned. Otherwise the update is sent;
   * `restErr` is the outcome of the REST call, and its failure is returned
   * wrapped.
   */
  function CheckRunDispatch(e: Event, restErr: Option<string>): (r: DispatchOutcome)
    ensures var id := ParseCheckRunURL(Lookup(e.application.annotations, CheckRunURLAnnotation));
      && (r.update.Some? <==> id.Some? && GenerateCheckRun(e).Some?)
      && (r.update.Some? ==>
            && r.update.value.owner == id.value.repository.owner
            && r.update.value.repo == id.value.repository.name
            && r.update.value.checkRunID == id.value.id
            && CheckRunOf(r.update.value.options) == GenerateCheckRun(e).value
            && r.update.value.options == UpdateOptionsOf(GenerateCheckRun(e).value))
    ensures r.err.Some? <==> r.update.Some? && restErr.Some?
    ensures r.err.Some? ==>
      r.err.value == DispatchErrorPrefix + UpdateErrorPrefix + restErr.value
  {
    var checkRunURL := Lookup(e.application.annotations, CheckRunURLAnnotation);
    DispatchTo(ParseCheckRunURL(checkRunURL), GenerateCheckRun(e), restErr)
  }

  // ---------------------------------------------------------------------------
  // Properties of the generator.

  /** The four reported phases map to their status, conclusion and title. */
  lemma PhaseMapping(e: Event)
    requires e.phaseIsChanged && e.application.status.operationState.Some?
    ensures var st := e.application.status.operationState.value;
      && (st.phase == OperationRunning ==>
            GenerateCheckRun(e) == Some(CheckRun(StatusInProgress, "", "Syncing: " + st.message, Summary(e))))
      && (st.phase == OperationSucceeded ==>
            GenerateCheckRun(e) == Some(CheckRun(StatusCompleted, ConclusionSuccess, "Synced: " + st.message, Summary(e))))
      && (st.phase == OperationFailed ==>
            GenerateCheckRun(e) == Some(CheckRun(StatusCompleted, ConclusionFailure, "Sync Failed: " + st.message, Summary(e))))
      && (st.phase == OperationError ==>
            GenerateCheckRun(e) == Some(CheckRun(StatusCompleted, ConclusionFailure, "Sync Error: " + st.message, Summary(e))))
  {
  }

  /** The three reported health statuses map to their status, conclusion and title. */
  lemma HealthMapping(e: Event)
    requires !e.phaseIsChanged && e.healthIsChanged
    ensures var h := e.application.status.health;
      && (h.status == HealthProgressing ==>
            GenerateCheckRun(e) == Some(CheckRun(StatusInProgress, "", "Progressing: " + h.message, Summary(e))))
      && (h.status == HealthHealthy ==>
            GenerateCheckRun(e) == Some(CheckRun(StatusCompleted, ConclusionSuccess, "Healthy: " + h.message, Summary(e))))
      && (h.status == HealthDegraded ==>
            GenerateCheckRun(e) == Some(CheckRun(StatusCompleted, ConclusionFailure, "Degraded: " + h.message, Summary(e))))
      && (h.status !in ReportedHealth ==> GenerateCheckRun(e) == None)
  {
  }

  /**
   * A reported phase takes priority: the payload does not depend on the
   * health flag or on the health status at all.
   */
  lemma PhaseTakesPriority(e: Event, healthIsChanged: bool, health: HealthStatus)
    requires e.phaseIsChanged && e.application.status.operationState.Some?
    requires e.application.status.operationState.value.phase in ReportedPhases
    ensures var app := e.application.(status := e.application.status.(health := health));
      GenerateCheckRun(e) == GenerateCheckRun(e.(application := app, healthIsChanged := healthIsChanged))
  {
  }

  /** A phase the generator does not report on is as if the phase had not changed. */
  lemma UnreportedPhaseFallsThrough(e: Event)
    requires e.phaseIsChanged && e.application.status.operationState.Some?
    requires e.application.status.operationState.value.phase !in ReportedPhases
    ensures GenerateCheckRun(e) == GenerateCheckRun(e.(phaseIsChanged := false))
  {
  }

  /**
   * With only the phase flag set, a payload is emitted exactly for the
   * reported phases; an in-progress payload exactly for a running sync.
   */
  lemma PhaseChangeEmitsExactlyReportedPhases(e: Event)
    requires e.phaseIsChanged && !e.healthIsChanged && e.application.status.operationState.Some?
    ensures var st := e.application.status.operationState.value;
      && (GenerateCheckRun(e).Some? <==> st.phase in ReportedPhases)
      && (GenerateCheckRun(e).Some? ==>
            (GenerateCheckRun(e).value.status == StatusInProgress <==> st.phase == OperationRunning))
  {
  }

  /** The summary links to the Application at a fixed place, whatever the event. */
  lemma SummaryLinksApplication(e: Event)
    ensures var s := Summary(e);
      var url := ApplicationURL(e);
      |SummaryHeading| + |url| <= |s| && s[|SummaryHeading|..|SummaryHeading| + |url|] == url
  {
  }

  // ---------------------------------------------------------------------------
  // Properties of the dispatcher.

  /** No check-run URL, or one that does not parse: nothing is sent and no error returned. */
  lemma NoReferenceNoUpdate(e: Event, restErr: Option<string>)
    requires ParseCheckRunURL(Lookup(e.application.annotations, CheckRunURLAnnotation)).None?
    ensures CheckRunDispatch(e, restErr) == DispatchOutcome(None, None)
  {
  }

  /** A missing annotation is read as the empty string, which is not a check-run URL. */
  lemma MissingAnnotationNoUpdate(e: Event, restErr: Option<string>)
    requires CheckRunURLAnnotation !in e.application.annotations
    ensures CheckRunDispatch(e, restErr) == DispatchOutcome(None, None)
  {
  }
}
