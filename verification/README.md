# argocd-commenter: check-run decisions, modelled in Dafny

This project models the decision logic of argocd-commenter. The commenter watches
Argo CD Applications and reports their sync and health changes to GitHub, as check-run
updates and pull-request comments. The model consists of pure functions over immutable
datatypes:

- `ArgoCD` (`argocd.dfy`) holds the fields of an Application that the commenter reads.
  Operation phases and health codes are strings, as they are in Go, so a value outside
  the named constants can be represented.
- `GitHub` (`github_checkrun.dfy`) holds check-run identifiers, the check-run URL parser
  and the update request built from a payload. The parser is hand-written. It is proved
  equal to the anchored pattern `^https://api\.github\.com/repos/(.+?)/(.+?)/check-runs/(\d+)$`
  read with Go's leftmost-first, lazy-group semantics. `IsDecomposition` defines what a
  match is, and `PreferredOver` defines which match the lazy groups pick. Go's `.` does not
  match a newline, so neither does either group here.
- `Decimal` (`decimal.dfy`) holds decimal text and `strconv.ParseInt(s, 10, 64)`.
- `Notification` (`notification_checkrun.dfy`) holds the check-run payload generator and
  the dispatcher that sends it to the check run named in the Application's annotation.
- `PhaseCommentController` (`phase_comment_controller.dfy`) holds the phase-change
  update filter and one pass of the comment controller's reconcile loop.
- `Controllers` (`controllers_argocd.dfy`) holds the Argo CD URL lookup and the
  last deployed revision.

Calls the model cannot see are parameters:
- the REST call to GitHub is `restErr`, the outcome of that call;
- creating a comment is `createErr`;
- the Kubernetes reads are a `Fetch` value and a `getConfigMap` function;
- `argocd.GetOperationPhase` is `phaseOf`;
- `notification.NewCommentOnOnPhaseChanged` is `newComment`.

A few facts about the code shape the model:
- The parser accepts only the exact prefix `https://api.github.com/repos/`.
- There is no health-based update filter. Health enters only through the generator's
  health branch.
- `client.CheckRun` looks neither at deletion nor at the transition flags. Only the
  generator looks at the flags.

## Model

| member | source | states |
|---|---|---|
| `PhaseCommentController.Compare` | internal/controller/applicationphasecomment_controller.go:90-104 | An update is reconciled exactly when the new phase is one of Running, Succeeded, Failed and Error and differs from the old phase. An empty new phase, or an unchanged phase, gives false. |
| `PhaseCommentController.CompareIgnoresTerminating` | internal/controller/applicationphasecomment_controller.go:99-103 | Entering Terminating gives false, even when it differs from the old phase. |
| `PhaseCommentController.CompareDependsOnlyOnPhases` | internal/controller/applicationphasecomment_controller.go:91 | Two pairs of Applications with the same two operation phases get the same verdict, however their other fields differ. |
| `PhaseCommentController.ComparedPhaseHasCheckRun` | internal/controller/applicationphasecomment_controller.go:99-103 | Assume the operation state is present and `phaseOf` reads its phase. Then every phase change the filter admits also yields a check-run payload from the generator, so the filter and the generator agree on which phases to report. |
| `PhaseCommentController.Reconcile` | internal/controller/applicationphasecomment_controller.go:47-76 | A missing Application gives no error, and any other read error is returned unchanged. An Application being deleted gets no comment attempt, no event and no error. A comment is attempted exactly when one is generated. After an attempt, exactly one event is recorded, and it is a Warning exactly when creating the comment failed. A failed comment is never returned as an error. |
| `Notification.GenerateCheckRun` | pkg/notification/checkrun.go:35-107 | Without either flag there is no payload. A phase change without an operation state gives no payload, whatever the health flag says. Every payload carries the event's summary, has status in_progress or completed, and has an empty conclusion exactly when it is in progress. |
| `Notification.PhaseCheckRun` | pkg/notification/checkrun.go:50-78 | A phase yields a payload exactly when it is one of the four reported phases. |
| `Notification.HealthCheckRun` | pkg/notification/checkrun.go:82-103 | A health status yields a payload exactly when it is Progressing, Healthy or Degraded. |
| `Notification.PhaseMapping` | pkg/notification/checkrun.go:50-77 | Running, Succeeded, Failed and Error map to in_progress, completed/success, completed/failure and completed/failure. Their titles are "Syncing: ", "Synced: ", "Sync Failed: " and "Sync Error: ", each followed by the operation message. |
| `Notification.HealthMapping` | pkg/notification/checkrun.go:81-106 | Progressing, Healthy and Degraded map to in_progress, completed/success and completed/failure, titled with the matching prefix and the health message. Any other status gives no payload. |
| `Notification.PhaseTakesPriority` | pkg/notification/checkrun.go:46-81 | When the phase changed to a reported phase, the payload does not depend on the health flag or on the health status. |
| `Notification.UnreportedPhaseFallsThrough` | pkg/notification/checkrun.go:46-81 | A changed phase outside the reported set gives the same result as an event whose phase did not change, so only the health branch decides. |
| `Notification.PhaseChangeEmitsExactlyReportedPhases` | pkg/notification/checkrun.go:46-79 | With only the phase flag set, there is a payload exactly for the reported phases. The payload is in progress exactly for Running. |
| `Notification.ApplicationURL` | pkg/notification/checkrun.go:36 | The link is the Argo CD URL followed by "/applications/" and the Application name. An empty Argo CD URL gives the relative link "/applications/" + name. |
| `Notification.Join` | pkg/notification/checkrun.go:37 | No elements join to "". Otherwise the result starts with the first element and ends with the last. Its length is the elements' total length plus one separator between each pair of neighbours. |
| `Notification.JoinAppend` | pkg/notification/checkrun.go:37 | Appending an element to a non-empty list appends one separator and that element to the joined text. Together with the one-element case, this fixes the joined text of every list: the elements in order, a separator between each pair of neighbours. |
| `Notification.Summary` | pkg/notification/checkrun.go:36-44 | The summary starts with the "## Argo CD" heading. It ends with the "## External URL" heading, then the external URLs joined by newlines, then one final newline. Its length is the two headings, the link, the joined external URLs and that newline. |
| `Notification.SummaryLinksApplication` | pkg/notification/checkrun.go:36-44 | The summary contains ArgoCDURL + "/applications/" + name right after the "## Argo CD" heading, for every event. |
| `Notification.CheckRunDispatch` | pkg/notification/checkrun.go:13-33 | An update is sent exactly when the annotation holds a check-run URL that parses and the generator yields a payload. The update targets the parsed owner, repository and id. Its options are those built from the payload, so an empty conclusion is not sent. An error is returned exactly when an update was sent and failed, and it is the REST error wrapped twice. |
| `Notification.DispatchTo` | pkg/notification/checkrun.go:18-32 | With no parsed id or no payload, nothing is sent and no error is returned. Otherwise the options built from the payload are sent to the id's owner, repository and number. A failed REST call is returned as "unable to create a deployment status: GitHub API error: " followed by the REST error. |
| `Notification.NoReferenceNoUpdate` | pkg/notification/checkrun.go:16-20 | When the annotation does not parse as a check-run URL, nothing is sent and no error is returned. |
| `Notification.MissingAnnotationNoUpdate` | pkg/notification/checkrun.go:16-20 | When the annotation is missing, nothing is sent and no error is returned. |
| `GitHub.ParseCheckRunURL` | pkg/github/checkrun.go:17-34 | A parsed URL starts with the API prefix, has a non-empty owner and name, and has an id in [0, 2^63-1]. It comes from a match of the anchored pattern: the owner and name are that match's first two groups, and the id is the value of its digit group. |
| `GitHub.RejectsNonMatching` | pkg/github/checkrun.go:17-25 | A string the anchored pattern does not match parses to nothing. |
| `GitHub.MatchCheckRunURL` | pkg/github/checkrun.go:17-25 | Every submatch it returns is a match of the anchored pattern. The groups rebuild the string around the fixed text, owner and name are non-empty and newline-free, and the id is a non-empty run of digits. |
| `GitHub.SplitCheckRunsSuffix` | pkg/github/checkrun.go:17 | A split puts "/check-runs/" between the path and a non-empty run of digits that ends the string. |
| `GitHub.SplitOwnerName` | pkg/github/checkrun.go:17 | A split rebuilds the path as owner + "/" + name, with both parts non-empty and free of newlines. |
| `GitHub.MatchSound` | pkg/github/checkrun.go:17-25 | Every result of the scanner is a match of the anchored pattern. |
| `GitHub.MatchComplete` | pkg/github/checkrun.go:17-25 | Every string the pattern matches is found by the scanner. The result is the match the lazy groups prefer, with the shortest owner and then the shortest name. It shares the id digits with every other match. |
| `GitHub.MatchOfSlashFreeOwner` | pkg/github/checkrun.go:17-25 | When a match's owner contains no '/', that match is the one the scanner returns. |
| `GitHub.ParseFormatRoundTrip` | pkg/github/checkrun.go:17-34 | Take a non-empty owner without '/' or newline, a non-empty name without newline and an id in [0, 2^63-1]. Formatting the check-run URL from them and parsing it gives back the same owner, name and id. |
| `GitHub.DocumentedExample` | pkg/github/checkrun.go:19-20 | The documented URL parses to owner int128, name sandbox and id 5348989392. |
| `GitHub.RejectsMissingPrefix` | pkg/github/checkrun.go:17 | A string that does not start with `https://api.github.com/repos/` parses to nothing. |
| `GitHub.RejectsTrailingText` | pkg/github/checkrun.go:17 | A string that is empty, or whose last character is not a digit, parses to nothing. |
| `GitHub.RejectsNonDigitId` | pkg/github/checkrun.go:17 | A string ending in "/check-runs/" and then slash-free text that is not all digits parses to nothing. |
| `GitHub.RejectsOverflowingId` | pkg/github/checkrun.go:26-29 | A string that matches the pattern but whose id exceeds 2^63-1 parses to nothing. |
| `GitHub.AcceptsMatchWithinRange` | pkg/github/checkrun.go:26-33 | A string that matches the pattern with an id in range parses, and the id is the value of the digits. The parsed owner + "/" + name is the matched text, and the parsed owner is no longer than the matched one. |
| `GitHub.UpdateOptionsOf` | pkg/github/checkrun.go:44-53 | Status, title and summary are always sent. The conclusion is sent exactly when it is non-empty, and then unchanged. |
| `GitHub.UpdateOptionsRoundTrip` | pkg/github/checkrun.go:44-53 | Reading the payload back from the options gives the original payload, so leaving out an empty conclusion loses nothing. |
| `GitHub.UpdateCheckRun` | pkg/github/checkrun.go:43-59 | The request targets the identifier's owner, repository and id. Its options are those built from the payload: status, title and summary always, and the conclusion only when it is non-empty. It fails exactly when the REST call fails, with the error prefixed "GitHub API error: ". |
| `Decimal.ParseInt64` | pkg/github/checkrun.go:26-29 | On a non-empty digit string, parsing succeeds exactly when the value is at most 2^63-1, and then yields that value. With a leading '+' the same holds for the digits after it. With a leading '-' parsing succeeds exactly up to 2^63 and yields the negated value. A sign alone, a sign followed by non-digits, unsigned text that is not all digits, and the empty string all fail. Every result lies in the int64 range. |
| `ArgoCD.Lookup` | pkg/notification/checkrun.go:16 | Reading a present key gives its value, and reading a missing key gives "". |
| `ArgoCD.BeingDeleted` | internal/controller/applicationphasecomment_controller.go:54 | An Application is being deleted exactly when its deletion timestamp is set and is not the zero time. |
| `Controllers.FindArgoCDURL` | controllers/argocd.go:15-24 | The result is "" when the argocd-cm ConfigMap of the namespace cannot be read. Otherwise it is the "url" entry, or "" when that entry is absent. |
| `Controllers.GetLastDeployedRevision` | controllers/argocd.go:26-34 | The result is "" without an operation state, and "" without a sync operation. Otherwise it is exactly the sync revision. |
| `Controllers.LastDeployedRevisionDependsOnlyOnOperation` | controllers/argocd.go:26-34 | Applications that record the same operation have the same last deployed revision, however their other fields differ. |

## Left out

- `PhaseCommentController.ComparedPhaseHasCheckRun`: holds only under the assumption that `argocd.GetOperationPhase` reads `OperationState.Phase` and that the operation state is present. That helper is not part of this model.

- Kubernetes reads (`r.Get`, the ConfigMap `c.Get`): only their outcomes are modelled, as a `Fetch` value and an optional ConfigMap.
- `SetupWithManager` and `predicates.ApplicationUpdate`: this is controller-runtime wiring, so how the filter is attached to the watch is not modelled.
- Logging: it has no effect on results. The event recorder is modelled only as the event a pass records.
- The GitHub REST call and the go-github client: the call is opaque and modelled as its outcome, an optional error text.
- `argocd.GetOperationPhase`, `argocd.GetExternalURL`, `notification.NewCommentOnOnPhaseChanged` and `CreateComment` are not part of this model. They appear as parameters or call outcomes. An error from `GetExternalURL` is only logged, so only the URL it returns is an input.
- The Comment type is not part of this model. `Reconcile` is generic in it.
- Go's regexp engine in general is not modelled. Only this one pattern is modelled, by a scanner proved equivalent to it. Strings are sequences of characters, so Go's UTF-8 decoding and its handling of invalid bytes are not modelled.
- `GitHub.ParseFormatRoundTrip`: the owner and name must also be free of newlines, because `.` in Go's regexp syntax does not match one. Only the owner must be free of '/'. The name may contain slashes.
- `GitHub.RejectsMissingPrefix`: this covers strings that do not start with the API prefix. Text in front of the prefix is not always rejected. A string that repeats the prefix can still match, with the owner "https:".
- `GitHub.RejectsNonDigitId`: the trailing text must be free of '/'. Otherwise a later "/check-runs/" inside it can make the string match, with a longer name.
