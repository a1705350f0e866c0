# Wasmer deployment orchestration, modelled in Dafny

This project models the deployment logic of a Next.js front-end that deploys template apps to
Wasmer Edge. It covers five parts:

- `WasmerApi` models the server-side GraphQL client (`src/lib/wasmer-api.ts`):
  - the token guard;
  - the checks `execute` makes on every response, in their fixed order;
  - the mapping of a remote app record to an `AppStatus`;
  - the three-step `deploy` flow: viewer, then create the repository, then autobuild.
- `DeployRoute` and `BuildStatusRoute` model the two API handlers. Each is a chain of guards,
  followed by a classification of thrown errors by the words in their message.
- `AppName` models the application-name pattern `^[a-zA-Z0-9][a-zA-Z0-9-_]{0,62}$`, which the
  endpoint and the wizard share.
- `DeployHook` models the `useWasmerDeploy` hook. It is a class whose fields are the hook's
  state, its refs and its live interval timers.
- `DeployPage` models the deployment wizard page. It is also a class: the status machine, the
  log, the polling interval and the unmount cleanup.
- `Common` holds the JavaScript semantics the code relies on: falsy strings, `includes`,
  `trim`, and the message JavaScript throws for a read of `undefined`. The message for a read
  of `null` (`NullRead`) lives in `WasmerApi`, the only module that throws it.

The remote GraphQL service is an oracle. It is a function from the requests sent so far and
the one being sent to a `Reply`. The reply is an HTTP status with a parsed or unparsable body,
or a rejected `fetch`.

Each client operation has two forms:

- a specification function that returns its outcome together with the exact requests it sent;
- a method that performs the same awaited steps against a `Network` object recording what was
  sent, and is proved equal to the specification function.

The routes are pure functions of the environment token, the request and the remote service.
Their contracts say which guard answers and which requests reach the remote service.

The hook and the page are classes. Browser-side effects appear as explicit inputs:

- Each reply the code awaits is a parameter of the method that handles it.
- A timer firing is a `Tick(handle, reply)` call.
- The requests they send to the application's own endpoints are recorded in a `requests`
  field.
- The hook's callbacks (`onStatusChange`, `onSuccess`, `onError`) are recorded in order in a
  `notifications` field.

Some behaviours of the code differ from what its comments, types or names suggest. The model
follows the code:

- **There is no "Invalid Token" / 401 path.** `getViewer` does not check for a null viewer.
  Reading `username` of `null` throws a `TypeError`, and the deploy endpoint answers 500 with
  that message before any repository is created (`DeployRoute.NullViewerIsServerError`).
- **The build-status endpoint classifies every GraphQL error as 500**, never as 400
  (`BuildStatusRoute.StatusFailuresAreServerErrors`).
- **The endpoint never reports an app as `FAILED`.** So the page's FAILED branch cannot be
  reached against it (`DeployPage.ReportedAppsNeverFail`). The branch is still modelled, since
  the page handles any reply.
- **The hook's requests do not match the endpoints.** It polls
  `/api/wasmer/build-status?buildId=…`, but the endpoint requires `owner` and `appName`. It also
  reads a `repoUrl` the deploy endpoint never returns, so its `repoUrl` stays absent (`undefined`; the model uses `None` for both null and absent). The hook is
  therefore modelled against the replies it decodes, not composed with the endpoint.
- **The page stores the repository id in its `repoUrl` state.** It also overwrites its interval
  ref without clearing the interval the ref may still hold.

## Model

| member | source | states |
|---|---|---|
| Common.TrimEmptyIffAllWhitespace | src/app/deploy/page.tsx:156 | `trim()` leaves nothing exactly when every character is ECMAScript whitespace |
| AppName.PatternMatchesExactlyValidNames | src/app/api/wasmer/deploy/route.ts:62-63 | the regular expression accepts exactly the names of 1 to 63 characters that start with an ASCII letter or digit and continue with ASCII letters, digits, '-' or '_' |
| AppName.BlankNamesFailPattern | src/app/deploy/page.tsx:156-166 | a name that is blank after trimming also fails the pattern, so the first check of the wizard only picks a message |
| WasmerApi.NewClient | src/lib/wasmer-api.ts:147-152 | a client is made exactly for a non-empty token and keeps it; otherwise the error names WASMER_AUTH_TOKEN |
| WasmerApi.CreateWasmerClient | src/lib/wasmer-api.ts:301-312 | a client exists exactly when the environment token is set and non-empty, and carries that token; otherwise the error names WASMER_AUTH_TOKEN |
| WasmerApi.CheckEnvelope | src/lib/wasmer-api.ts:170-185 | the checks come in a fixed order: a rejected fetch keeps its message; a non-2xx status fails with "HTTP error! status: N"; an unparsable body keeps the parser's message; a non-empty error list fails with "GraphQL Error: " and the messages joined by ", ", even when data is present; an absent `data` then fails with "No data returned from GraphQL API"; data is returned exactly when none of these applies |
| WasmerApi.HttpErrorMessageKind | src/lib/wasmer-api.ts:170-172 | an HTTP failure message contains neither "GraphQL Error" nor "WASMER_AUTH_TOKEN", so both endpoints treat it as an unexpected error |
| WasmerApi.GraphQLErrorIsMarked | src/lib/wasmer-api.ts:176-179 | every GraphQL-level failure carries the "GraphQL Error" marker the deploy endpoint classifies on |
| WasmerApi.NullReadMessageKind | src/lib/wasmer-api.ts:193 | the TypeError of reading a null field contains neither marker |
| WasmerApi.WasmerApiClient.Execute | src/lib/wasmer-api.ts:157-186 | sends exactly one request, with the client's token, and returns the envelope check of its reply |
| WasmerApi.ViewerCall | src/lib/wasmer-api.ts:191-194 | sends only the viewer query; succeeds exactly when the envelope is good and names a viewer, returning its username; a null viewer throws the null read of `username`, not an invalid-token error |
| WasmerApi.WasmerApiClient.GetViewer | src/lib/wasmer-api.ts:191-194 | sends and returns what `ViewerCall` specifies |
| WasmerApi.CreateRepoCall | src/lib/wasmer-api.ts:199-213 | sends only the repository mutation for this name, namespace and template (the default one when omitted); succeeds exactly when the envelope is good and holds a repository, returning its id; a null repository throws the null read of `repoId` |
| WasmerApi.WasmerApiClient.CreateRepoFromTemplate | src/lib/wasmer-api.ts:199-213 | sends and returns what `CreateRepoCall` specifies |
| WasmerApi.AutobuildCall | src/lib/wasmer-api.ts:218-230 | sends only the autobuild mutation for this repository URL, owner and name; succeeds exactly when the envelope holds a build, returning its id; a null build throws the null read of `buildId` |
| WasmerApi.WasmerApiClient.DeployViaAutobuild | src/lib/wasmer-api.ts:218-230 | sends and returns what `AutobuildCall` specifies |
| WasmerApi.ToAppStatus | src/lib/wasmer-api.ts:242-265 | a missing record is the "still deploying" placeholder; otherwise id and name are the record's; status is SUCCESS exactly when there is an active version, and there is a URL exactly then; the URL is the version's own URL, or `https://<app>.wasmer.app` when that is empty; never PENDING or FAILED |
| WasmerApi.AppStatusCall | src/lib/wasmer-api.ts:236-266 | sends only the status query; fails exactly when the envelope check fails, with its error; otherwise returns the mapping of the record |
| WasmerApi.WasmerApiClient.GetAppStatus | src/lib/wasmer-api.ts:236-266 | sends and returns what `AppStatusCall` specifies |
| WasmerApi.DeployCall | src/lib/wasmer-api.ts:271-294 | sends one to three requests in the order viewer, create repository, autobuild, each with the client's token; it continues past the viewer exactly when that succeeded; the repository is created under the viewer's namespace with the given or default template; the autobuild is sent only after the repository mutation succeeded, and uses `https://github.com/<namespace>/<appName>` with the namespace as owner; success needs all three |
| WasmerApi.WasmerApiClient.Deploy | src/lib/wasmer-api.ts:271-294 | sends and returns what `DeployCall` specifies, one awaited call at a time |
| WasmerApi.DeployResultComesFromReplies | src/lib/wasmer-api.ts:276-293 | a failed deploy throws the error of the step that failed, having sent the requests up to and including that step and none after it; a successful one returns the build and repository ids the mutations answered, the namespace as owner and the requested name |
| WasmerApi.NullViewerStopsDeploy | src/lib/wasmer-api.ts:191-194 | a viewer answer without a viewer stops `deploy` after one request with the null read of `username` |
| DeployRoute.ClassifyError | src/app/api/wasmer/deploy/route.ts:87-120 | a message naming WASMER_AUTH_TOKEN is a 500 with the fixed configuration text; otherwise one with "GraphQL Error" is a 400; anything else is a 500; the message is kept except in the first case; never a 401 |
| DeployRoute.TemplateOrDefault | src/app/api/wasmer/deploy/route.ts:78 | the template is the one given unless that is absent or empty, in which case it is the default; never empty |
| DeployRoute.Post | src/app/api/wasmer/deploy/route.ts:31-121 | an unconfigured token is a 500 before anything else and sends nothing; an unreadable body is answered as `ClassifyError` classifies the parser's message; a request reaches the remote service only when the token is set and the body holds a valid name; a 200 response copies build id, repository id and owner from a successful deployment flow with the request's requests |
| DeployRoute.InvalidNamesNeverReachRemote | src/app/api/wasmer/deploy/route.ts:50-72 | with the token set, a missing, empty or non-string name is a 400 with "appName is required and must be a string", any other invalid name a 400 with the format message, and nothing is sent |
| DeployRoute.ValidNamesAreDeployed | src/app/api/wasmer/deploy/route.ts:74-86 | with the token set and a valid name, the handler sends exactly what the deployment flow sends, and answers 200 exactly when that flow succeeds; a failure of any of its steps is answered as `ClassifyError` classifies that step's message (a GraphQL error when creating the repository is a 400) |
| DeployRoute.ViewerFailuresAreClassified | src/app/api/wasmer/deploy/route.ts:94-120 | a GraphQL error on the viewer query is a 400 with that message; a failed HTTP status on it is a 500; either way only the viewer query was sent |
| DeployRoute.NullViewerIsServerError | src/app/api/wasmer/deploy/route.ts:114-120 | a null viewer is a 500 with the null-read message, after the viewer query alone: no 401, and no repository is created |
| BuildStatusRoute.ClassifyError | src/app/api/wasmer/build-status/route.ts:64-88 | every error is a 500; a message naming WASMER_AUTH_TOKEN gets the fixed configuration text, every other message is kept |
| BuildStatusRoute.Get | src/app/api/wasmer/build-status/route.ts:24-89 | an unconfigured token is a 500 and a missing or empty owner or app name a 400, both sending nothing; the status is 200, 400 or 500, and 200 exactly when the body says success; the only request ever sent is the status query for this owner and name; with the token and both parameters present, a successful query is a 200 carrying exactly the client's app status, and a failed one is answered as `ClassifyError` classifies its message |
| BuildStatusRoute.StatusFailuresAreServerErrors | src/app/api/wasmer/build-status/route.ts:56-88 | a failed status query is a 500, GraphQL errors included with their message; a missing app record is a 200 "still deploying" report |
| BuildStatusRoute.ReportedAppsAreConsistent | src/app/api/wasmer/build-status/route.ts:57-63 | every app the endpoint reports is SUCCESS exactly when it has an active version, has a URL exactly then, and is never PENDING or FAILED |
| DeployHook.CompletionFlags | src/lib/hooks/useWasmerDeploy.ts:243-247 | a successful or failed build is complete; a complete build is exactly one that is successful, failed or cancelled |
| DeployHook.PollOutcome | src/lib/hooks/useWasmerDeploy.ts:96-102 | a poll yields a build exactly when the body says success and holds one; a body without success fails with its error, or "Failed to fetch build status" when that is empty; a success without a build fails reading `status` of undefined; a thrown error keeps its message |
| DeployHook.PollNotifications | src/lib/hooks/useWasmerDeploy.ts:104-127 | a failed poll calls only `onError` with its message; a successful one calls `onStatusChange` with the polled status exactly when it differs from the last one seen, and first; then `onSuccess(build)` exactly for SUCCESS and `onError("Build failed")` exactly for FAILED; each of these at most once per poll, and nothing else |
| DeployHook.PolledState | src/lib/hooks/useWasmerDeploy.ts:110-127 | only `build`, `error` and `isPolling` change; a build replaces the previous one and a failure records its message; polling goes on only when it was on and the poll neither failed nor saw a terminal status; after a good poll the state is complete exactly when polling stopped |
| DeployHook.DeployOutcome | src/lib/hooks/useWasmerDeploy.ts:180-200 | the response body is kept, unchanged, exactly when it says success; otherwise its error, or "Deployment failed" when that is empty; a thrown error keeps its message |
| DeployHook.WasmerDeploy.constructor | src/lib/hooks/useWasmerDeploy.ts:55-74 | the initial state, no interval, no last status, and the polling interval given or 3000 |
| DeployHook.WasmerDeploy.StopPolling | src/lib/hooks/useWasmerDeploy.ts:79-85 | whatever the state before, afterwards no interval is live, the ref is null and the state is not polling; nothing else changes |
| DeployHook.WasmerDeploy.Poll | src/lib/hooks/useWasmerDeploy.ts:90-131 | sends one status request, makes the calls of `PollNotifications`, moves to `PolledState`, and clears the interval exactly when the poll failed or saw a terminal status |
| DeployHook.WasmerDeploy.ReportFailure | src/lib/hooks/useWasmerDeploy.ts:122-128 | records the error, calls `onError` with it and stops polling |
| DeployHook.WasmerDeploy.ReportBuild | src/lib/hooks/useWasmerDeploy.ts:102-121 | stores the build, reports a changed status once, and on a terminal status clears the interval before the success or failure callback |
| DeployHook.WasmerDeploy.NoteStatus | src/lib/hooks/useWasmerDeploy.ts:104-108 | calls `onStatusChange` only for a status other than the last one seen, and records it |
| DeployHook.WasmerDeploy.StartPolling | src/lib/hooks/useWasmerDeploy.ts:136-153 | stops any running interval, polls with the last status forgotten and the state polling, and leaves exactly one fresh interval for this build unless that first poll stopped it |
| DeployHook.WasmerDeploy.Tick | src/lib/hooks/useWasmerDeploy.ts:148-150 | a live interval polls the build it was installed for; a cleared one changes nothing |
| DeployHook.WasmerDeploy.Deploy | src/lib/hooks/useWasmerDeploy.ts:158-213 | posts the deployment; a failure leaves a state with only the error set, calls `onError` and is returned as thrown; a success keeps build id and owner (never a repository URL) and starts polling that build |
| DeployHook.WasmerDeploy.Reset | src/lib/hooks/useWasmerDeploy.ts:218-230 | no interval is left, and state and last status are back to their initial values |
| DeployHook.RepeatedStatusScenario | src/lib/hooks/useWasmerDeploy.ts:105-108 | polls seeing BUILDING, BUILDING, SUCCESS report two status changes and one success, and a later tick sends nothing |
| DeployPage.NameProblem | src/app/deploy/page.tsx:155-166 | a name passes both checks exactly when it is a valid app name; "Repository name is required" is given exactly for names blank after trimming |
| DeployPage.CreateOutcome | src/app/deploy/page.tsx:185-189 | the response is kept, unchanged, exactly when it says success; otherwise its error, or "Failed to create repository" when that is empty; a thrown error keeps its message |
| DeployPage.FinalUrl | src/app/deploy/page.tsx:105 | the app URL is never empty; it is the app's own URL when that is non-empty, else the active version's URL when that is non-empty, else `https://<app>.wasmer.app` |
| DeployPage.ObservationFollowsReply | src/app/deploy/page.tsx:85-126 | a response without success is ignored; SUCCESS is a deployment at the `FinalUrl` of the app, with the active version's version when there is one; FAILED is a failure; any other status is still deploying; a success without an app fails reading `status` of undefined; a thrown error is kept |
| DeployPage.Rendered | src/app/deploy/page.tsx:72-75 | the log panel shows one text per log line, in order, each the text `addLog` was given for it |
| DeployPage.RenderedGrows | src/app/deploy/page.tsx:72-75 | appending log lines keeps every text already shown and adds one text per appended line |
| DeployPage.PollLogs | src/app/deploy/page.tsx:98-126 | an ignored poll logs nothing; a deployment logs its URL, then its version when there is one; a failure logs "Deployment failed"; a still-deploying app logs "Checking deployment status..."; a thrown poll logs the warning with its message |
| DeployPage.StatusAfter | src/app/deploy/page.tsx:98-122 | only a deployed or failed app changes the status, to SUCCESS or ERROR respectively |
| DeployPage.Cleared | src/app/deploy/page.tsx:100-103 | clearing the ref's interval removes exactly that handle and keeps every other interval unchanged |
| DeployPage.CurrentStep | src/app/deploy/page.tsx:232-237 | step 3 exactly on SUCCESS, 2 exactly when the repository was created and not yet deployed, 1 exactly when connected without a repository, 0 exactly before connecting |
| DeployPage.EnabledCreateHasName | src/app/deploy/page.tsx:227 | when the create button is enabled, the name is not blank and the sidebar shows step 1, whatever the build id |
| DeployPage.DeployPage.constructor | src/app/deploy/page.tsx:22-49 | IDLE with an empty name and log, no error, URL, ids or interval |
| DeployPage.DeployPage.SetRepositoryName | src/app/deploy/page.tsx:23 | the name input sets only the repository name |
| DeployPage.DeployPage.HandleGitHubConnect | src/app/deploy/page.tsx:132-150 | ends CONNECTED with the fixed scope and no error, after logging the two connection lines |
| DeployPage.DeployPage.PollAppStatus | src/app/deploy/page.tsx:80-127 | sends one status request; appends the poll's log lines; changes status, URL and error only for a deployed or failed app; clears the ref's interval exactly then and otherwise keeps polling |
| DeployPage.DeployPage.StopMonitoring | src/app/deploy/page.tsx:100-103 | clears the ref's interval and nulls the ref |
| DeployPage.DeployPage.Show | src/app/deploy/page.tsx:98-126 | shows a deployed app's status and URL, a failed app's status and error, and appends the poll's log lines |
| DeployPage.DeployPage.HandleCreateRepo | src/app/deploy/page.tsx:155-218 | a name problem sets only the error; then a failed create returns to CONNECTED with the error; a successful one records repository id, build id and owner, enters DEPLOYING, installs a fresh interval for this owner and name, and handles the first poll |
| DeployPage.DeployPage.CreateRepository | src/app/deploy/page.tsx:168-217 | the create request and its two outcomes as in `HandleCreateRepo`, for a name already checked |
| DeployPage.DeployPage.BeginCreate | src/app/deploy/page.tsx:168-183 | enters CREATING_REPO with no error, logs the name and template, and sends the create request with the WordPress template |
| DeployPage.DeployPage.RecordCreateFailure | src/app/deploy/page.tsx:213-217 | back to CONNECTED, with the error recorded and logged |
| DeployPage.DeployPage.RecordCreated | src/app/deploy/page.tsx:191-211 | records and logs the response, enters DEPLOYING and starts monitoring the owner and name |
| DeployPage.DeployPage.ShowCreated | src/app/deploy/page.tsx:191-200 | keeps the repository id as the repository URL, the build id and the owner as scope, logs them, and enters DEPLOYING |
| DeployPage.DeployPage.StartMonitoring | src/app/deploy/page.tsx:202-211 | installs one fresh interval for the target in the ref, then handles the first poll; a stopping poll removes that interval again |
| DeployPage.DeployPage.Tick | src/app/deploy/page.tsx:206-208 | a live interval polls the owner and name it captured; a cleared one changes nothing |
| DeployPage.DeployPage.Unmount | src/app/deploy/page.tsx:61-67 | clears the interval the ref holds and leaves every other interval and the ref as they were |
| DeployPage.SubmittedNamesReachDeployment | src/app/deploy/page.tsx:162-182 | every name the page submits passes the endpoint's validation, so a configured endpoint runs the deployment flow for it |
| DeployPage.ReportedAppsNeverFail | src/app/deploy/page.tsx:98-118 | against the endpoint's app status a poll is never a failure, is a deployment exactly when the remote record has an active version, and then shows the endpoint's URL |

## Left out

- `fetch`, `response.json()`, `process.env` and the remote GraphQL service are inputs: the reply a call gets, the environment token, and the `Remote` oracle. The GraphQL document texts, including the unused node query, are opaque operation tags.
- Timers are explicit `Tick` events, and each poll is one atomic step. Polls that overlap because a reply takes longer than the interval are not modelled, and neither is cancelling an in-flight request.
- React's `useState`/`useCallback`/`useRef`, update batching and rendering are left out. State is plain fields updated at once. Updates made after the page unmounted are not distinguished.
- The hook's callbacks are assumed present and not to throw. Omitted callbacks would only drop entries from `notifications`.
- Values thrown that are not `Error` objects are not modelled: no "Polling error", "Unknown error" or "Unknown error occurred" fallback. Every failure carries a message.
- The clock timestamp `addLog` prefixes to each line is not modelled. Log lines are kept as `LogLine` values whose `LineText` is the rest of the line.
- The `NEXT_PUBLIC_FORCE_DEPLOY_SUCCESS` debug override is left out.
- `console.log` and `console.error` output is left out.
- DeployPage.DeployPage.HandleGitHubConnect: the one-second simulated wait is taken as completed. Its `catch` cannot be reached, since the wait never rejects.
- DeployRoute.Post: a `templateId` that is present but not a string is not modelled.
- DeployHook.PollOutcome: a `build` that is null rather than absent would throw the null-read message. The model treats both as absent.
- DeployPage.Observe: an `app` that is null rather than absent in a successful poll would throw the null-read message. The model treats both as absent.
- The GraphQL endpoint URL is not modelled, since the remote service is an oracle. The 3000 ms period of the page's interval is not modelled either, since timers fire only as explicit `Tick` events.
- DeployPage.IsRepoCreated: `buildId !== null` is true for an `undefined` build id, but the model treats a missing build id as null.
- There is no rollback of a created repository when a later step fails. The code has none.
- `src/lib/relay.ts` and the presentation components are not part of this model.
