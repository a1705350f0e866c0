/** The deployment wizard page (`src/app/deploy/page.tsx`): connect, name the
    repository, create it through the deploy endpoint, then poll the app's
    status by owner and name until it is deployed or has failed.

    One mounted page is one `DeployPage` object. React state and refs are plain
    fields updated at once; the page's live `setInterval` timers are the map
    `intervals`, each with the owner and app name its callback polls; the
    requests sent to the application's own endpoints are recorded in
    `requests`. Log lines are kept without their clock timestamp. Each poll is
    one atomic step given the reply it gets. */
module DeployPage {
  import opened Common
  import AppName
  import WasmerApi
  import DeployRoute

  datatype DeploymentStatus = Idle | Connecting | Connected | CreatingRepo | Deploying | Success | Error

  /** The template the page deploys, by the template picked (always WordPress). */
  const TemplateIds: map<string, string> := map["wordpress" := "at_r2yGI9t3ConA", "flask" := "at_r2yGI9t3ConA"]
  const SelectedTemplate := "wordpress"
  const TemplateId := TemplateIds[SelectedTemplate]

  const ConnectedScope := "wasmer-user"

  const RequiredMessage := "Repository name is required"
  const FormatMessage := "Repository name must start with alphanumeric and contain only alphanumeric, hyphens, or underscores"
  const CreateFailedMessage := "Failed to create repository"
  const DeploymentFailedMessage := "Deployment failed"

  /** A request to the application's own endpoints. */
  datatype Request = CreateRequest(appName: string, templateId: string) | StatusRequest(owner: Option<string>, appName: string)

  /** What an interval's callback polls: the owner and app name it captured. */
  datatype PollTarget = PollTarget(owner: Option<string>, appName: string)

  /** What the create request gets: the deploy endpoint's response body, or the
      message of the error `fetch` or `response.json()` throws. */
  datatype CreateReply = CreateBody(body: DeployRoute.DeployResponseBody) | CreateThrew(message: string)

  /** What a status poll gets: the build-status endpoint's response body, or the
      message of the error thrown. */
  datatype PollReply = PollBody(success: bool, error: Option<string>, app: Option<WasmerApi.AppStatus>) | PollThrew(message: string)

  // ---------------------------------------------------------------------------
  // Log lines
  // ---------------------------------------------------------------------------

  /** A nullable value in a template literal: `undefined` when the response
      body leaves it out. */
  function Shown(v: Option<string>): string
  {
    if v.Some? then v.value else "undefined"
  }

  /** A line of the deployment log, by what it reports. */
  datatype LogLine =
    | ValidatingConnection
    | ConnectionValidated
    | CreatingRepository(name: string)
    | UsingTemplate(templateId: string)
    | RepositoryCreated(repoId: Option<string>)
    | OwnerIs(owner: Option<string>)
    | BuildStarted(buildId: Option<string>)
    | StartingMonitoring
    | CreateError(message: string)
    | DeploymentSucceeded(url: string)
    | VersionIs(version: string)
    | DeploymentFailed
    | CheckingStatus
    | PollWarning(message: string)

  /** The text `addLog` appends for a line, without its timestamp prefix. */
  function LineText(line: LogLine): string
  {
    match line
    case ValidatingConnection => "\U{1F517} Validating GitHub connection..."
    case ConnectionValidated => "\U{2705} GitHub connection validated"
    case CreatingRepository(name) => "\U{1F4E6} Creating repository: " + name + "..."
    case UsingTemplate(templateId) => "\U{1F4DD} Using template ID: " + templateId
    case RepositoryCreated(repoId) => "\U{2705} Repository created with ID: " + Shown(repoId)
    case OwnerIs(owner) => "\U{1F464} Owner: " + Shown(owner)
    case BuildStarted(buildId) => "\U{1F680} Build started with ID: " + Shown(buildId)
    case StartingMonitoring => "\U{1F4E1} Starting deployment monitoring..."
    case CreateError(message) => "\U{274C} Error: " + message
    case DeploymentSucceeded(url) => "\U{2705} Deployment successful! Your app is live at " + url
    case VersionIs(version) => "\U{1F4E6} Version: " + version
    case DeploymentFailed => "\U{274C} Deployment failed"
    case CheckingStatus => "\U{23F3} Checking deployment status..."
    case PollWarning(message) => "\U{26A0}\U{FE0F} " + message
  }

  /** The log as the page shows it, one text per line. */
  function Rendered(logs: seq<LogLine>): (texts: seq<string>)
    ensures |texts| == |logs|
    ensures forall i :: 0 <= i < |logs| ==> texts[i] == LineText(logs[i])
  {
    if logs == [] then [] else Rendered(logs[..|logs| - 1]) + [LineText(logs[|logs| - 1])]
  }

  /** The log only grows: appending lines keeps every text already shown and
      adds exactly one text per line appended. */
  lemma RenderedGrows(logs: seq<LogLine>, added: seq<LogLine>)
    ensures Rendered(logs + added) == Rendered(logs) + Rendered(added)
    ensures |Rendered(logs + added)| == |Rendered(logs)| + |added|
  {
    var all := logs + added;
    forall i | 0 <= i < |all|
      ensures Rendered(all)[i] == (Rendered(logs) + Rendered(added))[i]
    {
      if i < |logs| {
        assert all[i] == logs[i];
      } else {
        assert all[i] == added[i - |logs|];
      }
    }
  }

  function CreatingLogs(name: string): seq<LogLine>
  {
    [CreatingRepository(name), UsingTemplate(TemplateId)]
  }

  function CreatedLogs(body: DeployRoute.DeployResponseBody): seq<LogLine>
  {
    [RepositoryCreated(body.repoId), OwnerIs(body.owner), BuildStarted(body.buildId), StartingMonitoring]
  }

  // ---------------------------------------------------------------------------
  // The handlers' decisions, as functions
  // ---------------------------------------------------------------------------

  /** The two checks `handleCreateRepo` makes before sending anything: a name
      that is blank after trimming, then one the name pattern refuses. A name
      passes both exactly when it is a valid app name, and the first message is
      given exactly for blank names. */
  function NameProblem(name: string): (r: Option<string>)
    ensures r.None? <==> AppName.ValidAppName(name)
    ensures r == Some(RequiredMessage) <==> Trim(name) == ""
    ensures r.Some? ==> r.value == RequiredMessage || r.value == FormatMessage
  {
    AppName.PatternMatchesExactlyValidNames(name);
    if Trim(name) == "" then
      AppName.BlankNamesFailPattern(name);
      Some(RequiredMessage)
    else if !AppName.MatchesPattern(name) then Some(FormatMessage)
    else None
  }

  /** The create response the page keeps, or the message it falls back to. */
  function CreateOutcome(reply: CreateReply): (r: Result<DeployRoute.DeployResponseBody>)
    ensures r.Ok? <==> reply.CreateBody? && reply.body.success
    ensures r.Ok? ==> r.value == reply.body
    ensures reply.CreateThrew? ==> r == Err(reply.message)
    ensures reply.CreateBody? && !reply.body.success ==>
      r == Err(if reply.body.error.Some? && reply.body.error.value != "" then reply.body.error.value else CreateFailedMessage)
  {
    match reply
    case CreateThrew(message) => Err(message)
    case CreateBody(body) => if body.success then Ok(body) else Err(OrElse(body.error, CreateFailedMessage))
  }

  /** `app.url || app.activeVersion?.url || https://<appName>.wasmer.app`. */
  function FinalUrl(app: WasmerApi.AppStatus, appName: string): (url: string)
    ensures url != ""
    ensures app.url.Some? && app.url.value != "" ==> url == app.url.value
    ensures (app.url.None? || app.url.value == "") && app.activeVersion.Some? && app.activeVersion.value.url != "" ==>
              url == app.activeVersion.value.url
    ensures (app.url.None? || app.url.value == "") && (app.activeVersion.None? || app.activeVersion.value.url == "") ==>
              url == WasmerApi.FallbackAppUrl(appName)
  {
    if app.url.Some? && app.url.value != "" then app.url.value
    else if app.activeVersion.Some? && app.activeVersion.value.url != "" then app.activeVersion.value.url
    else WasmerApi.FallbackAppUrl(appName)
  }

  /** What one poll observes: a failed response is ignored (polling goes on), a
      thrown error is only logged, and an app's status decides the rest. */
  datatype Observation =
    | Ignored
    | Threw(message: string)
    | Deployed(url: string, version: Option<string>)
    | DeployFailed
    | StillDeploying

  function Observe(appName: string, reply: PollReply): Observation
  {
    match reply
    case PollThrew(message) => Threw(message)
    case PollBody(success, _, app) =>
      if !success then Ignored
      else if app.None? then Threw(UndefinedRead("status"))
      else if app.value.status == WasmerApi.Success then
        Deployed(FinalUrl(app.value, appName),
                 if app.value.activeVersion.Some? then Some(app.value.activeVersion.value.version) else None)
      else if app.value.status == WasmerApi.Failed then DeployFailed
      else StillDeploying
  }

  /** How a reply is classified: a response without success is ignored; a
      successful one with a SUCCESS app is a deployment with a non-empty URL and
      a version exactly when the app has an active version; one with a FAILED
      app is a failure; one with any other status is still deploying; a thrown
      error is kept as it is. */
  lemma ObservationFollowsReply(appName: string, reply: PollReply)
    ensures var o := Observe(appName, reply);
      && (o.Ignored? <==> reply.PollBody? && !reply.success)
      && (o.Deployed? <==> reply.PollBody? && reply.success && reply.app.Some? && reply.app.value.status == WasmerApi.Success)
      && (o.DeployFailed? <==> reply.PollBody? && reply.success && reply.app.Some? && reply.app.value.status == WasmerApi.Failed)
      && (o.Deployed? ==> o.url == FinalUrl(reply.app.value, appName) && o.url != "")
      && (o.Deployed? ==> o.version == if reply.app.value.activeVersion.Some? then Some(reply.app.value.activeVersion.value.version) else None)
      && (reply.PollBody? && reply.success && reply.app.None? ==> o == Threw(UndefinedRead("status")))
      && (reply.PollBody? && reply.success && reply.app.Some? && reply.app.value.status !in {WasmerApi.Success, WasmerApi.Failed} ==>
            o == StillDeploying)
      && (reply.PollThrew? ==> o == Threw(reply.message))
  {
  }

  /** A poll ends the polling exactly when the app is deployed or has failed. */
  predicate Stops(o: Observation)
  {
    o.Deployed? || o.DeployFailed?
  }

  /** The log lines one poll appends: none for an ignored response; the
      success line, followed by the version line when there is one, for a
      deployed app; the failure line, the checking line or the warning for the
      other observations. */
  function PollLogs(o: Observation): (lines: seq<LogLine>)
    ensures lines == [] <==> o.Ignored?
    ensures |lines| <= 2 && (|lines| == 2 <==> o.Deployed? && o.version.Some?)
    ensures o.Deployed? ==> lines[0] == DeploymentSucceeded(o.url)
    ensures o.Deployed? && o.version.Some? ==> lines[1] == VersionIs(o.version.value)
    ensures o.DeployFailed? ==> lines == [DeploymentFailed]
    ensures o.StillDeploying? ==> lines == [CheckingStatus]
    ensures o.Threw? ==> lines == [PollWarning(o.message)]
  {
    match o
    case Ignored => []
    case Threw(message) => [PollWarning(message)]
    case Deployed(url, version) => [DeploymentSucceeded(url)] + (if version.Some? then [VersionIs(version.value)] else [])
    case DeployFailed => [DeploymentFailed]
    case StillDeploying => [CheckingStatus]
  }

  /** The status after a poll: only a deployed or failed app changes it. */
  function StatusAfter(status: DeploymentStatus, o: Observation): (s: DeploymentStatus)
    ensures o.Deployed? ==> s == Success
    ensures o.DeployFailed? ==> s == Error
    ensures !Stops(o) ==> s == status
  {
    if o.Deployed? then Success else if o.DeployFailed? then Error else status
  }

  /** The live intervals after `clearInterval(pollingRef.current)`. */
  function Cleared(intervals: map<nat, PollTarget>, pollingRef: Option<nat>): (r: map<nat, PollTarget>)
    ensures pollingRef.Some? ==> pollingRef.value !in r
    ensures forall h :: h in r <==> h in intervals && pollingRef != Some(h)
    ensures forall h :: h in r ==> r[h] == intervals[h]
  {
    if pollingRef.Some? then intervals - {pollingRef.value} else intervals
  }

  // ---------------------------------------------------------------------------
  // The derived values the page renders
  // ---------------------------------------------------------------------------

  predicate IsConnected(status: DeploymentStatus)
  {
    status != Idle && status != Connecting
  }

  predicate IsRepoCreated(status: DeploymentStatus, buildId: Option<string>)
  {
    status == Deploying || status == Success || (status == Error && buildId.Some?)
  }

  predicate CanCreateRepo(status: DeploymentStatus, repositoryName: string)
  {
    IsConnected(status) && Trim(repositoryName) != "" && status == Connected
  }

  /** `getCurrentStep`: the sidebar step, 3 once deployed, 2 once the repository
      exists, 1 once connected, 0 before. */
  function CurrentStep(status: DeploymentStatus, buildId: Option<string>): (step: nat)
    ensures step <= 3
    ensures step == 3 <==> status == Success
    ensures step == 2 <==> status != Success && IsRepoCreated(status, buildId)
    ensures step == 1 <==> IsConnected(status) && !IsRepoCreated(status, buildId)
    ensures step == 0 <==> !IsConnected(status)
  {
    if status == Success then 3
    else if IsRepoCreated(status, buildId) then 2
    else if IsConnected(status) then 1
    else 0
  }

  /** The create button is enabled only when connected with a name that is not
      blank, so a click on it never stops at the "name is required" check. */
  lemma EnabledCreateHasName(status: DeploymentStatus, repositoryName: string)
    requires CanCreateRepo(status, repositoryName)
    ensures NameProblem(repositoryName) != Some(RequiredMessage)
    ensures IsConnected(status) && forall buildId :: CurrentStep(status, buildId) == 1
  {
  }

  // ---------------------------------------------------------------------------
  // The page
  // ---------------------------------------------------------------------------

  class DeployPage {
    var status: DeploymentStatus
    var repositoryName: string
    var gitScope: Option<string>
    var buildId: Option<string>
    var repoUrl: Option<string>
    var logs: seq<LogLine>
    var error: Option<string>
    var appUrl: Option<string>
    /** `pollingRef`: the handle of the interval most recently installed. */
    var pollingRef: Option<nat>
    /** The live intervals: handle to what the callback polls. */
    var intervals: map<nat, PollTarget>
    var nextHandle: nat
    var requests: seq<Request>
    var mounted: bool

    /** Every handle was issued; while mounted, the interval the ref holds is
        live; a page that shows success has a URL, and one that shows an error
        has a message. */
    ghost predicate Valid()
      reads this
    {
      && (forall h :: h in intervals ==> h < nextHandle)
      && (pollingRef.Some? ==> pollingRef.value < nextHandle)
      && (mounted && pollingRef.Some? ==> pollingRef.value in intervals)
      && (status == Success ==> appUrl.Some?)
      && (status == Error ==> error.Some?)
    }

    constructor ()
      ensures Valid()
      ensures status == Idle && repositoryName == "" && gitScope == None && buildId == None && repoUrl == None
      ensures logs == [] && error == None && appUrl == None
      ensures pollingRef == None && intervals == map[] && requests == [] && mounted
    {
      status := Idle;
      repositoryName := "";
      gitScope := None;
      buildId := None;
      repoUrl := None;
      logs := [];
      error := None;
      appUrl := None;
      pollingRef := None;
      intervals := map[];
      nextHandle := 0;
      requests := [];
      mounted := true;
    }

    /** The repository name input. */
    method SetRepositoryName(name: string)
      requires Valid()
      modifies this`repositoryName
      ensures Valid()
      ensures repositoryName == name
    {
      repositoryName := name;
    }

    /** `handleGitHubConnect`, with its one-second wait taken as done: it always
        ends connected, with the fixed scope and no error. */
    method HandleGitHubConnect()
      requires Valid()
      modifies this`status, this`error, this`logs, this`gitScope
      ensures Valid()
      ensures status == Connected && error == None && gitScope == Some(ConnectedScope)
      ensures logs == old(logs) + [ValidatingConnection, ConnectionValidated]
    {
      status := Connecting;
      error := None;
      logs := logs + [ValidatingConnection];
      status := Connected;
      gitScope := Some(ConnectedScope);
      logs := logs + [ConnectionValidated];
    }

    /** `pollAppStatus(owner, appName)`: one status request and the handling of
        its reply. A deployed or failed app clears the interval the ref holds
        (whichever interval fired) and sets the final status; nothing else does. */
    method PollAppStatus(target: PollTarget, reply: PollReply)
      requires Valid()
      modifies this`requests, this`logs, this`status, this`appUrl, this`error, this`pollingRef, this`intervals
      ensures Valid()
      ensures var o := Observe(target.appName, reply);
        && requests == old(requests) + [StatusRequest(target.owner, target.appName)]
        && logs == old(logs) + PollLogs(o)
        && status == StatusAfter(old(status), o)
        && appUrl == (if o.Deployed? then Some(o.url) else old(appUrl))
        && error == (if o.DeployFailed? then Some(DeploymentFailedMessage) else old(error))
        && (Stops(o) ==> pollingRef == None && intervals == Cleared(old(intervals), old(pollingRef)))
        && (!Stops(o) ==> pollingRef == old(pollingRef) && intervals == old(intervals))
    {
      requests := requests + [StatusRequest(target.owner, target.appName)];
      var o := Observe(target.appName, reply);
      if Stops(o) {
        StopMonitoring();
      }
      Show(o);
    }

    /** Clears the interval the ref holds and sets the ref to null. */
    method StopMonitoring()
      requires Valid()
      modifies this`pollingRef, this`intervals
      ensures Valid()
      ensures pollingRef == None && intervals == Cleared(old(intervals), old(pollingRef))
    {
      intervals := Cleared(intervals, pollingRef);
      pollingRef := None;
    }

    /** What the page shows for an observation: the final status, URL or error
        of a deployed or failed app, and the observation's log lines. */
    method Show(o: Observation)
      requires Valid()
      modifies this`status, this`appUrl, this`error, this`logs
      ensures Valid()
      ensures status == StatusAfter(old(status), o)
      ensures appUrl == (if o.Deployed? then Some(o.url) else old(appUrl))
      ensures error == (if o.DeployFailed? then Some(DeploymentFailedMessage) else old(error))
      ensures logs == old(logs) + PollLogs(o)
    {
      match o
      case Deployed(url, version) =>
        status := Success;
        appUrl := Some(url);
        logs := logs + [DeploymentSucceeded(url)];
        if version.Some? {
          logs := logs + [VersionIs(version.value)];
        }
      case DeployFailed =>
        status := Error;
        error := Some(DeploymentFailedMessage);
        logs := logs + [DeploymentFailed];
      case Threw(message) =>
        logs := logs + [PollWarning(message)];
      case StillDeploying =>
        logs := logs + [CheckingStatus];
      case Ignored =>
    }

    /** `handleCreateRepo`: checks the name, then creates the repository through
        the deploy endpoint; on success it records the result, enters DEPLOYING,
        and starts monitoring the owner and name. */
    method HandleCreateRepo(reply: CreateReply, initial: PollReply)
      requires Valid()
      modifies this`status, this`error, this`logs, this`requests, this`repoUrl, this`buildId, this`gitScope
      modifies this`nextHandle, this`appUrl, this`pollingRef, this`intervals
      ensures Valid()
      ensures NameProblem(repositoryName).Some? ==>
        && error == NameProblem(repositoryName)
        && status == old(status) && logs == old(logs) && requests == old(requests)
        && gitScope == old(gitScope) && buildId == old(buildId) && repoUrl == old(repoUrl) && appUrl == old(appUrl)
        && pollingRef == old(pollingRef) && intervals == old(intervals) && nextHandle == old(nextHandle)
      ensures NameProblem(repositoryName).None? && CreateOutcome(reply).Err? ==>
        && status == Connected && error == Some(CreateOutcome(reply).error)
        && logs == old(logs) + CreatingLogs(repositoryName) + [CreateError(CreateOutcome(reply).error)]
        && requests == old(requests) + [CreateRequest(repositoryName, TemplateId)]
        && gitScope == old(gitScope) && buildId == old(buildId) && repoUrl == old(repoUrl) && appUrl == old(appUrl)
        && pollingRef == old(pollingRef) && intervals == old(intervals) && nextHandle == old(nextHandle)
      ensures NameProblem(repositoryName).None? && CreateOutcome(reply).Ok? ==>
        var body := CreateOutcome(reply).value;
        var o := Observe(repositoryName, initial);
        var handle := old(nextHandle);
        && repoUrl == body.repoId && buildId == body.buildId && gitScope == body.owner
        && status == StatusAfter(Deploying, o)
        && error == (if o.DeployFailed? then Some(DeploymentFailedMessage) else None)
        && appUrl == (if o.Deployed? then Some(o.url) else old(appUrl))
        && logs == old(logs) + CreatingLogs(repositoryName) + CreatedLogs(body) + PollLogs(o)
        && requests == old(requests) + [CreateRequest(repositoryName, TemplateId), StatusRequest(body.owner, repositoryName)]
        && nextHandle == handle + 1
        && (Stops(o) ==> pollingRef == None && intervals == old(intervals))
        && (!Stops(o) ==> pollingRef == Some(handle) && intervals == old(intervals)[handle := PollTarget(body.owner, repositoryName)])
    {
      var problem := NameProblem(repositoryName);
      if problem.Some? {
        error := problem;
        return;
      }
      CreateRepository(repositoryName, reply, initial);
    }

    /** The part of `handleCreateRepo` after the name checks: the create request,
        then either the way back to CONNECTED with the error, or the result
        recorded and the monitoring of the owner and name started. */
    method CreateRepository(name: string, reply: CreateReply, initial: PollReply)
      requires Valid()
      modifies this`status, this`error, this`logs, this`requests, this`repoUrl, this`buildId, this`gitScope
      modifies this`nextHandle, this`appUrl, this`pollingRef, this`intervals
      ensures Valid()
      ensures CreateOutcome(reply).Err? ==>
        && status == Connected && error == Some(CreateOutcome(reply).error)
        && logs == old(logs) + CreatingLogs(name) + [CreateError(CreateOutcome(reply).error)]
        && requests == old(requests) + [CreateRequest(name, TemplateId)]
        && gitScope == old(gitScope) && buildId == old(buildId) && repoUrl == old(repoUrl) && appUrl == old(appUrl)
        && pollingRef == old(pollingRef) && intervals == old(intervals) && nextHandle == old(nextHandle)
      ensures CreateOutcome(reply).Ok? ==>
        var body := CreateOutcome(reply).value;
        var o := Observe(name, initial);
        var handle := old(nextHandle);
        && repoUrl == body.repoId && buildId == body.buildId && gitScope == body.owner
        && status == StatusAfter(Deploying, o)
        && error == (if o.DeployFailed? then Some(DeploymentFailedMessage) else None)
        && appUrl == (if o.Deployed? then Some(o.url) else old(appUrl))
        && logs == old(logs) + CreatingLogs(name) + CreatedLogs(body) + PollLogs(o)
        && requests == old(requests) + [CreateRequest(name, TemplateId), StatusRequest(body.owner, name)]
        && nextHandle == handle + 1
        && (Stops(o) ==> pollingRef == None && intervals == old(intervals))
        && (!Stops(o) ==> pollingRef == Some(handle) && intervals == old(intervals)[handle := PollTarget(body.owner, name)])
    {
      BeginCreate(name);
      var outcome := CreateOutcome(reply);
      if outcome.Err? {
        RecordCreateFailure(outcome.error);
      } else {
        RecordCreated(name, outcome.value, initial);
      }
    }

    /** Enters CREATING_REPO, clears the error, logs the name and template, and
        sends the create request. */
    method BeginCreate(name: string)
      requires Valid()
      modifies this`status, this`error, this`logs, this`requests
      ensures Valid()
      ensures status == CreatingRepo && error == None
      ensures logs == old(logs) + CreatingLogs(name)
      ensures requests == old(requests) + [CreateRequest(name, TemplateId)]
    {
      status := CreatingRepo;
      error := None;
      logs := logs + CreatingLogs(name);
      requests := requests + [CreateRequest(name, TemplateId)];
    }

    /** The `catch` of `handleCreateRepo`: back to CONNECTED, with the error
        recorded and logged. */
    method RecordCreateFailure(message: string)
      requires Valid()
      modifies this`status, this`error, this`logs
      ensures Valid()
      ensures status == Connected && error == Some(message) && logs == old(logs) + [CreateError(message)]
    {
      status := Connected;
      error := Some(message);
      logs := logs + [CreateError(message)];
    }

    /** A successful create response: the repository id (kept as the repo URL),
        build id and owner are recorded and logged, the status becomes
        DEPLOYING, and the monitoring of the owner and name starts. */
    method RecordCreated(name: string, body: DeployRoute.DeployResponseBody, initial: PollReply)
      requires Valid()
      modifies this`status, this`error, this`logs, this`requests, this`repoUrl, this`buildId, this`gitScope
      modifies this`nextHandle, this`appUrl, this`pollingRef, this`intervals
      ensures Valid()
      ensures var o := Observe(name, initial);
        var handle := old(nextHandle);
        && repoUrl == body.repoId && buildId == body.buildId && gitScope == body.owner
        && status == StatusAfter(Deploying, o)
        && error == (if o.DeployFailed? then Some(DeploymentFailedMessage) else old(error))
        && appUrl == (if o.Deployed? then Some(o.url) else old(appUrl))
        && logs == old(logs) + CreatedLogs(body) + PollLogs(o)
        && requests == old(requests) + [StatusRequest(body.owner, name)]
        && nextHandle == handle + 1
        && (Stops(o) ==> pollingRef == None && intervals == old(intervals))
        && (!Stops(o) ==> pollingRef == Some(handle) && intervals == old(intervals)[handle := PollTarget(body.owner, name)])
    {
      ShowCreated(body);
      StartMonitoring(PollTarget(body.owner, name), initial);
    }

    /** The fields a successful create response sets before monitoring starts. */
    method ShowCreated(body: DeployRoute.DeployResponseBody)
      requires Valid()
      modifies this`repoUrl, this`buildId, this`gitScope, this`status, this`logs
      ensures Valid()
      ensures repoUrl == body.repoId && buildId == body.buildId && gitScope == body.owner
      ensures status == Deploying && logs == old(logs) + CreatedLogs(body)
    {
      repoUrl := body.repoId;
      buildId := body.buildId;
      gitScope := body.owner;
      status := Deploying;
      logs := logs + CreatedLogs(body);
    }

    /** Installs a 3000 ms interval polling `target` in the ref, then handles
        the immediate poll, whose reply arrives after the interval is installed.
        The ref is overwritten without clearing an interval it may still hold. */
    method StartMonitoring(target: PollTarget, initial: PollReply)
      requires Valid()
      modifies this`nextHandle, this`requests, this`logs, this`status, this`appUrl, this`error, this`pollingRef, this`intervals
      ensures Valid()
      ensures var o := Observe(target.appName, initial);
        var handle := old(nextHandle);
        && nextHandle == handle + 1
        && requests == old(requests) + [StatusRequest(target.owner, target.appName)]
        && logs == old(logs) + PollLogs(o)
        && status == StatusAfter(old(status), o)
        && appUrl == (if o.Deployed? then Some(o.url) else old(appUrl))
        && error == (if o.DeployFailed? then Some(DeploymentFailedMessage) else old(error))
        && (Stops(o) ==> pollingRef == None && intervals == old(intervals))
        && (!Stops(o) ==> pollingRef == Some(handle) && intervals == old(intervals)[handle := target])
    {
      var handle := nextHandle;
      nextHandle := nextHandle + 1;
      ghost var before := intervals;
      intervals := intervals[handle := target];
      pollingRef := Some(handle);
      PollAppStatus(target, initial);
      assert handle !in before;
      assert Cleared(before[handle := target], Some(handle)) == before;
    }

    /** The interval `handle` fires: a live interval polls what it captured; a
        cleared one never fires. */
    method Tick(handle: nat, reply: PollReply)
      requires Valid()
      modifies this`requests, this`logs, this`status, this`appUrl, this`error, this`pollingRef, this`intervals
      ensures Valid()
      ensures handle !in old(intervals) ==>
        && requests == old(requests) && logs == old(logs) && status == old(status) && appUrl == old(appUrl)
        && error == old(error) && pollingRef == old(pollingRef) && intervals == old(intervals)
      ensures handle in old(intervals) ==>
        var target := old(intervals)[handle];
        var o := Observe(target.appName, reply);
        && requests == old(requests) + [StatusRequest(target.owner, target.appName)]
        && logs == old(logs) + PollLogs(o)
        && status == StatusAfter(old(status), o)
        && appUrl == (if o.Deployed? then Some(o.url) else old(appUrl))
        && error == (if o.DeployFailed? then Some(DeploymentFailedMessage) else old(error))
        && (Stops(o) ==> pollingRef == None && intervals == Cleared(old(intervals), old(pollingRef)))
        && (!Stops(o) ==> pollingRef == old(pollingRef) && intervals == old(intervals))
    {
      if handle in intervals {
        PollAppStatus(intervals[handle], reply);
      }
    }

    /** The unmount cleanup: clears the interval the ref holds, without setting
        the ref to null; any other live interval keeps running. */
    method Unmount()
      requires Valid()
      modifies this`intervals, this`mounted
      ensures Valid()
      ensures !mounted && intervals == Cleared(old(intervals), pollingRef)
    {
      intervals := Cleared(intervals, pollingRef);
      mounted := false;
    }
  }

  // ---------------------------------------------------------------------------
  // The page against the endpoints it calls
  // ---------------------------------------------------------------------------

  /** Every name the page submits passes the deploy endpoint's own validation,
      so a configured endpoint runs the deployment flow for it. */
  lemma SubmittedNamesReachDeployment(
    env: Option<string>, name: string, remote: WasmerApi.Remote, prior: seq<WasmerApi.GraphQLRequest>)
    requires env.Some? && env.value != ""
    requires NameProblem(name).None?
    ensures var request := DeployRoute.Parsed(DeployRoute.DeployRequestBody(DeployRoute.Text(name), Some(TemplateId)));
      DeployRoute.Post(env, request, remote, prior).sent
        == WasmerApi.DeployCall(WasmerApi.WasmerApiClient(env.value), remote, prior, name, Some(TemplateId)).sent
  {
    var request := DeployRoute.Parsed(DeployRoute.DeployRequestBody(DeployRoute.Text(name), Some(TemplateId)));
    DeployRoute.ValidNamesAreDeployed(env, request, remote, prior);
    assert DeployRoute.TemplateOrDefault(Some(TemplateId)) == TemplateId;
  }

  /** The build-status endpoint never reports a failed app, so against it a poll
      never takes the page to ERROR; it sees the app deployed exactly when the
      remote record has an active version, and then shows the URL the endpoint
      reported. */
  lemma ReportedAppsNeverFail(appName: string, record: Option<WasmerApi.DeployApp>)
    ensures var app := WasmerApi.ToAppStatus(appName, record);
      var o := Observe(appName, PollBody(true, None, Some(app)));
      && !o.DeployFailed?
      && (o.Deployed? <==> record.Some? && record.value.activeVersion.Some?)
      && (o.Deployed? ==> Some(o.url) == app.url)
  {
    var app := WasmerApi.ToAppStatus(appName, record);
    if app.activeVersion.Some? {
      assert app.url.value != "" by {
        if app.activeVersion.value.url == "" {
          assert app.url.value == "https://" + appName + ".wasmer.app";
        }
      }
    }
  }
}
