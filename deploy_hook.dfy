/** The client-side deployment hook (`src/lib/hooks/useWasmerDeploy.ts`): it
    posts a deployment, then polls the build status on an interval, reporting
    each change of status once and stopping at a terminal status or an error.

    One mounted hook is one `WasmerDeploy` object. React state and refs are
    plain fields updated at once; the live `setInterval` timers the hook owns
    are the map `intervals`; the callbacks it invokes are recorded, in order, in
    `notifications`; the requests it sends to the application's own endpoints
    in `requests`. Each poll is one atomic step given the reply it gets. */
module DeployHook {
  import opened Common
  import DeployRoute

  datatype BuildStatus = Pending | Building | Success | Failed | Cancelled

  datatype BuildApp = BuildApp(name: string, url: string)

  datatype BuildInfo = BuildInfo(
    id: string,
    status: BuildStatus,
    logs: Option<string>,
    createdAt: string,
    finishedAt: Option<string>,
    app: Option<BuildApp>)

  datatype DeploymentState = DeploymentState(
    isDeploying: bool,
    isPolling: bool,
    buildId: Option<string>,
    repoUrl: Option<string>,
    owner: Option<string>,
    build: Option<BuildInfo>,
    error: Option<string>)

  const InitialState := DeploymentState(false, false, None, None, None, None, None)
  const DefaultPollingInterval := 3000
  const TerminalStatuses: seq<BuildStatus> := [Success, Failed, Cancelled]

  /** A callback invocation: `onStatusChange`, `onSuccess` or `onError`. */
  datatype Notification = StatusChanged(status: BuildStatus) | Succeeded(build: BuildInfo) | Errored(message: string)

  /** A request to the application's own endpoints. */
  datatype Request = DeployRequest(appName: string, templateId: Option<string>) | StatusRequest(buildId: Option<string>)

  /** What a status poll gets: the decoded body, or the message of the error
      that `fetch` or `response.json()` throws. */
  datatype PollReply = PollBody(success: bool, error: Option<string>, build: Option<BuildInfo>) | PollThrew(message: string)

  /** What the deployment request gets: the deploy endpoint's response body
      (which has no `repoUrl`), or the message of the error thrown. */
  datatype DeployReply = DeployBody(body: DeployRoute.DeployResponseBody) | DeployThrew(message: string)

  // ---------------------------------------------------------------------------
  // The derived flags and one poll, as functions
  // ---------------------------------------------------------------------------

  predicate IsTerminal(status: BuildStatus)
  {
    status in TerminalStatuses
  }

  /** `isComplete`: a build is known and has reached a terminal status. */
  predicate IsComplete(s: DeploymentState)
  {
    s.build.Some? && IsTerminal(s.build.value.status)
  }

  predicate IsSuccess(s: DeploymentState)
  {
    s.build.Some? && s.build.value.status == Success
  }

  predicate IsFailed(s: DeploymentState)
  {
    s.build.Some? && s.build.value.status == Failed
  }

  /** The flags agree: a successful or failed build is complete, a complete build
      is exactly one of successful, failed or cancelled. */
  lemma CompletionFlags(s: DeploymentState)
    ensures IsSuccess(s) ==> IsComplete(s) && !IsFailed(s)
    ensures IsFailed(s) ==> IsComplete(s)
    ensures IsComplete(s) <==> IsSuccess(s) || IsFailed(s) || (s.build.Some? && s.build.value.status == Cancelled)
  {
  }

  /** The build a poll yields, or the message of the error it ends in. */
  function PollOutcome(reply: PollReply): (r: Result<BuildInfo>)
    ensures r.Ok? <==> reply.PollBody? && reply.success && reply.build.Some?
    ensures r.Ok? ==> r.value == reply.build.value
    ensures reply.PollBody? && !reply.success ==>
      r == Err(if reply.error.Some? && reply.error.value != "" then reply.error.value else "Failed to fetch build status")
    ensures reply.PollBody? && reply.success && reply.build.None? ==> r == Err(UndefinedRead("status"))
    ensures reply.PollThrew? ==> r == Err(reply.message)
  {
    match reply
    case PollThrew(message) => Err(message)
    case PollBody(success, error, build) =>
      if !success then Err(OrElse(error, "Failed to fetch build status"))
      else if build.None? then Err(UndefinedRead("status"))
      else Ok(build.value)
  }

  /** A poll ends the session when it fails or sees a terminal status. */
  predicate StopsPolling(reply: PollReply)
  {
    PollOutcome(reply).Err? || IsTerminal(PollOutcome(reply).value.status)
  }

  /** The status recorded as last seen after a poll. */
  function PolledLastStatus(last: Option<BuildStatus>, reply: PollReply): Option<BuildStatus>
  {
    if PollOutcome(reply).Ok? then Some(PollOutcome(reply).value.status) else last
  }

  /** The callbacks one poll invokes, given the last status seen before it: a
      status change only when the status differs from the last one seen, then
      `onSuccess` for SUCCESS or `onError("Build failed")` for FAILED (nothing
      for CANCELLED); a failed poll invokes only `onError` with its message. */
  function PollNotifications(last: Option<BuildStatus>, reply: PollReply): (n: seq<Notification>)
    ensures PollOutcome(reply).Err? ==> n == [Errored(PollOutcome(reply).error)]
    ensures PollOutcome(reply).Ok? ==>
      var b := PollOutcome(reply).value;
      && |n| <= 2
      && |n| == (if last != Some(b.status) then 1 else 0) + (if b.status == Success || b.status == Failed then 1 else 0)
      && (StatusChanged(b.status) in n <==> last != Some(b.status))
      && (Succeeded(b) in n <==> b.status == Success)
      && (Errored("Build failed") in n <==> b.status == Failed)
      && (forall m :: m in n ==> m == StatusChanged(b.status) || m == Succeeded(b) || m == Errored("Build failed"))
      && (StatusChanged(b.status) in n ==> n[0] == StatusChanged(b.status))
  {
    match PollOutcome(reply)
    case Err(message) => [Errored(message)]
    case Ok(b) =>
      (if last != Some(b.status) then [StatusChanged(b.status)] else [])
      + (if b.status == Success then [Succeeded(b)] else if b.status == Failed then [Errored("Build failed")] else [])
  }

  /** The hook's state after a poll: a build replaces the previous one, and the
      session ends (not polling) on a terminal status; a failed poll records its
      message as the error and ends the session. Nothing else changes. */
  function PolledState(s: DeploymentState, reply: PollReply): (r: DeploymentState)
    ensures r.(build := s.build, error := s.error, isPolling := s.isPolling) == s
    ensures PollOutcome(reply).Ok? ==> r.build == Some(PollOutcome(reply).value) && r.error == s.error
    ensures PollOutcome(reply).Err? ==> r.build == s.build && r.error == Some(PollOutcome(reply).error)
    ensures r.isPolling == (s.isPolling && !StopsPolling(reply))
    ensures PollOutcome(reply).Ok? ==> (IsComplete(r) <==> StopsPolling(reply))
  {
    match PollOutcome(reply)
    case Err(message) => s.(error := Some(message), isPolling := false)
    case Ok(b) => if IsTerminal(b.status) then s.(build := Some(b), isPolling := false) else s.(build := Some(b))
  }

  /** The build id and owner `deploy` keeps, or the message it throws. */
  function DeployOutcome(reply: DeployReply): (r: Result<DeployRoute.DeployResponseBody>)
    ensures r.Ok? <==> reply.DeployBody? && reply.body.success
    ensures r.Ok? ==> r.value == reply.body
    ensures reply.DeployThrew? ==> r == Err(reply.message)
    ensures reply.DeployBody? && !reply.body.success ==>
      r == Err(OrElse(reply.body.error, "Deployment failed"))
  {
    match reply
    case DeployThrew(message) => Err(message)
    case DeployBody(body) => if body.success then Ok(body) else Err(OrElse(body.error, "Deployment failed"))
  }

  // ---------------------------------------------------------------------------
  // The hook
  // ---------------------------------------------------------------------------

  class WasmerDeploy {
    const pollingInterval: nat
    var state: DeploymentState
    /** `pollingRef`: the handle of the hook's interval, if any. */
    var pollingRef: Option<nat>
    /** `lastStatusRef`. */
    var lastStatus: Option<BuildStatus>
    /** The live intervals this hook installed: handle to the build id polled. */
    var intervals: map<nat, Option<string>>
    var nextHandle: nat
    var requests: seq<Request>
    var notifications: seq<Notification>

    /** At most one interval is live, and it is the one `pollingRef` holds;
        while the state says it is polling, that interval exists. (The converse
        fails: `deploy` clears `isPolling` without stopping a running interval.) */
    ghost predicate Valid()
      reads this
    {
      && intervals.Keys == (if pollingRef.Some? then {pollingRef.value} else {})
      && (pollingRef.Some? ==> pollingRef.value < nextHandle)
      && (state.isPolling ==> pollingRef.Some?)
    }

    constructor (pollingInterval: Option<nat>)
      ensures Valid()
      ensures this.pollingInterval == (if pollingInterval.Some? then pollingInterval.value else DefaultPollingInterval)
      ensures state == InitialState && pollingRef == None && lastStatus == None && intervals == map[]
      ensures requests == [] && notifications == []
    {
      this.pollingInterval := if pollingInterval.Some? then pollingInterval.value else DefaultPollingInterval;
      state := InitialState;
      pollingRef := None;
      lastStatus := None;
      intervals := map[];
      nextHandle := 0;
      requests := [];
      notifications := [];
    }

    /** `stopPolling`: clears the interval if there is one; whatever the state
        before, afterwards no interval is live and the state is not polling. */
    method StopPolling()
      requires Valid()
      modifies this
      ensures Valid()
      ensures pollingRef == None && intervals == map[]
      ensures state == old(state).(isPolling := false)
      ensures lastStatus == old(lastStatus) && nextHandle == old(nextHandle)
      ensures requests == old(requests) && notifications == old(notifications)
    {
      if pollingRef.Some? {
        intervals := map h | h in intervals && h != pollingRef.value :: intervals[h];
        pollingRef := None;
      }
      state := state.(isPolling := false);
    }

    /** `pollBuildStatus`: one status request and the handling of its reply. */
    method Poll(buildId: Option<string>, reply: PollReply)
      requires Valid()
      modifies this
      ensures Valid()
      ensures requests == old(requests) + [StatusRequest(buildId)]
      ensures notifications == old(notifications) + PollNotifications(old(lastStatus), reply)
      ensures lastStatus == PolledLastStatus(old(lastStatus), reply)
      ensures state == PolledState(old(state), reply)
      ensures StopsPolling(reply) ==> pollingRef == None && intervals == map[]
      ensures !StopsPolling(reply) ==> pollingRef == old(pollingRef) && intervals == old(intervals)
      ensures nextHandle == old(nextHandle)
    {
      requests := requests + [StatusRequest(buildId)];
      var outcome := PollOutcome(reply);
      if outcome.Err? {
        ReportFailure(outcome.error);
      } else {
        ReportBuild(outcome.value);
      }
    }

    /** The `catch` of `pollBuildStatus`: records the error, calls `onError`
        and stops polling. */
    method ReportFailure(message: string)
      requires Valid()
      modifies this
      ensures Valid()
      ensures state == old(state).(error := Some(message), isPolling := false)
      ensures notifications == old(notifications) + [Errored(message)]
      ensures pollingRef == None && intervals == map[]
      ensures lastStatus == old(lastStatus) && requests == old(requests) && nextHandle == old(nextHandle)
    {
      state := state.(error := Some(message));
      notifications := notifications + [Errored(message)];
      StopPolling();
    }

    /** A build the poll returned: a status change is reported once, the build
        is stored, and a terminal status stops polling before `onSuccess` or
        `onError` is called. */
    method ReportBuild(build: BuildInfo)
      requires Valid()
      modifies this
      ensures Valid()
      ensures notifications == old(notifications) + PollNotifications(old(lastStatus), PollBody(true, None, Some(build)))
      ensures lastStatus == Some(build.status)
      ensures state == PolledState(old(state), PollBody(true, None, Some(build)))
      ensures IsTerminal(build.status) ==> pollingRef == None && intervals == map[]
      ensures !IsTerminal(build.status) ==> pollingRef == old(pollingRef) && intervals == old(intervals)
      ensures requests == old(requests) && nextHandle == old(nextHandle)
    {
      NoteStatus(build.status);
      state := state.(build := Some(build));
      if IsTerminal(build.status) {
        StopPolling();
        if build.status == Success {
          notifications := notifications + [Succeeded(build)];
        } else if build.status == Failed {
          notifications := notifications + [Errored("Build failed")];
        }
      }
    }

    /** Calls `onStatusChange` only for a status other than the last one seen,
        which it then records. */
    method NoteStatus(status: BuildStatus)
      requires Valid()
      modifies this`lastStatus, this`notifications
      ensures Valid()
      ensures lastStatus == Some(status)
      ensures notifications == old(notifications) + (if old(lastStatus) != Some(status) then [StatusChanged(status)] else [])
    {
      if Some(status) != lastStatus {
        lastStatus := Some(status);
        notifications := notifications + [StatusChanged(status)];
      }
    }

    /** `startPolling`: stops any running interval, marks the state as polling,
        forgets the last status, installs a fresh interval and handles the
        immediate poll. The immediate poll's reply is handled after the interval
        is installed, since it arrives only after `setInterval` has run. */
    method StartPolling(buildId: Option<string>, initial: PollReply)
      requires Valid()
      modifies this
      ensures Valid()
      ensures nextHandle == old(nextHandle) + 1
      ensures requests == old(requests) + [StatusRequest(buildId)]
      ensures notifications == old(notifications) + PollNotifications(None, initial)
      ensures lastStatus == PolledLastStatus(None, initial)
      ensures state == PolledState(old(state).(isPolling := true), initial)
      ensures StopsPolling(initial) ==> pollingRef == None && intervals == map[]
      ensures !StopsPolling(initial) ==>
        pollingRef == Some(old(nextHandle)) && intervals == map[old(nextHandle) := buildId]
    {
      StopPolling();
      state := state.(isPolling := true);
      lastStatus := None;
      var handle := nextHandle;
      nextHandle := nextHandle + 1;
      intervals := map[handle := buildId];
      pollingRef := Some(handle);
      Poll(buildId, initial);
    }

    /** The interval `handle` fires: a live interval polls its build; a cleared
        one never fires, so nothing happens. */
    method Tick(handle: nat, reply: PollReply)
      requires Valid()
      modifies this
      ensures Valid()
      ensures handle !in old(intervals) ==>
        && state == old(state) && pollingRef == old(pollingRef) && intervals == old(intervals)
        && lastStatus == old(lastStatus) && requests == old(requests) && notifications == old(notifications)
      ensures handle in old(intervals) ==>
        && requests == old(requests) + [StatusRequest(old(intervals)[handle])]
        && notifications == old(notifications) + PollNotifications(old(lastStatus), reply)
        && lastStatus == PolledLastStatus(old(lastStatus), reply)
        && state == PolledState(old(state), reply)
        && (StopsPolling(reply) ==> pollingRef == None && intervals == map[])
        && (!StopsPolling(reply) ==> pollingRef == old(pollingRef) && intervals == old(intervals))
      ensures nextHandle == old(nextHandle)
    {
      if handle in intervals {
        Poll(intervals[handle], reply);
      }
    }

    /** `deploy`: resets the state to "deploying", posts the deployment, and
        either keeps the build id and owner and starts polling, or records the
        error, calls `onError` and throws it on. The reply has no `repoUrl`, so
        `repoUrl` stays null. */
    method Deploy(appName: string, templateId: Option<string>, reply: DeployReply, initial: PollReply)
      returns (r: Result<DeployRoute.DeployResponseBody>)
      requires Valid()
      modifies this
      ensures Valid()
      ensures r == DeployOutcome(reply)
      ensures r.Err? ==>
        && requests == old(requests) + [DeployRequest(appName, templateId)]
        && notifications == old(notifications) + [Errored(r.error)]
        && state == DeploymentState(false, false, None, None, None, None, Some(r.error))
        && pollingRef == old(pollingRef) && intervals == old(intervals) && lastStatus == old(lastStatus)
        && nextHandle == old(nextHandle)
      ensures r.Ok? ==>
        var kept := DeploymentState(false, true, r.value.buildId, None, r.value.owner, None, None);
        && requests == old(requests) + [DeployRequest(appName, templateId), StatusRequest(r.value.buildId)]
        && notifications == old(notifications) + PollNotifications(None, initial)
        && state == PolledState(kept, initial)
        && lastStatus == PolledLastStatus(None, initial)
        && nextHandle == old(nextHandle) + 1
        && (StopsPolling(initial) ==> pollingRef == None && intervals == map[])
        && (!StopsPolling(initial) ==>
              pollingRef == Some(old(nextHandle)) && intervals == map[old(nextHandle) := r.value.buildId])
    {
      state := DeploymentState(true, false, None, None, None, None, None);
      requests := requests + [DeployRequest(appName, templateId)];
      r := DeployOutcome(reply);
      if r.Err? {
        state := state.(isDeploying := false, error := Some(r.error));
        notifications := notifications + [Errored(r.error)];
        return;
      }
      state := state.(isDeploying := false, buildId := r.value.buildId, repoUrl := None, owner := r.value.owner);
      StartPolling(r.value.buildId, initial);
    }

    /** `reset`: stops polling and returns to the initial state. */
    method Reset()
      requires Valid()
      modifies this
      ensures Valid()
      ensures state == InitialState && lastStatus == None
      ensures pollingRef == None && intervals == map[]
      ensures requests == old(requests) && notifications == old(notifications) && nextHandle == old(nextHandle)
    {
      StopPolling();
      state := InitialState;
      lastStatus := None;
    }
  }

  /** Polls that see BUILDING, BUILDING, then SUCCESS report two status changes
      and one success; the interval is then gone, so a later tick sends nothing. */
  method RepeatedStatusScenario(building: BuildInfo) returns (notices: seq<Notification>, sent: nat)
    requires building.status == Building
    ensures notices == [StatusChanged(Building), StatusChanged(Success), Succeeded(building.(status := Success))]
    ensures sent == 3
  {
    var hook := new WasmerDeploy(None);
    var done := building.(status := Success);
    hook.StartPolling(Some("build-1"), PollBody(true, None, Some(building)));
    var handle := hook.nextHandle - 1;
    hook.Tick(handle, PollBody(true, None, Some(building)));
    hook.Tick(handle, PollBody(true, None, Some(done)));
    hook.Tick(handle, PollBody(true, None, Some(building)));
    notices := hook.notifications;
    sent := |hook.requests|;
  }
}
