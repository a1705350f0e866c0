/** The `GET /api/wasmer/build-status` handler
    (`src/app/api/wasmer/build-status/route.ts`): the polling endpoint that
    reports an app's deployment status by owner and name. */
module BuildStatusRoute {
  import opened Common
  import opened WasmerApi

  datatype AppStatusResponseBody = AppStatusResponseBody(success: bool, app: Option<AppStatus>, error: Option<string>)

  datatype StatusResponse = StatusResponse(status: nat, body: AppStatusResponseBody)

  /** The response, and the GraphQL requests sent while computing it. */
  datatype Handled = Handled(response: StatusResponse, sent: seq<GraphQLRequest>)

  const NotConfiguredMessage := "Wasmer Auth Token not configured"
  const MissingParamsMessage := "owner and appName query parameters are required"
  const ConfigurationErrorMessage := "Server configuration error: Missing authentication token"

  function Failure(status: nat, message: string): StatusResponse
  {
    StatusResponse(status, AppStatusResponseBody(false, None, Some(message)))
  }

  /** The `catch` block: only a message naming the token variable is singled out
      (500 with a fixed text); every other error, GraphQL errors included, is a
      500 that keeps its message. */
  function ClassifyError(message: string): (r: StatusResponse)
    ensures r.status == 500 && !r.body.success && r.body.app.None?
    ensures r.body.error == Some(if Contains(message, "WASMER_AUTH_TOKEN") then ConfigurationErrorMessage else message)
  {
    if Contains(message, "WASMER_AUTH_TOKEN") then Failure(500, ConfigurationErrorMessage)
    else Failure(500, message)
  }

  /** The handler. `env` is `process.env.WASMER_AUTH_TOKEN`; `owner` and `appName`
      are the query parameters (`None` when absent). */
  function Get(env: Option<string>, owner: Option<string>, appName: Option<string>,
               remote: Remote, prior: seq<GraphQLRequest>): (h: Handled)
    ensures (env.None? || env == Some("")) ==> h == Handled(Failure(500, NotConfiguredMessage), [])
    ensures env.Some? && env.value != "" && (owner.None? || owner == Some("") || appName.None? || appName == Some("")) ==>
      h == Handled(Failure(400, MissingParamsMessage), [])
    ensures h.response.status == 200 || h.response.status == 400 || h.response.status == 500
    ensures h.response.status == 200 <==> h.response.body.success
    ensures h.sent != [] ==>
      && env.Some? && env.value != "" && owner.Some? && owner.value != "" && appName.Some? && appName.value != ""
      && h.sent == [GraphQLRequest(env.value, AppStatusQuery(owner.value, appName.value))]
    ensures env.Some? && env.value != "" && owner.Some? && owner.value != "" && appName.Some? && appName.value != "" ==>
      var c := AppStatusCall(WasmerApiClient(env.value), remote, prior, owner.value, appName.value);
      && h.sent == c.sent
      && (c.result.Ok? ==> h.response == StatusResponse(200, AppStatusResponseBody(true, Some(c.result.value), None)))
      && (c.result.Err? ==> h.response == ClassifyError(c.result.error))
    ensures h.response.status == 200 ==>
      && h.sent != []
      && var c := AppStatusCall(WasmerApiClient(env.value), remote, prior, owner.value, appName.value);
      && c.result.Ok?
      && h.response.body == AppStatusResponseBody(true, Some(c.result.value), None)
  {
    if env.None? || env.value == "" then Handled(Failure(500, NotConfiguredMessage), [])
    else if owner.None? || owner.value == "" || appName.None? || appName.value == "" then
      Handled(Failure(400, MissingParamsMessage), [])
    else
      match CreateWasmerClient(env)
      case Err(message) => Handled(ClassifyError(message), [])
      case Ok(client) =>
        var c := AppStatusCall(client, remote, prior, owner.value, appName.value);
        if c.result.Err? then Handled(ClassifyError(c.result.error), c.sent)
        else Handled(StatusResponse(200, AppStatusResponseBody(true, Some(c.result.value), None)), c.sent)
  }

  /** With the token and both parameters present, a status query the service
      answers with GraphQL errors is a 500 (never a 400), and one it answers with
      no app record yet is a successful "still deploying" report. */
  lemma StatusFailuresAreServerErrors(
    env: Option<string>, owner: string, appName: string, remote: Remote, prior: seq<GraphQLRequest>)
    requires env.Some? && env.value != "" && owner != "" && appName != ""
    ensures var reply := remote(prior, GraphQLRequest(env.value, AppStatusQuery(owner, appName)));
      var h := Get(env, Some(owner), Some(appName), remote, prior);
      && (CheckEnvelope(reply).Err? ==> h.response.status == 500)
      && (reply.Response? && HttpOk(reply.status) && reply.body.Json? && HasErrors(reply.body.envelope)
          && !Contains(CheckEnvelope(reply).error, "WASMER_AUTH_TOKEN")
          ==> h.response == Failure(500, CheckEnvelope(reply).error))
      && (CheckEnvelope(reply).Ok? && CheckEnvelope(reply).value.getDeployApp.None? ==>
            h.response == StatusResponse(200, AppStatusResponseBody(true,
                             Some(AppStatus("", appName, None, Deploying, None)), None)))
  {
    var reply := remote(prior, GraphQLRequest(env.value, AppStatusQuery(owner, appName)));
    var c := AppStatusCall(WasmerApiClient(env.value), remote, prior, owner, appName);
    assert c.result.Err? <==> CheckEnvelope(reply).Err?;
  }

  /** Every app a successful response reports is deployed exactly when it has an
      active version, and has a URL exactly then. */
  lemma ReportedAppsAreConsistent(
    env: Option<string>, owner: Option<string>, appName: Option<string>, remote: Remote, prior: seq<GraphQLRequest>)
    requires Get(env, owner, appName, remote, prior).response.body.app.Some?
    ensures var app := Get(env, owner, appName, remote, prior).response.body.app.value;
      && (app.status == Success <==> app.activeVersion.Some?)
      && (app.url.Some? <==> app.activeVersion.Some?)
      && app.status != Pending && app.status != Failed
  {
    var h := Get(env, owner, appName, remote, prior);
    var c := AppStatusCall(WasmerApiClient(env.value), remote, prior, owner.value, appName.value);
    assert h.response.body.app == Some(c.result.value);
  }
}
