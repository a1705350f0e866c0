/** The `POST /api/wasmer/deploy` handler (`src/app/api/wasmer/deploy/route.ts`):
    a chain of guards that ends in the client's deployment flow, and a
    classification of thrown errors by the words in their message. */
module DeployRoute {
  import opened Common
  import opened WasmerApi
  import AppName

  /** The JSON value of `appName` in the request body. */
  datatype NameField = Absent | Text(value: string) | NotText

  datatype DeployRequestBody = DeployRequestBody(appName: NameField, templateId: Option<string>)

  /** What `request.json()` and the first read of the body give: the body, or the
      message of the error they throw. */
  datatype RequestJson = Parsed(body: DeployRequestBody) | Unreadable(message: string)

  datatype DeployResponseBody = DeployResponseBody(
    success: bool,
    buildId: Option<string>,
    repoId: Option<string>,
    owner: Option<string>,
    error: Option<string>)

  datatype DeployResponse = DeployResponse(status: nat, body: DeployResponseBody)

  /** The response, and the GraphQL requests sent while computing it. */
  datatype Handled = Handled(response: DeployResponse, sent: seq<GraphQLRequest>)

  const NotConfiguredMessage := "Wasmer Auth Token not configured"
  const MissingNameMessage := "appName is required and must be a string"
  const BadNameMessage := "appName must start with alphanumeric and contain only alphanumeric characters, hyphens, or underscores (max 63 chars)"
  const ConfigurationErrorMessage := "Server configuration error: Missing authentication token"

  function Failure(status: nat, message: string): DeployResponse
  {
    DeployResponse(status, DeployResponseBody(false, None, None, None, Some(message)))
  }

  /** The `catch` block: a message naming the token variable is a configuration
      error (500, fixed text); otherwise a GraphQL error is the caller's fault
      (400, message kept); anything else is a 500 with the message kept. There
      is no 401. */
  function ClassifyError(message: string): (r: DeployResponse)
    ensures r.status == 400 || r.status == 500
    ensures !r.body.success && r.body.buildId.None? && r.body.repoId.None? && r.body.owner.None?
    ensures r.status == 400 <==> !Contains(message, "WASMER_AUTH_TOKEN") && Contains(message, "GraphQL Error")
    ensures r.body.error == Some(if Contains(message, "WASMER_AUTH_TOKEN") then ConfigurationErrorMessage else message)
  {
    if Contains(message, "WASMER_AUTH_TOKEN") then Failure(500, ConfigurationErrorMessage)
    else if Contains(message, "GraphQL Error") then Failure(400, message)
    else Failure(500, message)
  }

  /** `body.templateId || "at_r2yGI9t3ConA"`. */
  function TemplateOrDefault(templateId: Option<string>): (t: string)
    ensures t != ""
    ensures templateId.Some? && templateId.value != "" ==> t == templateId.value
    ensures templateId.None? || templateId.value == "" ==> t == DefaultTemplateId
  {
    OrElse(templateId, DefaultTemplateId)
  }

  /** The handler. `env` is `process.env.WASMER_AUTH_TOKEN`; the remote service
      answers the requests of the client the handler creates.
      Only a request that passed every guard reaches the remote service, and a
      200 response is the client's deployment result, copied. */
  function Post(env: Option<string>, request: RequestJson, remote: Remote, prior: seq<GraphQLRequest>): (h: Handled)
    ensures (env.None? || env == Some("")) ==> h == Handled(Failure(500, NotConfiguredMessage), [])
    ensures env.Some? && env.value != "" && request.Unreadable? ==> h == Handled(ClassifyError(request.message), [])
    ensures h.sent != [] ==>
      && env.Some? && env.value != ""
      && request.Parsed? && request.body.appName.Text?
      && AppName.ValidAppName(request.body.appName.value)
    ensures h.response.status == 200 ==>
      && h.response.body.success
      && h.sent != []
      && var d := DeployCall(WasmerApiClient(env.value), remote, prior, request.body.appName.value,
                             Some(TemplateOrDefault(request.body.templateId)));
      && d.result.Ok? && h.sent == d.sent
      && h.response.body == DeployResponseBody(true, Some(d.result.value.buildId), Some(d.result.value.repoId),
                                               Some(d.result.value.owner), None)
  {
    if env.None? || env.value == "" then Handled(Failure(500, NotConfiguredMessage), [])
    else match request
      case Unreadable(message) => Handled(ClassifyError(message), [])
      case Parsed(body) =>
        if !body.appName.Text? || body.appName.value == "" then Handled(Failure(400, MissingNameMessage), [])
        else if !AppName.MatchesPattern(body.appName.value) then
          Handled(Failure(400, BadNameMessage), [])
        else
          AppName.PatternMatchesExactlyValidNames(body.appName.value);
          match CreateWasmerClient(env)
          case Err(message) => Handled(ClassifyError(message), [])
          case Ok(client) =>
            var d := DeployCall(client, remote, prior, body.appName.value,
                                Some(TemplateOrDefault(body.templateId)));
            if d.result.Err? then Handled(ClassifyError(d.result.error), d.sent)
            else
              var result := d.result.value;
              Handled(DeployResponse(200, DeployResponseBody(true, Some(result.buildId), Some(result.repoId),
                                                              Some(result.owner), None)),
                      d.sent)
  }

  /** A configured handler rejects every name the pattern refuses with 400 and
      sends nothing to the remote service: a missing, empty or non-string name
      with the "required" message, any other invalid one with the format
      message. */
  lemma InvalidNamesNeverReachRemote(
    env: Option<string>, request: RequestJson, remote: Remote, prior: seq<GraphQLRequest>)
    requires env.Some? && env.value != ""
    requires request.Parsed?
    requires !request.body.appName.Text? || !AppName.ValidAppName(request.body.appName.value)
    ensures Post(env, request, remote, prior).sent == []
    ensures Post(env, request, remote, prior).response ==
      if !request.body.appName.Text? || request.body.appName.value == "" then Failure(400, MissingNameMessage)
      else Failure(400, BadNameMessage)
  {
    if request.body.appName.Text? {
      AppName.PatternMatchesExactlyValidNames(request.body.appName.value);
    }
  }

  /** A configured handler with a valid name always runs the deployment flow with
      the template the body names, or the default one; a failure of any step of
      that flow is answered as `ClassifyError` classifies its message. */
  lemma ValidNamesAreDeployed(
    env: Option<string>, request: RequestJson, remote: Remote, prior: seq<GraphQLRequest>)
    requires env.Some? && env.value != ""
    requires request.Parsed? && request.body.appName.Text? && AppName.ValidAppName(request.body.appName.value)
    ensures var d := DeployCall(WasmerApiClient(env.value), remote, prior, request.body.appName.value,
                                Some(TemplateOrDefault(request.body.templateId)));
      && Post(env, request, remote, prior).sent == d.sent
      && (Post(env, request, remote, prior).response.status == 200 <==> d.result.Ok?)
      && (d.result.Err? ==> Post(env, request, remote, prior).response == ClassifyError(d.result.error))
  {
    AppName.PatternMatchesExactlyValidNames(request.body.appName.value);
  }

  /** A GraphQL-level error from the viewer query becomes a 400 carrying that
      error, unless its text names the token variable; a failed HTTP status
      becomes a 500. */
  lemma ViewerFailuresAreClassified(
    env: Option<string>, name: string, templateId: Option<string>, remote: Remote, prior: seq<GraphQLRequest>)
    requires env.Some? && env.value != "" && AppName.ValidAppName(name)
    ensures var client := WasmerApiClient(env.value);
      var reply := remote(prior, GraphQLRequest(env.value, ViewerQuery));
      var h := Post(env, Parsed(DeployRequestBody(Text(name), templateId)), remote, prior);
      && (reply.Response? && HttpOk(reply.status) && reply.body.Json? && HasErrors(reply.body.envelope)
          && !Contains(CheckEnvelope(reply).error, "WASMER_AUTH_TOKEN")
          ==> h.response == Failure(400, CheckEnvelope(reply).error) && |h.sent| == 1)
      && (reply.Response? && !HttpOk(reply.status)
          ==> h.response == Failure(500, HttpErrorMessage(reply.status)) && |h.sent| == 1)
  {
    var reply := remote(prior, GraphQLRequest(env.value, ViewerQuery));
    ValidNamesAreDeployed(env, Parsed(DeployRequestBody(Text(name), templateId)), remote, prior);
    if reply.Response? && HttpOk(reply.status) && reply.body.Json? && HasErrors(reply.body.envelope) {
      GraphQLErrorIsMarked(reply);
    }
    if reply.Response? && !HttpOk(reply.status) {
      HttpErrorMessageKind(reply.status);
    }
  }

  /** A viewer query that answers a null viewer is not treated as an invalid
      token: the handler throws the null read on, answers 500, and creates no
      repository. */
  lemma NullViewerIsServerError(
    env: Option<string>, name: string, templateId: Option<string>, remote: Remote, prior: seq<GraphQLRequest>)
    requires env.Some? && env.value != "" && AppName.ValidAppName(name)
    requires var reply := remote(prior, GraphQLRequest(env.value, ViewerQuery));
      CheckEnvelope(reply).Ok? && CheckEnvelope(reply).value.viewer.None?
    ensures var h := Post(env, Parsed(DeployRequestBody(Text(name), templateId)), remote, prior);
      && h.response == Failure(500, NullRead("username"))
      && h.sent == [GraphQLRequest(env.value, ViewerQuery)]
  {
    var request := Parsed(DeployRequestBody(Text(name), templateId));
    ValidNamesAreDeployed(env, request, remote, prior);
    NullViewerStopsDeploy(WasmerApiClient(env.value), remote, prior, name, Some(TemplateOrDefault(templateId)));
    NullReadMessageKind("username");
  }
}
