/** The server-side client of the Wasmer registry's GraphQL API
    (`src/lib/wasmer-api.ts`).

    The remote service is an oracle: given the requests this client has already
    sent and the one it sends now, it answers with a `Reply`. Each operation is
    specified by a function that returns a `Call`: what the operation returns or
    throws, and the requests it sent, in order. The client's methods perform the
    same steps one awaited request at a time against a `Network` object that
    records what was sent, and are proved equal to those functions. */
module WasmerApi {
  import opened Common

  const DefaultTemplateId := "at_r2yGI9t3ConA"

  // ---------------------------------------------------------------------------
  // The wire: requests and the replies of `fetch`
  // ---------------------------------------------------------------------------

  /** The four documents the client sends, with their variables. The document
      texts are opaque; the unused node query is never sent. */
  datatype Operation =
    | ViewerQuery
    | CreateRepoMutation(templateId: string, name: string, namespace: string)
    | DeployMutation(repoUrl: string, owner: string, appName: string)
    | AppStatusQuery(owner: string, name: string)

  /** One POST to the endpoint; `bearer` is the token of the Authorization header. */
  datatype GraphQLRequest = GraphQLRequest(bearer: string, operation: Operation)

  datatype Viewer = Viewer(username: string)
  datatype RepoRef = RepoRef(repoId: string)
  datatype BuildRef = BuildRef(buildId: string)
  datatype ActiveVersion = ActiveVersion(id: string, version: string, createdAt: string, url: string)
  datatype DeployApp = DeployApp(id: string, name: string, activeVersion: Option<ActiveVersion>)

  /** The `data` object of a response; a selected field the server set to null
      is `None` (a conforming GraphQL server never leaves a selected field out). */
  datatype Data = Data(
    viewer: Option<Viewer>,
    createRepoForAppTemplate: Option<RepoRef>,
    deployViaAutobuild: Option<BuildRef>,
    getDeployApp: Option<DeployApp>)

  datatype GraphQLError = GraphQLError(message: string)

  /** The parsed response body `{ data?, errors? }`. */
  datatype Envelope = Envelope(data: Option<Data>, errors: Option<seq<GraphQLError>>)

  /** What `response.json()` gives: the envelope, or the message it throws. */
  datatype Body = Json(envelope: Envelope) | Unparsable(message: string)

  /** What `fetch` gives: a response with its HTTP status, or the message of the
      error it rejects with. */
  datatype Reply = Response(status: nat, body: Body) | Rejected(message: string)

  /** The remote service: its answer to a request, given the requests before it. */
  type Remote = (seq<GraphQLRequest>, GraphQLRequest) -> Reply

  // ---------------------------------------------------------------------------
  // What the client returns
  // ---------------------------------------------------------------------------

  datatype AppState = Pending | Deploying | Success | Failed

  datatype AppStatus = AppStatus(
    id: string,
    name: string,
    url: Option<string>,
    status: AppState,
    activeVersion: Option<ActiveVersion>)

  datatype DeploymentResult = DeploymentResult(buildId: string, repoId: string, owner: string, appName: string)

  /** An operation's outcome together with the requests it sent, in order. */
  datatype Call<T> = Call(result: Result<T>, sent: seq<GraphQLRequest>)

  // ---------------------------------------------------------------------------
  // Construction
  // ---------------------------------------------------------------------------

  datatype WasmerApiClient = WasmerApiClient(token: string)
  {
    /** `execute`: one POST, then the envelope checks of `CheckEnvelope`. */
    method Execute(net: Network, operation: Operation) returns (r: Result<Data>)
      modifies net
      ensures net.sent == old(net.sent) + Send(this, net.remote, old(net.sent), operation).sent
      ensures r == Send(this, net.remote, old(net.sent), operation).result
    {
      var reply := net.Post(GraphQLRequest(token, operation));
      r := CheckEnvelope(reply);
    }

    method GetViewer(net: Network) returns (r: Result<string>)
      modifies net
      ensures net.sent == old(net.sent) + ViewerCall(this, net.remote, old(net.sent)).sent
      ensures r == ViewerCall(this, net.remote, old(net.sent)).result
    {
      var data := Execute(net, ViewerQuery);
      if data.Err? {
        return Err(data.error);
      }
      if data.value.viewer.None? {
        return Err(NullRead("username"));
      }
      r := Ok(data.value.viewer.value.username);
    }

    method CreateRepoFromTemplate(net: Network, name: string, namespace: string, templateId: Option<string>)
      returns (r: Result<string>)
      modifies net
      ensures net.sent == old(net.sent) + CreateRepoCall(this, net.remote, old(net.sent), name, namespace, templateId).sent
      ensures r == CreateRepoCall(this, net.remote, old(net.sent), name, namespace, templateId).result
    {
      var data := Execute(net, CreateRepoMutation(WithDefaultTemplate(templateId), name, namespace));
      if data.Err? {
        return Err(data.error);
      }
      if data.value.createRepoForAppTemplate.None? {
        return Err(NullRead("repoId"));
      }
      r := Ok(data.value.createRepoForAppTemplate.value.repoId);
    }

    method DeployViaAutobuild(net: Network, repoUrl: string, owner: string, appName: string)
      returns (r: Result<string>)
      modifies net
      ensures net.sent == old(net.sent) + AutobuildCall(this, net.remote, old(net.sent), repoUrl, owner, appName).sent
      ensures r == AutobuildCall(this, net.remote, old(net.sent), repoUrl, owner, appName).result
    {
      var data := Execute(net, DeployMutation(repoUrl, owner, appName));
      if data.Err? {
        return Err(data.error);
      }
      if data.value.deployViaAutobuild.None? {
        return Err(NullRead("buildId"));
      }
      r := Ok(data.value.deployViaAutobuild.value.buildId);
    }

    method GetAppStatus(net: Network, owner: string, appName: string) returns (r: Result<AppStatus>)
      modifies net
      ensures net.sent == old(net.sent) + AppStatusCall(this, net.remote, old(net.sent), owner, appName).sent
      ensures r == AppStatusCall(this, net.remote, old(net.sent), owner, appName).result
    {
      var data := Execute(net, AppStatusQuery(owner, appName));
      if data.Err? {
        return Err(data.error);
      }
      r := Ok(ToAppStatus(appName, data.value.getDeployApp));
    }

    /** `deploy`: viewer, then create the repository, then start the autobuild;
        the first failure is thrown on and nothing after it is sent. */
    method Deploy(net: Network, appName: string, templateId: Option<string>)
      returns (r: Result<DeploymentResult>)
      modifies net
      ensures net.sent == old(net.sent) + DeployCall(this, net.remote, old(net.sent), appName, templateId).sent
      ensures r == DeployCall(this, net.remote, old(net.sent), appName, templateId).result
    {
      var namespace := GetViewer(net);
      if namespace.Err? {
        return Err(namespace.error);
      }
      var repoId := CreateRepoFromTemplate(net, appName, namespace.value, Some(WithDefaultTemplate(templateId)));
      if repoId.Err? {
        return Err(repoId.error);
      }
      var repoUrl := RepoUrl(namespace.value, appName);
      var buildId := DeployViaAutobuild(net, repoUrl, namespace.value, appName);
      if buildId.Err? {
        return Err(buildId.error);
      }
      r := Ok(DeploymentResult(buildId.value, repoId.value, namespace.value, appName));
    }
  }

  /** The connection to the endpoint: the remote service and every request sent
      to it so far. */
  class Network {
    const remote: Remote
    var sent: seq<GraphQLRequest>

    constructor (remote: Remote)
      ensures this.remote == remote && sent == []
    {
      this.remote := remote;
      sent := [];
    }

    method Post(request: GraphQLRequest) returns (reply: Reply)
      modifies this
      ensures sent == old(sent) + [request]
      ensures reply == remote(old(sent), request)
    {
      reply := remote(sent, request);
      sent := sent + [request];
    }
  }

  /** The constructor's guard: an empty token is refused with a message that
      names the variable. */
  function NewClient(token: string): (r: Result<WasmerApiClient>)
    ensures r.Ok? <==> token != ""
    ensures r.Ok? ==> r.value.token == token
    ensures r.Err? ==> Contains(r.error, "WASMER_AUTH_TOKEN")
  {
    if token == "" then
      var message := "WASMER_AUTH_TOKEN is required";
      PrefixIsContained("WASMER_AUTH_TOKEN", message);
      Err(message)
    else Ok(WasmerApiClient(token))
  }

  /** `createWasmerClient`: the client for the `WASMER_AUTH_TOKEN` environment
      variable, which is unset or empty when falsy. */
  function CreateWasmerClient(env: Option<string>): (r: Result<WasmerApiClient>)
    ensures r.Ok? <==> env.Some? && env.value != ""
    ensures r.Ok? ==> r.value.token == env.value
    ensures r.Err? ==> Contains(r.error, "WASMER_AUTH_TOKEN")
  {
    if env.None? || env.value == "" then
      var message := "WASMER_AUTH_TOKEN environment variable is not set. "
        + "Please add it to your .env.local file.";
      PrefixIsContained("WASMER_AUTH_TOKEN", message);
      Err(message)
    else NewClient(env.value)
  }

  // ---------------------------------------------------------------------------
  // The envelope checks of `execute`
  // ---------------------------------------------------------------------------

  predicate HttpOk(status: nat)
  {
    200 <= status <= 299
  }

  predicate HasErrors(envelope: Envelope)
  {
    envelope.errors.Some? && |envelope.errors.value| > 0
  }

  function Messages(errors: seq<GraphQLError>): (r: seq<string>)
    ensures |r| == |errors|
    ensures forall i :: 0 <= i < |errors| ==> r[i] == errors[i].message
  {
    if errors == [] then [] else [errors[0].message] + Messages(errors[1..])
  }

  function HttpErrorMessage(status: nat): string
  {
    "HTTP error! status: " + NatToString(status)
  }

  const GraphQLErrorPrefix := "GraphQL Error: "
  const NoDataMessage := "No data returned from GraphQL API"

  /** The message JavaScript throws when the code reads a field of a null
      object (the code checks none of the nested objects it reads). */
  function NullRead(field: string): string
  {
    "Cannot read properties of null (reading '" + field + "')"
  }

  /** The checks `execute` makes on what `fetch` gives, in their fixed order:
      a rejected fetch, a non-2xx status, an unparsable body, a non-empty
      `errors` list (even when `data` is present), then an absent `data`. */
  function CheckEnvelope(reply: Reply): (r: Result<Data>)
    ensures reply.Rejected? ==> r == Err(reply.message)
    ensures reply.Response? && !HttpOk(reply.status) ==> r == Err(HttpErrorMessage(reply.status))
    ensures reply.Response? && HttpOk(reply.status) && reply.body.Json? && HasErrors(reply.body.envelope) ==>
      r == Err(GraphQLErrorPrefix + Join(Messages(reply.body.envelope.errors.value), ", "))
    ensures reply.Response? && HttpOk(reply.status) && reply.body.Unparsable? ==> r == Err(reply.body.message)
    ensures reply.Response? && HttpOk(reply.status) && reply.body.Json? && !HasErrors(reply.body.envelope) && reply.body.envelope.data.None? ==>
      r == Err(NoDataMessage)
    ensures r.Ok? <==>
      && reply.Response? && HttpOk(reply.status) && reply.body.Json?
      && !HasErrors(reply.body.envelope) && reply.body.envelope.data.Some?
    ensures r.Ok? ==> r.value == reply.body.envelope.data.value
  {
    match reply
    case Rejected(message) => Err(message)
    case Response(status, body) =>
      if !HttpOk(status) then Err(HttpErrorMessage(status))
      else match body
        case Unparsable(message) => Err(message)
        case Json(envelope) =>
          if HasErrors(envelope) then
            Err(GraphQLErrorPrefix + Join(Messages(envelope.errors.value), ", "))
          else if envelope.data.None? then Err(NoDataMessage)
          else Ok(envelope.data.value)
  }

  /** A failed HTTP status is reported with a message that does not look like a
      GraphQL error nor like a missing token. */
  lemma HttpErrorMessageKind(status: nat)
    ensures !Contains(HttpErrorMessage(status), "GraphQL Error")
    ensures !Contains(HttpErrorMessage(status), "WASMER_AUTH_TOKEN")
  {
    var m := HttpErrorMessage(status);
    var digits := NatToString(status);
    assert forall i :: 0 <= i < |m| ==> m[i] != 'G' && m[i] != 'W' by {
      forall i | 0 <= i < |m|
        ensures m[i] != 'G' && m[i] != 'W'
      {
        if i >= 20 {
          assert m[i] == digits[i - 20];
        }
      }
    }
    NotContainedWithoutFirstChar(m, "GraphQL Error");
    NotContainedWithoutFirstChar(m, "WASMER_AUTH_TOKEN");
  }

  /** Reading a field of a null object is reported with a message that does not
      look like a GraphQL error nor like a missing token. */
  lemma NullReadMessageKind(field: string)
    requires forall i :: 0 <= i < |field| ==> field[i] != 'G' && field[i] != 'W'
    ensures !Contains(NullRead(field), "GraphQL Error")
    ensures !Contains(NullRead(field), "WASMER_AUTH_TOKEN")
  {
    var prefix := "Cannot read properties of null (reading '";
    var m := NullRead(field);
    assert m == prefix + field + "')";
    forall i | 0 <= i < |m|
      ensures m[i] != 'G' && m[i] != 'W'
    {
      if i < |prefix| {
        assert m[i] == prefix[i];
      } else if i < |prefix| + |field| {
        assert m[i] == field[i - |prefix|];
      }
    }
    NotContainedWithoutFirstChar(m, "GraphQL Error");
    NotContainedWithoutFirstChar(m, "WASMER_AUTH_TOKEN");
  }

  /** Every GraphQL-level failure carries the marker the deploy endpoint looks for. */
  lemma GraphQLErrorIsMarked(reply: Reply)
    requires reply.Response? && HttpOk(reply.status) && reply.body.Json? && HasErrors(reply.body.envelope)
    ensures CheckEnvelope(reply).Err?
    ensures Contains(CheckEnvelope(reply).error, "GraphQL Error")
  {
    PrefixIsContained("GraphQL Error", CheckEnvelope(reply).error);
  }

  // ---------------------------------------------------------------------------
  // The operations, as functions of the remote service
  // ---------------------------------------------------------------------------

  /** `createRepoFromTemplate`'s default for an omitted `templateId`. */
  function WithDefaultTemplate(templateId: Option<string>): string
  {
    if templateId.Some? then templateId.value else DefaultTemplateId
  }

  /** `https://github.com/<namespace>/<appName>`. */
  function RepoUrl(namespace: string, appName: string): string
  {
    "https://github.com/" + namespace + "/" + appName
  }

  /** `https://<appName>.wasmer.app`. */
  function FallbackAppUrl(appName: string): string
  {
    "https://" + appName + ".wasmer.app"
  }

  function Send(client: WasmerApiClient, remote: Remote, prior: seq<GraphQLRequest>, operation: Operation): Call<Data>
  {
    var request := GraphQLRequest(client.token, operation);
    Call(CheckEnvelope(remote(prior, request)), [request])
  }

  /** `getViewer`: one viewer query; its username, the envelope's error, or
      the null read of a missing viewer. */
  function ViewerCall(client: WasmerApiClient, remote: Remote, prior: seq<GraphQLRequest>): (c: Call<string>)
    ensures c.sent == [GraphQLRequest(client.token, ViewerQuery)]
    ensures var data := CheckEnvelope(remote(prior, c.sent[0]));
      && (data.Err? ==> c.result == Err(data.error))
      && (data.Ok? && data.value.viewer.None? ==> c.result == Err(NullRead("username")))
      && (c.result.Ok? <==> data.Ok? && data.value.viewer.Some?)
      && (c.result.Ok? ==> c.result.value == data.value.viewer.value.username)
  {
    var c := Send(client, remote, prior, ViewerQuery);
    if c.result.Err? then Call(Err(c.result.error), c.sent)
    else if c.result.value.viewer.None? then Call(Err(NullRead("username")), c.sent)
    else Call(Ok(c.result.value.viewer.value.username), c.sent)
  }

  function CreateRepoCall(
    client: WasmerApiClient, remote: Remote, prior: seq<GraphQLRequest>,
    name: string, namespace: string, templateId: Option<string>): (c: Call<string>)
    ensures c.sent == [GraphQLRequest(client.token, CreateRepoMutation(WithDefaultTemplate(templateId), name, namespace))]
    ensures var data := CheckEnvelope(remote(prior, c.sent[0]));
      && (data.Err? ==> c.result == Err(data.error))
      && (data.Ok? && data.value.createRepoForAppTemplate.None? ==> c.result == Err(NullRead("repoId")))
      && (c.result.Ok? <==> data.Ok? && data.value.createRepoForAppTemplate.Some?)
      && (c.result.Ok? ==> c.result.value == data.value.createRepoForAppTemplate.value.repoId)
  {
    var c := Send(client, remote, prior, CreateRepoMutation(WithDefaultTemplate(templateId), name, namespace));
    if c.result.Err? then Call(Err(c.result.error), c.sent)
    else if c.result.value.createRepoForAppTemplate.None? then Call(Err(NullRead("repoId")), c.sent)
    else Call(Ok(c.result.value.createRepoForAppTemplate.value.repoId), c.sent)
  }

  function AutobuildCall(
    client: WasmerApiClient, remote: Remote, prior: seq<GraphQLRequest>,
    repoUrl: string, owner: string, appName: string): (c: Call<string>)
    ensures c.sent == [GraphQLRequest(client.token, DeployMutation(repoUrl, owner, appName))]
    ensures var data := CheckEnvelope(remote(prior, c.sent[0]));
      && (data.Err? ==> c.result == Err(data.error))
      && (data.Ok? && data.value.deployViaAutobuild.None? ==> c.result == Err(NullRead("buildId")))
      && (c.result.Ok? <==> data.Ok? && data.value.deployViaAutobuild.Some?)
      && (c.result.Ok? ==> c.result.value == data.value.deployViaAutobuild.value.buildId)
  {
    var c := Send(client, remote, prior, DeployMutation(repoUrl, owner, appName));
    if c.result.Err? then Call(Err(c.result.error), c.sent)
    else if c.result.value.deployViaAutobuild.None? then Call(Err(NullRead("buildId")), c.sent)
    else Call(Ok(c.result.value.deployViaAutobuild.value.buildId), c.sent)
  }

  /** `getAppStatus`'s mapping of the remote record. A missing record means the
      app is still being deployed; an app is deployed exactly when it has an
      active version, and only then does it have a URL: the version's own, or
      the platform's default address when that one is empty. */
  function ToAppStatus(appName: string, app: Option<DeployApp>): (s: AppStatus)
    ensures app.None? ==> s == AppStatus("", appName, None, Deploying, None)
    ensures app.Some? ==> s.id == app.value.id && s.name == app.value.name
    ensures s.activeVersion == (if app.Some? then app.value.activeVersion else None)
    ensures s.status == Success <==> s.activeVersion.Some?
    ensures s.url.Some? <==> s.activeVersion.Some?
    ensures s.status != Pending && s.status != Failed
    ensures s.activeVersion.Some? && s.activeVersion.value.url != "" ==> s.url == Some(s.activeVersion.value.url)
    ensures s.activeVersion.Some? && s.activeVersion.value.url == "" ==> s.url == Some(FallbackAppUrl(appName))
  {
    match app
    case None => AppStatus("", appName, None, Deploying, None)
    case Some(a) =>
      var url := if a.activeVersion.Some? && a.activeVersion.value.url != "" then a.activeVersion.value.url
                 else FallbackAppUrl(appName);
      AppStatus(
        a.id, a.name,
        if a.activeVersion.Some? then Some(url) else None,
        if a.activeVersion.Some? then Success else Deploying,
        a.activeVersion)
  }

  function AppStatusCall(
    client: WasmerApiClient, remote: Remote, prior: seq<GraphQLRequest>,
    owner: string, appName: string): (c: Call<AppStatus>)
    ensures c.sent == [GraphQLRequest(client.token, AppStatusQuery(owner, appName))]
    ensures var data := CheckEnvelope(remote(prior, c.sent[0]));
      && (c.result.Ok? <==> data.Ok?)
      && (data.Err? ==> c.result == Err(data.error))
      && (data.Ok? ==> c.result.value == ToAppStatus(appName, data.value.getDeployApp))
  {
    var c := Send(client, remote, prior, AppStatusQuery(owner, appName));
    if c.result.Err? then Call(Err(c.result.error), c.sent)
    else Call(Ok(ToAppStatus(appName, c.result.value.getDeployApp)), c.sent)
  }

  /** The namespace the viewer query yields, when it yields one. */
  function ViewerNamespace(client: WasmerApiClient, remote: Remote, prior: seq<GraphQLRequest>): string
    requires ViewerCall(client, remote, prior).result.Ok?
  {
    ViewerCall(client, remote, prior).result.value
  }

  /** The full deployment flow of `deploy`. It sends the viewer query, then
      the repository mutation for this name, the viewer's namespace and the
      template (the default one when omitted), then the autobuild mutation for
      the repository `https://github.com/<namespace>/<appName>` with the
      namespace as owner, each with the client's token, in that order. It sends
      the next request only when the previous one succeeded, so it never sends
      more than these three and it succeeds only after all three did. */
  function DeployCall(
    client: WasmerApiClient, remote: Remote, prior: seq<GraphQLRequest>,
    appName: string, templateId: Option<string>): (d: Call<DeploymentResult>)
    ensures 1 <= |d.sent| <= 3
    ensures d.sent[0] == GraphQLRequest(client.token, ViewerQuery)
    ensures |d.sent| == 1 <==> ViewerCall(client, remote, prior).result.Err?
    ensures |d.sent| >= 2 ==>
      var namespace := ViewerNamespace(client, remote, prior);
      d.sent[1] == GraphQLRequest(client.token,
                     CreateRepoMutation(WithDefaultTemplate(templateId), appName, namespace))
    ensures |d.sent| >= 2 && templateId.None? ==> d.sent[1].operation.templateId == "at_r2yGI9t3ConA"
    ensures |d.sent| == 3 ==>
      var namespace := ViewerNamespace(client, remote, prior);
      CreateRepoCall(client, remote, prior + [d.sent[0]], appName, namespace, Some(WithDefaultTemplate(templateId))).result.Ok?
    ensures |d.sent| == 3 ==>
      var namespace := ViewerNamespace(client, remote, prior);
      d.sent[2] == GraphQLRequest(client.token,
                     DeployMutation(RepoUrl(namespace, appName), namespace, appName))
    ensures d.result.Ok? ==> |d.sent| == 3 && d.result.value.appName == appName
  {
    var viewer := ViewerCall(client, remote, prior);
    if viewer.result.Err? then Call(Err(viewer.result.error), viewer.sent)
    else
      var namespace := viewer.result.value;
      var repo := CreateRepoCall(client, remote, prior + viewer.sent, appName, namespace,
                                 Some(WithDefaultTemplate(templateId)));
      if repo.result.Err? then Call(Err(repo.result.error), viewer.sent + repo.sent)
      else
        var build := AutobuildCall(client, remote, prior + viewer.sent + repo.sent,
                                   RepoUrl(namespace, appName), namespace, appName);
        if build.result.Err? then Call(Err(build.result.error), viewer.sent + repo.sent + build.sent)
        else Call(Ok(DeploymentResult(build.result.value, repo.result.value, namespace, appName)),
                  viewer.sent + repo.sent + build.sent)
  }

  // ---------------------------------------------------------------------------
  // Properties of the deployment flow
  // ---------------------------------------------------------------------------

  /** A viewer query answered without a viewer makes `deploy` throw the null
      read of `username` after that one request: no repository is created. */
  lemma NullViewerStopsDeploy(
    client: WasmerApiClient, remote: Remote, prior: seq<GraphQLRequest>,
    appName: string, templateId: Option<string>)
    requires var data := CheckEnvelope(remote(prior, GraphQLRequest(client.token, ViewerQuery)));
      data.Ok? && data.value.viewer.None?
    ensures var d := DeployCall(client, remote, prior, appName, templateId);
      d.result == Err(NullRead("username")) && d.sent == [GraphQLRequest(client.token, ViewerQuery)]
  {
    assert ViewerCall(client, remote, prior).result == Err(NullRead("username"));
  }

  /** A successful `deploy` returns the build and repository ids the two
      mutations answered, the viewer's namespace as owner and the requested
      name unchanged; a failed one throws the error of the step that failed. */
  lemma DeployResultComesFromReplies(
    client: WasmerApiClient, remote: Remote, prior: seq<GraphQLRequest>,
    appName: string, templateId: Option<string>)
    ensures var d := DeployCall(client, remote, prior, appName, templateId);
      var viewer := ViewerCall(client, remote, prior);
      && (viewer.result.Err? ==> d.result == Err(viewer.result.error) && d.sent == viewer.sent)
      && (viewer.result.Ok? ==>
            var namespace := viewer.result.value;
            var tid := Some(WithDefaultTemplate(templateId));
            var repo := CreateRepoCall(client, remote, prior + viewer.sent, appName, namespace, tid);
            && (repo.result.Err? ==> d.result == Err(repo.result.error) && d.sent == viewer.sent + repo.sent)
            && (repo.result.Ok? ==>
                  var build := AutobuildCall(client, remote, prior + viewer.sent + repo.sent,
                                             RepoUrl(namespace, appName), namespace, appName);
                  && d.sent == viewer.sent + repo.sent + build.sent
                  && (build.result.Err? ==> d.result == Err(build.result.error))
                  && (build.result.Ok? ==>
                        d.result == Ok(DeploymentResult(build.result.value, repo.result.value, namespace, appName)))))
  {
    var d := DeployCall(client, remote, prior, appName, templateId);
    var viewer := ViewerCall(client, remote, prior);
    if viewer.result.Ok? {
      var namespace := viewer.result.value;
      var repo := CreateRepoCall(client, remote, prior + viewer.sent, appName, namespace,
                                 Some(WithDefaultTemplate(templateId)));
      assert d.sent[..1] == viewer.sent;
      if repo.result.Ok? {
        assert d.sent[..2] == viewer.sent + repo.sent;
        assert prior + d.sent[..2] == prior + viewer.sent + repo.sent;
      }
    }
  }
}
