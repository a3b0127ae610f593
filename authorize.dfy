/** The decision pipeline (`authorize`) and the three enforcement policies
    built on it. The remote service is the `reply` parameter: what the call
    would have produced had it been made. */
module Authorize {
  import opened Values
  import opened Exceptions
  import opened Api

  const AuthorizeApi := "authorize-by-token"
  const RedirectCode := 302

  /** The decision bypass mode reports. */
  const AllowAll: map<string, Json> := map["Authorized" := JBool(true)]

  /** The body of the 401 sent when the remote check itself failed. */
  const Denied401Body := JObj(map["Authorized" := JBool(false)])

  /** The arguments shared by `authorize` and the policies; an absent
      resource class and an absent extra context are `None`. */
  datatype Args = Args(
    permission: string,
    resourceClass: Option<string>,
    resource: string,
    ctx: Option<map<string, Json>>)

  /** What the incoming request supplies: the remote address (which may be
      null), the request timestamp already rendered in ISO-8601, and the
      request headers as name/value pairs in wire order. */
  datatype RequestEnv = RequestEnv(
    remoteAddr: Json,
    requestDateTime: string,
    headers: seq<(string, string)>)

  /** What `authorize` does before any reply exists: either answer at once,
      or send one post to the remote service. */
  datatype Plan = Bypass(decision: map<string, Json>) | Send(post: HttpPost)

  /** How a policy ends the call: let the request continue with the
      decision, abort with a 401 response, redirect, or raise. */
  datatype Action =
    | Continue(decision: map<string, Json>)
    | Abort401(body: Json)
    | Redirect(url: string, code: int)
    | Raise(error: Error)

  function BaseContext(env: RequestEnv): map<string, Json>
  {
    map["SourceIp" := env.remoteAddr, "RequestDateTime" := JStr(env.requestDateTime)]
  }

  /** The context dictionary after `context.update(ctx or {})`. */
  function BuildContext(env: RequestEnv, ctx: Option<map<string, Json>>): (context: map<string, Json>)
    ensures ctx == None ==> context == BaseContext(env)
    ensures ctx.Some? ==> context.Keys == BaseContext(env).Keys + ctx.value.Keys
    ensures ctx.Some? ==> forall k :: k in ctx.value ==> context[k] == ctx.value[k]
    ensures forall k :: k in context && (ctx == None || k !in ctx.value) ==> k in BaseContext(env) && context[k] == BaseContext(env)[k]
  {
    if ctx.Some? then BaseContext(env) + ctx.value else BaseContext(env)
  }

  /** Whether the resource class is truthy (given and non-empty). */
  predicate HasResourceClass(args: Args)
  {
    args.resourceClass.Some? && args.resourceClass.value != ""
  }

  /** The one resource name the request asks about. */
  function ResourceArn(cfg: Config, args: Args): (arn: string)
    ensures GetArnBase(cfg) <= arn
    ensures arn == GetArnBase(cfg) <==> !HasResourceClass(args)
    ensures HasResourceClass(args) ==> arn == FormatArn(cfg, args.resourceClass.value, args.resource)
  {
    if HasResourceClass(args) then
      FormatArnExtendsBase(cfg, args.resourceClass.value, args.resource);
      FormatArn(cfg, args.resourceClass.value, args.resource)
    else
      GetArnBase(cfg)
  }

  /** The headers as JSON: each pair becomes a two-element list, in order. */
  function HeadersJson(headers: seq<(string, string)>): Json
  {
    JArr(seq(|headers|, i requires 0 <= i < |headers| => JArr([JStr(headers[i].0), JStr(headers[i].1)])))
  }

  /** Reads a JSON list of two-string lists back as name/value pairs; any
      other shape is `None`. */
  function HeaderPairs(items: seq<Json>): Option<seq<(string, string)>>
    decreases |items|
  {
    if |items| == 0 then Some([])
    else
      var rest := HeaderPairs(items[1..]);
      match items[0]
      case JArr(p) =>
        if |p| == 2 && p[0].JStr? && p[1].JStr? && rest.Some? then Some([(p[0].s, p[1].s)] + rest.value)
        else None
      case _ => None
  }

  /** The body of the `authorize-by-token` call. */
  function PermissionRequest(cfg: Config, args: Args, env: RequestEnv): Json
  {
    JObj(map[
      "permit" := JObj(map[args.permission := JArr([JStr(ResourceArn(cfg, args))])]),
      "headers" := HeadersJson(env.headers),
      "context" := JObj(BuildContext(env, args.ctx))])
  }

  /** Bypass answers at once; otherwise one post goes to `authorize-by-token`. */
  function PlanAuthorize(cfg: Config, args: Args, env: RequestEnv): (plan: Plan)
    ensures plan.Bypass? <==> BypassEnabled(cfg)
    ensures plan.Bypass? ==> plan.decision == AllowAll
    ensures plan.Send? ==> plan.post == BuildCall(cfg, AuthorizeApi, PermissionRequest(cfg, args, env))
  {
    if BypassEnabled(cfg) then Bypass(AllowAll)
    else Send(BuildCall(cfg, AuthorizeApi, PermissionRequest(cfg, args, env)))
  }

  /** `authorize`: the bypass decision, or the remote reply unchanged. */
  function Authorize(cfg: Config, args: Args, env: RequestEnv, reply: Reply): (outcome: Reply)
    ensures BypassEnabled(cfg) ==> outcome == Returned(AllowAll)
    ensures !BypassEnabled(cfg) ==> outcome == reply
  {
    match PlanAuthorize(cfg, args, env)
    case Bypass(decision) => Returned(decision)
    case Send(_) => reply
  }

  /** `authorized['Authorized'] is not True` is false: the value is exactly
      the boolean true (no other truthy value counts). */
  predicate Allows(decision: map<string, Json>)
  {
    "Authorized" in decision && decision["Authorized"] == JBool(true)
  }

  /** Hard reject: a caught failure becomes a 401 with a synthesized body, a
      decision other than exactly true a 401 carrying the whole decision. */
  function AuthorizeOr401(cfg: Config, args: Args, env: RequestEnv, reply: Reply): (a: Action)
    ensures var o := Authorize(cfg, args, env, reply);
      && (o.Raised? && CaughtAsAuthorizationFailed(o.error) ==> a == Abort401(Denied401Body))
      && (o.Raised? && !CaughtAsAuthorizationFailed(o.error) ==> a == Raise(o.error))
      && (o.Returned? && "Authorized" !in o.body ==> a == Raise(KeyError("Authorized")))
      && (o.Returned? && "Authorized" in o.body && !Allows(o.body) ==> a == Abort401(JObj(o.body)))
      && (o.Returned? && Allows(o.body) ==> a == Continue(o.body))
  {
    match Authorize(cfg, args, env, reply)
    case Raised(e) =>
      if CaughtAsAuthorizationFailed(e) then Abort401(Denied401Body) else Raise(e)
    case Returned(decision) =>
      if "Authorized" !in decision then Raise(KeyError("Authorized"))
      else if decision["Authorized"] != JBool(true) then Abort401(JObj(decision))
      else Continue(decision)
  }

  /** Browser pages: a caught failure and a decision other than exactly
      true both redirect to the login page with status 302. */
  function AuthorizeOrLogin(cfg: Config, args: Args, env: RequestEnv, loginUrl: string, reply: Reply): (a: Action)
    ensures var o := Authorize(cfg, args, env, reply);
      && (o.Raised? && CaughtAsAuthorizationFailed(o.error) ==> a == Redirect(loginUrl, RedirectCode))
      && (o.Raised? && !CaughtAsAuthorizationFailed(o.error) ==> a == Raise(o.error))
      && (o.Returned? && "Authorized" !in o.body ==> a == Raise(KeyError("Authorized")))
      && (o.Returned? && "Authorized" in o.body && !Allows(o.body) ==> a == Redirect(loginUrl, RedirectCode))
      && (o.Returned? && Allows(o.body) ==> a == Continue(o.body))
  {
    match Authorize(cfg, args, env, reply)
    case Raised(e) =>
      if CaughtAsAuthorizationFailed(e) then Redirect(loginUrl, RedirectCode) else Raise(e)
    case Returned(decision) =>
      if "Authorized" !in decision then Raise(KeyError("Authorized"))
      else if decision["Authorized"] != JBool(true) then Redirect(loginUrl, RedirectCode)
      else Continue(decision)
  }

  /** Framework handler: nothing is caught; a decision other than exactly
      true raises the base AuthorizationFailed. */
  function AuthorizeOrRaise(cfg: Config, args: Args, env: RequestEnv, reply: Reply): (a: Action)
    ensures var o := Authorize(cfg, args, env, reply);
      && (o.Raised? ==> a == Raise(o.error))
      && (o.Returned? && "Authorized" !in o.body ==> a == Raise(KeyError("Authorized")))
      && (o.Returned? && "Authorized" in o.body && !Allows(o.body) ==> a == Raise(AuthorizationFailed(Plain)))
      && (o.Returned? && Allows(o.body) ==> a == Continue(o.body))
  {
    match Authorize(cfg, args, env, reply)
    case Raised(e) => Raise(e)
    case Returned(decision) =>
      if "Authorized" !in decision then Raise(KeyError("Authorized"))
      else if decision["Authorized"] != JBool(true) then Raise(AuthorizationFailed(Plain))
      else Continue(decision)
  }

  // ----- Properties of the pipeline -----

  /** The request names the permission once, with exactly one resource. */
  /** The forwarded headers lose nothing: reading them back gives exactly
      the request's pairs, in wire order. */
  lemma {:induction false} HeadersRoundTrip(headers: seq<(string, string)>)
    ensures HeadersJson(headers).JArr?
    ensures HeaderPairs(HeadersJson(headers).items) == Some(headers)
  {
    if |headers| > 0 {
      var items := HeadersJson(headers).items;
      assert items[0] == JArr([JStr(headers[0].0), JStr(headers[0].1)]);
      assert items[1..] == HeadersJson(headers[1..]).items;
      HeadersRoundTrip(headers[1..]);
      assert headers == [(headers[0].0, headers[0].1)] + headers[1..];
    }
  }

  lemma PermissionRequestShape(cfg: Config, args: Args, env: RequestEnv)
    ensures var req := PermissionRequest(cfg, args, env);
      && req.JObj? && req.fields.Keys == {"permit", "headers", "context"}
      && req.fields["permit"] == JObj(map[args.permission := JArr([JStr(ResourceArn(cfg, args))])])
      && req.fields["headers"] == HeadersJson(env.headers)
      && req.fields["context"] == JObj(BuildContext(env, args.ctx))
  {
  }

  /** Bypass mode grants every request without using the reply: all
      replies give the same outcome, and every policy continues. */
  lemma BypassGrantsWithoutCall(cfg: Config, args: Args, env: RequestEnv, loginUrl: string, r1: Reply, r2: Reply)
    requires BypassEnabled(cfg)
    ensures PlanAuthorize(cfg, args, env) == Bypass(AllowAll)
    ensures Authorize(cfg, args, env, r1) == Authorize(cfg, args, env, r2)
    ensures AuthorizeOr401(cfg, args, env, r1) == Continue(AllowAll)
    ensures AuthorizeOrLogin(cfg, args, env, loginUrl, r1) == Continue(AllowAll)
    ensures AuthorizeOrRaise(cfg, args, env, r1) == Continue(AllowAll)
  {
  }

  /** The three policies let the same requests through, with the same
      decision, and only when the remote decision is exactly true. */
  lemma PoliciesAgreeOnAllow(cfg: Config, args: Args, env: RequestEnv, loginUrl: string, reply: Reply)
    ensures var a401 := AuthorizeOr401(cfg, args, env, reply);
      var aLogin := AuthorizeOrLogin(cfg, args, env, loginUrl, reply);
      var aRaise := AuthorizeOrRaise(cfg, args, env, reply);
      var o := Authorize(cfg, args, env, reply);
      && (a401.Continue? <==> o.Returned? && Allows(o.body))
      && (aLogin.Continue? <==> a401.Continue?)
      && (aRaise.Continue? <==> a401.Continue?)
      && (a401.Continue? ==> a401 == aLogin == aRaise == Continue(o.body))
  {
  }

  /** A raised AuthorizationFailed, of any kind, fails closed under the 401
      and login policies and propagates with its kind under the raise
      policy. No code in the package raises one: `call` wraps nothing. */
  lemma RemoteFailureHandling(cfg: Config, args: Args, env: RequestEnv, loginUrl: string, kind: FailureKind)
    requires !BypassEnabled(cfg)
    ensures var reply := Raised(AuthorizationFailed(kind));
      && AuthorizeOr401(cfg, args, env, reply) == Abort401(Denied401Body)
      && AuthorizeOrLogin(cfg, args, env, loginUrl, reply) == Redirect(loginUrl, RedirectCode)
      && AuthorizeOrRaise(cfg, args, env, reply) == Raise(AuthorizationFailed(kind))
  {
  }

  /** A decision without the `Authorized` key is a KeyError under every
      policy, distinct from AuthorizationFailed. */
  lemma MissingAuthorizedKey(cfg: Config, args: Args, env: RequestEnv, loginUrl: string, decision: map<string, Json>)
    requires !BypassEnabled(cfg) && "Authorized" !in decision
    ensures var reply := Returned(decision);
      && AuthorizeOr401(cfg, args, env, reply) == Raise(KeyError("Authorized"))
      && AuthorizeOrLogin(cfg, args, env, loginUrl, reply) == Raise(KeyError("Authorized"))
      && AuthorizeOrRaise(cfg, args, env, reply) == Raise(KeyError("Authorized"))
  {
  }

  /** A transport failure arrives as the HTTP library's own exception,
      which no policy catches: all three propagate it unchanged. */
  lemma TransportErrorPropagates(cfg: Config, args: Args, env: RequestEnv, loginUrl: string, name: string)
    requires !BypassEnabled(cfg)
    ensures var reply := Raised(OtherError(name));
      && AuthorizeOr401(cfg, args, env, reply) == Raise(OtherError(name))
      && AuthorizeOrLogin(cfg, args, env, loginUrl, reply) == Raise(OtherError(name))
      && AuthorizeOrRaise(cfg, args, env, reply) == Raise(OtherError(name))
  {
  }

  /** Any value other than the boolean true denies, truthy or not. */
  lemma OnlyExactTrueAllows(cfg: Config, args: Args, env: RequestEnv, loginUrl: string, v: Json)
    requires !BypassEnabled(cfg) && v != JBool(true)
    ensures var d := map["Authorized" := v];
      && AuthorizeOr401(cfg, args, env, Returned(d)) == Abort401(JObj(d))
      && AuthorizeOrLogin(cfg, args, env, loginUrl, Returned(d)) == Redirect(loginUrl, RedirectCode)
      && AuthorizeOrRaise(cfg, args, env, Returned(d)) == Raise(AuthorizationFailed(Plain))
  {
  }

  // ----- The scenarios of the package's tests -----

  /** The request a test route sends for permission "TestPermission" on
      class "res_class", key "res_key". */
  lemma TestPermit(env: RequestEnv)
    ensures var req := PermissionRequest(TestConfig, Args("TestPermission", Some("res_class"), "res_key", None), env);
      req.JObj? && "permit" in req.fields &&
      req.fields["permit"] == JObj(map["TestPermission" := JArr([JStr("arn:tinyauth:test:default::res_class/res_key")])])
  {
    TestConfigArns();
  }

  /** The four policy tests: an allow lets the route run; a denial is a 401
      whose body is the decision, or a redirect to the login page. The
      login URL is an input here (`url_for` is not modelled), taken to be
      the test's expected "http://localhost/login". */
  lemma TestPolicies(env: RequestEnv)
    ensures var args := Args("TestPermission", Some("res_class"), "res_type", None);
      var allow := Returned(map["Authorized" := JBool(true)]);
      var deny := Returned(map["Authorized" := JBool(false)]);
      && AuthorizeOr401(TestConfig, args, env, allow).Continue?
      && AuthorizeOr401(TestConfig, args, env, deny) == Abort401(JObj(map["Authorized" := JBool(false)]))
      && AuthorizeOrLogin(TestConfig, args, env, "http://localhost/login", allow).Continue?
      && AuthorizeOrLogin(TestConfig, args, env, "http://localhost/login", deny) == Redirect("http://localhost/login", 302)
  {
  }
}
