/** The HTTP entry point: an unauthenticated health check, the two
    verifiers mounted in front of everything under `/webhooks`, and three
    POST routes, one per event category. */
module App {
  import opened Js
  import opened Http
  import opened Text
  import HookdeckAuth
  import ChargebeeAuth
  import CustomerHandler
  import PaymentsHandler

  datatype Method = GET | HEAD | POST | OPTIONS | OtherMethod(name: OtherMethodName)

  /** A method name other than the four the application distinguishes. */
  type OtherMethodName = s: string | s !in {"GET", "HEAD", "POST", "OPTIONS"} witness "PUT"

  /** What the model needs of one request: method and path, the three
      headers the verifiers read, the raw body captured by the JSON parser
      (if it ran), and the parsed body. */
  datatype Request = Request(
    verb: Method, path: string,
    signature: Option<string>, signature2: Option<string>, authorization: Option<string>,
    rawBody: Option<HookdeckAuth.Bytes>, body: Body)

  /** The environment variables the verifiers read. */
  datatype Env = Env(hookdeckSecret: Option<string>, username: Option<string>, password: Option<string>)

  /** The library calls outside the model: HMAC-SHA256 with base64, and
      base64 decoding. */
  datatype Library = Library(digest: HookdeckAuth.Digest, decode: ChargebeeAuth.Decoder)

  /** The subscription handler, whose source is not part of this model. */
  type Handler = Body -> Outcome

  datatype Route = Customer | Subscription | Payments

  const HealthPath: string := "/health"
  const WebhooksMount: string := "/webhooks"
  const CustomerPath: string := "/webhooks/chargebee/customer"
  const SubscriptionPath: string := "/webhooks/chargebee/subscription"
  const PaymentsPath: string := "/webhooks/chargebee/payments"

  const HealthResponse: Outcome := Respond(200, map["status" := JStr("ok"), "message" := JStr("Server is running")])

  /** The framework's fallback when no route answers (an HTML page saying
      `Cannot <method> <path>`; its body is not modelled). */
  const NotFound: Outcome := Respond(404, map[])

  /** The framework's own answer to `OPTIONS` on a path that has routes
      for other methods: 200 with the allowed methods as `Allow` header and
      as a text body (neither is modelled; see `AllowList`). */
  const OptionsResponse: Outcome := Respond(200, map[])

  /** A route path matches the request path, with or without a trailing slash. */
  predicate PathMatches(path: string, route: string) {
    path == route || path == route + "/"
  }

  /** `app.use(mount, ...)` applies to the mount path and everything below it. */
  predicate UnderMount(path: string, mount: string) {
    path == mount || StartsWith(path, mount + "/")
  }

  /** Two routes that differ at some position never match the same path. */
  lemma DifferentRoutes(path: string, route1: string, route2: string, k: nat)
    requires k < |route1| && k < |route2| && route1[k] != route2[k]
    ensures !(PathMatches(path, route1) && PathMatches(path, route2))
  {
    assert (route1 + "/")[k] == route1[k] && (route2 + "/")[k] == route2[k];
  }

  /** The route table: exactly three POST paths, each bound to one handler. */
  function RouteOf(verb: Method, path: string): (r: Option<Route>)
    ensures r == Some(Customer) <==> verb == POST && PathMatches(path, CustomerPath)
    ensures r == Some(Subscription) <==> verb == POST && PathMatches(path, SubscriptionPath)
    ensures r == Some(Payments) <==> verb == POST && PathMatches(path, PaymentsPath)
    // every route lies below the mount point of the verifiers
    ensures r.Some? ==> UnderMount(path, WebhooksMount)
  {
    // the three paths first differ at the character after "/webhooks/chargebee/"
    DifferentRoutes(path, CustomerPath, SubscriptionPath, 20);
    DifferentRoutes(path, CustomerPath, PaymentsPath, 20);
    DifferentRoutes(path, SubscriptionPath, PaymentsPath, 20);
    if verb != POST then None
    else if PathMatches(path, CustomerPath) then Some(Customer)
    else if PathMatches(path, SubscriptionPath) then Some(Subscription)
    else if PathMatches(path, PaymentsPath) then Some(Payments)
    else None
  }

  /** The methods the routes registered for a path answer, as the framework
      lists them for `OPTIONS`: `app.get` also answers `HEAD`. */
  function AllowList(path: string): (r: Option<string>)
    ensures r == Some("GET,HEAD") <==> PathMatches(path, HealthPath)
    ensures r == Some("POST") <==>
      PathMatches(path, CustomerPath) || PathMatches(path, SubscriptionPath) || PathMatches(path, PaymentsPath)
    ensures r.None? ==> RouteOf(POST, path).None? && !PathMatches(path, HealthPath)
  {
    // "/health" and the route paths differ at their second character
    DifferentRoutes(path, HealthPath, CustomerPath, 1);
    DifferentRoutes(path, HealthPath, SubscriptionPath, 1);
    DifferentRoutes(path, HealthPath, PaymentsPath, 1);
    if PathMatches(path, HealthPath) then Some("GET,HEAD")
    else if RouteOf(POST, path).Some? then Some("POST")
    else None
  }

  function SignatureCheck(env: Env, lib: Library, req: Request): Outcome {
    HookdeckAuth.VerifyHookdeckSignature(lib.digest, env.hookdeckSecret, req.signature, req.signature2, req.rawBody)
  }

  function CredentialCheck(env: Env, lib: Library, req: Request): Outcome {
    ChargebeeAuth.VerifyChargebeeAuth(lib.decode, req.authorization, env.username, env.password)
  }

  /** Both verifiers call `next()`. */
  predicate Authenticated(env: Env, lib: Library, req: Request) {
    SignatureCheck(env, lib, req).Next? && CredentialCheck(env, lib, req).Next?
  }

  function RunRoute(route: Route, subscription: Handler, req: Request): Outcome {
    match route
    case Customer => CustomerHandler.HandleCustomerWebhook(req.body)
    case Subscription => subscription(req.body)
    case Payments => PaymentsHandler.HandlePaymentsWebhook(req.body)
  }

  /** The whole middleware stack, in registration order: the health route,
      the signature verifier then the credential verifier on `/webhooks`,
      the three POST routes, and the framework's 404. */
  function HandleRequest(env: Env, lib: Library, subscription: Handler, req: Request): (r: Outcome)
    ensures r.Respond?
    // the health check runs no verifier
    ensures (req.verb == GET || req.verb == HEAD) && PathMatches(req.path, HealthPath) ==> r == HealthResponse
    // below the mount point, a signature rejection is final
    ensures UnderMount(req.path, WebhooksMount) && !SignatureCheck(env, lib, req).Next? ==>
      r == SignatureCheck(env, lib, req)
    // then a credential rejection is final
    ensures UnderMount(req.path, WebhooksMount) && SignatureCheck(env, lib, req).Next? && !CredentialCheck(env, lib, req).Next? ==>
      r == CredentialCheck(env, lib, req)
    // once both verifiers pass, the route table decides
    ensures Authenticated(env, lib, req) && RouteOf(req.verb, req.path) == Some(Customer) ==>
      r == CustomerHandler.HandleCustomerWebhook(req.body)
    ensures Authenticated(env, lib, req) && RouteOf(req.verb, req.path) == Some(Payments) ==>
      r == PaymentsHandler.HandlePaymentsWebhook(req.body)
    ensures Authenticated(env, lib, req) && RouteOf(req.verb, req.path) == Some(Subscription) ==>
      r == (if subscription(req.body).Next? then NotFound else subscription(req.body))
    ensures UnderMount(req.path, WebhooksMount) && Authenticated(env, lib, req) && RouteOf(req.verb, req.path).None? ==>
      r == (if req.verb == OPTIONS && AllowList(req.path).Some? then OptionsResponse else NotFound)
    // OPTIONS on the health path is answered by the framework, with no verifier
    ensures req.verb == OPTIONS && PathMatches(req.path, HealthPath) ==> r == OptionsResponse
  {
    if (req.verb == GET || req.verb == HEAD) && PathMatches(req.path, HealthPath) then HealthResponse
    else
      var verified :=
        if UnderMount(req.path, WebhooksMount)
        then Then(SignatureCheck(env, lib, req), CredentialCheck(env, lib, req))
        else Next;
      var routed :=
        match RouteOf(req.verb, req.path)
        case Some(route) => Then(verified, RunRoute(route, subscription, req))
        case None => verified;
      if routed.Next? then
        if req.verb == OPTIONS && AllowList(req.path).Some? then OptionsResponse else NotFound
      else routed
  }

  /** No handler runs unless both verifiers passed: without them, the
      response is the same whatever the subscription handler does. */
  lemma HandlersRequireAuthentication(env: Env, lib: Library, h1: Handler, h2: Handler, req: Request)
    requires !Authenticated(env, lib, req)
    ensures HandleRequest(env, lib, h1, req) == HandleRequest(env, lib, h2, req)
    ensures RouteOf(req.verb, req.path).Some? ==>
      HandleRequest(env, lib, h1, req) in {SignatureCheck(env, lib, req), CredentialCheck(env, lib, req)}
  {
  }

  /** A webhook request without an `Authorization` header never reaches a
      handler: it gets the signature verifier's rejection or 401
      `Missing credentials`. */
  lemma MissingAuthorizationRejected(env: Env, lib: Library, subscription: Handler, req: Request)
    requires UnderMount(req.path, WebhooksMount) && req.authorization.None?
    ensures var r := HandleRequest(env, lib, subscription, req);
      r == (if SignatureCheck(env, lib, req).Next? then ChargebeeAuth.MissingCredentials else SignatureCheck(env, lib, req))
    ensures HandleRequest(env, lib, subscription, req).status in {401, 403, 500}
  {
  }

  /** A forged signature is reported as such even when the credentials are
      also missing: 403, not 401. */
  lemma ForgedSignatureWithoutCredentials(env: Env, lib: Library, subscription: Handler, req: Request)
    requires UnderMount(req.path, WebhooksMount) && req.authorization.None?
    requires IsSet(env.hookdeckSecret) && IsSet(req.signature) && req.rawBody.Some?
    requires lib.digest(env.hookdeckSecret.value, req.rawBody.value) != req.signature.value
    requires req.signature2.None?
    ensures HandleRequest(env, lib, subscription, req) == HookdeckAuth.InvalidSignature
  {
  }

  /** The signature verifier reads the raw body only: the parsed body, the
      `Authorization` header play no part in it. */
  lemma SignatureIgnoresParsedBody(env: Env, lib: Library, req: Request, body: Body, authorization: Option<string>)
    ensures SignatureCheck(env, lib, req) == SignatureCheck(env, lib, req.(body := body, authorization := authorization))
  {
  }

  /** The health check answers whatever the configuration and the headers. */
  lemma HealthIsUnauthenticated(env: Env, lib: Library, subscription: Handler, req: Request)
    requires req.verb == GET && req.path == HealthPath
    ensures HandleRequest(env, lib, subscription, req).status == 200
    ensures HandleRequest(env, lib, subscription, req).body == map["status" := JStr("ok"), "message" := JStr("Server is running")]
  {
  }

  /** Paths outside the health check and the mount point get a plain 404,
      with no verifier involved. */
  lemma UnknownPathNotFound(env: Env, lib: Library, subscription: Handler, req: Request)
    requires !UnderMount(req.path, WebhooksMount) && !PathMatches(req.path, HealthPath)
    ensures HandleRequest(env, lib, subscription, req) == NotFound
  {
  }
}
