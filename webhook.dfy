/** The webhook endpoint built by `CloudTasksApi(config, loader)`
    (dist/api.js and lib/api.ts): a chain of early returns that turns one
    delivery into one response and decides whether the loader runs. The two
    variants differ only in the status of the catch-all error response. */
module Webhook {
  import opened Js
  import opened Config
  import opened Remote

  datatype Variant = Lib | Dist

  /** The status written when anything inside the handler throws. */
  function CatchAllStatus(v: Variant): (status: int)
    ensures status !in {204, 400, 401}
    ensures status == 500 <==> v == Dist
    ensures status == 200 <==> v == Lib
  {
    match v
    case Dist => 500
    case Lib => 200
  }

  /** The router: one POST route at `handlerPath`. */
  datatype Router = Router(config: CloudTasksConfig, path: string)

  /** `CloudTasksApi(config, loader)`: validates the config before building the route. */
  function CloudTasksApi(config: CloudTasksConfig): (r: Result<Router, Error>)
    ensures r.Ok? <==> ValidateConfig(config).Ok?
    ensures r.Err? ==> r.error == ValidateConfig(config).error
    ensures r.Ok? ==> r.value.path == config.handlerPath && r.value.config == config
  {
    match ValidateConfig(config)
    case Err(e) => Err(e)
    case Ok(_) => Ok(Router(config, config.handlerPath))
  }

  // ---------------------------------------------------------------------
  // `bearer.replace(/Bearer\s/i, '')`

  /** The characters `\s` matches in a JavaScript regular expression. */
  predicate IsJsWhitespace(c: char) {
    || c == ' ' || c == '\t' || c == '\n' || c == '\U{000B}' || c == '\U{000C}' || c == '\r'
    || c == '\U{00A0}' || c == '\U{1680}' || ('\U{2000}' <= c <= '\U{200A}')
    || c == '\U{2028}' || c == '\U{2029}' || c == '\U{202F}' || c == '\U{205F}'
    || c == '\U{3000}' || c == '\U{FEFF}'
  }

  /** `c` is the ASCII letter `lower` in either case (the `i` flag). */
  predicate IsLetterIgnoringCase(c: char, lower: char)
    requires 'a' <= lower <= 'z'
  {
    c == lower || c as int == lower as int - 32
  }

  /** `/Bearer\s/i` matches the seven characters starting at `i`. */
  predicate BearerAt(s: string, i: int) {
    && 0 <= i && i + 7 <= |s|
    && IsLetterIgnoringCase(s[i], 'b') && IsLetterIgnoringCase(s[i + 1], 'e')
    && IsLetterIgnoringCase(s[i + 2], 'a') && IsLetterIgnoringCase(s[i + 3], 'r')
    && IsLetterIgnoringCase(s[i + 4], 'e') && IsLetterIgnoringCase(s[i + 5], 'r')
    && IsJsWhitespace(s[i + 6])
  }

  /** The leftmost match at or after `from`. */
  function FirstBearerFrom(s: string, from: nat): (r: Option<nat>)
    decreases |s| - from
    ensures r.Some? ==> from <= r.value && BearerAt(s, r.value)
    ensures forall j :: from <= j && (r.None? || j < r.value) ==> !BearerAt(s, j)
  {
    if from + 7 > |s| then None
    else if BearerAt(s, from) then Some(from)
    else FirstBearerFrom(s, from + 1)
  }

  /** The token: the header with its first match removed, if any. */
  function StripBearer(s: string): (token: string)
    ensures (forall i :: !BearerAt(s, i)) ==> token == s
    ensures (exists i :: BearerAt(s, i)) ==> |token| == |s| - 7
  {
    match FirstBearerFrom(s, 0)
    case None => s
    case Some(i) => s[..i] + s[i + 7..]
  }

  /** Only the leftmost match is removed; the rest of the header is kept. */
  lemma StripBearerRemovesLeftmostMatch(s: string, i: nat)
    requires BearerAt(s, i)
    requires forall j :: 0 <= j < i ==> !BearerAt(s, j)
    ensures StripBearer(s) == s[..i] + s[i + 7..]
  {
    var r := FirstBearerFrom(s, 0);
    assert r.Some?;
    assert r.value == i;
  }

  /** A header `Bearer <token>`, in any letter case and with any single
      whitespace character, yields exactly `<token>`. */
  lemma StripBearerOfPrefixedToken(prefix: string, token: string)
    requires |prefix| == 7 && BearerAt(prefix, 0)
    ensures StripBearer(prefix + token) == token
  {
    var s := prefix + token;
    assert BearerAt(s, 0);
    StripBearerRemovesLeftmostMatch(s, 0);
    assert s[7..] == token;
  }

  // ---------------------------------------------------------------------
  // The request handler

  /** What the handler reads from a request: the raw body (absent when the
      body parser produced none), the `Authorization` header and the
      `x-cloudtasks-queuename` header. */
  datatype Delivery = Delivery(body: Option<string>, authorization: Option<string>, queueNameHeader: Option<string>)

  /** The arguments the loader is called with. */
  datatype LoaderCall = LoaderCall(queueName: Option<string>, handlerId: Json, args: Json)

  /** The collaborators: codecs, `verifyIdToken` (true when it resolves) and the loader. */
  datatype Environment = Environment(
    platform: Platform,
    verifyIdToken: (string, string) -> bool,
    loader: LoaderCall -> Result<(), Error>)

  datatype Body = NoContent | Text(text: string) | ErrorJson(error: Error)

  /** The single response written, and the loader call made, if any. */
  datatype Response = Response(status: int, body: Body, loaderCall: Option<LoaderCall>)

  /** `value.key` for a parsed value other than `null`. */
  function Property(value: Json, key: string): Option<Json> {
    match value
    case JObject(members) => if key in members then Some(members[key]) else None
    case _ => None
  }

  /** `authenticate(token)`: the audience is `new URL(handlerPath, serviceUrl).href`;
      a URL that does not resolve makes it reject like a failed verification. */
  function Authenticates(c: CloudTasksConfig, token: string, env: Environment): (ok: bool)
    ensures env.platform.resolveUrl(c.handlerPath, c.serviceUrl).None? ==> !ok
    ensures forall audience :: env.platform.resolveUrl(c.handlerPath, c.serviceUrl) == Some(audience) ==>
              (ok <==> env.verifyIdToken(token, audience))
  {
    match env.platform.resolveUrl(c.handlerPath, c.serviceUrl)
    case None => false
    case Some(audience) => env.verifyIdToken(token, audience)
  }

  /** The route handler. */
  function HandleDelivery(v: Variant, router: Router, d: Delivery, env: Environment): (resp: Response)
    ensures resp.status in {204, 400, 401, CatchAllStatus(v)}
    ensures resp.status == 204 ==> resp.loaderCall.Some?
    ensures resp.loaderCall.Some? ==> resp.loaderCall.value.queueName == d.queueNameHeader
  {
    var c := router.config;
    if d.body.None? then Response(400, Text("Bad Request: no payload received"), None)
    else match env.platform.parse(d.body.value)
      case None => Response(CatchAllStatus(v), ErrorJson(SyntaxError), None)
      case Some(payload) =>
        if payload.JNull? then
          Response(CatchAllStatus(v), ErrorJson(TypeError("Cannot read properties of null")), None)
        else
          var handlerId := Property(payload, "handlerId");
          if !(handlerId.Some? && TruthyJson(handlerId.value)) then
            Response(400, Text("Bad Request: invalid Express Cloud Tasks payload format"), None)
          else if TruthyString(c.serviceAccount) && !TruthyString(d.authorization) then
            Response(401, Text("Unauthorized: Unauthenticated request"), None)
          else if TruthyString(c.serviceAccount) && !Authenticates(c, StripBearer(d.authorization.value), env) then
            Response(400, Text("Invalid token"), None)
          else
            var call := LoaderCall(d.queueNameHeader, handlerId.value, Property(payload, "args").GetOr(JArray([])));
            match env.loader(call)
            case Ok(_) => Response(204, NoContent, Some(call))
            case Err(e) => Response(CatchAllStatus(v), ErrorJson(e), Some(call))
  }

  /** Reference definition of the deliveries that reach the loader: a body
      that parses to a non-null value with a truthy `handlerId`, and, when a
      service account is configured, a present header whose token verifies. */
  predicate Admitted(c: CloudTasksConfig, d: Delivery, env: Environment) {
    && d.body.Some?
    && env.platform.parse(d.body.value).Some?
    && !env.platform.parse(d.body.value).value.JNull?
    && Property(env.platform.parse(d.body.value).value, "handlerId").Some?
    && TruthyJson(Property(env.platform.parse(d.body.value).value, "handlerId").value)
    && (TruthyString(c.serviceAccount) ==>
          TruthyString(d.authorization) && Authenticates(c, StripBearer(d.authorization.value), env))
  }

  /** The loader runs exactly for admitted deliveries, and 204 is written
      exactly when it then resolves. */
  lemma LoaderRunsIffAdmitted(v: Variant, router: Router, d: Delivery, env: Environment)
    ensures HandleDelivery(v, router, d, env).loaderCall.Some? <==> Admitted(router.config, d, env)
    ensures HandleDelivery(v, router, d, env).status == 204 <==>
              Admitted(router.config, d, env) && env.loader(HandleDelivery(v, router, d, env).loaderCall.value).Ok?
  {
  }

  /** No body: 400, and the loader is not called. */
  lemma MissingBodyIsBadRequest(v: Variant, router: Router, d: Delivery, env: Environment)
    requires d.body.None?
    ensures HandleDelivery(v, router, d, env) == Response(400, Text("Bad Request: no payload received"), None)
  {
  }

  /** A payload whose `handlerId` is missing or falsy: 400, and the loader
      is not called, whatever the credentials. */
  lemma FalsyHandlerIdIsBadRequest(v: Variant, router: Router, d: Delivery, env: Environment)
    requires d.body.Some? && env.platform.parse(d.body.value).Some?
    requires !env.platform.parse(d.body.value).value.JNull?
    requires var id := Property(env.platform.parse(d.body.value).value, "handlerId"); !(id.Some? && TruthyJson(id.value))
    ensures HandleDelivery(v, router, d, env)
            == Response(400, Text("Bad Request: invalid Express Cloud Tasks payload format"), None)
  {
  }

  /** The payload is checked before the credentials: a malformed payload
      without an `Authorization` header gets 400, not 401. */
  lemma PayloadCheckedBeforeCredentials(v: Variant, router: Router, d: Delivery, env: Environment)
    requires TruthyString(router.config.serviceAccount) && d.authorization.None?
    requires d.body.None? || (env.platform.parse(d.body.value).Some? && !env.platform.parse(d.body.value).value.JNull?
                              && Property(env.platform.parse(d.body.value).value, "handlerId").None?)
    ensures HandleDelivery(v, router, d, env).status == 400
  {
  }

  /** With a service account and a valid payload, a missing header is 401
      and the loader is not called. */
  lemma MissingAuthorizationIsUnauthorized(v: Variant, router: Router, d: Delivery, env: Environment)
    requires TruthyString(router.config.serviceAccount) && !TruthyString(d.authorization)
    requires d.body.Some? && env.platform.parse(d.body.value).Some? && !env.platform.parse(d.body.value).value.JNull?
    requires var id := Property(env.platform.parse(d.body.value).value, "handlerId"); id.Some? && TruthyJson(id.value)
    ensures HandleDelivery(v, router, d, env) == Response(401, Text("Unauthorized: Unauthenticated request"), None)
  {
  }

  /** A token that fails verification is 400 "Invalid token", and the
      loader is not called. */
  lemma FailedVerificationIsInvalidToken(v: Variant, router: Router, d: Delivery, env: Environment)
    requires TruthyString(router.config.serviceAccount) && TruthyString(d.authorization)
    requires d.body.Some? && env.platform.parse(d.body.value).Some? && !env.platform.parse(d.body.value).value.JNull?
    requires var id := Property(env.platform.parse(d.body.value).value, "handlerId"); id.Some? && TruthyJson(id.value)
    requires !Authenticates(router.config, StripBearer(d.authorization.value), env)
    ensures HandleDelivery(v, router, d, env) == Response(400, Text("Invalid token"), None)
  {
  }

  /** The token is verified against the handler's resolved URL as audience. */
  lemma AudienceIsResolvedHandlerUrl(v: Variant, router: Router, d: Delivery, env: Environment, audience: string)
    requires env.platform.resolveUrl(router.config.handlerPath, router.config.serviceUrl) == Some(audience)
    requires TruthyString(router.config.serviceAccount) && TruthyString(d.authorization)
    requires d.body.Some? && env.platform.parse(d.body.value).Some? && !env.platform.parse(d.body.value).value.JNull?
    requires var id := Property(env.platform.parse(d.body.value).value, "handlerId"); id.Some? && TruthyJson(id.value)
    ensures HandleDelivery(v, router, d, env).loaderCall.Some?
            <==> env.verifyIdToken(StripBearer(d.authorization.value), audience)
  {
  }

  /** Without a service account, neither the header nor the verifier plays any part. */
  lemma NoServiceAccountSkipsAuthentication(v: Variant, router: Router, d: Delivery, env: Environment,
                                            authorization: Option<string>, verify: (string, string) -> bool)
    requires !TruthyString(router.config.serviceAccount)
    ensures HandleDelivery(v, router, d, env)
            == HandleDelivery(v, router, d.(authorization := authorization), env.(verifyIdToken := verify))
  {
  }

  /** An admitted delivery calls the loader with the queue-name header, the
      `handlerId` and the `args` (`[]` when absent); 204 when the loader
      resolves, the catch-all status when it throws. */
  lemma AdmittedDeliveryCallsLoader(v: Variant, router: Router, d: Delivery, env: Environment)
    requires Admitted(router.config, d, env)
    ensures var payload := env.platform.parse(d.body.value).value;
            var call := LoaderCall(d.queueNameHeader, Property(payload, "handlerId").value,
                                   Property(payload, "args").GetOr(JArray([])));
            && HandleDelivery(v, router, d, env).loaderCall == Some(call)
            && HandleDelivery(v, router, d, env).status == (if env.loader(call).Ok? then 204 else CatchAllStatus(v))
  {
  }

  /** A body that is not JSON is caught: 500 in the compiled variant, 200
      with an error body in the TypeScript one. */
  lemma UnparsableBodyIsCaught(router: Router, d: Delivery, env: Environment)
    requires d.body.Some? && env.platform.parse(d.body.value).None?
    ensures HandleDelivery(Dist, router, d, env) == Response(500, ErrorJson(SyntaxError), None)
    ensures HandleDelivery(Lib, router, d, env) == Response(200, ErrorJson(SyntaxError), None)
  {
  }

  /** A loader failure is caught: 500 in the compiled variant, 200 in the TypeScript one. */
  lemma LoaderFailureIsCaught(router: Router, d: Delivery, env: Environment)
    requires Admitted(router.config, d, env)
    requires env.loader(HandleDelivery(Dist, router, d, env).loaderCall.value).Err?
    ensures HandleDelivery(Dist, router, d, env).status == 500
    ensures HandleDelivery(Lib, router, d, env).status == 200
  {
  }

  /** The two variants write the same body and call the loader alike; only
      the catch-all status differs (500 against 200). */
  lemma VariantsDifferOnlyInCatchAllStatus(router: Router, d: Delivery, env: Environment)
    ensures var dist := HandleDelivery(Dist, router, d, env);
            var lib := HandleDelivery(Lib, router, d, env);
            && dist.body == lib.body && dist.loaderCall == lib.loaderCall
            && (dist.status == 500 <==> lib.status == 200)
            && (dist.status != 500 ==> dist.status == lib.status)
  {
  }
}
