/** The HTTP callback both queue variants attach to every task they create
    (the `httpRequest` block of `addTask`). */
module Tasks {
  import opened Js
  import opened Config
  import opened Remote

  /** The `{ handlerId, args }` payload as a JSON object. */
  function PayloadJson(handlerId: string, args: seq<Json>): (j: Json)
    ensures j.JObject? && j.members.Keys == {"handlerId", "args"}
    ensures j.members["handlerId"] == JString(handlerId) && j.members["args"] == JArray(args)
  {
    JObject(map["handlerId" := JString(handlerId), "args" := JArray(args)])
  }

  function ServiceAccountEmail(serviceAccount: string, project: string): string {
    serviceAccount + "@" + project + ".iam.gserviceaccount.com"
  }

  /** The `oidcToken` block: present exactly when a service account is configured. */
  function OidcFor(c: CloudTasksConfig): (t: Option<OidcToken>)
    ensures t.Some? <==> TruthyString(c.serviceAccount)
    ensures t.Some? ==> t.value.serviceAccountEmail == ServiceAccountEmail(c.serviceAccount.value, c.project)
  {
    if TruthyString(c.serviceAccount)
    then Some(OidcToken(ServiceAccountEmail(c.serviceAccount.value, c.project)))
    else None
  }

  const OctetStream := map["Content-Type" := "application/octet-stream"]

  /** The callback request, given the already resolved target `url`. */
  function BuildHttpRequest(c: CloudTasksConfig, url: string, handlerId: string, args: seq<Json>,
                            platform: Platform): (req: HttpRequest)
    ensures req.httpMethod == "POST" && req.url == url && req.headers == OctetStream
    ensures req.oidcToken == OidcFor(c)
  {
    HttpRequest("POST", url, OctetStream,
                platform.base64Encode(platform.stringify(PayloadJson(handlerId, args))),
                OidcFor(c))
  }

  /** The body decodes back to the payload whenever the codecs are inverse
      on it: the delivered body names the same handler and arguments. */
  lemma BodyCarriesPayload(c: CloudTasksConfig, url: string, handlerId: string, args: seq<Json>,
                           platform: Platform)
    requires platform.base64Decode(platform.base64Encode(platform.stringify(PayloadJson(handlerId, args))))
             == platform.stringify(PayloadJson(handlerId, args))
    requires platform.parse(platform.stringify(PayloadJson(handlerId, args))) == Some(PayloadJson(handlerId, args))
    ensures var decoded := platform.parse(platform.base64Decode(BuildHttpRequest(c, url, handlerId, args, platform).body));
            decoded.Some? && decoded.value.JObject?
            && decoded.value.members["handlerId"] == JString(handlerId)
            && decoded.value.members["args"] == JArray(args)
  {
  }
}
