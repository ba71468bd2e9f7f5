/** The round trip the library exists for: a task's callback request, once
    Cloud Tasks delivers it to the webhook, reaches the handler it names. */
module Delivery {
  import opened Js
  import opened Remote
  import opened Tasks
  import opened Webhook
  import opened Dispatch

  /** What the webhook receives for a callback request: the decoded body,
      the given `Authorization` header and the queue-name header. */
  function DeliveryOf(req: HttpRequest, authorization: Option<string>, queueName: string, platform: Platform): Delivery {
    Delivery(Some(platform.base64Decode(req.body)), authorization, Some(queueName))
  }

  /** With codecs that are inverse on the payload, a non-empty handler id,
      and (when a service account is configured) a token that verifies, the
      delivered task calls the loader with its queue, handler id and
      arguments, the loader routes it to the registered handler with those
      arguments, and the response is 204 exactly when that call resolves. */
  lemma DeliveredTaskReachesItsHandler(v: Variant, router: Router, env: Environment, url: string,
                                       handlerId: string, args: seq<Json>, queueName: string,
                                       token: string, registries: map<string, HandlerRegistry.Registry>)
    requires env.platform.base64Decode(env.platform.base64Encode(env.platform.stringify(PayloadJson(handlerId, args))))
             == env.platform.stringify(PayloadJson(handlerId, args))
    requires env.platform.parse(env.platform.stringify(PayloadJson(handlerId, args))) == Some(PayloadJson(handlerId, args))
    requires handlerId != ""
    requires TruthyString(router.config.serviceAccount) ==> Authenticates(router.config, token, env)
    requires queueName in registries && handlerId in registries[queueName]
    ensures var req := BuildHttpRequest(router.config, url, handlerId, args, env.platform);
            var resp := HandleDelivery(v, router, DeliveryOf(req, Some("Bearer " + token), queueName, env.platform), env);
            && resp.loaderCall == Some(LoaderCall(Some(queueName), JString(handlerId), JArray(args)))
            && Route(registries, resp.loaderCall.value.queueName, handlerId, resp.loaderCall.value.args)
               == Ok(Invocation(registries[queueName][handlerId], args))
            && (resp.status == 204 <==> env.loader(resp.loaderCall.value).Ok?)
  {
    var req := BuildHttpRequest(router.config, url, handlerId, args, env.platform);
    BodyCarriesPayload(router.config, url, handlerId, args, env.platform);
    assert BearerAt("Bearer ", 0);
    StripBearerOfPrefixedToken("Bearer ", token);
    var d := DeliveryOf(req, Some("Bearer " + token), queueName, env.platform);
    assert Admitted(router.config, d, env);
    AdmittedDeliveryCallsLoader(v, router, d, env);
    RegisteredHandlerCalledWithArgs(registries, queueName, handlerId, args);
  }
}
