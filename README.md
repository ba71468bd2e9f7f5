# express-cloud-tasks in Dafny

A model of express-cloud-tasks, a library that lets an Express
application enqueue background work on Google Cloud Tasks and receive it
back on a webhook. Each `CloudTasksQueue` holds named handlers. `addTask`
fetches the remote queue, creating it with the declared rate-limit and
retry settings when the fetch fails, and then submits an HTTP task whose
body is the base64-encoded JSON payload `{handlerId, args}`. When a
fetched queue differs from the declared settings, the compiled variant
sends an update. That update carries the declared retry settings, and
only when the fetched queue already has some; it never carries the
declared rate limits. The TypeScript variant never updates a fetched
queue.

When Cloud Tasks delivers the task's request, the router built by
`CloudTasksApi` checks the payload and, if a service account is
configured, the bearer token. It then calls the loader closure of
`CloudTasks`, which finds the queue and the handler and calls it with
the arguments.

The repository ships two variants, and both are modelled:

- the compiled JavaScript under `dist/`;
- the older TypeScript under `lib/`, which never updates a queue, writes
  retry durations without converting milliseconds, and answers 200
  instead of 500 when the webhook catches an error.

Modules, one per file:

- `Js` (js_values.dfy): options, nullable fields, JavaScript truthiness,
  JSON values and errors.
- `Config` (config.dfy): the configuration record and `validateConfig`.
- `Remote` (remote.dfy): queue and task descriptors, and the requests
  issued to the client. The Cloud Tasks service (`Service`) and the
  platform codecs (`Platform`: URL resolution, `JSON.stringify`/`parse`,
  base64) are given as function-valued parameters.
- `HandlerRegistry` (handler_registry.dfy): `addHandler`/`getHandler`
  over the handler record.
- `Tasks` (tasks.dfy): the HTTP callback request shared by both variants.
- `DistQueue` and `LibQueue` (dist_queue.dfy, lib_queue.dfy):
  - the pure parts: duration conversion, `didQueueChanged`, the queue
    descriptors, and a reconciliation function that returns the result
    and the requests issued;
  - a `CloudTasksQueue` class whose fields are updated in place
    (`handlers`, the lazily created client, and the log of issued
    requests). Each method is proved against the reconciliation function.
- `Dispatch` (dispatch.dfy): the loader's routing. `DistIndex` and
  `LibIndex` (dist_index.dfy, lib_index.dfy) are the `CloudTasks`
  orchestrators, each holding its queues map.
- `Webhook` (webhook.dfy): the request handler, as a function from a
  delivery to a response plus the loader call made. It includes the
  `/Bearer\s/i` token stripping.
- `Delivery` (delivery.dfy): the end-to-end property that a submitted
  task, once delivered, reaches its handler.

## Model

| member | source | states |
|---|---|---|
| Config.FirstEmpty | lib/config.ts:33-36 | the first entry with an empty value is named; none exactly when every value is non-empty |
| Config.ValidateConfig | dist/config.js:5-19 | succeeds exactly when handlerPath, location, project and serviceUrl are all non-empty |
| Config.ValidateReportsFirstEmpty | lib/config.ts:26-37 | the error reported is "Missing X on config" for the first empty required field in check order |
| Config.MissingHandlerPathReportedFirst | dist/config.js:7-9 | an empty handlerPath is reported, whatever else is missing |
| Config.ValidationIgnoresOptionalFields | lib/config.ts:27-32 | serviceAccount, rateLimits and retryConfig never affect validation |
| HandlerRegistry.Register | dist/queue.js:24-26 | the id is added or overwritten; every other entry is kept |
| HandlerRegistry.Resolve | dist/queue.js:27-33 | returns the handler exactly when the id is registered; otherwise the error "Handler 'id' not found" |
| HandlerRegistry.ResolveAfterRegister | lib/queue.ts:27-37 | a handler just registered is what the lookup returns |
| HandlerRegistry.LastRegistrationWins | lib/queue.ts:27-29 | registering twice under one id keeps only the second handler |
| HandlerRegistry.RegisterLeavesOtherIds | dist/queue.js:24-26 | registering one id leaves the lookup of every other id unchanged |
| HandlerRegistry.ResolveAsWritten | lib/queue.ts:31-37 | the lookup as written fails only for ids that are neither registered nor inherited from Object.prototype |
| HandlerRegistry.ResolveAsWrittenAgreesOffPrototype | dist/queue.js:27-33 | off the inherited names, the lookup as written agrees with `Resolve` |
| HandlerRegistry.InheritedMemberResolvesAsWritten | lib/queue.ts:32-34 | with nothing registered, "toString" is found as written but is not found by `Resolve` |
| Tasks.PayloadJson | dist/queue.js:39 | the payload is an object with exactly the keys handlerId and args, holding the id and the argument array |
| Tasks.OidcFor | dist/queue.js:40-42 | an OIDC token exists exactly when the service account is non-empty; its email is account@project.iam.gserviceaccount.com |
| Tasks.BuildHttpRequest | lib/queue.ts:60-68 | a POST to the given URL with the octet-stream content type, carrying the OIDC block |
| Tasks.BodyCarriesPayload | lib/queue.ts:51-66 | when the codecs are inverse on the payload, decoding the body gives back the same handler id and arguments |
| DistQueue.ParseGoogleDuration | dist/queue.js:143-151 | a truthy nanos gives nanos / 10^6; otherwise a truthy seconds gives seconds * 1000; the result is 0 exactly when neither is truthy |
| DistQueue.BuildGoogleDuration | dist/queue.js:66-68 | a duration built from milliseconds parses back to the same milliseconds |
| DistQueue.BuildGoogleTimestamp | dist/queue.js:69-71 | the timestamp's seconds times 1000 equal the instant in milliseconds |
| DistQueue.ParseIgnoresSecondsWhenNanosSet | dist/queue.js:144-146 | a truthy nanos field alone decides the value (nanos / 10^6), whatever the seconds |
| DistQueue.DurationField | dist/queue.js:64 | a retry duration is written exactly when it is truthy, and parses back to the declared milliseconds; otherwise null |
| DistQueue.BuildRetryConfig | dist/queue.js:59-65 | `{}` without retryConfig; otherwise maxAttempts and maxDoublings copied and each duration converted or null |
| DistQueue.DidQueueChanged | dist/queue.js:102-142 | a config that declares no rate limits and no retry settings never reports a change |
| DistQueue.DidQueueChangedIffSomeFieldDiverges | dist/queue.js:102-142 | `didQueueChanged` holds exactly when some setting, declared truthy, differs from the fetched one (durations only when fetched) |
| DistQueue.NumberMismatchForcesUpdate | dist/queue.js:105-124 | a truthy declared number that differs from the fetched one forces an update |
| DistQueue.FalsyDeclarationsNeverForceUpdate | dist/queue.js:104-141 | with every setting undeclared or falsy, no fetched queue is ever considered changed |
| DistQueue.MissingFetchedDurationNeverDiverges | dist/queue.js:125-139 | a duration absent from the fetched queue never causes an update; a change then needs another diverging setting |
| DistQueue.MaxAttemptsExample | dist/queue.js:119-121 | fetched maxAttempts 3 against declared 5 is a change; 5 against 5 is not |
| DistQueue.NewQueueDescriptor | dist/queue.js:90-96 | the created queue is named by the queue path, with the declared rate limits or `{}`, and the converted retry settings |
| DistQueue.CreatedQueueIsInSync | dist/queue.js:85-142 | a queue stored exactly as created is never considered changed |
| DistQueue.PatchQueue | dist/queue.js:157-163 | the update keeps the name, the rate limits and all other fields as fetched; retry settings are rebuilt only if the fetched queue had some |
| DistQueue.PatchFixesRetryDivergence | dist/queue.js:161-163 | if only retry settings diverged, the patched queue is in sync |
| DistQueue.PatchKeepsRateLimitDivergence | dist/queue.js:158-160 | a diverging rate limit still diverges after the patch |
| DistQueue.PatchAsWrittenCanLeaveQueueChanged | dist/queue.js:161-163 | a fetched queue without retry settings, against a declared maxAttempts, is re-sent unchanged and stays out of sync; the intended update syncs it |
| DistQueue.SyncedPatch | dist/queue.js:157-163 | the intended update keeps name and other fields and always leaves the queue in sync with the config |
| DistQueue.SyncedPatchIsInSync | dist/queue.js:152-167 | writing the declared rate limits (or `{}`) and retry settings over any fetched queue makes `didQueueChanged` false |
| DistQueue.Reconcile | dist/queue.js:72-84 | the first request issued is always getQueue on the queue path |
| DistQueue.UnchangedQueueReturnedAsFetched | dist/queue.js:154-156 | an unchanged fetched queue is returned as is, and no update is issued |
| DistQueue.ChangedQueueIsPatched | dist/queue.js:152-167 | a changed fetched queue is sent to updateQueue patched under its own name, and the response is returned |
| DistQueue.AnyFetchFailureCreatesQueue | dist/queue.js:76-82 | any failed fetch leads to createQueue under the location path, with the queue path as name |
| DistQueue.BuildTask | dist/queue.js:43-47 | a deadline exactly when it is truthy, parsing back to the given ms; a schedule time exactly when one is given, equal to it in ms |
| DistQueue.CloudTasksQueue.constructor | dist/queue.js:18-23 | stores name and config, with no handlers, no client and no requests yet |
| DistQueue.CloudTasksQueue.AddHandler | dist/queue.js:24-26 | the handlers become `Register(old handlers, id, handler)` |
| DistQueue.CloudTasksQueue.GetHandler | dist/queue.js:27-33 | returns the registered handler exactly when the id is registered; otherwise "Handler 'id' not found" |
| DistQueue.CloudTasksQueue.CloudTasksClient | dist/queue.js:51-57 | the client is created for the project on first use and reused afterwards |
| DistQueue.CloudTasksQueue.UpdateQueue | dist/queue.js:152-168 | an unchanged queue is returned without a request; otherwise one updateQueue with `PatchQueue` is issued, and its answer is returned |
| DistQueue.CloudTasksQueue.CreateQueue | dist/queue.js:85-101 | issues one createQueue with `NewQueueDescriptor` under the location path, and returns its answer |
| DistQueue.CloudTasksQueue.GetCloudTaskQueue | dist/queue.js:72-84 | the result and the requests appended are those of `Reconcile` |
| DistQueue.CloudTasksQueue.AddTask | dist/queue.js:34-50 | after reconciliation, either propagates its error, fails on an unresolvable URL, or submits `BuildTask` to the resolved queue's name |
| DistQueue.NewCloudTasksQueue | dist/queue.js:18-23 | a queue exists exactly when the config validates; otherwise the validation error |
| LibQueue.DurationField | lib/queue.ts:92-94 | a truthy duration is written with the millisecond value in `seconds`, unconverted; otherwise null |
| LibQueue.BuildRetryConfig | lib/queue.ts:82-96 | `{}` without retryConfig; otherwise the numbers copied and each duration wrapped unconverted or null |
| LibQueue.DurationReadBackThousandfold | lib/queue.ts:92-94 | the compiled variant's parser reads such a duration as 1000 times the declared value |
| LibQueue.NewQueueDescriptor | lib/queue.ts:108-115 | the created queue is named by the queue path, with the declared rate limits or `{}`, and this variant's retry settings |
| LibQueue.CreatedQueueDivergesUnderDistCheck | lib/queue.ts:110-114 | a queue this variant creates with a truthy duration counts as changed under the compiled variant's check |
| LibQueue.Reconcile | lib/queue.ts:99-118 | the first request issued is always getQueue on the queue path |
| LibQueue.FetchedQueueUsedAsIs | lib/queue.ts:103-105 | no update is ever issued; a fetched queue is returned as fetched |
| LibQueue.AnyFetchFailureCreatesQueue | lib/queue.ts:106-117 | any failed fetch leads to createQueue under the location path, with the queue path and the rate limits or `{}` |
| LibQueue.BuildTask | lib/queue.ts:50-71 | no dispatch deadline; a schedule time exactly when it is truthy, equal to the given ms |
| LibQueue.CloudTasksQueue.constructor | lib/queue.ts:21-25 | stores name and config, with no handlers, no client and no requests yet |
| LibQueue.CloudTasksQueue.AddHandler | lib/queue.ts:27-29 | the handlers become `Register(old handlers, id, handler)` |
| LibQueue.CloudTasksQueue.GetHandler | lib/queue.ts:31-37 | returns the registered handler exactly when the id is registered; otherwise "Handler 'id' not found" |
| LibQueue.CloudTasksQueue.CloudTasksClient | lib/queue.ts:74-79 | the client is created for the project on first use and reused afterwards |
| LibQueue.CloudTasksQueue.GetCloudTaskQueue | lib/queue.ts:99-118 | the result and the requests appended are those of `Reconcile` |
| LibQueue.CloudTasksQueue.AddTask | lib/queue.ts:39-72 | after reconciliation, either propagates its error, fails on an unresolvable URL, or submits `BuildTask` to the resolved queue's name |
| LibQueue.NewCloudTasksQueue | lib/queue.ts:21-25 | a queue exists exactly when the config validates; otherwise the validation error |
| Dispatch.QueueKey | dist/index.js:19-21 | the queue-name header is the lookup key; a missing header becomes the key "undefined" |
| Dispatch.Spread | dist/index.js:24 | an array spreads to its elements; only arrays and strings are iterable |
| Dispatch.Route | lib/index.ts:9-14 | a handler call happens exactly when the queue is registered, the handler id is registered on it, and the args are iterable |
| Dispatch.UnknownQueueNotFound | dist/index.js:19-22 | an unregistered queue name fails with "Queue 'name' not found" |
| Dispatch.MissingHeaderLooksUpUndefined | lib/index.ts:10-11 | without the queue-name header, the error is "Queue 'undefined' not found" |
| Dispatch.UnknownHandlerPropagates | dist/index.js:23 | an unknown handler on a registered queue gives "Handler 'id' not found" |
| Dispatch.RegisteredHandlerCalledWithArgs | lib/index.ts:12-13 | a registered handler is called with the array's elements as its arguments |
| DistIndex.MergeOptions | dist/index.js:29 | for each of the seven keys, a key present in the options (even `undefined`) replaces the base value; an absent key keeps it |
| DistIndex.MergeWithoutOptionsIsBase | dist/index.js:28-29 | without options, the queue's config is the base config |
| DistIndex.NestedBlocksReplacedWhole | dist/index.js:29 | the merge is shallow: a limit set only in the base block is lost when the options give that block |
| DistIndex.QueueSettingsKeepValidity | dist/index.js:29-30 | options that only set rateLimits, retryConfig or serviceAccount do not change validation |
| DistIndex.CloudTasks.constructor | dist/index.js:16-17 | starts with no queues and no handler calls |
| DistIndex.CloudTasks.AddQueue | dist/index.js:28-33 | stores the new queue under its name, replacing an earlier one, exactly when the merged config validates; otherwise nothing is stored |
| DistIndex.CloudTasks.Load | dist/index.js:18-25 | errors and the handler call are those of `Route` over the queues' handlers; a call is logged only when it happens |
| DistIndex.NewCloudTasks | dist/index.js:16-35 | an orchestrator exists exactly when the config validates |
| LibIndex.CloudTasks.constructor | lib/index.ts:6-7 | starts with no queues and no handler calls |
| LibIndex.CloudTasks.AddQueue | lib/index.ts:19-24 | stores a fresh queue over the base config under its name, replacing an earlier one |
| LibIndex.CloudTasks.Load | lib/index.ts:9-14 | errors and the handler call are those of `Route` over the queues' handlers; a call is logged only when it happens |
| LibIndex.NewCloudTasks | lib/index.ts:6-26 | an orchestrator exists exactly when the config validates |
| Webhook.CloudTasksApi | dist/api.js:21-24 | the router exists exactly when the config validates, and it serves handlerPath |
| Webhook.FirstBearerFrom | dist/api.js:55 | finds the leftmost case-insensitive "bearer" plus one whitespace character at or after the start |
| Webhook.StripBearer | lib/api.ts:49 | a header without a match is the token itself; otherwise the token is seven characters shorter |
| Webhook.StripBearerRemovesLeftmostMatch | dist/api.js:55 | only the leftmost match is removed, and the rest of the header is kept |
| Webhook.StripBearerOfPrefixedToken | lib/api.ts:42-49 | "Bearer" in any letter case, then one whitespace character, then a token, yields exactly the token |
| Webhook.CatchAllStatus | dist/api.js:69-72 | the catch-all status is 500 in dist and 200 in lib, and never one of 204, 400, 401 |
| Webhook.Authenticates | dist/api.js:25-31 | verification fails when the handler URL does not resolve; otherwise it succeeds exactly when the token verifies against that URL as audience |
| Webhook.HandleDelivery | dist/api.js:32-73 | the status is 204, 400, 401 or the catch-all status; 204 only after a loader call, which carries the queue-name header |
| Webhook.LoaderRunsIffAdmitted | lib/api.ts:26-63 | the loader runs exactly for admitted deliveries, and 204 is returned exactly when it then resolves |
| Webhook.MissingBodyIsBadRequest | dist/api.js:34-39 | no body gives 400 "Bad Request: no payload received" without a loader call |
| Webhook.FalsyHandlerIdIsBadRequest | lib/api.ts:35-40 | a missing or falsy handlerId gives 400 "Bad Request: invalid Express Cloud Tasks payload format", whatever the credentials |
| Webhook.PayloadCheckedBeforeCredentials | dist/api.js:34-53 | a malformed payload without credentials is 400, not 401 |
| Webhook.MissingAuthorizationIsUnauthorized | dist/api.js:47-54 | with a service account, a valid payload and no Authorization header give 401 "Unauthorized: Unauthenticated request" |
| Webhook.FailedVerificationIsInvalidToken | lib/api.ts:49-55 | a token that does not verify gives 400 "Invalid token" without a loader call |
| Webhook.AudienceIsResolvedHandlerUrl | dist/api.js:25-31 | the token is verified against `new URL(handlerPath, serviceUrl).href`, and that verification alone decides |
| Webhook.NoServiceAccountSkipsAuthentication | lib/api.ts:41-56 | without a service account, neither the header nor the verifier changes the response |
| Webhook.AdmittedDeliveryCallsLoader | dist/api.js:64-67 | the loader gets the queue-name header, handlerId and args (`[]` when absent); 204 on success, the catch-all status on failure |
| Webhook.UnparsableBodyIsCaught | lib/api.ts:64-67 | a body that is not JSON is caught: 500 in dist, 200 in lib |
| Webhook.LoaderFailureIsCaught | dist/api.js:69-72 | a loader failure is caught: 500 in dist, 200 in lib |
| Webhook.VariantsDifferOnlyInCatchAllStatus | lib/api.ts:64-67 | both variants give the same body and loader call; only the catch-all status differs (500 against 200) |
| Delivery.DeliveredTaskReachesItsHandler | dist/api.js:40-66 | a submitted task, once delivered, calls the loader with its queue, id and args; routing reaches the registered handler; 204 exactly when it resolves |

## Left out

- Asynchrony and the Express plumbing (body-parser, `res`, logging) are not modelled. The handler is a function from a delivery to one response, plus the loader call made.
- The Cloud Tasks client, `OAuth2Client.verifyIdToken`, `new URL`, JSON and base64 are given as function parameters (`Service`, `Platform`, `Environment`). They are collaborators whose code is not part of this model.
- Numbers are exact reals. Floating-point rounding, NaN and `Infinity` are not modelled, so `ms / 1000 * 1000 == ms` holds in the model.
- A numeric setting is either absent or a number. An explicit `null` is not distinguished from a missing number. The remote duration fields do distinguish `null` (written by the library) from an absent field.
- The raw request body is taken as text. `Delivery.body` is `None` exactly when no body was produced. A non-Buffer body that the body parser substitutes is not modelled.
- Dispatch.Route: the handler id is a string. A non-string truthy `handlerId` in the payload reaches the loader as a JSON value (`Webhook.LoaderCall`), but its conversion to a property key is not modelled.
- Dispatch.Route: the queues record has the same inherited-member lookup as the handler record (see Findings). A queue name such as "toString" is modelled as not found.
- The webhook and the orchestrator's loader are related only through `Delivery.DeliveredTaskReachesItsHandler` and `Dispatch.Route`. The closure wiring between `CloudTasksApi` and `CloudTasks` is not composed into one object.
- DistQueue.CloudTasksQueue.GetHandler and LibQueue.CloudTasksQueue.GetHandler model the corrected lookup of the first Findings row (own entries only), not the lookup as written; `HandlerRegistry.ResolveAsWritten` holds the as-written one.
- HandlerRegistry.Resolve: handlers are identities, so a registered handler that is itself falsy cannot be expressed. The `__proto__` key, whose assignment replaces the prototype rather than adding an entry, is not modelled.
- DistQueue.Reconcile: the fetched descriptor is modified in place by the source before it is sent. The model treats it as a value and builds the patched copy.
- DistQueue.Reconcile and LibQueue.Reconcile: any failure of `getQueue` leads to `createQueue`, as the code does. A design that creates only on "not found" is not what the code does.
- Webhook.CatchAllStatus: the TypeScript variant answers 200 to a caught error, as its code does. The model keeps that rather than the 500 of the compiled variant.
- DistQueue.CloudTasksQueue.UpdateQueue keeps the update as written (second Findings row), since it models that method. It assigns `queue.rateLimits` to itself, so declared rate limits never reach the service (`DistQueue.PatchKeepsRateLimitDivergence`). It rebuilds retry settings only when the fetched queue has some, so a queue without them is re-sent unchanged on every `addTask` (`DistQueue.PatchAsWrittenCanLeaveQueueChanged`).

## Findings

| source | as written | input that shows it | evidently intended | confidence | as-written member | corrected member |
|---|---|---|---|---|---|---|
| dist/queue.js:27-33 (and lib/queue.ts:31-37) | `handlers` is a plain object literal, so `this.handlers[id]` also finds members inherited from Object.prototype, and the `!handler` test passes for them | `getHandler("toString")` with no handler registered returns `Object.prototype.toString` instead of throwing "Handler 'toString' not found"; a delivery with handlerId "toString" or "constructor" then calls an Object.prototype function and is acknowledged with 204 without running any registered handler | only ids registered with `addHandler` resolve; every other id throws | not executed | HandlerRegistry.InheritedMemberResolvesAsWritten | HandlerRegistry.Resolve |
| dist/queue.js:157-163 | the update assigns the fetched `rateLimits` to itself and rebuilds `retryConfig` only when the fetched queue has one | declared `retryConfig: {maxAttempts: 5}` and a fetched queue without retry settings: the queue is sent back unchanged and is still reported as changed on the next `addTask` | the declared rate limits and retry settings are written over the fetched queue, which is then in sync | not executed | DistQueue.PatchAsWrittenCanLeaveQueueChanged | DistQueue.SyncedPatch |
