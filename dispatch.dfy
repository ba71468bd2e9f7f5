/** The routing done by the loader closure that both `CloudTasks` variants
    hand to the webhook: queue by name, then handler by id, then a call
    with the arguments spread positionally. */
module Dispatch {
  import opened Js
  import opened HandlerRegistry

  function QueueNotFound(key: string): Error {
    CloudTasksError("Queue '" + key + "' not found")
  }

  /** The property key `queues[queueName]` looks up: a missing header is
      the value `undefined`, which becomes the key "undefined". */
  function QueueKey(queueName: Option<string>): (key: string)
    ensures queueName.Some? ==> key == queueName.value
    ensures queueName.None? ==> key == "undefined"
  {
    if queueName.Some? then queueName.value else "undefined"
  }

  /** `...args`: an array gives its elements, a string its characters;
      anything else is not iterable and throws. */
  function Spread(args: Json): (xs: Option<seq<Json>>)
    ensures args.JArray? ==> xs == Some(args.items)
    ensures xs.None? <==> !args.JArray? && !args.JString?
  {
    match args
    case JArray(items) => Some(items)
    case JString(s) => Some(seq(|s|, i requires 0 <= i < |s| => JString([s[i]])))
    case _ => None
  }

  /** One call of a handler, with its positional arguments. */
  datatype Invocation = Invocation(handler: Handler, args: seq<Json>)

  /** The call the loader makes, or the error it throws before making it,
      given each registered queue's handlers. */
  function Route(registries: map<string, Registry>, queueName: Option<string>, handlerId: string, args: Json)
    : (r: Result<Invocation, Error>)
    ensures r.Ok? <==> QueueKey(queueName) in registries && handlerId in registries[QueueKey(queueName)] && Spread(args).Some?
  {
    var key := QueueKey(queueName);
    if key !in registries then Err(QueueNotFound(key))
    else match Resolve(registries[key], handlerId)
      case Err(e) => Err(e)
      case Ok(handler) =>
        match Spread(args)
        case None => Err(TypeError("args is not iterable"))
        case Some(xs) => Ok(Invocation(handler, xs))
  }

  /** An unregistered queue name fails with "Queue 'name' not found" before
      any handler is looked up. */
  lemma UnknownQueueNotFound(registries: map<string, Registry>, queueName: Option<string>, handlerId: string, args: Json)
    requires QueueKey(queueName) !in registries
    ensures Route(registries, queueName, handlerId, args) == Err(QueueNotFound(QueueKey(queueName)))
  {
  }

  /** A delivery without the queue-name header looks up the queue named
      "undefined". */
  lemma MissingHeaderLooksUpUndefined(registries: map<string, Registry>, handlerId: string, args: Json)
    requires "undefined" !in registries
    ensures Route(registries, None, handlerId, args) == Err(CloudTasksError("Queue 'undefined' not found"))
  {
    assert "Queue '" + "undefined" + "' not found" == "Queue 'undefined' not found";
  }

  /** On a registered queue, an unknown handler id propagates the registry's
      "Handler 'id' not found" error. */
  lemma UnknownHandlerPropagates(registries: map<string, Registry>, queueName: Option<string>, handlerId: string, args: Json)
    requires QueueKey(queueName) in registries && handlerId !in registries[QueueKey(queueName)]
    ensures Route(registries, queueName, handlerId, args) == Err(HandlerNotFound(handlerId))
  {
  }

  /** A registered handler is called with the array's elements as its
      positional arguments. */
  lemma RegisteredHandlerCalledWithArgs(registries: map<string, Registry>, queueName: string, handlerId: string, args: seq<Json>)
    requires queueName in registries && handlerId in registries[queueName]
    ensures Route(registries, Some(queueName), handlerId, JArray(args)) == Ok(Invocation(registries[queueName][handlerId], args))
  {
  }
}
