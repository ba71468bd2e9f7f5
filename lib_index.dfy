/** The TypeScript orchestrator (lib/index.ts): like the compiled one, but
    `addQueue` takes no options and builds every queue from the base config. */
module LibIndex {
  import opened Js
  import opened Config
  import opened HandlerRegistry
  import opened Dispatch
  import LibQueue

  class CloudTasks {
    const config: CloudTasksConfig
    var queues: map<string, LibQueue.CloudTasksQueue>
    /** The handler calls made by the loader so far, oldest first. */
    var invocations: seq<Invocation>

    ghost predicate Valid()
      reads this
    {
      ValidateConfig(config).Ok?
    }

    /** Each registered queue's handlers, by queue name. */
    ghost function Registries(): map<string, Registry>
      reads this, queues.Values
    {
      map name | name in queues :: queues[name].handlers
    }

    /** The part of `CloudTasks(config)` after the api has validated the config. */
    constructor (config: CloudTasksConfig)
      requires ValidateConfig(config).Ok?
      ensures Valid() && this.config == config && queues == map[] && invocations == []
    {
      this.config := config;
      queues := map[];
      invocations := [];
    }

    /** `addQueue(queueName)`: a queue over the base config, registered under
        its name (replacing any earlier one) and returned. The base config
        was validated when the api was built, so the queue constructor's own
        validation passes. */
    method AddQueue(queueName: string) returns (queue: LibQueue.CloudTasksQueue)
      requires Valid()
      modifies this`queues
      ensures fresh(queue) && queue.Valid() && queue.name == queueName && queue.config == config
      ensures queue.handlers == map[] && queue.requests == []
      ensures queues == old(queues)[queueName := queue]
    {
      queue := new LibQueue.CloudTasksQueue(queueName, config);
      queues := queues[queueName := queue];
    }

    /** The loader closure: find the queue, then its handler, then await the
        handler called once with the arguments spread. */
    method Load(queueName: Option<string>, handlerId: string, args: Json, run: Run) returns (r: Result<(), Error>)
      modifies this`invocations
      ensures var route := Route(Registries(), queueName, handlerId, args);
              && (route.Err? ==> r == Err(route.error) && invocations == old(invocations))
              && (route.Ok? ==> r == run(route.value.handler, route.value.args)
                                && invocations == old(invocations) + [route.value])
    {
      var key := QueueKey(queueName);
      if key !in queues {
        return Err(QueueNotFound(key));
      }
      var queue := queues[key];
      var handler := queue.GetHandler(handlerId);
      if handler.Err? {
        return Err(handler.error);
      }
      var spread := Spread(args);
      if spread.None? {
        return Err(TypeError("args is not iterable"));
      }
      invocations := invocations + [Invocation(handler.value, spread.value)];
      r := run(handler.value, spread.value);
    }
  }

  /** `CloudTasks(config)`: the api validates the config before any queue
      exists, so an invalid config yields no orchestrator. */
  method NewCloudTasks(config: CloudTasksConfig) returns (r: Result<CloudTasks, Error>)
    ensures r.Ok? <==> ValidateConfig(config).Ok?
    ensures r.Err? ==> r.error == ValidateConfig(config).error
    ensures r.Ok? ==> fresh(r.value) && r.value.Valid() && r.value.config == config
                      && r.value.queues == map[] && r.value.invocations == []
  {
    var validation := ValidateConfig(config);
    if validation.Err? {
      return Err(validation.error);
    }
    var tasks := new CloudTasks(config);
    return Ok(tasks);
  }
}
