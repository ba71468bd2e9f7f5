/** The compiled orchestrator (dist/index.js): `CloudTasks(config)` keeps the
    queues by name, builds each queue from the base config shallowly
    overridden by per-queue options, and routes deliveries through its
    loader closure. */
module DistIndex {
  import opened Js
  import opened Config
  import opened HandlerRegistry
  import opened Dispatch
  import DistQueue

  /** One key of the options object: absent, or present with a value
      (`undefined` included) that replaces the base value. */
  datatype Override<T> = Keep | Replace(value: T)

  /** The options object of `addQueue`. Its declared type names only the
      two nested blocks, but the spread copies whatever keys it has. */
  datatype QueueOptions = QueueOptions(
    handlerPath: Override<string>,
    location: Override<string>,
    project: Override<string>,
    serviceAccount: Override<Option<string>>,
    serviceUrl: Override<string>,
    rateLimits: Override<Option<RateLimits>>,
    retryConfig: Override<Option<RetryConfig>>)

  /** The default `{}`. */
  const NoOptions := QueueOptions(Keep, Keep, Keep, Keep, Keep, Keep, Keep)

  function Pick<T>(base: T, o: Override<T>): T {
    if o.Replace? then o.value else base
  }

  /** `merged` is the value of a key after the spread: the option's value
      when the key is present in the options, the base value otherwise. */
  predicate Overridden<T(==)>(base: T, o: Override<T>, merged: T) {
    (o.Replace? ==> merged == o.value) && (o.Keep? ==> merged == base)
  }

  /** `{ ...config, ...options }`. */
  function MergeOptions(base: CloudTasksConfig, options: QueueOptions): (c: CloudTasksConfig)
    ensures Overridden(base.handlerPath, options.handlerPath, c.handlerPath)
    ensures Overridden(base.location, options.location, c.location)
    ensures Overridden(base.project, options.project, c.project)
    ensures Overridden(base.serviceAccount, options.serviceAccount, c.serviceAccount)
    ensures Overridden(base.serviceUrl, options.serviceUrl, c.serviceUrl)
    ensures Overridden(base.rateLimits, options.rateLimits, c.rateLimits)
    ensures Overridden(base.retryConfig, options.retryConfig, c.retryConfig)
  {
    CloudTasksConfig(
      Pick(base.handlerPath, options.handlerPath),
      Pick(base.location, options.location),
      Pick(base.project, options.project),
      Pick(base.serviceAccount, options.serviceAccount),
      Pick(base.serviceUrl, options.serviceUrl),
      Pick(base.rateLimits, options.rateLimits),
      Pick(base.retryConfig, options.retryConfig))
  }

  /** Without options the queue gets the base config itself. */
  lemma MergeWithoutOptionsIsBase(base: CloudTasksConfig)
    ensures MergeOptions(base, NoOptions) == base
  {
  }

  /** The merge is shallow: a nested block given in the options replaces the
      base block whole, so a limit set only in the base is dropped. */
  lemma NestedBlocksReplacedWhole(base: CloudTasksConfig, options: QueueOptions, limits: RateLimits)
    requires base.rateLimits.Some? && base.rateLimits.value.maxBurstSize.Some?
    requires options.rateLimits == Replace(Some(limits)) && limits.maxBurstSize.None?
    ensures MergeOptions(base, options).rateLimits.value.maxBurstSize.None?
  {
  }

  /** Options that only carry queue settings cannot make a valid base config invalid. */
  lemma QueueSettingsKeepValidity(base: CloudTasksConfig, options: QueueOptions)
    requires options.handlerPath.Keep? && options.location.Keep? && options.project.Keep? && options.serviceUrl.Keep?
    ensures ValidateConfig(MergeOptions(base, options)) == ValidateConfig(base)
  {
  }

  class CloudTasks {
    const config: CloudTasksConfig
    var queues: map<string, DistQueue.CloudTasksQueue>
    /** The handler calls made by the loader so far, oldest first. */
    var invocations: seq<Invocation>

    ghost predicate Valid()
      reads this
    {
      ValidateConfig(config).Ok?
    }

    /** Each registered queue's handlers, by queue name. */
    ghost function Registries(): map<string, Registry>
      reads this, queues.Values
    {
      map name | name in queues :: queues[name].handlers
    }

    /** The part of `CloudTasks(config)` after the api has validated the config. */
    constructor (config: CloudTasksConfig)
      requires ValidateConfig(config).Ok?
      ensures Valid() && this.config == config && queues == map[] && invocations == []
    {
      this.config := config;
      queues := map[];
      invocations := [];
    }

    /** `addQueue(queueName, options)`: the queue is stored under its name,
        replacing any earlier one; when the merged config is invalid the
        queue constructor throws and nothing is stored. */
    method AddQueue(queueName: string, options: QueueOptions) returns (r: Result<DistQueue.CloudTasksQueue, Error>)
      modifies this`queues
      ensures var merged := MergeOptions(config, options);
              && (r.Ok? <==> ValidateConfig(merged).Ok?)
              && (r.Err? ==> r.error == ValidateConfig(merged).error && queues == old(queues))
              && (r.Ok? ==> && fresh(r.value) && r.value.Valid() && r.value.name == queueName
                            && r.value.config == merged && r.value.handlers == map[] && r.value.requests == []
                            && queues == old(queues)[queueName := r.value])
    {
      var queueConfig := MergeOptions(config, options);
      r := DistQueue.NewCloudTasksQueue(queueName, queueConfig);
      if r.Ok? {
        queues := queues[queueName := r.value];
      }
    }

    /** The loader closure: find the queue, then its handler, then call the
        handler once with the arguments spread. */
    method Load(queueName: Option<string>, handlerId: string, args: Json, run: Run) returns (r: Result<(), Error>)
      modifies this`invocations
      ensures var route := Route(Registries(), queueName, handlerId, args);
              && (route.Err? ==> r == Err(route.error) && invocations == old(invocations))
              && (route.Ok? ==> r == run(route.value.handler, route.value.args)
                                && invocations == old(invocations) + [route.value])
    {
      var key := QueueKey(queueName);
      if key !in queues {
        return Err(QueueNotFound(key));
      }
      var queue := queues[key];
      var handler := queue.GetHandler(handlerId);
      if handler.Err? {
        return Err(handler.error);
      }
      var spread := Spread(args);
      if spread.None? {
        return Err(TypeError("args is not iterable"));
      }
      invocations := invocations + [Invocation(handler.value, spread.value)];
      r := run(handler.value, spread.value);
    }
  }

  /** `CloudTasks(config)`: building the api validates the config first, so
      an invalid config yields no orchestrator; a valid one starts empty. */
  method NewCloudTasks(config: CloudTasksConfig) returns (r: Result<CloudTasks, Error>)
    ensures r.Ok? <==> ValidateConfig(config).Ok?
    ensures r.Err? ==> r.error == ValidateConfig(config).error
    ensures r.Ok? ==> fresh(r.value) && r.value.Valid() && r.value.config == config
                      && r.value.queues == map[] && r.value.invocations == []
  {
    var validation := ValidateConfig(config);
    if validation.Err? {
      return Err(validation.error);
    }
    var tasks := new CloudTasks(config);
    return Ok(tasks);
  }
}
