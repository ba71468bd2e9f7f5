/** The TypeScript queue (lib/queue.ts): the older variant. It fetches the
    remote queue and creates it when the fetch fails, but never updates it,
    and it writes retry durations without converting milliseconds. */
module LibQueue {
  import opened Js
  import opened Config
  import opened Remote
  import opened HandlerRegistry
  import Tasks
  import DistQueue

  /** One retry duration as this variant writes it: the millisecond value
      is placed in `seconds` unchanged, or `null` when it is falsy. */
  function DurationField(milliseconds: Option<real>): (f: Nullable<GoogleDuration>)
    ensures f.Defined? <==> TruthyNumber(milliseconds)
    ensures f.Defined? ==> f.value.nanos.None? && f.value.seconds == milliseconds
    ensures !f.Defined? ==> f.Null?
  {
    if TruthyNumber(milliseconds) then Defined(GoogleDuration(milliseconds, None)) else Null
  }

  /** `buildCloudTasksQueueRetryConfig`: `{}` without declared retry
      settings; otherwise the declared settings with each duration wrapped
      as `{seconds: value}`, or `null` when it is falsy. */
  function BuildRetryConfig(c: CloudTasksConfig): (r: RemoteRetryConfig)
    ensures c.retryConfig.None? ==> r == NoRetryConfig
    ensures c.retryConfig.Some? ==>
              && r.maxAttempts == c.retryConfig.value.maxAttempts
              && r.maxDoublings == c.retryConfig.value.maxDoublings
              && r.maxRetryDuration == DurationField(c.retryConfig.value.maxRetryDuration)
              && r.minBackoff == DurationField(c.retryConfig.value.minBackoff)
              && r.maxBackoff == DurationField(c.retryConfig.value.maxBackoff)
  {
    match c.retryConfig
    case None => NoRetryConfig
    case Some(rc) =>
      RemoteRetryConfig(rc.maxAttempts, DurationField(rc.maxRetryDuration), DurationField(rc.minBackoff),
                        DurationField(rc.maxBackoff), rc.maxDoublings)
  }

  /** A duration written by this variant is read back by the compiled
      variant's `parseGoogleDuration` as a thousand times the declared value. */
  lemma DurationReadBackThousandfold(milliseconds: real)
    requires milliseconds != 0.0
    ensures DistQueue.ParseGoogleDuration(DurationField(Some(milliseconds)).value) == milliseconds * 1000.0
    ensures DistQueue.ParseGoogleDuration(DurationField(Some(milliseconds)).value) != milliseconds
  {
  }

  /** The descriptor this variant creates: queue path as name, the declared
      rate limits (or `{}`) and its own retry settings. */
  function NewQueueDescriptor(c: CloudTasksConfig, queuePath: string): (d: QueueDescriptor)
    ensures d.name == queuePath && d.otherFields == map[]
    ensures d.rateLimits == Some(c.rateLimits.GetOr(NoRateLimits))
    ensures d.retryConfig == Some(BuildRetryConfig(c))
  {
    QueueDescriptor(queuePath, Some(c.rateLimits.GetOr(NoRateLimits)), Some(BuildRetryConfig(c)), map[])
  }

  /** The two variants disagree: a queue this variant creates with a
      declared duration is, by the compiled variant's check, out of sync. */
  lemma CreatedQueueDivergesUnderDistCheck(c: CloudTasksConfig, queuePath: string, f: DistQueue.QueueField)
    requires DistQueue.IsDuration(f) && TruthyNumber(DistQueue.Declared(c, f))
    ensures DistQueue.DidQueueChanged(c, NewQueueDescriptor(c, queuePath))
  {
    var d := NewQueueDescriptor(c, queuePath);
    DurationReadBackThousandfold(DistQueue.Declared(c, f).value);
    assert DistQueue.FieldDiverges(c, d, f);
    DistQueue.DidQueueChangedIffSomeFieldDiverges(c, d);
  }

  /** `getCloudTaskQueue`: the fetched queue as it is, or, when the fetch
      fails for any reason, a newly created one. */
  function Reconcile(c: CloudTasksConfig, name: string, service: Service): (rec: Reconciliation)
    ensures |rec.issued| >= 1 && rec.issued[0] == GetQueueCall(service.queuePath(c.project, c.location, name))
  {
    var queuePath := service.queuePath(c.project, c.location, name);
    match service.getQueue(queuePath)
    case Ok(q) => Reconciliation(Ok(q), [GetQueueCall(queuePath)])
    case Err(_) =>
      var locationPath := service.locationPath(c.project, c.location);
      var created := NewQueueDescriptor(c, queuePath);
      Reconciliation(service.createQueue(locationPath, created), [GetQueueCall(queuePath), CreateQueueCall(locationPath, created)])
  }

  /** No divergence check and no update: a fetched queue is used as fetched. */
  lemma FetchedQueueUsedAsIs(c: CloudTasksConfig, name: string, service: Service)
    ensures forall i :: 0 <= i < |Reconcile(c, name, service).issued| ==> !Reconcile(c, name, service).issued[i].UpdateQueueCall?
    ensures service.getQueue(service.queuePath(c.project, c.location, name)).Ok? ==>
              Reconcile(c, name, service).result == service.getQueue(service.queuePath(c.project, c.location, name))
  {
  }

  /** Any failed fetch leads to a creation under the location path, with the
      queue path as name and the declared rate limits or `{}`. */
  lemma AnyFetchFailureCreatesQueue(c: CloudTasksConfig, name: string, service: Service)
    requires service.getQueue(service.queuePath(c.project, c.location, name)).Err?
    ensures var rec := Reconcile(c, name, service);
            |rec.issued| == 2 && rec.issued[1].CreateQueueCall?
            && rec.issued[1].parent == service.locationPath(c.project, c.location)
            && rec.issued[1].queue.name == service.queuePath(c.project, c.location, name)
            && rec.issued[1].queue.rateLimits == Some(c.rateLimits.GetOr(NoRateLimits))
            && rec.result == service.createQueue(rec.issued[1].parent, rec.issued[1].queue)
  {
  }

  /** The task this variant submits: the HTTP callback and, when the
      schedule time (milliseconds) is truthy, that time in seconds. */
  function BuildTask(c: CloudTasksConfig, url: string, handlerId: string, args: seq<Json>,
                     scheduleTime: Option<real>, platform: Platform): (t: Task)
    ensures t.httpRequest == Tasks.BuildHttpRequest(c, url, handlerId, args, platform)
    ensures t.dispatchDeadline.None?
    ensures t.scheduleTime.Some? <==> TruthyNumber(scheduleTime)
    ensures t.scheduleTime.Some? ==> t.scheduleTime.value.seconds * 1000.0 == scheduleTime.value
  {
    Task(Tasks.BuildHttpRequest(c, url, handlerId, args, platform), None,
         if TruthyNumber(scheduleTime) then Some(Timestamp(scheduleTime.value / 1000.0)) else None)
  }

  class CloudTasksQueue {
    const name: string
    const config: CloudTasksConfig
    var handlers: Registry
    var client: Option<ClientHandle>
    /** The calls issued to the Cloud Tasks client so far, oldest first. */
    var requests: seq<ClientRequest>

    ghost predicate Valid()
      reads this
    {
      ValidateConfig(config).Ok? && (client.Some? ==> client.value == ClientHandle(config.project))
    }

    /** The part of the constructor after `validateConfig` has passed. */
    constructor (name: string, config: CloudTasksConfig)
      requires ValidateConfig(config).Ok?
      ensures Valid() && this.name == name && this.config == config
      ensures handlers == map[] && client == None && requests == []
    {
      this.name := name;
      this.config := config;
      handlers := map[];
      client := None;
      requests := [];
    }

    method AddHandler(handlerId: string, handler: Handler)
      modifies this`handlers
      ensures handlers == Register(old(handlers), handlerId, handler)
    {
      handlers := handlers[handlerId := handler];
    }

    method GetHandler(id: string) returns (r: Result<Handler, Error>)
      ensures r.Ok? <==> id in handlers
      ensures r.Ok? ==> r.value == handlers[id]
      ensures r.Err? ==> r.error == HandlerNotFound(id)
    {
      r := Resolve(handlers, id);
    }

    /** The `cloudTasksClient` getter: created on first use, then reused. */
    method CloudTasksClient() returns (handle: ClientHandle)
      requires Valid()
      modifies this`client
      ensures Valid() && client == Some(handle) && handle == ClientHandle(config.project)
      ensures old(client).Some? ==> client == old(client)
    {
      if client.Some? {
        return client.value;
      }
      handle := ClientHandle(config.project);
      client := Some(handle);
    }

    method GetCloudTaskQueue(service: Service) returns (r: Result<QueueDescriptor, Error>)
      requires Valid()
      modifies this`client, this`requests
      ensures Valid() && client == Some(ClientHandle(config.project))
      ensures r == Reconcile(config, name, service).result
      ensures requests == old(requests) + Reconcile(config, name, service).issued
    {
      var _ := CloudTasksClient();
      var queuePath := service.queuePath(config.project, config.location, name);
      requests := requests + [GetQueueCall(queuePath)];
      var response := service.getQueue(queuePath);
      if response.Ok? {
        return Ok(response.value);
      }
      var locationPath := service.locationPath(config.project, config.location);
      var queue := QueueDescriptor(queuePath, Some(config.rateLimits.GetOr(NoRateLimits)),
                                   Some(BuildRetryConfig(config)), map[]);
      requests := requests + [CreateQueueCall(locationPath, queue)];
      r := service.createQueue(locationPath, queue);
    }

    method AddTask(service: Service, platform: Platform, handlerId: string, args: seq<Json>,
                   scheduleTime: Option<real>) returns (r: Result<(), Error>)
      requires Valid()
      modifies this`client, this`requests
      ensures Valid()
      ensures var rec := Reconcile(config, name, service);
              var url := platform.resolveUrl(config.handlerPath, config.serviceUrl);
              if rec.result.Err? then r == Err(rec.result.error) && requests == old(requests) + rec.issued
              else if url.None? then r == Err(InvalidUrl) && requests == old(requests) + rec.issued
              else
                var task := BuildTask(config, url.value, handlerId, args, scheduleTime, platform);
                && r == service.createTask(rec.result.value.name, task)
                && requests == old(requests) + rec.issued + [CreateTaskCall(rec.result.value.name, task)]
    {
      var queue := GetCloudTaskQueue(service);
      if queue.Err? {
        return Err(queue.error);
      }
      var taskScheduleTime := if TruthyNumber(scheduleTime) then Some(Timestamp(scheduleTime.value / 1000.0)) else None;
      var url := platform.resolveUrl(config.handlerPath, config.serviceUrl);
      if url.None? {
        return Err(InvalidUrl);
      }
      var task := Task(Tasks.BuildHttpRequest(config, url.value, handlerId, args, platform), None, taskScheduleTime);
      requests := requests + [CreateTaskCall(queue.value.name, task)];
      r := service.createTask(queue.value.name, task);
    }
  }

  /** `new CloudTasksQueue(name, config)`: `validateConfig` runs before
      `config` and `name` are stored, so an invalid config yields no queue. */
  method NewCloudTasksQueue(name: string, config: CloudTasksConfig) returns (r: Result<CloudTasksQueue, Error>)
    ensures r.Ok? <==> ValidateConfig(config).Ok?
    ensures r.Err? ==> r.error == ValidateConfig(config).error
    ensures r.Ok? ==> && fresh(r.value) && r.value.Valid() && r.value.name == name && r.value.config == config
                      && r.value.handlers == map[] && r.value.requests == []
  {
    var validation := ValidateConfig(config);
    if validation.Err? {
      return Err(validation.error);
    }
    var queue := new CloudTasksQueue(name, config);
    return Ok(queue);
  }
}
