/** The compiled queue (dist/queue.js): a named queue with its handler
    registry, the reconciliation of the declared rate-limit and retry
    settings against the remote queue (fetch, then update or create), and
    task submission. */
module DistQueue {
  import opened Js
  import opened Config
  import opened Remote
  import opened HandlerRegistry
  import Tasks

  // ---------------------------------------------------------------------
  // Durations and timestamps

  /** `parseGoogleDuration`: the sub-second part wins when it is set;
      otherwise whole seconds; otherwise 0. */
  function ParseGoogleDuration(d: GoogleDuration): (ms: real)
    ensures ms == 0.0 <==> !TruthyNumber(d.nanos) && !TruthyNumber(d.seconds)
    ensures TruthyNumber(d.nanos) ==> ms * 1000000.0 == d.nanos.value
    ensures !TruthyNumber(d.nanos) && TruthyNumber(d.seconds) ==> ms == d.seconds.value * 1000.0
  {
    if TruthyNumber(d.nanos) then d.nanos.value / 1000.0 / 1000.0
    else if TruthyNumber(d.seconds) then d.seconds.value * 1000.0
    else 0.0
  }

  /** `buildGoogleDuration`: milliseconds to `{seconds}`; it is read back
      exactly by `ParseGoogleDuration`. */
  function BuildGoogleDuration(milliseconds: real): (d: GoogleDuration)
    ensures d.nanos.None?
    ensures ParseGoogleDuration(d) == milliseconds
  {
    GoogleDuration(Some(milliseconds / 1000.0), None)
  }

  /** `buildGoogleTimestamp`: an instant in milliseconds since the epoch to `{seconds}`. */
  function BuildGoogleTimestamp(epochMilliseconds: real): (t: Timestamp)
    ensures t.seconds * 1000.0 == epochMilliseconds
  {
    Timestamp(epochMilliseconds / 1000.0)
  }

  /** A set sub-second part alone decides the value: the seconds are ignored. */
  lemma ParseIgnoresSecondsWhenNanosSet(seconds: Option<real>, nanos: real)
    requires nanos != 0.0
    ensures ParseGoogleDuration(GoogleDuration(seconds, Some(nanos))) * 1000000.0 == nanos
  {
  }

  /** One retry duration of the config in the service's representation. */
  function DurationField(milliseconds: Option<real>): (f: Nullable<GoogleDuration>)
    ensures f.Defined? <==> TruthyNumber(milliseconds)
    ensures f.Defined? ==> ParseGoogleDuration(f.value) == milliseconds.value
    ensures !f.Defined? ==> f.Null?
  {
    if TruthyNumber(milliseconds) then Defined(BuildGoogleDuration(milliseconds.value)) else Null
  }

  /** `buildCloudTasksQueueRetryConfig`: `{}` without declared retry settings;
      otherwise the declared settings with each duration converted to
      seconds, or `null` when it is falsy. */
  function BuildRetryConfig(c: CloudTasksConfig): (r: RemoteRetryConfig)
    ensures c.retryConfig.None? ==> r == NoRetryConfig
    ensures c.retryConfig.Some? ==>
              && r.maxAttempts == c.retryConfig.value.maxAttempts
              && r.maxDoublings == c.retryConfig.value.maxDoublings
              && r.maxRetryDuration == DurationField(c.retryConfig.value.maxRetryDuration)
              && r.minBackoff == DurationField(c.retryConfig.value.minBackoff)
              && r.maxBackoff == DurationField(c.retryConfig.value.maxBackoff)
  {
    match c.retryConfig
    case None => NoRetryConfig
    case Some(rc) =>
      RemoteRetryConfig(rc.maxAttempts, DurationField(rc.maxRetryDuration), DurationField(rc.minBackoff),
                        DurationField(rc.maxBackoff), rc.maxDoublings)
  }

  // ---------------------------------------------------------------------
  // Divergence between the declared settings and a fetched queue

  /** `declared && declared !== fetched` for a plain number. */
  predicate NumberChanged(declared: Option<real>, fetched: Option<real>) {
    TruthyNumber(declared) && declared != fetched
  }

  /** `declared && fetched && declared !== parseGoogleDuration(fetched)`. */
  predicate DurationChanged(declared: Option<real>, fetched: Nullable<GoogleDuration>) {
    TruthyNumber(declared) && fetched.Defined? && declared.value != ParseGoogleDuration(fetched.value)
  }

  function FetchedRateLimits(q: QueueDescriptor): RateLimits {
    q.rateLimits.GetOr(NoRateLimits)
  }

  function FetchedRetryConfig(q: QueueDescriptor): RemoteRetryConfig {
    q.retryConfig.GetOr(NoRetryConfig)
  }

  /** `didQueueChanged`: each truthy declared setting is compared with the
      fetched one; a duration only when the fetched queue has it. */
  function DidQueueChanged(c: CloudTasksConfig, q: QueueDescriptor): (changed: bool)
    ensures c.rateLimits.None? && c.retryConfig.None? ==> !changed
  {
    var fetchedRates := FetchedRateLimits(q);
    var fetchedRetry := FetchedRetryConfig(q);
    if c.rateLimits.Some? && (
         || NumberChanged(c.rateLimits.value.maxBurstSize, fetchedRates.maxBurstSize)
         || NumberChanged(c.rateLimits.value.maxConcurrentDispatches, fetchedRates.maxConcurrentDispatches)
         || NumberChanged(c.rateLimits.value.maxDispatchesPerSecond, fetchedRates.maxDispatchesPerSecond))
    then true
    else if c.retryConfig.Some? && (
         || NumberChanged(c.retryConfig.value.maxAttempts, fetchedRetry.maxAttempts)
         || NumberChanged(c.retryConfig.value.maxDoublings, fetchedRetry.maxDoublings)
         || DurationChanged(c.retryConfig.value.maxRetryDuration, fetchedRetry.maxRetryDuration)
         || DurationChanged(c.retryConfig.value.minBackoff, fetchedRetry.minBackoff)
         || DurationChanged(c.retryConfig.value.maxBackoff, fetchedRetry.maxBackoff))
    then true
    else false
  }

  /** The eight settings a queue can declare. */
  datatype QueueField =
    | MaxBurstSize | MaxConcurrentDispatches | MaxDispatchesPerSecond
    | MaxAttempts | MaxDoublings | MaxRetryDuration | MinBackoff | MaxBackoff

  predicate IsRateLimit(f: QueueField) {
    f.MaxBurstSize? || f.MaxConcurrentDispatches? || f.MaxDispatchesPerSecond?
  }

  predicate IsDuration(f: QueueField) {
    f.MaxRetryDuration? || f.MinBackoff? || f.MaxBackoff?
  }

  /** The declared value of a setting; undefined when its group is absent. */
  function Declared(c: CloudTasksConfig, f: QueueField): Option<real> {
    if IsRateLimit(f) then
      match c.rateLimits
      case None => None
      case Some(rl) =>
        if f.MaxBurstSize? then rl.maxBurstSize
        else if f.MaxConcurrentDispatches? then rl.maxConcurrentDispatches
        else rl.maxDispatchesPerSecond
    else
      match c.retryConfig
      case None => None
      case Some(rc) =>
        match f
        case MaxAttempts => rc.maxAttempts
        case MaxDoublings => rc.maxDoublings
        case MaxRetryDuration => rc.maxRetryDuration
        case MinBackoff => rc.minBackoff
        case _ => rc.maxBackoff
  }

  /** The fetched value of a setting that is a plain number. */
  function FetchedNumber(q: QueueDescriptor, f: QueueField): Option<real>
    requires !IsDuration(f)
  {
    match f
    case MaxBurstSize => FetchedRateLimits(q).maxBurstSize
    case MaxConcurrentDispatches => FetchedRateLimits(q).maxConcurrentDispatches
    case MaxDispatchesPerSecond => FetchedRateLimits(q).maxDispatchesPerSecond
    case MaxAttempts => FetchedRetryConfig(q).maxAttempts
    case MaxDoublings => FetchedRetryConfig(q).maxDoublings
  }

  /** The fetched value of a duration setting. */
  function FetchedDuration(q: QueueDescriptor, f: QueueField): Nullable<GoogleDuration>
    requires IsDuration(f)
  {
    match f
    case MaxRetryDuration => FetchedRetryConfig(q).maxRetryDuration
    case MinBackoff => FetchedRetryConfig(q).minBackoff
    case MaxBackoff => FetchedRetryConfig(q).maxBackoff
  }

  /** Reference definition of divergence, one setting at a time: the
      setting is declared (truthy) and the fetched queue holds something
      else for it; a duration is compared only when the queue has one. */
  predicate FieldDiverges(c: CloudTasksConfig, q: QueueDescriptor, f: QueueField) {
    var declared := Declared(c, f);
    TruthyNumber(declared) &&
    if IsDuration(f) then
      FetchedDuration(q, f).Defined? && ParseGoogleDuration(FetchedDuration(q, f).value) != declared.value
    else
      FetchedNumber(q, f) != declared
  }

  /** `didQueueChanged` holds exactly when some declared setting diverges. */
  lemma DidQueueChangedIffSomeFieldDiverges(c: CloudTasksConfig, q: QueueDescriptor)
    ensures DidQueueChanged(c, q) <==> exists f :: FieldDiverges(c, q, f)
  {
    if DidQueueChanged(c, q) {
      assert || FieldDiverges(c, q, MaxBurstSize) || FieldDiverges(c, q, MaxConcurrentDispatches)
             || FieldDiverges(c, q, MaxDispatchesPerSecond) || FieldDiverges(c, q, MaxAttempts)
             || FieldDiverges(c, q, MaxDoublings) || FieldDiverges(c, q, MaxRetryDuration)
             || FieldDiverges(c, q, MinBackoff) || FieldDiverges(c, q, MaxBackoff);
    }
    if exists f :: FieldDiverges(c, q, f) {
      var f :| FieldDiverges(c, q, f);
      match f
      case MaxBurstSize =>
      case MaxConcurrentDispatches =>
      case MaxDispatchesPerSecond =>
      case MaxAttempts =>
      case MaxDoublings =>
      case MaxRetryDuration =>
      case MinBackoff =>
      case MaxBackoff =>
    }
  }

  /** A truthy declared rate limit, `maxAttempts` or `maxDoublings` that
      differs from the fetched value forces an update. */
  lemma NumberMismatchForcesUpdate(c: CloudTasksConfig, q: QueueDescriptor, f: QueueField)
    requires !IsDuration(f) && TruthyNumber(Declared(c, f)) && FetchedNumber(q, f) != Declared(c, f)
    ensures DidQueueChanged(c, q)
  {
    DidQueueChangedIffSomeFieldDiverges(c, q);
    assert FieldDiverges(c, q, f);
  }

  /** With no setting declared truthy, the queue is never considered changed,
      whatever was fetched. */
  lemma FalsyDeclarationsNeverForceUpdate(c: CloudTasksConfig, q: QueueDescriptor)
    requires forall f :: !TruthyNumber(Declared(c, f))
    ensures !DidQueueChanged(c, q)
  {
    DidQueueChangedIffSomeFieldDiverges(c, q);
  }

  /** A duration missing from the fetched queue is never a reason to update,
      whatever is declared for it. */
  lemma MissingFetchedDurationNeverDiverges(c: CloudTasksConfig, q: QueueDescriptor, f: QueueField)
    requires IsDuration(f) && !FetchedDuration(q, f).Defined?
    ensures !FieldDiverges(c, q, f)
    ensures DidQueueChanged(c, q) ==> exists g :: g != f && FieldDiverges(c, q, g)
  {
    DidQueueChangedIffSomeFieldDiverges(c, q);
  }

  /** The `maxAttempts` example: fetched 3 against declared 5 is a change;
      fetched 5 against declared 5, with nothing else declared, is not. */
  lemma MaxAttemptsExample(q: QueueDescriptor, base: CloudTasksConfig)
    requires q.retryConfig == Some(NoRetryConfig.(maxAttempts := Some(3.0)))
    ensures DidQueueChanged(base.(rateLimits := None,
                                  retryConfig := Some(RetryConfig(Some(5.0), None, None, None, None))), q)
    ensures !DidQueueChanged(base.(rateLimits := None,
                                   retryConfig := Some(RetryConfig(Some(5.0), None, None, None, None))),
                             q.(retryConfig := Some(NoRetryConfig.(maxAttempts := Some(5.0)))))
  {
  }

  // ---------------------------------------------------------------------
  // Creating and patching the remote queue

  /** The descriptor `createQueue` sends: the queue path as name, the
      declared rate limits (or `{}`) and the converted retry settings. */
  function NewQueueDescriptor(c: CloudTasksConfig, queuePath: string): (d: QueueDescriptor)
    ensures d.name == queuePath && d.otherFields == map[]
    ensures d.rateLimits == Some(c.rateLimits.GetOr(NoRateLimits))
    ensures d.retryConfig == Some(BuildRetryConfig(c))
  {
    QueueDescriptor(queuePath, Some(c.rateLimits.GetOr(NoRateLimits)), Some(BuildRetryConfig(c)), map[])
  }

  /** A queue stored exactly as created is in sync with the config. */
  lemma CreatedQueueIsInSync(c: CloudTasksConfig, queuePath: string)
    ensures !DidQueueChanged(c, NewQueueDescriptor(c, queuePath))
  {
    var d := NewQueueDescriptor(c, queuePath);
    DidQueueChangedIffSomeFieldDiverges(c, d);
    forall f ensures !FieldDiverges(c, d, f) {
    }
  }

  /** The descriptor `updateQueue` sends: the fetched one with its retry
      settings rebuilt from the config when it had any; the rate limits
      are assigned to themselves, so they, the name and every other field
      stay as fetched. */
  function PatchQueue(c: CloudTasksConfig, q: QueueDescriptor): (p: QueueDescriptor)
    ensures p.name == q.name && p.rateLimits == q.rateLimits && p.otherFields == q.otherFields
    ensures q.retryConfig.None? ==> p == q
    ensures q.retryConfig.Some? ==> p.retryConfig == Some(BuildRetryConfig(c))
  {
    if q.retryConfig.Some? then q.(retryConfig := Some(BuildRetryConfig(c))) else q
  }

  /** When the only divergence is in the retry settings of a queue that has
      some, the patched descriptor is in sync. */
  lemma PatchFixesRetryDivergence(c: CloudTasksConfig, q: QueueDescriptor)
    requires q.retryConfig.Some?
    requires forall f :: IsRateLimit(f) ==> !FieldDiverges(c, q, f)
    ensures !DidQueueChanged(c, PatchQueue(c, q))
  {
    var p := PatchQueue(c, q);
    DidQueueChangedIffSomeFieldDiverges(c, p);
    forall f ensures !FieldDiverges(c, p, f) {
      if IsRateLimit(f) {
        assert !FieldDiverges(c, q, f);
      }
    }
  }

  /** A diverging rate limit survives the patch: the update leaves the
      queue as changed as before. */
  lemma PatchKeepsRateLimitDivergence(c: CloudTasksConfig, q: QueueDescriptor, f: QueueField)
    requires IsRateLimit(f) && FieldDiverges(c, q, f)
    ensures DidQueueChanged(c, PatchQueue(c, q))
  {
    var p := PatchQueue(c, q);
    assert FieldDiverges(c, p, f);
    DidQueueChangedIffSomeFieldDiverges(c, p);
  }

  /** The update evidently intended: the fetched queue with the declared
      rate limits (or `{}`) and the declared retry settings written over
      it, whatever it held before; the name and every other field stay. */
  function SyncedPatch(c: CloudTasksConfig, q: QueueDescriptor): (p: QueueDescriptor)
    ensures p.name == q.name && p.otherFields == q.otherFields
    ensures !DidQueueChanged(c, p)
  {
    var p := q.(rateLimits := Some(c.rateLimits.GetOr(NoRateLimits)), retryConfig := Some(BuildRetryConfig(c)));
    SyncedPatchIsInSync(c, q);
    p
  }

  /** The intended update always brings the queue in sync with the config. */
  lemma SyncedPatchIsInSync(c: CloudTasksConfig, q: QueueDescriptor)
    ensures !DidQueueChanged(c, q.(rateLimits := Some(c.rateLimits.GetOr(NoRateLimits)), retryConfig := Some(BuildRetryConfig(c))))
  {
    var p := q.(rateLimits := Some(c.rateLimits.GetOr(NoRateLimits)), retryConfig := Some(BuildRetryConfig(c)));
    DidQueueChangedIffSomeFieldDiverges(c, p);
    forall f ensures !FieldDiverges(c, p, f) {
    }
  }

  /** Counterexample for the update as written: a fetched queue without
      retry settings, against a declared `maxAttempts` of 5, is sent back
      unchanged and is still out of sync afterwards; the intended update
      brings it in sync. */
  lemma PatchAsWrittenCanLeaveQueueChanged(q: QueueDescriptor, base: CloudTasksConfig)
    requires q.retryConfig.None?
    ensures var c := base.(rateLimits := None, retryConfig := Some(RetryConfig(Some(5.0), None, None, None, None)));
            && DidQueueChanged(c, q)
            && PatchQueue(c, q) == q
            && DidQueueChanged(c, PatchQueue(c, q))
            && !DidQueueChanged(c, SyncedPatch(c, q))
  {
  }

  // ---------------------------------------------------------------------
  // Reconciliation and the task descriptor

  /** `getCloudTaskQueue` with `updateQueue` and `createQueue`: fetch the
      queue; when fetched, update it if it changed; when the fetch fails
      for any reason, create it. */
  function Reconcile(c: CloudTasksConfig, name: string, service: Service): (rec: Reconciliation)
    ensures |rec.issued| >= 1 && rec.issued[0] == GetQueueCall(service.queuePath(c.project, c.location, name))
  {
    var queuePath := service.queuePath(c.project, c.location, name);
    match service.getQueue(queuePath)
    case Ok(q) =>
      if !DidQueueChanged(c, q) then Reconciliation(Ok(q), [GetQueueCall(queuePath)])
      else
        var patched := PatchQueue(c, q);
        Reconciliation(service.updateQueue(patched), [GetQueueCall(queuePath), UpdateQueueCall(patched)])
    case Err(_) =>
      var locationPath := service.locationPath(c.project, c.location);
      var created := NewQueueDescriptor(c, queuePath);
      Reconciliation(service.createQueue(locationPath, created), [GetQueueCall(queuePath), CreateQueueCall(locationPath, created)])
  }

  /** A fetched queue that has not changed is returned as fetched, and no
      update is issued. */
  lemma UnchangedQueueReturnedAsFetched(c: CloudTasksConfig, name: string, service: Service)
    requires service.getQueue(service.queuePath(c.project, c.location, name)).Ok?
    requires !DidQueueChanged(c, service.getQueue(service.queuePath(c.project, c.location, name)).value)
    ensures Reconcile(c, name, service).result == service.getQueue(service.queuePath(c.project, c.location, name))
    ensures forall i :: 0 <= i < |Reconcile(c, name, service).issued| ==> !Reconcile(c, name, service).issued[i].UpdateQueueCall?
  {
  }

  /** A fetched queue that changed is sent back patched, under its own name. */
  lemma ChangedQueueIsPatched(c: CloudTasksConfig, name: string, service: Service)
    requires service.getQueue(service.queuePath(c.project, c.location, name)).Ok?
    requires DidQueueChanged(c, service.getQueue(service.queuePath(c.project, c.location, name)).value)
    ensures var queuePath := service.queuePath(c.project, c.location, name);
            var q := service.getQueue(queuePath).value;
            && Reconcile(c, name, service).issued == [GetQueueCall(queuePath), UpdateQueueCall(PatchQueue(c, q))]
            && Reconcile(c, name, service).result == service.updateQueue(PatchQueue(c, q))
            && PatchQueue(c, q).name == q.name
  {
  }

  /** Any failed fetch, not only a missing queue, leads to a creation under
      the location path with the queue path as name. */
  lemma AnyFetchFailureCreatesQueue(c: CloudTasksConfig, name: string, service: Service)
    requires service.getQueue(service.queuePath(c.project, c.location, name)).Err?
    ensures var rec := Reconcile(c, name, service);
            |rec.issued| == 2 && rec.issued[1].CreateQueueCall?
            && rec.issued[1].parent == service.locationPath(c.project, c.location)
            && rec.issued[1].queue.name == service.queuePath(c.project, c.location, name)
            && rec.result == service.createQueue(rec.issued[1].parent, rec.issued[1].queue)
  {
  }

  /** The task `addTask` submits: the HTTP callback, a dispatch deadline
      when one is given (and non-zero) and a schedule time when a date is given. */
  function BuildTask(c: CloudTasksConfig, url: string, handlerId: string, args: seq<Json>,
                     dispatchDeadline: Option<real>, scheduleTime: Option<real>, platform: Platform): (t: Task)
    ensures t.httpRequest == Tasks.BuildHttpRequest(c, url, handlerId, args, platform)
    ensures t.dispatchDeadline.Some? <==> TruthyNumber(dispatchDeadline)
    ensures t.dispatchDeadline.Some? ==> ParseGoogleDuration(t.dispatchDeadline.value) == dispatchDeadline.value
    ensures t.scheduleTime.Some? <==> scheduleTime.Some?
    ensures t.scheduleTime.Some? ==> t.scheduleTime.value.seconds * 1000.0 == scheduleTime.value
  {
    Task(Tasks.BuildHttpRequest(c, url, handlerId, args, platform),
         if TruthyNumber(dispatchDeadline) then Some(BuildGoogleDuration(dispatchDeadline.value)) else None,
         if scheduleTime.Some? then Some(BuildGoogleTimestamp(scheduleTime.value)) else None)
  }

  // ---------------------------------------------------------------------
  // The queue object

  class CloudTasksQueue {
    const name: string
    const config: CloudTasksConfig
    var handlers: Registry
    var client: Option<ClientHandle>
    /** The calls issued to the Cloud Tasks client so far, oldest first. */
    var requests: seq<ClientRequest>

    ghost predicate Valid()
      reads this
    {
      ValidateConfig(config).Ok? && (client.Some? ==> client.value == ClientHandle(config.project))
    }

    /** The part of the constructor after `validateConfig` has passed. */
    constructor (name: string, config: CloudTasksConfig)
      requires ValidateConfig(config).Ok?
      ensures Valid() && this.name == name && this.config == config
      ensures handlers == map[] && client == None && requests == []
    {
      this.name := name;
      this.config := config;
      handlers := map[];
      client := None;
      requests := [];
    }

    method AddHandler(handlerId: string, handler: Handler)
      modifies this`handlers
      ensures handlers == Register(old(handlers), handlerId, handler)
    {
      handlers := handlers[handlerId := handler];
    }

    method GetHandler(id: string) returns (r: Result<Handler, Error>)
      ensures r.Ok? <==> id in handlers
      ensures r.Ok? ==> r.value == handlers[id]
      ensures r.Err? ==> r.error == HandlerNotFound(id)
    {
      r := Resolve(handlers, id);
    }

    /** The `cloudTasksClient` getter: created on first use, then reused. */
    method CloudTasksClient() returns (handle: ClientHandle)
      requires Valid()
      modifies this`client
      ensures Valid() && client == Some(handle) && handle == ClientHandle(config.project)
      ensures old(client).Some? ==> client == old(client)
    {
      if client.Some? {
        return client.value;
      }
      handle := ClientHandle(config.project);
      client := Some(handle);
    }

    method UpdateQueue(service: Service, queue: QueueDescriptor) returns (r: Result<QueueDescriptor, Error>)
      requires Valid()
      modifies this`client, this`requests
      ensures Valid() && (old(client).Some? ==> client == old(client))
      ensures !DidQueueChanged(config, queue) ==> r == Ok(queue) && requests == old(requests)
      ensures DidQueueChanged(config, queue) ==>
                && r == service.updateQueue(PatchQueue(config, queue))
                && requests == old(requests) + [UpdateQueueCall(PatchQueue(config, queue))]
    {
      if !DidQueueChanged(config, queue) {
        return Ok(queue);
      }
      var rateLimits, retryConfig := queue.rateLimits, queue.retryConfig;
      var patched := queue;
      if rateLimits.Some? {
        patched := patched.(rateLimits := rateLimits);
      }
      if retryConfig.Some? {
        patched := patched.(retryConfig := Some(BuildRetryConfig(config)));
      }
      var _ := CloudTasksClient();
      requests := requests + [UpdateQueueCall(patched)];
      r := service.updateQueue(patched);
    }

    method CreateQueue(service: Service) returns (r: Result<QueueDescriptor, Error>)
      requires Valid()
      modifies this`client, this`requests
      ensures Valid() && client == Some(ClientHandle(config.project))
      ensures var queuePath := service.queuePath(config.project, config.location, name);
              var locationPath := service.locationPath(config.project, config.location);
              && r == service.createQueue(locationPath, NewQueueDescriptor(config, queuePath))
              && requests == old(requests) + [CreateQueueCall(locationPath, NewQueueDescriptor(config, queuePath))]
    {
      var _ := CloudTasksClient();
      var queuePath := service.queuePath(config.project, config.location, name);
      var locationPath := service.locationPath(config.project, config.location);
      var queue := QueueDescriptor(queuePath, Some(config.rateLimits.GetOr(NoRateLimits)),
                                   Some(BuildRetryConfig(config)), map[]);
      requests := requests + [CreateQueueCall(locationPath, queue)];
      r := service.createQueue(locationPath, queue);
    }

    method GetCloudTaskQueue(service: Service) returns (r: Result<QueueDescriptor, Error>)
      requires Valid()
      modifies this`client, this`requests
      ensures Valid() && client == Some(ClientHandle(config.project))
      ensures r == Reconcile(config, name, service).result
      ensures requests == old(requests) + Reconcile(config, name, service).issued
    {
      var _ := CloudTasksClient();
      var queuePath := service.queuePath(config.project, config.location, name);
      requests := requests + [GetQueueCall(queuePath)];
      var response := service.getQueue(queuePath);
      if response.Ok? {
        r := UpdateQueue(service, response.value);
      } else {
        r := CreateQueue(service);
      }
    }

    method AddTask(service: Service, platform: Platform, handlerId: string, args: seq<Json>,
                   dispatchDeadline: Option<real>, scheduleTime: Option<real>) returns (r: Result<(), Error>)
      requires Valid()
      modifies this`client, this`requests
      ensures Valid()
      ensures var rec := Reconcile(config, name, service);
              var url := platform.resolveUrl(config.handlerPath, config.serviceUrl);
              if rec.result.Err? then r == Err(rec.result.error) && requests == old(requests) + rec.issued
              else if url.None? then r == Err(InvalidUrl) && requests == old(requests) + rec.issued
              else
                var task := BuildTask(config, url.value, handlerId, args, dispatchDeadline, scheduleTime, platform);
                && r == service.createTask(rec.result.value.name, task)
                && requests == old(requests) + rec.issued + [CreateTaskCall(rec.result.value.name, task)]
    {
      var queue := GetCloudTaskQueue(service);
      if queue.Err? {
        return Err(queue.error);
      }
      var url := platform.resolveUrl(config.handlerPath, config.serviceUrl);
      if url.None? {
        return Err(InvalidUrl);
      }
      var httpRequest := Tasks.BuildHttpRequest(config, url.value, handlerId, args, platform);
      var task := Task(httpRequest,
                       if TruthyNumber(dispatchDeadline) then Some(BuildGoogleDuration(dispatchDeadline.value)) else None,
                       if scheduleTime.Some? then Some(BuildGoogleTimestamp(scheduleTime.value)) else None);
      requests := requests + [CreateTaskCall(queue.value.name, task)];
      r := service.createTask(queue.value.name, task);
    }
  }

  /** `new CloudTasksQueue(name, config)`: throws when the config is invalid. */
  method NewCloudTasksQueue(name: string, config: CloudTasksConfig) returns (r: Result<CloudTasksQueue, Error>)
    ensures r.Ok? <==> ValidateConfig(config).Ok?
    ensures r.Err? ==> r.error == ValidateConfig(config).error
    ensures r.Ok? ==> && fresh(r.value) && r.value.Valid() && r.value.name == name && r.value.config == config
                      && r.value.handlers == map[] && r.value.requests == []
  {
    var validation := ValidateConfig(config);
    if validation.Err? {
      return Err(validation.error);
    }
    var queue := new CloudTasksQueue(name, config);
    return Ok(queue);
  }
}
