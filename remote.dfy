/** What the managed Cloud Tasks service exchanges with the library: queue
    and task descriptors, the requests the client issues, and the service
    and platform collaborators, which are given as functions (their code is
    not part of this model). */
module Remote {
  import opened Js
  import opened Config

  /** `google.protobuf.Duration` as the code reads and writes it. */
  datatype GoogleDuration = GoogleDuration(seconds: Option<real>, nanos: Option<real>)

  /** `google.protobuf.Timestamp` as the code writes it. */
  datatype Timestamp = Timestamp(seconds: real)

  /** A queue's retry settings in the service's representation. */
  datatype RemoteRetryConfig = RemoteRetryConfig(
    maxAttempts: Option<real>,
    maxRetryDuration: Nullable<GoogleDuration>,
    minBackoff: Nullable<GoogleDuration>,
    maxBackoff: Nullable<GoogleDuration>,
    maxDoublings: Option<real>)

  /** The `{}` object. */
  const NoRetryConfig := RemoteRetryConfig(None, Undefined, Undefined, Undefined, None)

  /** A remote queue descriptor; `otherFields` stands for every field the
      code never touches (state, routing overrides, ...). */
  datatype QueueDescriptor = QueueDescriptor(
    name: string,
    rateLimits: Option<RateLimits>,
    retryConfig: Option<RemoteRetryConfig>,
    otherFields: map<string, Json>)

  datatype OidcToken = OidcToken(serviceAccountEmail: string)

  datatype HttpRequest = HttpRequest(
    httpMethod: string,
    url: string,
    headers: map<string, string>,
    body: string,
    oidcToken: Option<OidcToken>)

  datatype Task = Task(
    httpRequest: HttpRequest,
    dispatchDeadline: Option<GoogleDuration>,
    scheduleTime: Option<Timestamp>)

  /** One call issued to the Cloud Tasks client. */
  datatype ClientRequest =
    | GetQueueCall(queueName: string)
    | CreateQueueCall(parent: string, queue: QueueDescriptor)
    | UpdateQueueCall(updated: QueueDescriptor)
    | CreateTaskCall(taskParent: string, task: Task)

  /** The outcome of fetching (and creating or patching) a queue, with the
      client calls issued on the way, in order. */
  datatype Reconciliation = Reconciliation(result: Result<QueueDescriptor, Error>, issued: seq<ClientRequest>)

  /** The lazily created `CloudTasksClient`, identified by its options. */
  datatype ClientHandle = ClientHandle(projectId: string)

  /** The service: its path builders and the answer it gives to each call. */
  datatype Service = Service(
    queuePath: (string, string, string) -> string,
    locationPath: (string, string) -> string,
    getQueue: string -> Result<QueueDescriptor, Error>,
    createQueue: (string, QueueDescriptor) -> Result<QueueDescriptor, Error>,
    updateQueue: QueueDescriptor -> Result<QueueDescriptor, Error>,
    createTask: (string, Task) -> Result<(), Error>)

  /** Platform codecs: `new URL(path, base).href` (None when it throws),
      `JSON.stringify`, `JSON.parse` (None on a syntax error) and base64. */
  datatype Platform = Platform(
    resolveUrl: (string, string) -> Option<string>,
    stringify: Json -> string,
    parse: string -> Option<Json>,
    base64Encode: string -> string,
    base64Decode: string -> string)
}
