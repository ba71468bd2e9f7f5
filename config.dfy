/** The configuration record shared by every queue and its validation
    (`validateConfig` in lib/config.ts and its compiled copy dist/config.js). */
module Config {
  import opened Js

  datatype RateLimits = RateLimits(
    maxDispatchesPerSecond: Option<real>,
    maxBurstSize: Option<real>,
    maxConcurrentDispatches: Option<real>)

  /** The `{}` object: no rate limit declared. */
  const NoRateLimits := RateLimits(None, None, None)

  /** Retry settings; the three durations are in milliseconds. */
  datatype RetryConfig = RetryConfig(
    maxAttempts: Option<real>,
    maxRetryDuration: Option<real>,
    minBackoff: Option<real>,
    maxBackoff: Option<real>,
    maxDoublings: Option<real>)

  /** `CloudTasksConfig`. A required string that is missing or otherwise
      falsy is represented by "". */
  datatype CloudTasksConfig = CloudTasksConfig(
    handlerPath: string,
    location: string,
    project: string,
    serviceAccount: Option<string>,
    serviceUrl: string,
    rateLimits: Option<RateLimits>,
    retryConfig: Option<RetryConfig>)

  function MissingField(field: string): Error {
    CloudTasksError("Missing " + field + " on config")
  }

  /** The four required fields, named, in the order they are checked. */
  function RequiredFields(c: CloudTasksConfig): (fields: seq<(string, string)>)
    ensures |fields| == 4
  {
    [("handlerPath", c.handlerPath), ("location", c.location),
     ("project", c.project), ("serviceUrl", c.serviceUrl)]
  }

  /** Reference definition: the name of the first field whose value is
      empty, scanning the list from the front. */
  function FirstEmpty(fields: seq<(string, string)>): (r: Option<string>)
    ensures r.None? <==> forall i :: 0 <= i < |fields| ==> fields[i].1 != ""
    ensures r.Some? ==> exists i :: 0 <= i < |fields| && fields[i].0 == r.value && fields[i].1 == ""
                          && forall j :: 0 <= j < i ==> fields[j].1 != ""
  {
    if fields == [] then None
    else if fields[0].1 == "" then Some(fields[0].0)
    else
      var r := FirstEmpty(fields[1..]);
      assert forall i :: 1 <= i < |fields| ==> fields[i] == fields[1..][i - 1];
      r
  }

  /** `validateConfig`: four guards in a fixed order; throws on the first
      falsy one and has no other effect. */
  function ValidateConfig(c: CloudTasksConfig): (r: Result<(), Error>)
    ensures r.Ok? <==> c.handlerPath != "" && c.location != "" && c.project != "" && c.serviceUrl != ""
  {
    if c.handlerPath == "" then Err(MissingField("handlerPath"))
    else if c.location == "" then Err(MissingField("location"))
    else if c.project == "" then Err(MissingField("project"))
    else if c.serviceUrl == "" then Err(MissingField("serviceUrl"))
    else Ok(())
  }

  /** The error reported is the one for the first empty field in check order. */
  lemma ValidateReportsFirstEmpty(c: CloudTasksConfig)
    ensures ValidateConfig(c) == match FirstEmpty(RequiredFields(c))
                                 case None => Ok(())
                                 case Some(field) => Err(MissingField(field))
  {
    var fs := RequiredFields(c);
    assert fs[1..] == [("location", c.location), ("project", c.project), ("serviceUrl", c.serviceUrl)];
    assert fs[1..][1..] == [("project", c.project), ("serviceUrl", c.serviceUrl)];
    assert fs[1..][1..][1..] == [("serviceUrl", c.serviceUrl)];
    assert fs[1..][1..][1..][1..] == [];
    assert FirstEmpty(fs[1..][1..][1..]) == if c.serviceUrl == "" then Some("serviceUrl") else None;
    assert FirstEmpty(fs[1..][1..]) == if c.project == "" then Some("project") else FirstEmpty(fs[1..][1..][1..]);
    assert FirstEmpty(fs[1..]) == if c.location == "" then Some("location") else FirstEmpty(fs[1..][1..]);
    assert FirstEmpty(fs) == if c.handlerPath == "" then Some("handlerPath") else FirstEmpty(fs[1..]);
  }

  /** An empty handlerPath is always the error reported, whatever else is missing. */
  lemma MissingHandlerPathReportedFirst(c: CloudTasksConfig)
    requires c.handlerPath == ""
    ensures ValidateConfig(c) == Err(CloudTasksError("Missing handlerPath on config"))
  {
    assert "Missing " + "handlerPath" + " on config" == "Missing handlerPath on config";
  }

  /** The optional fields are never inspected. */
  lemma ValidationIgnoresOptionalFields(c: CloudTasksConfig, serviceAccount: Option<string>,
                                         rateLimits: Option<RateLimits>, retryConfig: Option<RetryConfig>)
    ensures ValidateConfig(c.(serviceAccount := serviceAccount, rateLimits := rateLimits, retryConfig := retryConfig))
         == ValidateConfig(c)
  {
  }
}
