/** What the three context-restoring interceptors share: the requests and
    responses they see at the downloader, their settings check, and the
    Python arithmetic they do on counters kept in request meta. */
module RestoreBase {
  import opened Common
  import opened Json
  import opened Actions
  import opened Request
  import opened Response
  import opened Service

  /** A request seen at the downloader: one sent to the service for a
      Puppeteer request (its meta then holds that request), or any other. */
  datatype Sent = ServiceRequest(request: ActionRequest) | OtherRequest(meta: map<string, Json>)

  /** `request.meta.get("puppeteer_request")`. */
  function PuppeteerOf(s: Sent): Option<PuppeteerRequest> {
    if s.ServiceRequest? then Some(s.request.puppeteerRequest) else None
  }

  /** A response seen at the downloader: one the service middleware formed,
      or a raw one with its status and its text parsed as JSON (None when the
      text is not JSON). */
  datatype Received = PuppeteerReply(response: PuppeteerResponse) | RawReply(status: int, text: Option<Json>)

  /** What `process_response` returns: the response it was given, a request
      to send again, a Puppeteer request to schedule, or an exception. */
  datatype Returned = KeepResponse | Resend(request: ActionRequest) | Reschedule(puppeteerRequest: PuppeteerRequest) | Raised(error: Error)

  const UnprocessableEntity := 422

  /** Whether a response's request was marked as the first of a sequence. */
  predicate Binding(s: Sent) {
    s.ServiceRequest? && Truthy(Get(s.request.puppeteerRequest.meta, "__request_binding"))
  }

  /** The registries are keyed by the context id as the reply carries it,
      so that the id parsed from an error body finds the same entry. */
  function ContextKey(resp: PuppeteerResponse): Json {
    IdJson(resp.contextId)
  }

  /** `json.loads(response.text).get("contextId")`. */
  function ParsedContextId(text: Option<Json>): (r: Result<Json>)
    ensures r.Ok? <==> text.Some? && text.value.Obj?
    ensures r.Ok? ==> r.value == Get(text.value.fields, "contextId")
  {
    match text
    case None => Err(ValueError("Expecting value"))
    case Some(Obj(fields)) => Ok(Get(fields, "contextId"))
    case Some(_) => Err(AttributeError("get"))
  }

  /** An integer setting with default 1 (N_RECOVERY, RESTORING_LENGTH,
      N_RETRY_RESTORING): anything but an int (a bool counts,
      as in Python) is a TypeError, an int below 1 a ValueError. */
  function PositiveSetting(name: string, value: Option<Json>): (r: Result<int>)
    ensures value.None? ==> r == Ok(1)
    ensures r.Ok? <==> value.None? || (value.value.Int? && value.value.i >= 1) || value.value == Bool(true)
    ensures r.Ok? ==> r.value >= 1
    ensures r.Err? ==> (r.error.TypeError? <==> !(value.value.Int? || value.value.Bool?))
  {
    var v := value.GetOr(Int(1));
    var n := if v.Bool? then (if v.b then 1 else 0) else if v.Int? then v.i else 0;
    if !(v.Int? || v.Bool?) then Err(TypeError("`" + name + "` must be an integer"))
    else if n < 1 then Err(ValueError("`" + name + "` must be greater than or equal to 1"))
    else Ok(n)
  }

  /** The settings of the two context-restoring interceptors. */
  datatype RestoreConfig = RestoreConfig(restoringLength: int, nRetry: int)

  /** `from_crawler` of both interceptors: the two settings default to 1 and must be ints of at
      least 1; the length setting is checked first. */
  function FromCrawler(restoringLength: Option<Json>, nRetry: Option<Json>): (r: Result<RestoreConfig>)
    ensures r.Ok? <==> PositiveSetting("RESTORING_LENGTH", restoringLength).Ok? && PositiveSetting("N_RETRY_RESTORING", nRetry).Ok?
    ensures r.Ok? ==> r.value.restoringLength >= 1 && r.value.nRetry >= 1
    ensures PositiveSetting("RESTORING_LENGTH", restoringLength).Err? ==> r == Err(PositiveSetting("RESTORING_LENGTH", restoringLength).error)
  {
    var length :- PositiveSetting("RESTORING_LENGTH", restoringLength);
    var retry :- PositiveSetting("N_RETRY_RESTORING", nRetry);
    Ok(RestoreConfig(length, retry))
  }


  /** Python numbers among JSON values: bools are ints. */
  predicate Numeric(j: Json) {
    j.Int? || j.Bool? || j.Float?
  }

  function AsReal(j: Json): real
    requires Numeric(j)
  {
    match j
    case Int(i) => i as real
    case Bool(b) => if b then 1.0 else 0.0
    case Float(f) => f
  }

  /** `j < n`, a TypeError for a value that is not a number. */
  function Less(j: Json, n: int): (r: Result<bool>)
    ensures r.Ok? <==> Numeric(j)
    ensures j.Int? ==> r == Ok(j.i < n)
  {
    if Numeric(j) then Ok(AsReal(j) < n as real) else Err(TypeError("'<' not supported"))
  }

  /** `j + 1`, a TypeError for a value that is not a number. */
  function Incremented(j: Json): (r: Result<Json>)
    ensures r.Ok? <==> Numeric(j)
    ensures r.Ok? ==> Numeric(r.value) && AsReal(r.value) == AsReal(j) + 1.0
    ensures j.Int? ==> r == Ok(Int(j.i + 1))
  {
    match j
    case Int(i) => Ok(Int(i + 1))
    case Bool(b) => Ok(Int(if b then 2 else 1))
    case Float(f) => Ok(Float(f + 1.0))
    case _ => Err(TypeError("unsupported operand type(s) for +="))
  }

  /** `meta[key] += 1`: a KeyError when the key is missing. */
  function IncrementKey(meta: map<string, Json>, key: string): (r: Result<map<string, Json>>)
    ensures key !in meta ==> r == Err(KeyError(key))
    ensures key in meta && Numeric(meta[key]) ==> r.Ok?
    ensures r.Ok? ==>
      (key in meta && r.value.Keys == meta.Keys &&
       Incremented(meta[key]).Ok? && r.value[key] == Incremented(meta[key]).value &&
       forall k :: k in meta && k != key ==> r.value[k] == meta[k])
  {
    if key !in meta then Err(KeyError(key))
    else
      var v :- Incremented(meta[key]);
      Ok(meta[key := v])
  }

  /** `meta[key] = meta.get(key, 0) + 1`, the corrected increment of
      the retry paths, which start a missing count from 0. */
  function IncrementOrStart(meta: map<string, Json>, key: string): (r: Result<map<string, Json>>)
    ensures key !in meta ==> r == Ok(meta[key := Int(1)])
    ensures key in meta ==> r == IncrementKey(meta, key)
  {
    if key !in meta then Ok(meta[key := Int(1)]) else IncrementKey(meta, key)
  }

  /** `request.meta.pop("recover_context", False)`: the flag, and the meta
      without it. */
  function PopRecover(meta: map<string, Json>): (r: (bool, map<string, Json>))
    ensures r.0 == Truthy(Get(meta, "recover_context"))
    ensures r.1 == meta - {"recover_context"}
  {
    (Truthy(Get(meta, "recover_context")), meta - {"recover_context"})
  }
}
