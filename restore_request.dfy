/** The context-restoring interceptor of scrapypuppeteer/middleware/restore.py.
    The first service request of a marked sequence is kept under the context
    the service opened for it, and the number of responses seen in that
    context is counted. When a later step fails with 422 (the context is
    gone), the kept request is sent again so that a new context is built. */
module RequestRestore {
  import opened Common
  import opened Json
  import opened Actions
  import opened Request
  import opened Response
  import opened Service
  import opened RestoreBase

  /** `process_request`: a request asking for restoring loses the flag; it
      must start a sequence (no context or page yet), and is then marked as
      binding and exempt from duplicate filtering. */
  function MarkRequest(r: PuppeteerRequest): (res: Result<PuppeteerRequest>)
    ensures !Truthy(Get(r.meta, "recover_context")) ==> res == Ok(r.(meta := r.meta - {"recover_context"}))
    ensures Truthy(Get(r.meta, "recover_context")) ==>
      (res.Err? <==> TruthyId(r.contextId) || TruthyId(r.pageId)) &&
      (res.Err? ==> res.error.IgnoreRequest?) &&
      (res.Ok? ==> res.value == r.(meta := (r.meta - {"recover_context"})["__request_binding" := Bool(true)], dontFilter := true))
  {
    var (recover, meta) := PopRecover(r.meta);
    if !recover then Ok(r.(meta := meta))
    else if TruthyId(r.contextId) || TruthyId(r.pageId) then
      Err(IgnoreRequest("Request is not in the beginning of the request-response sequence"))
    else Ok(r.(meta := meta["__request_binding" := Bool(true)], dontFilter := true))
  }

  /** The kept first request of each context and the number of responses
      seen in it. */
  datatype RestoreState = RestoreState(requests: map<Json, ActionRequest>, length: map<Json, int>)

  const Empty := RestoreState(map[], map[])

  /** Both registries always track the same contexts. */
  predicate Valid(st: RestoreState) {
    st.requests.Keys == st.length.Keys
  }

  /** `__delete_context`: forget a context in both registries. */
  function DeleteContext(st: RestoreState, key: Json): (r: (RestoreState, Option<Error>))
    ensures key in st.length && key in st.requests ==>
      r == (RestoreState(st.requests - {key}, st.length - {key}), None)
    ensures Valid(st) ==> (r.1.Some? <==> key !in st.requests) && Valid(r.0)
    ensures r.1.Some? ==> r.1.value == KeyError("context_id")
  {
    if key !in st.length then (st, Some(KeyError("context_id")))
    else
      var length := st.length - {key};
      if key !in st.requests then (st.(length := length), Some(KeyError("context_id")))
      else (RestoreState(st.requests - {key}, length), None)
  }

  /** The copy of the binding request that is kept: its restore count is
      kept (0 if it had none) and it remembers its context. */
  function Restoring(ar: ActionRequest, resp: PuppeteerResponse): (k: ActionRequest)
    ensures k == ar.(meta := k.meta)
    ensures k.meta.Keys == ar.meta.Keys + {"__restore_count", "__context_id"}
    ensures k.meta["__restore_count"] == GetOr(ar.meta, "__restore_count", Int(0))
    ensures k.meta["__context_id"] == ContextKey(resp)
    ensures forall m :: m in ar.meta && m != "__restore_count" && m != "__context_id" ==> k.meta[m] == ar.meta[m]
  {
    ar.(meta := ar.meta["__restore_count" := GetOr(ar.meta, "__restore_count", Int(0))]["__context_id" := ContextKey(resp)])
  }

  /** `_bind_context`: the kept request for the context the response opened,
      with length 0, after forgetting the context the request was kept under
      before, if any. */
  function BindContext(st: RestoreState, ar: ActionRequest, resp: PuppeteerResponse): (r: (RestoreState, Option<Error>))
    ensures Get(ar.meta, "__context_id") == Null ==>
      r == (RestoreState(st.requests[ContextKey(resp) := Restoring(ar, resp)], st.length[ContextKey(resp) := 0]), None)
    ensures var prior := Get(ar.meta, "__context_id");
      prior != Null && DeleteContext(st, prior).1.None? ==>
        var st1 := DeleteContext(st, prior).0;
        r == (RestoreState(st1.requests[ContextKey(resp) := Restoring(ar, resp)], st1.length[ContextKey(resp) := 0]), None)
    ensures var prior := Get(ar.meta, "__context_id");
      prior != Null && DeleteContext(st, prior).1.Some? ==> r == DeleteContext(st, prior)
    ensures Valid(st) ==> Valid(r.0)
  {
    var prior := Get(ar.meta, "__context_id");
    var (st1, err) := if prior != Null then DeleteContext(st, prior) else (st, None);
    if err.Some? then (st1, err)
    else
      var key := ContextKey(resp);
      (RestoreState(st1.requests[key := Restoring(ar, resp)], st1.length[key := 0]), None)
  }

  /** `_restore_context`: the context named in the error body is restored by
      sending its kept request again, unless the context saw too many
      responses or its request was retried too often, and then it is
      forgotten. Unknown contexts are left alone. */
  function RestoreContext(st: RestoreState, cfg: RestoreConfig, text: Option<Json>): (r: (Returned, RestoreState))
    ensures ParsedContextId(text).Err? ==> r == (Raised(ParsedContextId(text).error), st)
    ensures Valid(st) ==> Valid(r.1)
    ensures Valid(st) && ParsedContextId(text).Ok? ==>
      var key := ParsedContextId(text).value;
      (key !in st.requests ==> r == (KeepResponse, st)) &&
      (key in st.requests && st.length[key] >= cfg.restoringLength + 1 ==>
        r == (KeepResponse, DeleteContext(st, key).0)) &&
      (key in st.requests && st.length[key] < cfg.restoringLength + 1 ==>
        var kept := st.requests[key];
        ("__restore_count" !in kept.meta ==> r == (Raised(KeyError("__restore_count")), st)) &&
        ("__restore_count" in kept.meta && Less(kept.meta["__restore_count"], cfg.nRetry) == Ok(false) ==>
          r == (KeepResponse, DeleteContext(st, key).0)) &&
        ("__restore_count" in kept.meta && Less(kept.meta["__restore_count"], cfg.nRetry) == Ok(true) ==>
          var again := kept.(meta := IncrementKey(kept.meta, "__restore_count").value);
          r == (Resend(again), RestoreState(st.requests[key := again], st.length[key := 1]))))
  {
    match ParsedContextId(text)
    case Err(e) => (Raised(e), st)
    case Ok(key) =>
      if key !in st.requests then (KeepResponse, st)
      else if key !in st.length then (Raised(KeyError("context_id")), st)
      else
        var kept := st.requests[key];
        if st.length[key] >= cfg.restoringLength + 1 then
          (KeepResponse, DeleteContext(st, key).0)
        else if "__restore_count" !in kept.meta then (Raised(KeyError("__restore_count")), st)
        else
          match Less(kept.meta["__restore_count"], cfg.nRetry)
          case Err(e) => (Raised(e), st)
          case Ok(below) =>
            if !below then (KeepResponse, DeleteContext(st, key).0)
            else
              var again := kept.(meta := IncrementKey(kept.meta, "__restore_count").value);
              (Resend(again), RestoreState(st.requests[key := again], st.length[key := 1]))
  }

  /** The retry of a binding request that got no context. `startCount`
      selects the corrected increment from 0 over the code's
      `+= 1` on a key that may be missing. */
  function RetryBinding(ar: ActionRequest, cfg: RestoreConfig, startCount: bool): Returned {
    match Less(GetOr(ar.meta, "__restore_count", Int(0)), cfg.nRetry)
    case Err(e) => Raised(e)
    case Ok(below) =>
      if !below then KeepResponse
      else
        var meta := if startCount then IncrementOrStart(ar.meta, "__restore_count") else IncrementKey(ar.meta, "__restore_count");
        if meta.Err? then Raised(meta.error) else Resend(ar.(meta := meta.value))
  }

  /** `process_response`. */
  function ResponseStepWith(st: RestoreState, cfg: RestoreConfig, sent: Sent, received: Received, startCount: bool): (r: (Returned, RestoreState))
  {
    match received
    case PuppeteerReply(resp) =>
      var (st1, err) := if Binding(sent) then BindContext(st, sent.request, resp) else (st, None);
      if err.Some? then (Raised(err.value), st1)
      else
        var key := ContextKey(resp);
        (KeepResponse, if key in st1.length then st1.(length := st1.length[key := st1.length[key] + 1]) else st1)
    case RawReply(status, text) =>
      if PuppeteerOf(sent).Some? && status == UnprocessableEntity then
        if Binding(sent) then (RetryBinding(sent.request, cfg, startCount), st)
        else RestoreContext(st, cfg, text)
      else (KeepResponse, st)
  }


  /** `process_response` with the retry counted from 0. Formed responses of
      a tracked context count one more response (the binding response
      included, after binding its request); a 422 on a binding request is
      sent again with its count incremented while the count is below the
      retry limit; a 422 on any other service request restores the context
      its body names; any other response is handed on and changes
      nothing. */
  function ResponseStep(st: RestoreState, cfg: RestoreConfig, sent: Sent, received: Received): (r: (Returned, RestoreState))
    ensures Valid(st) ==> Valid(r.1)
    ensures received.PuppeteerReply? && !Binding(sent) ==>
      var key := ContextKey(received.response);
      r.0 == KeepResponse && r.1.requests == st.requests &&
      r.1.length == if key in st.length then st.length[key := st.length[key] + 1] else st.length
    ensures received.PuppeteerReply? && Binding(sent) && Get(sent.request.meta, "__context_id") == Null ==>
      var key := ContextKey(received.response);
      r == (KeepResponse, RestoreState(st.requests[key := Restoring(sent.request, received.response)], st.length[key := 1]))
    ensures received.PuppeteerReply? && Binding(sent) && BindContext(st, sent.request, received.response).1.Some? ==>
      r == (Raised(BindContext(st, sent.request, received.response).1.value), BindContext(st, sent.request, received.response).0)
    ensures received.PuppeteerReply? && Binding(sent) && BindContext(st, sent.request, received.response).1.None? ==>
      var st1 := BindContext(st, sent.request, received.response).0;
      r == (KeepResponse, st1.(length := st1.length[ContextKey(received.response) := 1]))
    ensures received.RawReply? && PuppeteerOf(sent).Some? && !Binding(sent) && received.status == UnprocessableEntity ==>
      r == RestoreContext(st, cfg, received.text)
    ensures received.RawReply? && Binding(sent) && received.status == UnprocessableEntity ==>
      var count := GetOr(sent.request.meta, "__restore_count", Int(0));
      r.1 == st &&
      (count.Int? ==>
        (count.i < cfg.nRetry ==> r.0 == Resend(sent.request.(meta := sent.request.meta["__restore_count" := Int(count.i + 1)]))) &&
        (count.i >= cfg.nRetry ==> r.0 == KeepResponse))
    ensures received.RawReply? && (PuppeteerOf(sent).None? || received.status != UnprocessableEntity) ==> r == (KeepResponse, st)
  {
    assert received.PuppeteerReply? ==>
      st.length[ContextKey(received.response) := 0][ContextKey(received.response) := 1] == st.length[ContextKey(received.response) := 1];
    ResponseStepWith(st, cfg, sent, received, true)
  }

  /** As written, the first retry of a binding request that got no context
      raises: the service request's meta has no restore count, and `+= 1`
      on a missing key is a KeyError. */
  lemma FirstRetryRaises(cfg: RestoreConfig, ar: ActionRequest)
    requires cfg.nRetry >= 1
    requires ar.meta == ServiceMeta && ar.puppeteerRequest.meta == map["__request_binding" := Bool(true)]
    ensures ResponseStepWith(Empty, cfg, ServiceRequest(ar), RawReply(422, None), false) ==
      (Raised(KeyError("__restore_count")), Empty)
  {
    assert Binding(ServiceRequest(ar));
  }

  /** Counted from 0, the same retry sends the request again with count 1. */
  lemma FirstRetryResends(cfg: RestoreConfig, ar: ActionRequest)
    requires cfg.nRetry >= 1
    requires ar.meta == ServiceMeta && ar.puppeteerRequest.meta == map["__request_binding" := Bool(true)]
    ensures ResponseStep(Empty, cfg, ServiceRequest(ar), RawReply(422, None)) ==
      (Resend(ar.(meta := ServiceMeta["__restore_count" := Int(1)])), Empty)
  {
    assert Binding(ServiceRequest(ar));
  }

  /** Restoring bounds the retries: a context restored again and again is
      forgotten once the kept request's count reaches the limit. */
  lemma {:induction false} RestoreBounded(st: RestoreState, cfg: RestoreConfig, key: Json, k: nat)
    requires Valid(st) && key in st.requests && st.length[key] < cfg.restoringLength + 1
    requires cfg.restoringLength >= 1
    requires st.requests[key].meta.Keys >= {"__restore_count"}
    requires st.requests[key].meta["__restore_count"] == Int(cfg.nRetry - k)
    ensures RestoreRounds(st, cfg, key, k + 1).0 == KeepResponse
    ensures key !in RestoreRounds(st, cfg, key, k + 1).1.requests
    decreases k
  {
    var text := Some(Obj(map["contextId" := key]));
    assert ParsedContextId(text) == Ok(key);
    var kept := st.requests[key];
    if k == 0 {
      assert Less(kept.meta["__restore_count"], cfg.nRetry) == Ok(false);
      assert RestoreRounds(st, cfg, key, 1) == RestoreContext(st, cfg, text);
    } else {
      assert Less(kept.meta["__restore_count"], cfg.nRetry) == Ok(true);
      var again := kept.(meta := IncrementKey(kept.meta, "__restore_count").value);
      var st1 := RestoreState(st.requests[key := again], st.length[key := 1]);
      assert RestoreContext(st, cfg, text) == (Resend(again), st1);
      assert again.meta["__restore_count"] == Int(cfg.nRetry - (k - 1));
      RestoreBounded(st1, cfg, key, k - 1);
    }
  }

  /** `n` consecutive 422 replies naming the same context, each answered by
      `RestoreContext`; the outcome of the last one. */
  function RestoreRounds(st: RestoreState, cfg: RestoreConfig, key: Json, n: nat): (Returned, RestoreState)
    decreases n
  {
    var text := Some(Obj(map["contextId" := key]));
    var (out, st1) := RestoreContext(st, cfg, text);
    if n <= 1 then (out, st1) else RestoreRounds(st1, cfg, key, n - 1)
  }

  // ---------------------------------------------------------------------
  // The middleware object

  class RequestRestoreMiddleware {
    const config: RestoreConfig
    var contextRequests: map<Json, ActionRequest>
    var contextLength: map<Json, int>

    function State(): RestoreState
      reads this
    {
      RestoreState(contextRequests, contextLength)
    }

    constructor(config: RestoreConfig)
      ensures this.config == config && State() == Empty
    {
      this.config := config;
      contextRequests := map[];
      contextLength := map[];
    }

    method DeleteContextNow(key: Json) returns (err: Option<Error>)
      modifies this
      ensures (State(), err) == DeleteContext(old(State()), key)
    {
      if key !in contextLength {
        return Some(KeyError("context_id"));
      }
      contextLength := contextLength - {key};
      if key !in contextRequests {
        return Some(KeyError("context_id"));
      }
      contextRequests := contextRequests - {key};
      err := None;
    }

    method Bind(ar: ActionRequest, resp: PuppeteerResponse) returns (err: Option<Error>)
      modifies this
      ensures (State(), err) == BindContext(old(State()), ar, resp)
    {
      var prior := Get(ar.meta, "__context_id");
      if prior != Null {
        err := DeleteContextNow(prior);
        if err.Some? {
          return;
        }
      }
      var key := ContextKey(resp);
      contextRequests := contextRequests[key := Restoring(ar, resp)];
      contextLength := contextLength[key := 0];
      err := None;
    }

    method Restore(text: Option<Json>) returns (out: Returned)
      modifies this
      ensures (out, State()) == RestoreContext(old(State()), config, text)
    {
      var parsed := ParsedContextId(text);
      if parsed.Err? {
        return Raised(parsed.error);
      }
      var key := parsed.value;
      if key !in contextRequests {
        return KeepResponse;
      }
      if key !in contextLength {
        return Raised(KeyError("context_id"));
      }
      var kept := contextRequests[key];
      if contextLength[key] >= config.restoringLength + 1 {
        var _ := DeleteContextNow(key);
        return KeepResponse;
      }
      if "__restore_count" !in kept.meta {
        return Raised(KeyError("__restore_count"));
      }
      var below := Less(kept.meta["__restore_count"], config.nRetry);
      if below.Err? {
        return Raised(below.error);
      }
      if !below.value {
        var _ := DeleteContextNow(key);
        return KeepResponse;
      }
      var again := kept.(meta := IncrementKey(kept.meta, "__restore_count").value);
      contextRequests := contextRequests[key := again];
      contextLength := contextLength[key := 1];
      out := Resend(again);
    }

    method ProcessResponse(sent: Sent, received: Received) returns (out: Returned)
      modifies this
      ensures (out, State()) == ResponseStep(old(State()), config, sent, received)
    {
      match received {
        case PuppeteerReply(resp) =>
          if Binding(sent) {
            var err := Bind(sent.request, resp);
            if err.Some? {
              return Raised(err.value);
            }
          }
          var key := ContextKey(resp);
          if key in contextLength {
            contextLength := contextLength[key := contextLength[key] + 1];
          }
          out := KeepResponse;
        case RawReply(status, text) =>
          if PuppeteerOf(sent).Some? && status == UnprocessableEntity {
            if Binding(sent) {
              out := RetryBinding(sent.request, config, true);
            } else {
              out := Restore(text);
            }
          } else {
            out := KeepResponse;
          }
      }
    }
  }
}
