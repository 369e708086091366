/** The context-recovery interceptor of scrapypuppeteer/middleware.py. The
    first service request of a marked sequence is kept under the context the
    service opened for it, with a counter of the responses seen in that
    context. When a later step fails with 422, the kept request is sent again
    while the sequence is short enough and the request was not recovered too
    often; the limits of one retry for a failed first request and five
    recoveries per kept request are fixed in the code. */
module ContextRecovery {
  import opened Common
  import opened Json
  import opened Actions
  import opened Request
  import opened Response
  import opened Service
  import opened RestoreBase

  /** Retries of a first request that got no context. */
  const BindingRetries := 1
  /** Recoveries of one kept request. */
  const MaxRecoveries := 5


  /** `process_request`: a request asking for recovery loses the flag and
      must start a sequence (no context or page yet); it is then marked as
      binding. */
  function MarkRequest(r: PuppeteerRequest): (res: Result<PuppeteerRequest>)
    ensures !Truthy(Get(r.meta, "recover_context")) ==> res == Ok(r.(meta := r.meta - {"recover_context"}))
    ensures Truthy(Get(r.meta, "recover_context")) ==>
      (res.Err? <==> TruthyId(r.contextId) || TruthyId(r.pageId)) &&
      (res.Err? ==> res.error.IgnoreRequest?) &&
      (res.Ok? ==> res.value == r.(meta := (r.meta - {"recover_context"})["__request_binding" := Bool(true)]))
  {
    var (recover, meta) := PopRecover(r.meta);
    if !recover then Ok(r.(meta := meta))
    else if TruthyId(r.contextId) || TruthyId(r.pageId) then
      Err(IgnoreRequest("Request is not in the beginning of the request-response sequence"))
    else Ok(r.(meta := meta["__request_binding" := Bool(true)]))
  }

  /** The kept first request of each context and the number of responses
      seen in it. */
  datatype RecoveryState = RecoveryState(requests: map<Json, ActionRequest>, counters: map<Json, int>)

  const Empty := RecoveryState(map[], map[])

  predicate Valid(st: RecoveryState) {
    st.requests.Keys == st.counters.Keys
  }

  /** The binding request as it is kept: exempt from duplicate filtering,
      with a restore count of 0. */
  function Kept(ar: ActionRequest): ActionRequest {
    ar.(dontFilter := true, meta := ar.meta["__restore_count" := Int(0)])
  }

  /** A 422 naming a known context: recover it while its counter is at most
      `nRecovery` and its kept request was recovered fewer than five times,
      resetting the counter to 1; a sequence that grew longer is forgotten. */
  function Recover(st: RecoveryState, nRecovery: int, text: Option<Json>): (r: (Returned, RecoveryState))
    ensures ParsedContextId(text).Err? ==> r == (Raised(ParsedContextId(text).error), st)
    ensures Valid(st) ==> Valid(r.1)
    ensures Valid(st) && ParsedContextId(text).Ok? ==>
      var key := ParsedContextId(text).value;
      (key !in st.requests ==> r == (KeepResponse, st)) &&
      (key in st.requests && st.counters[key] > nRecovery ==>
        r == (KeepResponse, RecoveryState(st.requests - {key}, st.counters - {key}))) &&
      (key in st.requests && st.counters[key] <= nRecovery ==>
        var kept := st.requests[key];
        ("__restore_count" !in kept.meta ==> r == (Raised(KeyError("__restore_count")), st)) &&
        ("__restore_count" in kept.meta && Less(kept.meta["__restore_count"], MaxRecoveries) == Ok(false) ==>
          r == (KeepResponse, st)) &&
        ("__restore_count" in kept.meta && Less(kept.meta["__restore_count"], MaxRecoveries) == Ok(true) ==>
          var again := kept.(meta := IncrementKey(kept.meta, "__restore_count").value);
          r == (Resend(again), RecoveryState(st.requests[key := again], st.counters[key := 1]))))
  {
    match ParsedContextId(text)
    case Err(e) => (Raised(e), st)
    case Ok(key) =>
      if key !in st.requests then (KeepResponse, st)
      else if key !in st.counters then (Raised(KeyError("context_id")), st)
      else if st.counters[key] <= nRecovery then
        var kept := st.requests[key];
        if "__restore_count" !in kept.meta then (Raised(KeyError("__restore_count")), st)
        else
          match Less(kept.meta["__restore_count"], MaxRecoveries)
          case Err(e) => (Raised(e), st)
          case Ok(below) =>
            if !below then (KeepResponse, st)
            else
              var again := kept.(meta := IncrementKey(kept.meta, "__restore_count").value);
              (Resend(again), RecoveryState(st.requests[key := again], st.counters[key := 1]))
      else (KeepResponse, RecoveryState(st.requests - {key}, st.counters - {key}))
  }

  /** The retry of a binding request that got no context: once. */
  function RetryBinding(ar: ActionRequest): (r: Returned)
    ensures GetOr(ar.meta, "__restore_count", Int(0)) == Int(0) ==>
      r == Resend(ar.(dontFilter := true, meta := ar.meta["__restore_count" := Int(1)]))
    ensures GetOr(ar.meta, "__restore_count", Int(0)).Int? && GetOr(ar.meta, "__restore_count", Int(0)).i >= BindingRetries ==>
      r == KeepResponse
  {
    match Less(GetOr(ar.meta, "__restore_count", Int(0)), BindingRetries)
    case Err(e) => Raised(e)
    case Ok(below) =>
      if below then Resend(ar.(dontFilter := true, meta := ar.meta["__restore_count" := Int(1)]))
      else KeepResponse
  }

  /** `process_response`. A binding response keeps its request under the
      new context with counter 1; any other formed response of a tracked
      context adds one to its counter. A 422 to a binding request retries
      it; a 422 to any other service request recovers the context its body
      names; everything else is handed on unchanged. */
  function ResponseStep(st: RecoveryState, nRecovery: int, sent: Sent, received: Received): (r: (Returned, RecoveryState))
    ensures Valid(st) ==> Valid(r.1)
    ensures received.PuppeteerReply? && Binding(sent) ==>
      var key := ContextKey(received.response);
      r == (KeepResponse, RecoveryState(st.requests[key := Kept(sent.request)], st.counters[key := 1]))
    ensures received.PuppeteerReply? && !Binding(sent) ==>
      var key := ContextKey(received.response);
      r.0 == KeepResponse && r.1.requests == st.requests &&
      r.1.counters == if key in st.counters then st.counters[key := st.counters[key] + 1] else st.counters
    ensures received.RawReply? && Binding(sent) && received.status == UnprocessableEntity ==>
      r == (RetryBinding(sent.request), st)
    ensures received.RawReply? && PuppeteerOf(sent).Some? && !Binding(sent) && received.status == UnprocessableEntity ==>
      r == Recover(st, nRecovery, received.text)
    ensures received.RawReply? && (PuppeteerOf(sent).None? || received.status != UnprocessableEntity) ==> r == (KeepResponse, st)
  {
    match received
    case PuppeteerReply(resp) =>
      var key := ContextKey(resp);
      if Binding(sent) then
        (KeepResponse, RecoveryState(st.requests[key := Kept(sent.request)], st.counters[key := 1]))
      else if key in st.counters then (KeepResponse, st.(counters := st.counters[key := st.counters[key] + 1]))
      else (KeepResponse, st)
    case RawReply(status, text) =>
      if PuppeteerOf(sent).Some? && status == UnprocessableEntity then
        if Binding(sent) then (RetryBinding(sent.request), st)
        else Recover(st, nRecovery, text)
      else (KeepResponse, st)
  }

  /** `n` consecutive 422 replies naming the same context; the outcome of
      the last one. */
  function RecoverRounds(st: RecoveryState, nRecovery: int, key: Json, n: nat): (Returned, RecoveryState)
    decreases n
  {
    var (out, st1) := Recover(st, nRecovery, Some(Obj(map["contextId" := key])));
    if n <= 1 then (out, st1) else RecoverRounds(st1, nRecovery, key, n - 1)
  }

  /** A kept request is sent again at most five times: one recovered `5 - k`
      times before still is in the registry after `k + 1` more 422 replies,
      and the last of them is handed on. */
  lemma {:induction false} RecoveryBounded(st: RecoveryState, nRecovery: int, key: Json, k: nat)
    requires Valid(st) && key in st.requests && st.counters[key] <= nRecovery && nRecovery >= 1
    requires "__restore_count" in st.requests[key].meta
    requires st.requests[key].meta["__restore_count"] == Int(MaxRecoveries - k)
    ensures RecoverRounds(st, nRecovery, key, k + 1).0 == KeepResponse
    ensures key in RecoverRounds(st, nRecovery, key, k + 1).1.requests
    decreases k
  {
    var text := Some(Obj(map["contextId" := key]));
    assert ParsedContextId(text) == Ok(key);
    var kept := st.requests[key];
    if k == 0 {
      assert Less(kept.meta["__restore_count"], MaxRecoveries) == Ok(false);
      assert RecoverRounds(st, nRecovery, key, 1) == Recover(st, nRecovery, text);
    } else {
      assert Less(kept.meta["__restore_count"], MaxRecoveries) == Ok(true);
      var again := kept.(meta := IncrementKey(kept.meta, "__restore_count").value);
      var st1 := RecoveryState(st.requests[key := again], st.counters[key := 1]);
      assert Recover(st, nRecovery, text) == (Resend(again), st1);
      assert again.meta["__restore_count"] == Int(MaxRecoveries - (k - 1));
      RecoveryBounded(st1, nRecovery, key, k - 1);
    }
  }

  // ---------------------------------------------------------------------
  // The middleware object

  class RecoveryMiddleware {
    const nRecovery: int
    var contextRequests: map<Json, ActionRequest>
    var contextCounters: map<Json, int>

    function State(): RecoveryState
      reads this
    {
      RecoveryState(contextRequests, contextCounters)
    }

    constructor(nRecovery: int)
      ensures this.nRecovery == nRecovery && State() == Empty
    {
      this.nRecovery := nRecovery;
      contextRequests := map[];
      contextCounters := map[];
    }

    method ProcessResponse(sent: Sent, received: Received) returns (out: Returned)
      modifies this
      ensures (out, State()) == ResponseStep(old(State()), nRecovery, sent, received)
    {
      out := KeepResponse;
      match received {
        case PuppeteerReply(resp) =>
          var key := ContextKey(resp);
          if Binding(sent) {
            contextRequests := contextRequests[key := Kept(sent.request)];
            contextCounters := contextCounters[key := 1];
          } else if key in contextCounters {
            contextCounters := contextCounters[key := contextCounters[key] + 1];
          }
        case RawReply(status, text) =>
          if PuppeteerOf(sent).Some? && status == UnprocessableEntity {
            if Binding(sent) {
              out := RetryBinding(sent.request);
              return;
            }
            var parsed := ParsedContextId(text);
            if parsed.Err? {
              return Raised(parsed.error);
            }
            var key := parsed.value;
            if key !in contextRequests {
              return;
            }
            if key !in contextCounters {
              return Raised(KeyError("context_id"));
            }
            if contextCounters[key] <= nRecovery {
              var kept := contextRequests[key];
              if "__restore_count" !in kept.meta {
                return Raised(KeyError("__restore_count"));
              }
              var below := Less(kept.meta["__restore_count"], MaxRecoveries);
              if below.Err? {
                return Raised(below.error);
              }
              if below.value {
                var again := kept.(meta := IncrementKey(kept.meta, "__restore_count").value);
                contextRequests := contextRequests[key := again];
                contextCounters := contextCounters[key := 1];
                out := Resend(again);
              }
            } else {
              contextCounters := contextCounters - {key};
              contextRequests := contextRequests - {key};
            }
          }
      }
    }
  }
}
