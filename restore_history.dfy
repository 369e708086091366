/** The context-restoring interceptor of scrapypuppeteer/middlewares/restore.py.
    It keeps, per context, the history of actions run in it as one Compose.
    When a step fails with 422 (the context is gone), the history with the
    failing step appended is scheduled as a new first request, to be run in a
    fresh context. Histories longer than the restoring length are dropped. */
module HistoryRestore {
  import opened Common
  import opened Json
  import opened Actions
  import opened Request
  import opened Response
  import opened Service
  import opened RestoreBase

  /** `process_request`: a request asking for restoring loses the flag and is
      marked as binding, unless it does not start a sequence (it has a
      context or page already); such a request is only logged. */
  function MarkRequest(r: PuppeteerRequest): (res: PuppeteerRequest)
    ensures res == r.(meta := res.meta)
    ensures Truthy(Get(r.meta, "recover_context")) && !TruthyId(r.contextId) && !TruthyId(r.pageId) ==>
      res.meta == (r.meta - {"recover_context"})["__request_binding" := Bool(true)]
    ensures !(Truthy(Get(r.meta, "recover_context")) && !TruthyId(r.contextId) && !TruthyId(r.pageId)) ==>
      res.meta == r.meta - {"recover_context"}
  {
    var (recover, meta) := PopRecover(r.meta);
    if !recover || TruthyId(r.contextId) || TruthyId(r.pageId) then r.(meta := meta)
    else r.(meta := meta["__request_binding" := Bool(true)])
  }

  /** The steps an action contributes to a Compose. */
  function StepsOf(a: Action): seq<Action> {
    if a.Compose? then a.actions else [a]
  }

  lemma FlattenOne(a: Action)
    ensures Flatten([a]) == StepsOf(a)
  {
    assert [a][1..] == [];
    assert Flatten([a]) == StepsOf(a) + Flatten([]);
  }

  lemma FlattenPair(h: Action, a: Action)
    ensures Flatten([h, a]) == StepsOf(h) + StepsOf(a)
  {
    assert [h, a][1..] == [a];
    assert Flatten([h, a]) == StepsOf(h) + Flatten([a]);
    FlattenOne(a);
  }

  /** The action of the request sent, if it has one. */
  function SentAction(sent: Sent): (a: Option<Action>)
    ensures a.Some? <==> sent.ServiceRequest?
    ensures sent.ServiceRequest? ==> a.value == sent.request.action
  {
    if sent.ServiceRequest? then Some(sent.request.action) else None
  }

  /** The history of actions run in each tracked context. */
  datatype HistoryState = HistoryState(actions: map<Json, Action>)

  const Empty := HistoryState(map[])

  /** Every history is a Compose of at most `restoringLength + 1` steps. */
  predicate Bounded(st: HistoryState, cfg: RestoreConfig) {
    forall k :: k in st.actions ==> st.actions[k].Compose? && |st.actions[k].actions| <= cfg.restoringLength + 1
  }

  /** `_update_context_actions`: a history that is already longer than the
      restoring length is dropped; otherwise the request's step is appended.
      `step` is None when the request has no action at all, which matters
      only once the step is read. */
  function UpdateContextActions(st: HistoryState, cfg: RestoreConfig, step: Option<Action>, key: Json): (r: Result<HistoryState>)
    requires key in st.actions
    ensures st.actions[key].Compose? && |st.actions[key].actions| > cfg.restoringLength ==>
      r == Ok(HistoryState(st.actions - {key}))
    ensures st.actions[key].Compose? && |st.actions[key].actions| <= cfg.restoringLength && step.None? ==>
      r == Err(AttributeError("action"))
    ensures st.actions[key].Compose? && |st.actions[key].actions| <= cfg.restoringLength && st.actions[key].actions != [] && step.Some? ==>
      r.Ok? && r.value.actions.Keys == st.actions.Keys && r.value.actions[key] == Compose(st.actions[key].actions + StepsOf(step.value)) &&
      forall k :: k in st.actions && k != key ==> r.value.actions[k] == st.actions[k]
  {
    var history := st.actions[key];
    if !history.Compose? then Err(AttributeError("actions"))
    else if |history.actions| > cfg.restoringLength then Ok(HistoryState(st.actions - {key}))
    else if step.None? then Err(AttributeError("action"))
    else
      var extended :- MakeCompose([history, step.value]);
      FlattenPair(history, step.value);
      Ok(HistoryState(st.actions[key := extended]))
  }

  /** The overrides that turn the failing request into a new first step. */
  function Restart(history: Action): Overrides {
    NoOverrides.(action := Some(history), contextId := Some(None), pageId := Some(None))
  }

  /** `_restore_context`: the context named in the error body is forgotten
      and the failing request is rescheduled without context or page, as a
      binding request running the history followed by the failing step. */
  function RestoreContext(st: HistoryState, preq: PuppeteerRequest, text: Option<Json>): (r: (Returned, HistoryState))
    ensures ParsedContextId(text).Err? ==> r == (Raised(ParsedContextId(text).error), st)
    ensures ParsedContextId(text).Ok? && ParsedContextId(text).value !in st.actions ==> r == (KeepResponse, st)
    ensures ParsedContextId(text).Ok? && ParsedContextId(text).value in st.actions ==>
      var key := ParsedContextId(text).value;
      var history := st.actions[key];
      r.1 == HistoryState(st.actions - {key}) &&
      (StepsOf(history) + StepsOf(preq.action) != [] ==>
        r.0.Reschedule? &&
        r.0.puppeteerRequest.action == Compose(StepsOf(history) + StepsOf(preq.action)) &&
        r.0.puppeteerRequest.contextId.None? && r.0.puppeteerRequest.pageId.None? &&
        r.0.puppeteerRequest.meta == preq.meta["__request_binding" := Bool(true)] &&
        r.0.puppeteerRequest.closePage == preq.closePage && r.0.puppeteerRequest.headers == preq.headers)
  {
    match ParsedContextId(text)
    case Err(e) => (Raised(e), st)
    case Ok(key) =>
      if key !in st.actions then (KeepResponse, st)
      else
        var history := st.actions[key];
        var st1 := HistoryState(st.actions - {key});
        FlattenPair(history, preq.action);
        match MakeCompose([history, preq.action])
        case Err(e) => (Raised(e), st1)
        case Ok(replayed) =>
          var restoring := Request.Replace(preq, Restart(replayed)).value;
          (Reschedule(restoring.(meta := restoring.meta["__request_binding" := Bool(true)])), st1)
  }

  /** The retry of a binding request that got no context, on a copy of the
      request. `startCount` selects the corrected increment from 0
      over the code's `+= 1` on a key that may be missing. */
  function RetryBinding(ar: ActionRequest, cfg: RestoreConfig, startCount: bool): Returned {
    match Less(GetOr(ar.meta, "__request_binding_count", Int(0)), cfg.nRetry)
    case Err(e) => Raised(e)
    case Ok(below) =>
      if !below then KeepResponse
      else
        var meta := if startCount then IncrementOrStart(ar.meta, "__request_binding_count")
                    else IncrementKey(ar.meta, "__request_binding_count");
        if meta.Err? then Raised(meta.error) else Resend(ar.(meta := meta.value))
  }

  /** `process_response`. */
  function ResponseStepWith(st: HistoryState, cfg: RestoreConfig, sent: Sent, received: Received, startCount: bool): (r: (Returned, HistoryState))
  {
    match received
    case PuppeteerReply(resp) =>
      var key := ContextKey(resp);
      if Binding(sent) then
        match MakeCompose([sent.request.action])
        case Err(e) => (Raised(e), st)
        case Ok(history) => (KeepResponse, HistoryState(st.actions[key := history]))
      else if key in st.actions then
        match UpdateContextActions(st, cfg, SentAction(sent), key)
        case Err(e) => (Raised(e), st)
        case Ok(st1) => (KeepResponse, st1)
      else (KeepResponse, st)
    case RawReply(status, text) =>
      if PuppeteerOf(sent).Some? && status == UnprocessableEntity then
        if Binding(sent) then (RetryBinding(sent.request, cfg, startCount), st)
        else RestoreContext(st, sent.request.puppeteerRequest, text)
      else (KeepResponse, st)
  }


  /** `process_response` with the retry counted from 0. A binding response
      starts the history of its context with the binding request's steps; a
      422 on a binding request sends a copy again with its count incremented
      while the count is below the retry limit; a tracked formed response
      appends its step to the history, or drops a history grown too long; a
      422 on any other service request replays the context's history;
      responses that are neither formed nor a 422 to a service request
      change nothing. */
  function ResponseStep(st: HistoryState, cfg: RestoreConfig, sent: Sent, received: Received): (r: (Returned, HistoryState))
    ensures received.PuppeteerReply? && Binding(sent) && StepsOf(sent.request.action) != [] ==>
      r == (KeepResponse, HistoryState(st.actions[ContextKey(received.response) := Compose(StepsOf(sent.request.action))]))
    ensures received.PuppeteerReply? && Binding(sent) && StepsOf(sent.request.action) == [] ==> r.0.Raised? && r.1 == st
    ensures received.PuppeteerReply? && !Binding(sent) && ContextKey(received.response) !in st.actions ==> r == (KeepResponse, st)
    ensures received.PuppeteerReply? && !Binding(sent) && ContextKey(received.response) in st.actions ==>
      var u := UpdateContextActions(st, cfg, SentAction(sent), ContextKey(received.response));
      r == if u.Ok? then (KeepResponse, u.value) else (Raised(u.error), st)
    ensures received.RawReply? && PuppeteerOf(sent).Some? && !Binding(sent) && received.status == UnprocessableEntity ==>
      r == RestoreContext(st, sent.request.puppeteerRequest, received.text)
    ensures received.RawReply? && Binding(sent) && received.status == UnprocessableEntity ==>
      var count := GetOr(sent.request.meta, "__request_binding_count", Int(0));
      r.1 == st &&
      (count.Int? ==>
        (count.i < cfg.nRetry ==>
          r.0 == Resend(sent.request.(meta := sent.request.meta["__request_binding_count" := Int(count.i + 1)]))) &&
        (count.i >= cfg.nRetry ==> r.0 == KeepResponse))
    ensures received.RawReply? && (PuppeteerOf(sent).None? || received.status != UnprocessableEntity) ==> r == (KeepResponse, st)
  {
    if sent.ServiceRequest? then
      FlattenOne(sent.request.action);
      ResponseStepWith(st, cfg, sent, received, true)
    else ResponseStepWith(st, cfg, sent, received, true)
  }

  /** A single step: an action that is not a Compose. */
  predicate SingleStep(sent: Sent) {
    sent.ServiceRequest? ==> !sent.request.action.Compose?
  }

  /** With single-step requests every kept history has at most
      `restoringLength + 1` steps: one is appended only to a history of at
      most `restoringLength` steps, and a longer one is dropped. */
  lemma HistoryBound(st: HistoryState, cfg: RestoreConfig, sent: Sent, received: Received)
    requires cfg.restoringLength >= 1 && Bounded(st, cfg) && SingleStep(sent)
    ensures Bounded(ResponseStep(st, cfg, sent, received).1, cfg)
  {
    var r := ResponseStepWith(st, cfg, sent, received, true);
    if received.PuppeteerReply? {
      var key := ContextKey(received.response);
      if Binding(sent) {
        FlattenOne(sent.request.action);
      } else if key in st.actions && sent.ServiceRequest? {
        FlattenPair(st.actions[key], sent.request.action);
      }
    }
  }

  /** As written, the first retry of a binding request that got no context
      raises: the service request's meta has no binding count, and `+= 1`
      on a missing key is a KeyError. */
  lemma FirstRetryRaises(cfg: RestoreConfig, ar: ActionRequest)
    requires cfg.nRetry >= 1
    requires ar.meta == ServiceMeta && ar.puppeteerRequest.meta == map["__request_binding" := Bool(true)]
    ensures ResponseStepWith(Empty, cfg, ServiceRequest(ar), RawReply(422, None), false) ==
      (Raised(KeyError("__request_binding_count")), Empty)
  {
    assert Binding(ServiceRequest(ar));
  }

  /** Counted from 0, the same retry sends a copy again with count 1. */
  lemma FirstRetryResends(cfg: RestoreConfig, ar: ActionRequest)
    requires cfg.nRetry >= 1
    requires ar.meta == ServiceMeta && ar.puppeteerRequest.meta == map["__request_binding" := Bool(true)]
    ensures ResponseStep(Empty, cfg, ServiceRequest(ar), RawReply(422, None)) ==
      (Resend(ar.(meta := ServiceMeta["__request_binding_count" := Int(1)])), Empty)
  {
    assert Binding(ServiceRequest(ar));
  }

  /** A restored sequence replays exactly the kept history and then the
      failing step, and the restored request binds the new context to that
      whole sequence. */
  lemma RestoreReplaysHistory(st: HistoryState, cfg: RestoreConfig, ar: ActionRequest, key: Json,
                              reply: PuppeteerResponse, ar2: ActionRequest)
    requires key in st.actions && st.actions[key].Compose? && st.actions[key].actions != []
    requires !Binding(ServiceRequest(ar)) && !ar.action.Compose?
    requires ar.puppeteerRequest.action == ar.action
    requires ResponseStep(st, cfg, ServiceRequest(ar), RawReply(422, Some(Obj(map["contextId" := key])))).0.Reschedule?
    requires ar2.puppeteerRequest == ResponseStep(st, cfg, ServiceRequest(ar), RawReply(422, Some(Obj(map["contextId" := key])))).0.puppeteerRequest
    requires ar2.action == ar2.puppeteerRequest.action
    ensures var st1 := ResponseStep(st, cfg, ServiceRequest(ar), RawReply(422, Some(Obj(map["contextId" := key])))).1;
      key !in st1.actions &&
      ResponseStep(st1, cfg, ServiceRequest(ar2), PuppeteerReply(reply)).1.actions[ContextKey(reply)] ==
        Compose(st.actions[key].actions + [ar.action])
  {
    var text := Some(Obj(map["contextId" := key]));
    assert ParsedContextId(text) == Ok(key);
    var (out, st1) := ResponseStep(st, cfg, ServiceRequest(ar), RawReply(422, text));
    assert out == RestoreContext(st, ar.puppeteerRequest, text).0;
    assert Binding(ServiceRequest(ar2));
    assert StepsOf(ar2.action) == st.actions[key].actions + [ar.action];
  }

  // ---------------------------------------------------------------------
  // The middleware object

  class HistoryRestoreMiddleware {
    const config: RestoreConfig
    var contextActions: map<Json, Action>

    function State(): HistoryState
      reads this
    {
      HistoryState(contextActions)
    }

    constructor(config: RestoreConfig)
      ensures this.config == config && State() == Empty
    {
      this.config := config;
      contextActions := map[];
    }

    method Update(step: Option<Action>, key: Json) returns (err: Option<Error>)
      requires key in contextActions
      modifies this
      ensures var r := UpdateContextActions(old(State()), config, step, key);
        if r.Ok? then err.None? && State() == r.value else err == Some(r.error) && State() == old(State())
    {
      var history := contextActions[key];
      if !history.Compose? {
        return Some(AttributeError("actions"));
      }
      if |history.actions| > config.restoringLength {
        contextActions := contextActions - {key};
        return None;
      }
      if step.None? {
        return Some(AttributeError("action"));
      }
      var extended := MakeCompose([history, step.value]);
      if extended.Err? {
        return Some(extended.error);
      }
      contextActions := contextActions[key := extended.value];
      err := None;
    }

    method Restore(preq: PuppeteerRequest, text: Option<Json>) returns (out: Returned)
      modifies this
      ensures (out, State()) == RestoreContext(old(State()), preq, text)
    {
      var parsed := ParsedContextId(text);
      if parsed.Err? {
        return Raised(parsed.error);
      }
      var key := parsed.value;
      if key !in contextActions {
        return KeepResponse;
      }
      var history := contextActions[key];
      contextActions := contextActions - {key};
      var replayed := MakeCompose([history, preq.action]);
      if replayed.Err? {
        return Raised(replayed.error);
      }
      var restoring := Request.Replace(preq, Restart(replayed.value)).value;
      out := Reschedule(restoring.(meta := restoring.meta["__request_binding" := Bool(true)]));
    }

    method ProcessResponse(sent: Sent, received: Received) returns (out: Returned)
      modifies this
      ensures (out, State()) == ResponseStep(old(State()), config, sent, received)
    {
      match received {
        case PuppeteerReply(resp) =>
          var key := ContextKey(resp);
          if Binding(sent) {
            var history := MakeCompose([sent.request.action]);
            if history.Err? {
              return Raised(history.error);
            }
            contextActions := contextActions[key := history.value];
          } else if key in contextActions {
            var err := Update(SentAction(sent), key);
            if err.Some? {
              return Raised(err.value);
            }
          }
          out := KeepResponse;
        case RawReply(status, text) =>
          if PuppeteerOf(sent).Some? && status == UnprocessableEntity {
            if Binding(sent) {
              out := RetryBinding(sent.request, config, true);
            } else {
              out := Restore(sent.request.puppeteerRequest, text);
            }
          } else {
            out := KeepResponse;
          }
      }
    }
  }
}
