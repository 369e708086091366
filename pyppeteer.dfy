/** The pyppeteer browser manager
    (scrapypuppeteer/browser_managers/pyppeteer_browser_manager.py): it runs
    actions on a local browser and answers with the JSON reply the service
    would give. Driving the page (navigation, clicks, screenshots) is the
    `drive` parameter; what is modelled is how the wait options are read,
    how a Compose runs its steps, and how a reply or an error reply is
    built. */
module Pyppeteer {
  import opened Common
  import opened Json
  import opened Actions
  import opened Request
  import opened Service
  import opened Contexts

  // ---------------------------------------------------------------------
  // Wait options

  /** What a step waits for after acting. */
  datatype WaitChoice = WaitSelector(selector: Json, options: Json) | WaitXPath(xpath: Json, options: Json) | Sleep(timeout: Json) | NoWait

  /** Python numbers (`isinstance(x, (int, float))`; a bool is an int). */
  predicate IsNumber(j: Json) {
    j.Int? || j.Float? || j.Bool?
  }

  /** The selector, xpath and timeout after `selectorOrTimeout` is sorted
      into one of them. */
  function WaitTargets(w: map<string, Json>): (r: (Json, Json, Json))
    ensures var sot := Get(w, "selectorOrTimeout");
      (!Truthy(sot) || !(IsNumber(sot) || sot.Str?) ==> r == (Get(w, "selector"), Get(w, "xpath"), Get(w, "timeout"))) &&
      (Truthy(sot) && IsNumber(sot) ==> r == (Get(w, "selector"), Get(w, "xpath"), sot)) &&
      (Truthy(sot) && sot.Str? && StartsWith(sot.s, "//") ==> r == (Get(w, "selector"), sot, Get(w, "timeout"))) &&
      (Truthy(sot) && sot.Str? && !StartsWith(sot.s, "//") ==> r == (sot, Get(w, "xpath"), Get(w, "timeout")))
  {
    var selector := Get(w, "selector");
    var xpath := Get(w, "xpath");
    var timeout := Get(w, "timeout");
    var sot := Get(w, "selectorOrTimeout");
    if !Truthy(sot) then (selector, xpath, timeout)
    else if IsNumber(sot) then (selector, xpath, sot)
    else if sot.Str? then
      if StartsWith(sot.s, "//") then (selector, sot, timeout) else (sot, xpath, timeout)
    else (selector, xpath, timeout)
  }

  function Count(b: bool): nat {
    if b then 1 else 0
  }

  /** `wait_with_options`, without the waiting: more than one target is an
      error; otherwise the selector, else the xpath, else the timeout. */
  function ResolveWait(w: map<string, Json>): (r: Result<WaitChoice>)
    ensures var (s, x, t) := WaitTargets(w);
      (r.Err? <==> Count(Truthy(s)) + Count(Truthy(x)) + Count(Truthy(t)) > 1) &&
      (r.Ok? ==>
        (r.value.WaitSelector? <==> Truthy(s)) &&
        (r.value.WaitXPath? <==> Truthy(x)) &&
        (r.value.Sleep? <==> Truthy(t)) &&
        (r.value == NoWait <==> !Truthy(s) && !Truthy(x) && !Truthy(t)) &&
        (r.value.WaitSelector? ==> r.value.selector == s) &&
        (r.value.WaitXPath? ==> r.value.xpath == x) &&
        (r.value.Sleep? ==> r.value.timeout == t))
    ensures r.Ok? && (r.value.WaitSelector? || r.value.WaitXPath?) ==> r.value.options == GetOr(w, "options", Obj(map[]))
  {
    var (selector, xpath, timeout) := WaitTargets(w);
    var options := GetOr(w, "options", Obj(map[]));
    if Count(Truthy(selector)) + Count(Truthy(xpath)) + Count(Truthy(timeout)) > 1 then
      Err(ValueError("Wait options must contain either a selector, an xpath, or a timeout"))
    else if Truthy(selector) then Ok(WaitSelector(selector, options))
    else if Truthy(xpath) then Ok(WaitXPath(xpath, options))
    else if Truthy(timeout) then Ok(Sleep(timeout))
    else Ok(NoWait)
  }

  // ---------------------------------------------------------------------
  // Running actions

  /** Python's complaint when a method is called with one argument too many. */
  function ArityMessage(name: string): string {
    name + "() takes 2 positional arguments but 3 were given"
  }

  /** The page operations of the driver, by endpoint. */
  type Drive = (string, Action, Handle) -> Result<map<string, Json>>

  /** One step run through the action map. `asWritten` selects the code's
      handlers for the refused endpoints, which take no page and so fail
      with a TypeError when called with one, over the
      corrected ValueError naming the action. */
  function RunStep(a: Action, page: Handle, drive: Drive, asWritten: bool): (r: Result<map<string, Json>>)
    decreases a, 1
  {
    var e := Endpoint(a);
    if e !in CatalogTags then Err(KeyError(e))
    else if e in UnavailableLocally then
      if asWritten then Err(TypeError(ArityMessage(e)))
      else Err(ValueError(UnavailableMessage(e)))
    else if e == "compose" then
      if a.Compose? then RunCompose(a.actions, page, drive, asWritten) else Err(AttributeError("actions"))
    else drive(e, a, page)
  }

  /** `compose`: the steps run in order on the same page; the first failure
      ends the run, and otherwise only the last step's data is returned. An
      empty Compose leaves its result unbound. */
  function RunCompose(actions: seq<Action>, page: Handle, drive: Drive, asWritten: bool): Result<map<string, Json>>
    decreases actions, 0
  {
    if actions == [] then Err(UnboundLocalError("response_data"))
    else
      var first := RunStep(actions[0], page, drive, asWritten);
      if first.Err? then Err(first.error)
      else if |actions| == 1 then first
      else RunCompose(actions[1..], page, drive, asWritten)
  }

  /** A Compose succeeds exactly when it has steps and every one of them
      succeeds, and then answers with the last step's data. */
  lemma {:induction false} ComposeOk(actions: seq<Action>, page: Handle, drive: Drive, asWritten: bool)
    ensures var r := RunCompose(actions, page, drive, asWritten);
      r.Ok? <==> actions != [] && forall i :: 0 <= i < |actions| ==> RunStep(actions[i], page, drive, asWritten).Ok?
    ensures var r := RunCompose(actions, page, drive, asWritten);
      r.Ok? ==> r == RunStep(actions[|actions| - 1], page, drive, asWritten)
    ensures actions == [] ==> RunCompose(actions, page, drive, asWritten) == Err(UnboundLocalError("response_data"))
  {
    if |actions| > 1 && RunStep(actions[0], page, drive, asWritten).Ok? {
      var rest := actions[1..];
      ComposeOk(rest, page, drive, asWritten);
      assert forall i :: 1 <= i < |actions| ==> actions[i] == rest[i - 1];
    }
  }

  /** A Compose whose steps before `i` succeed and whose step `i` fails
      ends with that step's error. */
  lemma {:induction false} ComposeFailsAt(actions: seq<Action>, page: Handle, drive: Drive, asWritten: bool, i: nat)
    requires i < |actions| && RunStep(actions[i], page, drive, asWritten).Err?
    requires forall j :: 0 <= j < i ==> RunStep(actions[j], page, drive, asWritten).Ok?
    ensures RunCompose(actions, page, drive, asWritten) == RunStep(actions[i], page, drive, asWritten)
  {
    if i > 0 {
      var rest := actions[1..];
      assert forall j :: 0 <= j < i - 1 ==> rest[j] == actions[j + 1];
      ComposeFailsAt(rest, page, drive, asWritten, i - 1);
      assert rest[i - 1] == actions[i];
    }
  }

  /** The loop of `compose`, stated against `RunCompose`. */
  method ComposeLoop(actions: seq<Action>, page: Handle, drive: Drive, asWritten: bool) returns (r: Result<map<string, Json>>)
    ensures r == RunCompose(actions, page, drive, asWritten)
  {
    var data: Option<map<string, Json>> := None;
    var i := 0;
    while i < |actions|
      invariant 0 <= i <= |actions|
      invariant forall j :: 0 <= j < i ==> RunStep(actions[j], page, drive, asWritten).Ok?
      invariant i == 0 <==> data.None?
      invariant i > 0 ==> data == Some(RunStep(actions[i - 1], page, drive, asWritten).value)
    {
      var step := RunStep(actions[i], page, drive, asWritten);
      if step.Err? {
        ComposeFailsAt(actions, page, drive, asWritten, i);
        return Err(step.error);
      }
      data := Some(step.value);
      i := i + 1;
    }
    ComposeOk(actions, page, drive, asWritten);
    if data.None? {
      return Err(UnboundLocalError("response_data"));
    }
    r := Ok(data.value);
  }

  /** A refused endpoint fails as a TypeError about the call, not with the
      message naming the action. */
  lemma RefusedStepAsWritten(a: Action, page: Handle, drive: Drive)
    requires a.CustomJsAction?
    ensures RunStep(a, page, drive, true) == Err(TypeError(ArityMessage("action")))
    ensures RunStep(a, page, drive, false) == Err(ValueError("CustomJsAction is not available in local mode"))
  {
    assert Endpoint(a) == "action";
    assert "action" in CatalogTags && "action" in UnavailableLocally;
  }

  /** The text of an exception, as `str(e)` gives it. */
  function ErrorText(e: Error): string {
    match e
    case ValueError(m) => m
    case TypeError(m) => m
    case KeyError(k) => "'" + k + "'"
    case AttributeError(n) => "object has no attribute '" + n + "'"
    case UnboundLocalError(n) => "local variable '" + n + "' referenced before assignment"
    case IgnoreRequest(m) => m
    case NotConfigured => ""
  }

  /** The reply for a step's outcome on the given context and page: the
      step's data with the ids added, or a 500 reply with the error. */
  function ReplyFor(step: Result<map<string, Json>>, contextId: string, pageId: string): (r: Reply)
    ensures r.isText && r.contentType == JsonContentType
    ensures r.status == (if step.Ok? then 200 else 500)
    ensures "contextId" in r.data && r.data["contextId"] == Str(contextId)
    ensures "pageId" in r.data && r.data["pageId"] == Str(pageId)
    ensures step.Ok? ==> (r.data.Keys == step.value.Keys + {"contextId", "pageId"} &&
      forall k :: k in step.value && k != "contextId" && k != "pageId" ==> r.data[k] == step.value[k])
    ensures step.Err? ==> r.data == map["error" := Str(ErrorText(step.error)), "contextId" := Str(contextId), "pageId" := Str(pageId)]
  {
    match step
    case Ok(data) => Reply(true, JsonContentType, 200, data["contextId" := Str(contextId)]["pageId" := Str(pageId)])
    case Err(e) => Reply(true, JsonContentType, 500, map["error" := Str(ErrorText(e)), "contextId" := Str(contextId), "pageId" := Str(pageId)])
  }

  /** What the manager is asked to download. */
  datatype LocalRequest = ActionCall(request: ActionRequest) | CloseCall(close: CloseContextRequest) | OtherCall

  class PyppeteerBrowserManager {
    /** Whether the browser was started (`__flag`). */
    var started: bool
    var contextManager: ContextManager?

    predicate Valid()
      reads this, contextManager
    {
      (started <==> contextManager != null) && (contextManager != null ==> contextManager.Valid())
    }

    constructor()
      ensures Valid() && !started
    {
      started := false;
      contextManager := null;
    }

    /** `_start_browser_manager`: the context manager is created once. */
    method StartBrowserManager()
      requires Valid()
      modifies this
      ensures Valid() && started
      ensures old(started) ==> contextManager == old(contextManager)
      ensures !old(started) ==> (fresh(contextManager) &&
        contextManager.contexts == map[] && contextManager.pages == map[] && contextManager.context2page == map[])
    {
      if !started {
        started := true;
        contextManager := new ContextManager();
      }
    }

    /** What `__perform_action` does: an endpoint outside the action map is
        an error; otherwise the action runs on the request's page (a new
        context and page when the request names none), and any failure of
        the step becomes a 500 reply naming the context and page. */
    twostate predicate ActionPerformed(ar: ActionRequest, drive: Drive, newContext: Handle, newPage: Handle,
                                       new out: Result<Reply>)
      requires old(contextManager) == contextManager
      reads this, contextManager
    {
      (Endpoint(ar.action) !in CatalogTags ==>
        out == Err(ValueError("No such action: " + Endpoint(ar.action)))) &&
      (!started && Endpoint(ar.action) in CatalogTags ==> out == Err(AttributeError("check_context_and_page"))) &&
      (started && contextManager != null && Endpoint(ar.action) in CatalogTags ==>
        var preq := ar.puppeteerRequest;
        (TruthyId(preq.contextId) && TruthyId(preq.pageId) ==>
          contextManager.contexts == old(contextManager.contexts) && contextManager.pages == old(contextManager.pages) &&
          contextManager.context2page == old(contextManager.context2page) &&
          (out.Err? <==> preq.pageId.value !in contextManager.pages) &&
          (out.Ok? ==> out.value == ReplyFor(RunStep(ar.action, contextManager.pages[preq.pageId.value], drive, false),
                                             preq.contextId.value, preq.pageId.value))) &&
        (!(TruthyId(preq.contextId) && TruthyId(preq.pageId)) ==>
          out.Ok? &&
          exists c, p :: c !in old(contextManager.contexts) && p !in old(contextManager.pages) &&
            contextManager.contexts == old(contextManager.contexts)[c := newContext] &&
            contextManager.pages == old(contextManager.pages)[p := newPage] &&
            contextManager.context2page == old(contextManager.context2page)[c := p] &&
            out.value == ReplyFor(RunStep(ar.action, newPage, drive, false), c, p)))
    }

    /** `__perform_action`, as `ActionPerformed` describes it. */
    method PerformAction(ar: ActionRequest, drive: Drive, newContext: Handle, newPage: Handle)
      returns (out: Result<Reply>)
      requires Valid()
      modifies contextManager
      ensures Valid()
      ensures ActionPerformed(ar, drive, newContext, newPage, out)
    {
      var endpoint := Endpoint(ar.action);
      if endpoint !in CatalogTags {
        return Err(ValueError("No such action: " + endpoint));
      }
      if contextManager == null {
        return Err(AttributeError("check_context_and_page"));
      }
      var preq := ar.puppeteerRequest;
      var c, p := contextManager.CheckContextAndPage(preq.contextId, preq.pageId, newContext, newPage);
      var page := contextManager.PageById(c, p);
      if page.Err? {
        return Err(page.error);
      }
      var step := RunStep(ar.action, page.value, drive, false);
      out := Ok(ReplyFor(step, c, p));
    }

    /** `close_contexts` as written: the context manager's coroutine is
        created and never awaited, so nothing is closed. */
    method CloseContextsAsWritten(request: CloseContextRequest) returns (err: Option<Error>)
      requires Valid()
      ensures Valid()
      ensures !started ==> err == Some(AttributeError("close_contexts"))
      ensures started ==> err.None?
    {
      if contextManager == null {
        return Some(AttributeError("close_contexts"));
      }
      err := None;
    }

    /** `close_contexts` with the call awaited: the listed contexts are
        closed with their pages. */
    method CloseContexts(request: CloseContextRequest) returns (err: Option<Error>)
      requires Valid()
      modifies contextManager
      ensures Valid()
      ensures !started ==> err == Some(AttributeError("close_contexts"))
      ensures started ==> (err.None? &&
        contextManager.contexts == old(contextManager.contexts) - ListedIds(request.contexts) &&
        contextManager.context2page == old(contextManager.context2page) - ListedIds(request.contexts) &&
        contextManager.pages == old(contextManager.pages) - PagesOf(old(contextManager.context2page), ListedIds(request.contexts)))
    {
      if contextManager == null {
        return Some(AttributeError("close_contexts"));
      }
      contextManager.CloseContexts(request.contexts);
      err := None;
    }

    /** `_download_request`: action requests are performed, close requests
        close contexts (a manager that was never started has no context
        manager to ask), anything else is not handled. */
    method DownloadRequest(r: LocalRequest, drive: Drive, newContext: Handle, newPage: Handle)
      returns (out: Option<Result<Reply>>)
      requires Valid()
      modifies contextManager
      ensures Valid()
      ensures r.ActionCall? ==> out.Some? && ActionPerformed(r.request, drive, newContext, newPage, out.value)
      ensures r.CloseCall? && !started ==> out == Some(Err(AttributeError("close_contexts")))
      ensures r.CloseCall? && started ==>
        (out.None? &&
         contextManager.contexts == old(contextManager.contexts) - ListedIds(r.close.contexts) &&
         contextManager.context2page == old(contextManager.context2page) - ListedIds(r.close.contexts) &&
         contextManager.pages == old(contextManager.pages) - PagesOf(old(contextManager.context2page), ListedIds(r.close.contexts)))
      ensures r.OtherCall? ==> out.None?
    {
      match r {
        case ActionCall(ar) =>
          var reply := PerformAction(ar, drive, newContext, newPage);
          out := Some(reply);
        case CloseCall(close) =>
          var err := CloseContexts(close);
          out := if err.Some? then Some(Err(err.value)) else None;
        case OtherCall =>
          out := None;
      }
    }
  }

  /** A context opened on a started manager survives the close request as
      written, and is gone after the awaited close. */
  method CloseLeavesContext(drive: Drive) returns (openAsWritten: bool, openCorrected: bool)
    ensures openAsWritten && !openCorrected
  {
    var manager := new PyppeteerBrowserManager();
    manager.StartBrowserManager();
    var c, p := manager.contextManager.OpenNewPage(Handle(0), Handle(1));
    var close := CloseContextRequest("", true, [Str(c)]);
    var _ := manager.CloseContextsAsWritten(close);
    openAsWritten := c in manager.contextManager.contexts;
    assert ListedIds(close.contexts) == {c} by {
      assert close.contexts[0] == Str(c);
    }
    var _ := manager.CloseContexts(close);
    openCorrected := c in manager.contextManager.contexts;
  }
}
