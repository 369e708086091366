/** The Playwright browser manager
    (scrapypuppeteer/browser_managers/playwright_browser_manager.py): it
    translates the service's navigation and click options into Playwright's,
    routes requests to its handlers, and keeps the same context bookkeeping
    as the other local manager. What the page does is the `drive`
    parameter. */
module Playwright {
  import opened Common
  import opened Json
  import opened Actions
  import opened Request
  import opened Response
  import opened Service
  import opened Contexts

  // ---------------------------------------------------------------------
  // Option mappers

  /** Decimal text of an integer, as `str(n)` prints it. */
  function NatText(n: nat): string
    decreases n
  {
    var d := ["0", "1", "2", "3", "4", "5", "6", "7", "8", "9"][n % 10];
    if n < 10 then d else NatText(n / 10) + d
  }

  /** `str(v)` for the values a wait event can be; the text of a float is
      not modelled. */
  function ScalarText(j: Json): string {
    match j
    case Null => "None"
    case Bool(b) => if b then "True" else "False"
    case Int(i) => if i < 0 then "-" + NatText(-i) else NatText(i)
    case Str(s) => s
    case _ => ""
  }

  /** Playwright's name for a Puppeteer load event, if it has one. */
  function EventName(event: string): Option<string> {
    if event == "load" then Some("load")
    else if event == "domcontentloaded" then Some("domcontentloaded")
    else if event == "networkidle0" || event == "networkidle2" then Some("networkidle")
    else None
  }

  /** The event a `waitUntil` value stands for: the first element of a
      list, otherwise the value itself. */
  function FirstEvent(waitUntil: Json): Json
    requires Truthy(waitUntil)
  {
    if waitUntil.Arr? then waitUntil.items[0] else waitUntil
  }

  /** The `wait_until` entry for a truthy `waitUntil`: a list or dictionary
      cannot be looked up in the event table; a known event is renamed; any
      other value is invalid. */
  function MapEvent(first: Json): (r: Result<string>)
    ensures r.Ok? <==> first.Str? && EventName(first.s).Some?
    ensures r.Ok? ==> r.value in {"load", "domcontentloaded", "networkidle"}
    ensures (first.Arr? || first.Obj?) ==> r.Err? && r.error.TypeError?
    ensures !(first.Arr? || first.Obj?) && r.Err? ==> r == Err(ValueError("Invalid waitUntil value: " + ScalarText(first)))
  {
    if first.Arr? || first.Obj? then Err(TypeError("unhashable type"))
    else if first.Str? && EventName(first.s).Some? then Ok(EventName(first.s).value)
    else Err(ValueError("Invalid waitUntil value: " + ScalarText(first)))
  }

  /** `map_navigation_options_to_target`: falsy options map to nothing;
      `timeout` is copied when present, and a truthy `waitUntil` becomes
      `wait_until`. Options that are not a dictionary fail as Python does
      on them: `in` on a number; indexing with "timeout" a string or list
      that contains it; otherwise `.get` on a list or string. */
  function MapNavigationOptions(opts: Json): (r: Result<map<string, Json>>)
    ensures !Truthy(opts) ==> r == Ok(map[])
    ensures Truthy(opts) && !opts.Obj? ==> r.Err?
    ensures (opts.Str? && Occurs(opts.s, "timeout")) || (opts.Arr? && Str("timeout") in opts.items) ==>
      r == Err(TypeError("indices must be integers"))
    ensures r.Ok? ==> r.value.Keys <= {"timeout", "wait_until"}
    ensures r.Ok? && opts.Obj? ==>
      ("timeout" in r.value <==> "timeout" in opts.fields) &&
      ("timeout" in r.value ==> r.value["timeout"] == opts.fields["timeout"]) &&
      ("wait_until" in r.value <==> Truthy(Get(opts.fields, "waitUntil")))
    ensures opts.Obj? && Truthy(opts) ==>
      var w := Get(opts.fields, "waitUntil");
      (r.Ok? <==> !Truthy(w) || MapEvent(FirstEvent(w)).Ok?) &&
      (r.Err? ==> r == Err(MapEvent(FirstEvent(w)).error)) &&
      (r.Ok? && Truthy(w) ==> r.value["wait_until"] == Str(MapEvent(FirstEvent(w)).value))
  {
    if !Truthy(opts) then Ok(map[])
    else if opts.Int? || opts.Float? || opts.Bool? then Err(TypeError("argument is not iterable"))
    else if (opts.Str? && Occurs(opts.s, "timeout")) || (opts.Arr? && Str("timeout") in opts.items) then
      Err(TypeError("indices must be integers"))
    else if !opts.Obj? then Err(AttributeError("get"))
    else
      var timeout := if "timeout" in opts.fields then map["timeout" := opts.fields["timeout"]] else map[];
      var w := Get(opts.fields, "waitUntil");
      if !Truthy(w) then Ok(timeout)
      else
        var event :- MapEvent(FirstEvent(w));
        Ok(timeout["wait_until" := Str(event)])
  }

  /** A known event, alone or first in a list, maps to its Playwright name. */
  lemma NetworkIdleMapped(event: string, rest: seq<Json>, timeout: Json)
    requires event == "networkidle0" || event == "networkidle2"
    ensures MapNavigationOptions(Obj(map["waitUntil" := Str(event)])) == Ok(map["wait_until" := Str("networkidle")])
    ensures MapNavigationOptions(Obj(map["waitUntil" := Arr([Str(event)] + rest), "timeout" := timeout])) ==
      Ok(map["timeout" := timeout, "wait_until" := Str("networkidle")])
  {
    var opts := Obj(map["waitUntil" := Arr([Str(event)] + rest), "timeout" := timeout]);
    assert Truthy(opts) by {
      assert "timeout" in opts.fields;
    }
    assert FirstEvent(Get(opts.fields, "waitUntil")) == Str(event);
  }

  /** `map_click_options`: falsy options map to nothing; otherwise exactly
      `delay`, `button` and `click_count`, with their defaults. */
  function MapClickOptions(opts: Json): (r: Result<map<string, Json>>)
    ensures !Truthy(opts) ==> r == Ok(map[])
    ensures Truthy(opts) ==> (r.Ok? <==> opts.Obj?)
    ensures r.Ok? && Truthy(opts) ==>
      r.value.Keys == {"delay", "button", "click_count"} &&
      r.value["delay"] == GetOr(opts.fields, "delay", Float(0.0)) &&
      r.value["button"] == GetOr(opts.fields, "button", Str("left")) &&
      r.value["click_count"] == GetOr(opts.fields, "clickCount", Int(1))
  {
    if !Truthy(opts) then Ok(map[])
    else if !opts.Obj? then Err(AttributeError("get"))
    else
      var f := opts.fields;
      Ok(map["delay" := GetOr(f, "delay", Float(0.0)), "button" := GetOr(f, "button", Str("left")),
             "click_count" := GetOr(f, "clickCount", Int(1))])
  }

  // ---------------------------------------------------------------------
  // Handlers

  /** The endpoints in the manager's action map: every catalog tag except
      `compose`. */
  const HandledTags: set<string> := CatalogTags - {"compose"}

  /** The page operations of the driver, returning the page's HTML or the
      screenshot. */
  type Drive = (string, PuppeteerRequest, Handle, map<string, Json>) -> Result<Json>

  /** The options a handler passes to the page: the mapped navigation
      options for navigation, the mapped click options for a click. */
  function DriverOptions(a: Action): (r: Result<map<string, Json>>)
    ensures (a.GoTo? || a.GoBack? || a.GoForward?) ==> r == MapNavigationOptions(a.navigationOptions)
    ensures a.Click? ==> r == MapClickOptions(a.clickOptions)
    ensures !(a.GoTo? || a.GoBack? || a.GoForward? || a.Click?) ==> r == Ok(map[])
  {
    match a
    case GoTo(_, nav, _, _) => MapNavigationOptions(nav)
    case GoBack(nav, _) => MapNavigationOptions(nav)
    case GoForward(nav, _) => MapNavigationOptions(nav)
    case Click(_, click, _, _) => MapClickOptions(click)
    case _ => Ok(map[])
  }

  /** What `process_request` gives back. `Closed` and `NoRoute` are the
      same Python value, None; they are told apart here only to state what
      happened. */
  datatype Handled = Responded(response: PuppeteerResponse) | Closed | NoRoute

  /** A handler on a page of the given context: the screenshot handler
      answers with a screenshot, the others with the page's HTML, under the
      request's url (the GoTo's own url for a navigation). */
  function RunHandler(preq: PuppeteerRequest, page: Handle, contextId: string, pageId: string, drive: Drive): (r: Result<Handled>)
    ensures DriverOptions(preq.action).Err? ==> r == Err(DriverOptions(preq.action).error)
    ensures r.Ok? ==>
      r.value.Responded? &&
      r.value.response.contextId == Some(contextId) && r.value.response.pageId == Some(pageId) &&
      r.value.response.puppeteerRequest == preq &&
      r.value.response.url == (if preq.action.GoTo? then preq.action.url else preq.url) &&
      (r.value.response.content.ScreenshotContent? <==> preq.action.Screenshot?)
  {
    var opts :- DriverOptions(preq.action);
    var value :- drive(Endpoint(preq.action), preq, page, opts);
    var url := if preq.action.GoTo? then preq.action.url else preq.url;
    var content := if preq.action.Screenshot? then ScreenshotContent(value) else HtmlContent(value, Null, value);
    Ok(Responded(PuppeteerResponse(url, preq, Some(contextId), Some(pageId), preq.meta, content)))
  }

  class PlaywrightBrowserManager {
    const contextManager: ContextManager

    predicate Valid()
      reads this, contextManager
    {
      contextManager.Valid()
    }

    constructor()
      ensures Valid()
      ensures contextManager.contexts == map[] && contextManager.pages == map[] && contextManager.context2page == map[]
    {
      contextManager := new ContextManager();
    }

    /** `process_request`: a Puppeteer request whose endpoint has a handler
        runs it (the three the local mode lacks fail); a close request
        closes its contexts; anything else has no route. */
    method ProcessRequest(r: ManagedRequest, drive: Drive, newContext: Handle, newPage: Handle)
      returns (out: Result<Handled>)
      requires Valid()
      modifies contextManager
      ensures Valid()
      ensures (r.OtherRequest? || (r.Puppeteer? && Endpoint(r.request.action) !in HandledTags)) ==>
        out == Ok(NoRoute) && unchanged(contextManager)
      ensures r.Puppeteer? && Endpoint(r.request.action) in UnavailableLocally ==>
        out == Err(ValueError(UnavailableMessage(Endpoint(r.request.action)))) && unchanged(contextManager)
      ensures r.CloseRequest? ==> (out == Ok(Closed) &&
        var ids := ListedIds(r.close.contexts);
        contextManager.contexts == old(contextManager.contexts) - ids &&
        contextManager.context2page == old(contextManager.context2page) - ids &&
        contextManager.pages == old(contextManager.pages) - PagesOf(old(contextManager.context2page), ids))
      ensures r.Puppeteer? && Endpoint(r.request.action) in HandledTags - UnavailableLocally ==>
        var preq := r.request;
        (TruthyId(preq.contextId) && TruthyId(preq.pageId) ==>
          contextManager.contexts == old(contextManager.contexts) && contextManager.pages == old(contextManager.pages) &&
          contextManager.context2page == old(contextManager.context2page) &&
          out == (if preq.pageId.value in contextManager.pages
                  then RunHandler(preq, contextManager.pages[preq.pageId.value], preq.contextId.value, preq.pageId.value, drive)
                  else Err(KeyError(preq.pageId.value)))) &&
        (!(TruthyId(preq.contextId) && TruthyId(preq.pageId)) ==>
          exists c, p :: c !in old(contextManager.contexts) && p !in old(contextManager.pages) &&
            contextManager.contexts == old(contextManager.contexts)[c := newContext] &&
            contextManager.pages == old(contextManager.pages)[p := newPage] &&
            contextManager.context2page == old(contextManager.context2page)[c := p] &&
            out == RunHandler(preq, newPage, c, p, drive))
    {
      match r {
        case Puppeteer(preq) =>
          var endpoint := Endpoint(preq.action);
          if endpoint !in HandledTags {
            return Ok(NoRoute);
          }
          if endpoint in UnavailableLocally {
            return Err(ValueError(UnavailableMessage(endpoint)));
          }
          var c, p := contextManager.CheckContextAndPage(preq.contextId, preq.pageId, newContext, newPage);
          var page := contextManager.PageById(c, p);
          if page.Err? {
            return Err(page.error);
          }
          out := RunHandler(preq, page.value, c, p, drive);
        case CloseRequest(close) =>
          contextManager.CloseContexts(close.contexts);
          out := Ok(Closed);
        case OtherRequest =>
          out := Ok(NoRoute);
      }
    }
  }
}
