/** `PuppeteerRequest` (scrapypuppeteer/request.py): a Scrapy request that
    carries a browser action and the session it runs in. */
module Request {
  import opened Common
  import opened Json
  import opened Actions

  /** Which headers the backend forwards: None (let the middleware decide),
      a boolean, or a list of header names. */
  datatype HeaderPolicy = Unset | AllHeaders(all: bool) | Listed(names: seq<string>)

  /** The attributes of a request that the model keeps: the Scrapy ones it
      uses (url, meta, dont_filter, headers) and the five of its own.
      Scrapy's headers are case-insensitive, so `headers` is keyed by the
      lower-cased header name. */
  datatype PuppeteerRequest = PuppeteerRequest(
    url: string,
    action: Action,
    contextId: Option<string>,
    pageId: Option<string>,
    closePage: bool,
    includeHeaders: HeaderPolicy,
    meta: map<string, Json>,
    dontFilter: bool,
    headers: map<string, string>)

  /** The first constructor argument: a URL string, an action, or a value of
      any other type. */
  datatype ActionArg = UrlArg(url: string) | ActionValue(action: Action) | OtherValue

  /** The keyword arguments the constructor inspects or passes on to Scrapy.
      `navigationOptions`/`waitOptions` are `Some` when the keyword is given
      (possibly as None, i.e. `Some(Null)`). */
  datatype Kwargs = Kwargs(
    url: Option<string>,
    navigationOptions: Option<Json>,
    waitOptions: Option<Json>,
    meta: map<string, Json>,
    dontFilter: bool,
    headers: map<string, string>)

  /** Keyword arguments that set nothing. */
  const NoKwargs := Kwargs(None, None, None, map[], false, map[])

  /** A request whose url agrees with its navigation target. */
  predicate Consistent(r: PuppeteerRequest) {
    r.action.GoTo? ==> r.url == r.action.url
  }

  /** The url a request gets from its action and the `url` keyword: a string
      is the url, a GoTo supplies its own, anything else needs the keyword. */
  function TargetUrl(action: ActionArg, url: Option<string>): Option<string> {
    match action
    case UrlArg(u) => Some(u)
    case ActionValue(a) => if a.GoTo? then Some(a.url) else url
    case OtherValue => url
  }

  /** `PuppeteerRequest(action, context_id, page_id, close_page,
      include_headers, **kwargs)`. The navigation and wait keywords are
      consumed only for a string action; otherwise Scrapy's constructor
      rejects them as unexpected. */
  function NewRequest(action: ActionArg, contextId: Option<string>, pageId: Option<string>,
                      closePage: bool, includeHeaders: HeaderPolicy, kw: Kwargs): (r: Result<PuppeteerRequest>)
    ensures action.OtherValue? ==> r == Err(ValueError("Undefined browser action"))
    ensures action.ActionValue? && TargetUrl(action, kw.url).None? ==>
      r == Err(ValueError("Request is not a goto-request and does not follow a response"))
    ensures r.Err? <==>
      action.OtherValue? || TargetUrl(action, kw.url).None? ||
      (!action.UrlArg? && (kw.navigationOptions.Some? || kw.waitOptions.Some?))
    ensures action.UrlArg? ==>
      r.Ok? && r.value.url == action.url &&
      r.value.action == GoTo(action.url, kw.navigationOptions.GetOr(Null), kw.waitOptions.GetOr(Null), false)
    ensures action.ActionValue? && r.Ok? ==>
      r.value.action == action.action &&
      (if action.action.GoTo? then r.value.url == action.action.url else Some(r.value.url) == kw.url)
    ensures r.Ok? ==> Consistent(r.value)
    ensures r.Ok? ==>
      r.value.contextId == contextId && r.value.pageId == pageId && r.value.closePage == closePage &&
      r.value.includeHeaders == includeHeaders && r.value.meta == kw.meta &&
      r.value.dontFilter == kw.dontFilter && r.value.headers == kw.headers
  {
    match action
    case OtherValue => Err(ValueError("Undefined browser action"))
    case UrlArg(u) =>
      var goto := GoTo(u, kw.navigationOptions.GetOr(Null), kw.waitOptions.GetOr(Null), false);
      Ok(PuppeteerRequest(u, goto, contextId, pageId, closePage, includeHeaders, kw.meta, kw.dontFilter, kw.headers))
    case ActionValue(a) =>
      var url := TargetUrl(action, kw.url);
      if url.None? then Err(ValueError("Request is not a goto-request and does not follow a response"))
      else if kw.navigationOptions.Some? || kw.waitOptions.Some? then Err(TypeError("unexpected keyword argument"))
      else Ok(PuppeteerRequest(url.value, a, contextId, pageId, closePage, includeHeaders, kw.meta, kw.dontFilter, kw.headers))
  }

  /** `PuppeteerRequest(action, **kwargs)` with the default session
      arguments: no session, the page closes afterwards, and the header
      policy is left to the middleware. */
  function Make(action: ActionArg, kw: Kwargs): (r: Result<PuppeteerRequest>)
    ensures r.Ok? ==> r.value.contextId.None? && r.value.pageId.None?
    ensures r.Ok? ==> r.value.closePage && r.value.includeHeaders == Unset
  {
    NewRequest(action, None, None, true, Unset, kw)
  }

  /** The attributes `replace` may be given; `None` keeps the request's own. */
  datatype Overrides = Overrides(
    url: Option<string>,
    action: Option<Action>,
    contextId: Option<Option<string>>,
    pageId: Option<Option<string>>,
    closePage: Option<bool>,
    includeHeaders: Option<HeaderPolicy>,
    meta: Option<map<string, Json>>,
    dontFilter: Option<bool>)

  const NoOverrides := Overrides(None, None, None, None, None, None, None, None)

  /** `request.replace(**overrides)`: every attribute not overridden is copied
      from the request, and the constructor runs again. */
  function Replace(r: PuppeteerRequest, o: Overrides): (res: Result<PuppeteerRequest>)
    ensures res.Ok?
    ensures res.value.action == o.action.GetOr(r.action)
    ensures res.value.url == (if res.value.action.GoTo? then res.value.action.url else o.url.GetOr(r.url))
    ensures res.value.contextId == o.contextId.GetOr(r.contextId)
    ensures res.value.pageId == o.pageId.GetOr(r.pageId)
    ensures res.value.closePage == o.closePage.GetOr(r.closePage)
    ensures res.value.includeHeaders == o.includeHeaders.GetOr(r.includeHeaders)
    ensures res.value.meta == o.meta.GetOr(r.meta)
    ensures res.value.dontFilter == o.dontFilter.GetOr(r.dontFilter)
    ensures res.value.headers == r.headers
  {
    NewRequest(ActionValue(o.action.GetOr(r.action)), o.contextId.GetOr(r.contextId), o.pageId.GetOr(r.pageId),
               o.closePage.GetOr(r.closePage), o.includeHeaders.GetOr(r.includeHeaders),
               Kwargs(Some(o.url.GetOr(r.url)), None, None, o.meta.GetOr(r.meta), o.dontFilter.GetOr(r.dontFilter), r.headers))
  }

  /** Replacing nothing rebuilds the same request. */
  lemma ReplaceNothing(r: PuppeteerRequest)
    requires Consistent(r)
    ensures Replace(r, NoOverrides) == Ok(r)
  {
  }

  /** Every request the constructor accepts is rebuilt unchanged by an empty
      `replace`. */
  lemma NewRequestReplace(action: ActionArg, contextId: Option<string>, pageId: Option<string>,
                          closePage: bool, includeHeaders: HeaderPolicy, kw: Kwargs)
    requires NewRequest(action, contextId, pageId, closePage, includeHeaders, kw).Ok?
    ensures var r := NewRequest(action, contextId, pageId, closePage, includeHeaders, kw).value;
      Replace(r, NoOverrides) == Ok(r)
  {
    ReplaceNothing(NewRequest(action, contextId, pageId, closePage, includeHeaders, kw).value);
  }

  /** A url override does not move a navigation request: the GoTo's own url
      wins. */
  lemma ReplaceUrlOfGoTo(r: PuppeteerRequest, url: string)
    requires r.action.GoTo?
    ensures Replace(r, NoOverrides.(url := Some(url))).value.url == r.action.url
  {
  }
}
