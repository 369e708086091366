/** The response envelopes (scrapypuppeteer/response.py) and `follow`, which
    continues a browser session from a response. */
module Response {
  import opened Common
  import opened Json
  import opened Actions
  import opened Request

  /** The class a response is built as. `RecaptchaSolverResponse` is chosen
      by the browser-manager classification only. */
  datatype ResponseClass = HtmlResponse | ScreenshotResponse | JsonResponse | RecaptchaSolverResponse

  /** What each class keeps besides the common attributes: an HTML page with
      its cookies and body, a screenshot, or the remaining reply data. */
  datatype Content =
    | HtmlContent(html: Json, cookies: Json, body: Json)
    | ScreenshotContent(screenshot: Json)
    | JsonContent(data: map<string, Json>)
    | SolverContent(data: map<string, Json>)

  /** A response to a Puppeteer request. `meta` is the response's meta
      dictionary, as Scrapy exposes it from the request that produced it. */
  datatype PuppeteerResponse = PuppeteerResponse(
    url: string,
    puppeteerRequest: PuppeteerRequest,
    contextId: Option<string>,
    pageId: Option<string>,
    meta: map<string, Json>,
    content: Content)

  function ClassOf(r: PuppeteerResponse): ResponseClass {
    match r.content
    case HtmlContent(_, _, _) => HtmlResponse
    case ScreenshotContent(_) => ScreenshotResponse
    case JsonContent(_) => JsonResponse
    case SolverContent(_) => RecaptchaSolverResponse
  }

  /** Keyword parameters of Scrapy's `Response` besides `url` and `request`. */
  const ScrapyKeywords: set<string> := {"status", "headers", "body", "flags", "certificate", "ip_address", "protocol"}

  /** `TextResponse` also takes an encoding. */
  const TextKeywords: set<string> := ScrapyKeywords + {"encoding"}

  /** Scrapy's `Response.attributes`. */
  const ScrapyAttributes: set<string> := {"url", "request"} + ScrapyKeywords

  /** The keywords every response constructor call names explicitly. */
  const CallKeywords: set<string> := {"url", "puppeteer_request", "context_id", "page_id", "request"}

  /** The class's `attributes` tuple, as a set of names. */
  function Attributes(cls: ResponseClass): set<string> {
    var common := ScrapyAttributes + {"puppeteer_request", "context_id", "page_id"};
    match cls
    case HtmlResponse => common + {"html", "cookies"}
    case ScreenshotResponse => common + {"screenshot"}
    case JsonResponse => common + {"data"}
    case RecaptchaSolverResponse => common + {"data"}
  }

  /** `cls(url=url, puppeteer_request=preq, context_id=ctx, page_id=page,
      request=request, **kwargs)`, where `request` is `None` when the
      keyword is not given. An HTML response takes its html and cookies out
      of the keywords and its body defaults to the html; a screenshot
      response takes its screenshot; a JSON response reads the `request`
      keyword and keeps it, with every remaining keyword, as data. Keywords
      Scrapy does not know are rejected. */
  function NewResponse(cls: ResponseClass, url: string, preq: PuppeteerRequest, ctx: Option<string>,
                       page: Option<string>, meta: map<string, Json>, request: Option<Json>,
                       kwargs: map<string, Json>): (r: Result<PuppeteerResponse>)
    ensures r.Ok? ==> ClassOf(r.value) == cls && r.value.url == url && r.value.puppeteerRequest == preq &&
                      r.value.contextId == ctx && r.value.pageId == page && r.value.meta == meta
    ensures kwargs.Keys * CallKeywords != {} ==> r.Err? && r.error.TypeError?
    ensures cls == HtmlResponse ==>
      (r.Ok? <==> kwargs.Keys * CallKeywords == {} && "html" in kwargs && "cookies" in kwargs &&
                   kwargs.Keys - {"html", "cookies"} <= TextKeywords)
    ensures cls == HtmlResponse && r.Ok? ==>
      r.value.content.html == kwargs["html"] && r.value.content.cookies == kwargs["cookies"] &&
      r.value.content.body == (if "body" in kwargs then kwargs["body"] else kwargs["html"])
    ensures cls == ScreenshotResponse ==>
      (r.Ok? <==> kwargs.Keys * CallKeywords == {} && "screenshot" in kwargs &&
                   kwargs.Keys - {"screenshot"} <= ScrapyKeywords)
    ensures cls == ScreenshotResponse && r.Ok? ==> r.value.content.screenshot == kwargs["screenshot"]
    ensures (cls == JsonResponse || cls == RecaptchaSolverResponse) ==>
      (r.Ok? <==> kwargs.Keys * CallKeywords == {} && request.Some?)
    ensures (cls == JsonResponse || cls == RecaptchaSolverResponse) && kwargs.Keys * CallKeywords == {} && request.None? ==>
      r == Err(KeyError("request"))
    ensures (cls == JsonResponse || cls == RecaptchaSolverResponse) && r.Ok? ==>
      r.value.content.data.Keys == kwargs.Keys + {"request"} && r.value.content.data["request"] == request.value &&
      forall k :: k in kwargs ==> r.value.content.data[k] == kwargs[k]
  {
    if kwargs.Keys * CallKeywords != {} then Err(TypeError("got multiple values for keyword argument"))
    else
      match cls
      case HtmlResponse =>
        if "html" !in kwargs then Err(KeyError("html"))
        else if "cookies" !in kwargs then Err(KeyError("cookies"))
        else if !(kwargs.Keys - {"html", "cookies"} <= TextKeywords) then Err(TypeError("unexpected keyword argument"))
        else
          var html := kwargs["html"];
          Ok(PuppeteerResponse(url, preq, ctx, page, meta, HtmlContent(html, kwargs["cookies"], GetOr(kwargs, "body", html))))
      case ScreenshotResponse =>
        if "screenshot" !in kwargs then Err(KeyError("screenshot"))
        else if !(kwargs.Keys - {"screenshot"} <= ScrapyKeywords) then Err(TypeError("unexpected keyword argument"))
        else Ok(PuppeteerResponse(url, preq, ctx, page, meta, ScreenshotContent(kwargs["screenshot"])))
      case JsonResponse =>
        if request.None? then Err(KeyError("request"))
        else
          assert "request" !in kwargs by {
            assert "request" in CallKeywords && "request" !in kwargs.Keys * CallKeywords;
          }
          Ok(PuppeteerResponse(url, preq, ctx, page, meta, JsonContent(kwargs["request" := request.value])))
      case RecaptchaSolverResponse =>
        if request.None? then Err(KeyError("request"))
        else
          assert "request" !in kwargs by {
            assert "request" in CallKeywords && "request" !in kwargs.Keys * CallKeywords;
          }
          Ok(PuppeteerResponse(url, preq, ctx, page, meta, SolverContent(kwargs["request" := request.value])))
  }

  // ---------------------------------------------------------------------
  // follow

  /** `response.follow(action, close_page, accumulate_meta, **kwargs)`: the
      next request in the same browser context. The page is reused only when
      the request that produced this response kept it open. A url (or a
      GoTo's url) is resolved against the response url by `join`; any other
      action runs at the response url and bypasses the duplicate filter. */
  function Follow(resp: PuppeteerResponse, action: ActionArg, closePage: bool, accumulateMeta: bool,
                  includeHeaders: HeaderPolicy, kw: Kwargs, join: (string, string) -> string): (r: Result<PuppeteerRequest>)
    ensures r.Ok? ==> r.value.contextId == resp.contextId
    ensures r.Ok? ==> (r.value.pageId == if resp.puppeteerRequest.closePage then None else resp.pageId)
    ensures r.Ok? ==> r.value.closePage == closePage && r.value.includeHeaders == includeHeaders
    ensures r.Ok? ==> r.value.meta == if accumulateMeta then resp.meta + kw.meta else kw.meta
    ensures action.UrlArg? ==>
      r.Ok? && r.value.url == join(resp.url, action.url) &&
      r.value.action == GoTo(join(resp.url, action.url), kw.navigationOptions.GetOr(Null), kw.waitOptions.GetOr(Null), false)
    ensures action.ActionValue? && action.action.GoTo? && r.Ok? ==>
      r.value.url == join(resp.url, action.action.url) &&
      r.value.action == action.action.(url := join(resp.url, action.action.url))
    ensures action.ActionValue? && !action.action.GoTo? && r.Ok? ==>
      r.value.url == resp.url && r.value.dontFilter && r.value.action == action.action
    ensures r.Err? <==>
      action.OtherValue? || (action.ActionValue? && (kw.navigationOptions.Some? || kw.waitOptions.Some?))
  {
    var pageId := if resp.puppeteerRequest.closePage then None else resp.pageId;
    var (next, kw1) :=
      match action
      case UrlArg(u) => (UrlArg(join(resp.url, u)), kw)
      case ActionValue(a) =>
        if a.GoTo? then (ActionValue(a.(url := join(resp.url, a.url))), kw)
        else (action, kw.(url := Some(resp.url), dontFilter := true))
      case OtherValue => (action, kw.(url := Some(resp.url), dontFilter := true));
    var kw2 := if accumulateMeta then kw1.(meta := resp.meta + kw1.meta) else kw1;
    NewRequest(next, resp.contextId, pageId, closePage, includeHeaders, kw2)
  }

  /** Following from a response to a request that closed its page never
      names that page again, and following from one that kept the page open
      targets the same page in the same context. */
  lemma FollowSession(resp: PuppeteerResponse, action: ActionArg, closePage: bool, accumulateMeta: bool,
                      includeHeaders: HeaderPolicy, kw: Kwargs, join: (string, string) -> string)
    requires Follow(resp, action, closePage, accumulateMeta, includeHeaders, kw, join).Ok?
    ensures var next := Follow(resp, action, closePage, accumulateMeta, includeHeaders, kw, join).value;
      (next.pageId.Some? ==> !resp.puppeteerRequest.closePage && next.pageId == resp.pageId) &&
      next.contextId == resp.contextId
  {
  }

  /** With `accumulate_meta`, the supplied meta wins over the response's. */
  lemma FollowMetaPrecedence(resp: PuppeteerResponse, action: ActionArg, closePage: bool,
                             includeHeaders: HeaderPolicy, kw: Kwargs, join: (string, string) -> string, k: string)
    requires Follow(resp, action, closePage, true, includeHeaders, kw, join).Ok?
    requires k in resp.meta || k in kw.meta
    ensures var next := Follow(resp, action, closePage, true, includeHeaders, kw, join).value;
      k in next.meta && next.meta[k] == if k in kw.meta then kw.meta[k] else resp.meta[k]
  {
  }

  // ---------------------------------------------------------------------
  // replace

  /** The attributes `replace` may be given; `None` keeps the response's own. */
  datatype ResponseOverrides = ResponseOverrides(
    url: Option<string>,
    puppeteerRequest: Option<PuppeteerRequest>,
    contextId: Option<Option<string>>,
    pageId: Option<Option<string>>,
    body: Option<Json>,
    data: Option<map<string, Json>>)

  const NoResponseOverrides := ResponseOverrides(None, None, None, None, None, None)

  /** The Scrapy attributes a JSON response holds after construction: it
      passes only its headers and request to Scrapy, so the rest are
      Scrapy's defaults. */
  const JsonStored: map<string, Json> := map[
    "status" := Int(200),
    "headers" := Obj(map["Content-Type" := Str("application/json")]),
    "body" := Str(""),
    "flags" := Arr([]),
    "certificate" := Null,
    "ip_address" := Null,
    "protocol" := Null]

  /** The keywords a response constructor names as parameters. */
  const NamedKeywords: set<string> := {"url", "puppeteer_request", "context_id", "page_id"}

  /** The data of `PuppeteerJsonResponse.replace`: the keywords are the
      explicit ones, then every attribute of the response (its `request`
      among them), then the entries of data; the constructor moves the four
      named ones out again. */
  function JsonReplaceData(data: map<string, Json>, request: Json, body: Option<Json>): (r: map<string, Json>)
    ensures r.Keys == (data.Keys - NamedKeywords) + JsonStored.Keys + {"request"}
    ensures "request" in r && r["request"] == request
    ensures "body" in r && r["body"] == body.GetOr(Str(""))
    ensures forall k :: k in JsonStored && k != "body" ==> k in r && r[k] == JsonStored[k]
    ensures forall k :: k in data && k !in JsonStored && k !in NamedKeywords && k != "request" ==>
      k in r && r[k] == data[k]
  {
    var stored := JsonStored["request" := request];
    var attrs := if body.Some? then stored["body" := body.value] else stored;
    assert attrs.Keys == JsonStored.Keys + {"request"};
    assert "request" !in NamedKeywords && "body" !in NamedKeywords;
    assert forall k :: k in JsonStored ==> k !in NamedKeywords;
    var merged := data + attrs;
    map k | k in merged && k !in NamedKeywords :: merged[k]
  }

  /** `response.replace(**overrides)`. Scrapy's `replace` copies every
      attribute not overridden into the constructor call; for a JSON
      response the data entries come first and are overridden by the
      attributes and the explicit keywords. A JSON response's `request`
      attribute is the one its constructor kept in its data. */
  function Replace(resp: PuppeteerResponse, o: ResponseOverrides): (r: Result<PuppeteerResponse>)
    ensures r.Ok? ==>
      ClassOf(r.value) == ClassOf(resp) &&
      r.value.url == o.url.GetOr(resp.url) &&
      r.value.puppeteerRequest == o.puppeteerRequest.GetOr(resp.puppeteerRequest) &&
      r.value.contextId == o.contextId.GetOr(resp.contextId) &&
      r.value.pageId == o.pageId.GetOr(resp.pageId) &&
      r.value.meta == resp.meta
    ensures r.Err? <==> o.data.Some? && (resp.content.HtmlContent? || resp.content.ScreenshotContent?)
    ensures resp.content.HtmlContent? && r.Ok? ==>
      r.value.content == resp.content.(body := o.body.GetOr(resp.content.body))
    ensures resp.content.ScreenshotContent? && r.Ok? ==> r.value.content == resp.content
    ensures (resp.content.JsonContent? || resp.content.SolverContent?) ==>
      r.Ok? && r.value.content.data == JsonReplaceData(o.data.GetOr(resp.content.data), Get(resp.content.data, "request"), o.body)
  {
    var url := o.url.GetOr(resp.url);
    var preq := o.puppeteerRequest.GetOr(resp.puppeteerRequest);
    var ctx := o.contextId.GetOr(resp.contextId);
    var page := o.pageId.GetOr(resp.pageId);
    match resp.content
    case HtmlContent(html, cookies, body) =>
      if o.data.Some? then Err(TypeError("unexpected keyword argument 'data'"))
      else Ok(PuppeteerResponse(url, preq, ctx, page, resp.meta, HtmlContent(html, cookies, o.body.GetOr(body))))
    case ScreenshotContent(_) =>
      if o.data.Some? then Err(TypeError("unexpected keyword argument 'data'"))
      else Ok(PuppeteerResponse(url, preq, ctx, page, resp.meta, resp.content))
    case JsonContent(data) =>
      Ok(PuppeteerResponse(url, preq, ctx, page, resp.meta, JsonContent(JsonReplaceData(o.data.GetOr(data), Get(data, "request"), o.body))))
    case SolverContent(data) =>
      Ok(PuppeteerResponse(url, preq, ctx, page, resp.meta, SolverContent(JsonReplaceData(o.data.GetOr(data), Get(data, "request"), o.body))))
  }

  /** Replacing a JSON response's data twice without overrides changes
      nothing the second time: the stored attributes are folded into the data
      once. */
  lemma JsonReplaceIdempotent(data: map<string, Json>, request: Json)
    ensures JsonReplaceData(JsonReplaceData(data, request, None), request, None) == JsonReplaceData(data, request, None)
  {
    var once := JsonReplaceData(data, request, None);
    var twice := JsonReplaceData(once, request, None);
    forall k | k in twice ensures k in once && twice[k] == once[k] {
      if k !in JsonStored && k != "request" {
        assert k in once;
      }
    }
    assert twice.Keys == once.Keys;
  }

  /** A JSON response keeps the request it was built for through `replace`,
      even when the replacement data does not mention it. */
  lemma JsonReplaceKeepsRequest(cls: ResponseClass, url: string, preq: PuppeteerRequest, ctx: Option<string>,
                                page: Option<string>, meta: map<string, Json>, request: Json,
                                kwargs: map<string, Json>, o: ResponseOverrides)
    requires cls == JsonResponse || cls == RecaptchaSolverResponse
    requires NewResponse(cls, url, preq, ctx, page, meta, Some(request), kwargs).Ok?
    ensures var resp := NewResponse(cls, url, preq, ctx, page, meta, Some(request), kwargs).value;
      var data := Replace(resp, o).value.content.data;
      "request" in data && data["request"] == request
  {
    var resp := NewResponse(cls, url, preq, ctx, page, meta, Some(request), kwargs).value;
    assert Get(resp.content.data, "request") == request;
  }

  /** An empty `replace` rebuilds an HTML or screenshot response
      unchanged. */
  lemma HtmlReplaceNothing(resp: PuppeteerResponse)
    requires resp.content.HtmlContent? || resp.content.ScreenshotContent?
    ensures Replace(resp, NoResponseOverrides) == Ok(resp)
  {
  }
}
