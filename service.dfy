/** The wire protocol to the browser service and the routing of its replies:
    the service downloader middleware (scrapypuppeteer/middleware.py and its
    copy scrapypuppeteer/middleware/service.py) and the service browser
    manager (scrapypuppeteer/browser_manager.py). */
module Service {
  import opened Common
  import opened Json
  import opened Actions
  import opened Request
  import opened Response

  // ---------------------------------------------------------------------
  // Query parameters

  /** The value of a query parameter, if the list has it. */
  function Lookup(params: seq<(string, string)>, key: string): Option<string> {
    if params == [] then None
    else if params[0].0 == key then Some(params[0].1)
    else Lookup(params[1..], key)
  }

  lemma {:induction false} LookupAppend(a: seq<(string, string)>, b: seq<(string, string)>, key: string)
    ensures Lookup(a + b, key) == if Lookup(a, key).Some? then Lookup(a, key) else Lookup(b, key)
  {
    if a != [] {
      assert (a + b)[1..] == a[1..] + b;
      LookupAppend(a[1..], b, key);
    } else {
      assert a + b == b;
    }
  }

  /** `_encode_service_params` before url-encoding: the context id and the
      page id when they are not None, and closePage=1 when the page is to be
      closed. */
  function ServiceParams(r: PuppeteerRequest): (p: seq<(string, string)>)
    ensures Lookup(p, "contextId") == r.contextId
    ensures Lookup(p, "pageId") == r.pageId
    ensures Lookup(p, "closePage") == if r.closePage then Some("1") else None
    ensures forall i :: 0 <= i < |p| ==> p[i].0 in {"contextId", "pageId", "closePage"}
    ensures forall i, j :: 0 <= i < j < |p| ==> p[i].0 != p[j].0
  {
    var c := if r.contextId.Some? then [("contextId", r.contextId.value)] else [];
    var g := if r.pageId.Some? then [("pageId", r.pageId.value)] else [];
    var k := if r.closePage then [("closePage", "1")] else [];
    LookupAppend(c + g, k, "contextId");
    LookupAppend(c, g, "contextId");
    LookupAppend(c + g, k, "pageId");
    LookupAppend(c, g, "pageId");
    LookupAppend(c + g, k, "closePage");
    LookupAppend(c, g, "closePage");
    c + g + k
  }

  /** The service endpoint for a request: the action's endpoint resolved
      against the base url, with the encoded parameters as query string when
      there are any. `join` and `encode` stand for `urljoin` and
      `urlencode`. */
  function ServiceUrl(base: string, r: PuppeteerRequest, join: (string, string) -> string,
                      encode: seq<(string, string)> -> string): (url: string)
    ensures var query := encode(ServiceParams(r));
      url == join(base, Endpoint(r.action)) + (if query == "" then "" else "?" + query)
  {
    var url := join(base, Endpoint(r.action));
    var query := encode(ServiceParams(r));
    if query != "" then url + "?" + query else url
  }

  // ---------------------------------------------------------------------
  // Request body

  /** The body of a service request: a JSON object (before `json.dumps`) or
      the text of a JavaScript action. */
  datatype Body = JsonBody(obj: map<string, Json>) | TextBody(text: string)

  /** Python truthiness of a header policy; None is falsy. */
  predicate PolicyTruthy(p: HeaderPolicy) {
    match p
    case Unset => false
    case AllHeaders(all) => all
    case Listed(names) => names != []
  }

  /** The request's own header policy unless it is None. */
  function EffectivePolicy(r: PuppeteerRequest, default: HeaderPolicy): (p: HeaderPolicy)
    ensures !r.includeHeaders.Unset? ==> p == r.includeHeaders
    ensures r.includeHeaders.Unset? ==> p == default
  {
    if r.includeHeaders.Unset? then default else r.includeHeaders
  }

  /** `{h.lower(): headers[h] for h in names if h in headers}`, where
      `headers` is Scrapy's case-insensitive header dictionary: a listed
      name is looked up whatever its spelling, and every listed header that
      is present is sent under its lower-cased name with its value. Names
      that differ only in case find the same header, so their order does not
      matter. */
  function SelectHeaders(names: seq<string>, headers: map<string, string>): (r: map<string, string>)
    ensures r.Keys == set h | h in names && Lower(h) in headers :: Lower(h)
    ensures forall k :: k in r ==> r[k] == headers[k]
  {
    var found := set h | h in names && Lower(h) in headers :: Lower(h);
    map k | k in found :: headers[k]
  }

  /** A listed name finds its header whatever the spelling on either side:
      asking for `cookie` forwards the request's `Cookie` header. */
  lemma SelectHeadersIgnoresCase(names: seq<string>, headers: map<string, string>, h: string, stored: string)
    requires h in names && Lower(stored) == Lower(h) && Lower(stored) in headers
    ensures Lower(h) in SelectHeaders(names, headers)
    ensures SelectHeaders(names, headers)[Lower(h)] == headers[Lower(stored)]
  {
  }

  function HeadersJson(m: map<string, string>): (r: map<string, Json>)
    ensures r.Keys == m.Keys && forall k :: k in m ==> r[k] == Str(m[k])
  {
    map k | k in m :: Str(m[k])
  }

  /** The headers the backend is told to send, if any. */
  function ForwardedHeaders(p: HeaderPolicy, headers: map<string, string>): Option<map<string, Json>> {
    if !PolicyTruthy(p) then None
    else if p.Listed? then Some(HeadersJson(SelectHeaders(p.names, headers)))
    else Some(HeadersJson(headers))
  }

  /** `_serialize_body`. A JSON action sends its payload without top-level
      nulls, plus the meta proxy when truthy and the forwarded headers when
      the effective policy is truthy; a JavaScript action sends its script. */
  function SerializeBody(a: Action, r: PuppeteerRequest, default: HeaderPolicy): (b: Body)
    ensures a.CustomJsAction? ==> b == TextBody(a.jsAction)
    ensures !a.CustomJsAction? ==> b.JsonBody? && Payload(a).Obj?
    ensures !a.CustomJsAction? ==> forall k :: k in b.obj ==> b.obj[k] != Null
    ensures !a.CustomJsAction? ==>
      forall k :: k in Payload(a).fields && k != "proxy" && k != "headers" ==>
        (k in b.obj <==> Payload(a).fields[k] != Null) && (k in b.obj ==> b.obj[k] == Payload(a).fields[k])
    ensures !a.CustomJsAction? ==>
      b.obj.Keys == DropNulls(Payload(a).fields).Keys + (if Truthy(Get(r.meta, "proxy")) then {"proxy"} else {}) +
                    (if PolicyTruthy(EffectivePolicy(r, default)) then {"headers"} else {})
    ensures !a.CustomJsAction? && Truthy(Get(r.meta, "proxy")) ==> "proxy" in b.obj && b.obj["proxy"] == Get(r.meta, "proxy")
    ensures !a.CustomJsAction? ==>
      ("headers" in b.obj && "headers" !in Payload(a).fields ==> PolicyTruthy(EffectivePolicy(r, default)))
    ensures !a.CustomJsAction? && PolicyTruthy(EffectivePolicy(r, default)) ==>
      "headers" in b.obj && b.obj["headers"] == Obj(ForwardedHeaders(EffectivePolicy(r, default), r.headers).value)
    ensures !a.CustomJsAction? && EffectivePolicy(r, default).Listed? && PolicyTruthy(EffectivePolicy(r, default)) ==>
      b.obj["headers"].fields.Keys == SelectHeaders(EffectivePolicy(r, default).names, r.headers).Keys
  {
    PayloadShape(a);
    if ContentType(a) == JsonContentType then
      var payload := Payload(a);
      var body := DropNulls(payload.fields);
      var proxy := Get(r.meta, "proxy");
      var withProxy := if Truthy(proxy) then body["proxy" := proxy] else body;
      var forwarded := ForwardedHeaders(EffectivePolicy(r, default), r.headers);
      JsonBody(if forwarded.Some? then withProxy["headers" := Obj(forwarded.value)] else withProxy)
    else
      TextBody(Payload(a).s)
  }

  /** For an action of the catalog, whose payload never names `proxy` or
      `headers`, the body carries a proxy exactly when the meta proxy is
      truthy and headers exactly when the effective policy is truthy. */
  lemma ProxyAndHeadersOnlyWhenAsked(a: Action, r: PuppeteerRequest, default: HeaderPolicy)
    requires !a.CustomJsAction? && !a.Extension?
    ensures "proxy" in SerializeBody(a, r, default).obj <==> Truthy(Get(r.meta, "proxy"))
    ensures "headers" in SerializeBody(a, r, default).obj <==> PolicyTruthy(EffectivePolicy(r, default))
  {
    PayloadShape(a);
    assert "proxy" !in PayloadKeys(a) && "headers" !in PayloadKeys(a);
  }

  /** The request the middleware sends to the service in place of a
      Puppeteer request. Its meta always disables the proxy (the proxy
      travels in the body) and skips robots.txt; with `includeMeta` the
      request's own meta is merged underneath. */
  datatype ActionRequest = ActionRequest(
    url: string,
    action: Action,
    contentType: string,
    body: Body,
    dontFilter: bool,
    meta: map<string, Json>,
    puppeteerRequest: PuppeteerRequest)

  /** The service configuration; the base url must be given. */
  datatype ServiceConfig = ServiceConfig(baseUrl: string, includeHeaders: HeaderPolicy, includeMeta: bool)

  /** The middleware's `from_crawler` check and the service browser manager's
      constructor check: no base url is an error. */
  function MakeConfig(baseUrl: Option<string>, includeHeaders: HeaderPolicy, includeMeta: bool): (r: Result<ServiceConfig>)
    ensures r.Err? <==> baseUrl.None?
    ensures r.Ok? ==> r.value == ServiceConfig(baseUrl.value, includeHeaders, includeMeta)
  {
    if baseUrl.None? then Err(ValueError("Puppeteer service URL must be provided"))
    else Ok(ServiceConfig(baseUrl.value, includeHeaders, includeMeta))
  }

  const ServiceMeta: map<string, Json> := map["dont_obey_robotstxt" := Bool(true), "proxy" := Null]

  /** `process_request` of the middleware, and `process_puppeteer_request` of
      the service browser manager. */
  function ToActionRequest(cfg: ServiceConfig, r: PuppeteerRequest, join: (string, string) -> string,
                           encode: seq<(string, string)> -> string): (ar: ActionRequest)
    ensures ar.url == ServiceUrl(cfg.baseUrl, r, join, encode)
    ensures ar.action == r.action && ar.contentType == ContentType(r.action) && ar.puppeteerRequest == r
    ensures ar.body == SerializeBody(r.action, r, cfg.includeHeaders)
    ensures ar.dontFilter
    ensures "proxy" in ar.meta && ar.meta["proxy"] == Null
    ensures ar.meta.Keys == ServiceMeta.Keys + (if cfg.includeMeta then r.meta.Keys else {})
    ensures forall k :: k in ar.meta && k !in ServiceMeta ==> cfg.includeMeta && ar.meta[k] == r.meta[k]
  {
    var meta := if cfg.includeMeta then r.meta + ServiceMeta else ServiceMeta;
    ActionRequest(ServiceUrl(cfg.baseUrl, r, join, encode), r.action, ContentType(r.action),
                  SerializeBody(r.action, r, cfg.includeHeaders), true, meta, r)
  }

  // ---------------------------------------------------------------------
  // Response classification

  /** `_get_response_class` of the middleware. */
  function ServiceResponseClass(a: Action): (c: ResponseClass)
    ensures c == HtmlResponse <==> a.GoTo? || a.GoForward? || a.GoBack? || a.Click? || a.Scroll?
    ensures c == ScreenshotResponse <==> a.Screenshot?
    ensures c == JsonResponse <==> !(a.GoTo? || a.GoForward? || a.GoBack? || a.Click? || a.Scroll? || a.Screenshot?)
  {
    if a.GoTo? || a.GoForward? || a.GoBack? || a.Click? || a.Scroll? then HtmlResponse
    else if a.Screenshot? then ScreenshotResponse
    else JsonResponse
  }

  /** `_get_response_class` of the browser manager: the same, with its own
      class for RecaptchaSolver. */
  function ManagerResponseClass(a: Action): (c: ResponseClass)
    ensures c == RecaptchaSolverResponse <==> a.RecaptchaSolver?
  {
    if a.GoTo? || a.GoForward? || a.GoBack? || a.Click? || a.Scroll? then HtmlResponse
    else if a.Screenshot? then ScreenshotResponse
    else if a.RecaptchaSolver? then RecaptchaSolverResponse
    else JsonResponse
  }

  /** The two classifications differ only on RecaptchaSolver. */
  lemma ClassificationsAgree(a: Action)
    ensures !a.RecaptchaSolver? ==> ManagerResponseClass(a) == ServiceResponseClass(a)
    ensures a.RecaptchaSolver? ==> ServiceResponseClass(a) == JsonResponse
  {
  }

  // ---------------------------------------------------------------------
  // Replies

  /** A downloaded reply: whether it is text, its Content-Type header, its
      status and its decoded JSON object. */
  datatype Reply = Reply(isText: bool, contentType: string, status: int, data: map<string, Json>)

  /** What `process_response` hands on: the reply itself, the reply rebound
      to the request, a Puppeteer response, or an exception. */
  datatype Outcome = Unchanged | Rebound | Formed(response: PuppeteerResponse) | Failed(error: Error)

  /** A session id from a reply: a string, otherwise none. */
  function IdOf(j: Json): Option<string> {
    if j.Str? then Some(j.s) else None
  }

  /** A session id as it is stored in the used-contexts registry. */
  function IdJson(id: Option<string>): Json {
    if id.Some? then Str(id.value) else Null
  }

  /** `response_data.pop(key, fallback)`. */
  function PopId(data: map<string, Json>, key: string, fallback: Option<string>): Json {
    if key in data then data[key] else IdJson(fallback)
  }

  const IdKeys: set<string> := {"contextId", "pageId"}

  /** The reply without its session ids. */
  function Rest(data: map<string, Json>): (r: map<string, Json>)
    ensures r.Keys == data.Keys - IdKeys
    ensures forall k :: k in r ==> r[k] == data[k]
  {
    map k | k in data && k !in IdKeys :: data[k]
  }

  /** The reply fields that are not attributes of the class. */
  function Leftover(cls: ResponseClass, data: map<string, Json>): (r: map<string, Json>)
    ensures r.Keys == data.Keys - Attributes(cls)
    ensures forall k :: k in r ==> r[k] == data[k]
  {
    map k | k in data && k !in Attributes(cls) :: data[k]
  }

  /** The middleware's split of a reply into constructor keywords: the
      class's named attributes, and the leftover as `data` when there is
      any. */
  function SplitReply(cls: ResponseClass, data: map<string, Json>): (kw: map<string, Json>)
    ensures kw.Keys <= Attributes(cls) + {"data"}
    ensures forall k :: k in data && k in Attributes(cls) && k != "data" ==> k in kw && kw[k] == data[k]
    ensures Leftover(cls, data) != map[] ==> "data" in kw && kw["data"] == Obj(Leftover(cls, data))
    ensures Leftover(cls, data) == map[] ==> kw.Keys == data.Keys
  {
    var attrs := Attributes(cls);
    var named := map k | k in data && k in attrs :: data[k];
    var rest := Leftover(cls, data);
    assert rest == map[] ==> data.Keys <= attrs by {
      if rest == map[] {
        forall k | k in data ensures k in attrs {
          assert k !in rest.Keys;
        }
      }
    }
    if rest != map[] then named["data" := Obj(rest)] else named
  }

  /** Joining the leftover back into the named attributes gives the reply
      back, for a reply without a field of its own named `data`. */
  function Rejoin(kw: map<string, Json>): map<string, Json> {
    var named := map k | k in kw && k != "data" :: kw[k];
    if "data" in kw && kw["data"].Obj? then named + kw["data"].fields else named
  }

  lemma SplitReplyLossless(cls: ResponseClass, data: map<string, Json>)
    requires "data" !in data
    ensures Rejoin(SplitReply(cls, data)) == data
  {
    var kw := SplitReply(cls, data);
    var back := Rejoin(kw);
    assert "data" in kw ==> kw["data"] == Obj(Leftover(cls, data));
    forall k | k in data ensures k in back && back[k] == data[k] {
      if k !in Attributes(cls) {
        assert k in Leftover(cls, data);
      }
    }
    assert back.Keys == data.Keys;
  }

  /** The middleware's `_form_response`: session ids from the reply or else
      from the request, keywords split by the class, and `request` (the
      service request the reply answers) passed by name; the context id to
      record comes with it, recorded even when the constructor fails. */
  function ServiceForm(cls: ResponseClass, data: map<string, Json>, preq: PuppeteerRequest, request: Json,
                       meta: map<string, Json>): (r: (Result<PuppeteerResponse>, Json))
    ensures r.1 == if "contextId" in data then data["contextId"] else IdJson(preq.contextId)
    ensures r.0.Ok? ==>
      ClassOf(r.0.value) == cls && r.0.value.url == preq.url && r.0.value.puppeteerRequest == preq && r.0.value.meta == meta
    ensures r.0.Ok? ==>
      r.0.value.contextId == (if "contextId" in data then IdOf(data["contextId"]) else preq.contextId) &&
      r.0.value.pageId == (if "pageId" in data then IdOf(data["pageId"]) else preq.pageId)
    ensures (cls == JsonResponse || cls == RecaptchaSolverResponse) && r.0.Ok? ==>
      "request" in r.0.value.content.data && r.0.value.content.data["request"] == request
    ensures (cls == JsonResponse || cls == RecaptchaSolverResponse) && r.0.Ok? && "data" !in data ==>
      Rejoin(r.0.value.content.data - {"request"}) == Rest(data)
  {
    var ctx := PopId(data, "contextId", preq.contextId);
    var page := PopId(data, "pageId", preq.pageId);
    var kwargs := SplitReply(cls, Rest(data));
    assert "data" !in data ==> Rejoin(kwargs) == Rest(data) by {
      if "data" !in data {
        SplitReplyLossless(cls, Rest(data));
      }
    }
    var resp := NewResponse(cls, preq.url, preq, IdOf(ctx), IdOf(page), meta, Some(request), kwargs);
    assert (cls == JsonResponse || cls == RecaptchaSolverResponse) && resp.Ok? ==>
      resp.value.content.data - {"request"} == kwargs by {
      if (cls == JsonResponse || cls == RecaptchaSolverResponse) && resp.Ok? {
        DataWithoutRequest(cls, preq.url, preq, IdOf(ctx), IdOf(page), meta, request, kwargs);
      }
    }
    (resp, ctx)
  }

  /** The data of a JSON response, without the request, is its keywords. */
  lemma DataWithoutRequest(cls: ResponseClass, url: string, preq: PuppeteerRequest, ctx: Option<string>,
                           page: Option<string>, meta: map<string, Json>, request: Json, kwargs: map<string, Json>)
    requires cls == JsonResponse || cls == RecaptchaSolverResponse
    requires NewResponse(cls, url, preq, ctx, page, meta, Some(request), kwargs).Ok?
    ensures NewResponse(cls, url, preq, ctx, page, meta, Some(request), kwargs).value.content.data - {"request"} == kwargs
  {
    assert "request" in CallKeywords;
  }

  /** `BrowserManager._form_response`: ids as in the middleware, `request`
      passed by name, and every other reply field is a constructor
      keyword. */
  function ManagerForm(cls: ResponseClass, data: map<string, Json>, preq: PuppeteerRequest, request: Json,
                       meta: map<string, Json>): (r: (Result<PuppeteerResponse>, Json))
    ensures r.1 == if "contextId" in data then data["contextId"] else IdJson(preq.contextId)
    ensures r.0.Ok? ==>
      ClassOf(r.0.value) == cls && r.0.value.url == preq.url && r.0.value.puppeteerRequest == preq && r.0.value.meta == meta
    ensures r.0.Ok? ==>
      r.0.value.contextId == (if "contextId" in data then IdOf(data["contextId"]) else preq.contextId) &&
      r.0.value.pageId == (if "pageId" in data then IdOf(data["pageId"]) else preq.pageId)
    ensures (cls == JsonResponse || cls == RecaptchaSolverResponse) && r.0.Ok? ==>
      r.0.value.content.data == Rest(data)["request" := request]
    ensures Rest(data).Keys * CallKeywords != {} ==> r.0.Err? && r.0.error.TypeError?
  {
    var ctx := PopId(data, "contextId", preq.contextId);
    var page := PopId(data, "pageId", preq.pageId);
    (NewResponse(cls, preq.url, preq, IdOf(ctx), IdOf(page), meta, Some(request), Rest(data)), ctx)
  }

  predicate IsJsonReply(reply: Reply) {
    Occurs(reply.contentType, JsonContentType)
  }

  /** The routing decision common to both versions of `process_response`:
      only a JSON text reply to a Puppeteer request is turned into a
      Puppeteer response. */
  function Route(preq: Option<PuppeteerRequest>, reply: Reply): (o: Option<Outcome>)
    ensures o.None? <==> reply.isText && preq.Some? && Contains(reply.contentType, JsonContentType)
  {
    if !reply.isText || preq.None? then Some(Unchanged)
    else if !IsJsonReply(reply) then Some(Rebound)
    else None
  }

  function ToOutcome(r: Result<PuppeteerResponse>): Outcome {
    if r.Ok? then Formed(r.value) else Failed(r.error)
  }

  /** The middleware's `process_response`, with the context id it records
      (if any). A failed reply is handed on unchanged and records its context
      id when truthy; a successful one always records the context in use. */
  function ServiceProcess(preq: Option<PuppeteerRequest>, reply: Reply, request: Json, meta: map<string, Json>): (r: (Outcome, Option<Json>))
    ensures Route(preq, reply).Some? ==> r == (Route(preq, reply).value, None)
    ensures Route(preq, reply).None? && reply.status != 200 ==>
      r.0 == Unchanged && (r.1.Some? <==> Truthy(Get(reply.data, "contextId"))) &&
      (r.1.Some? ==> r.1.value == reply.data["contextId"])
    ensures Route(preq, reply).None? && reply.status == 200 ==>
      var f := ServiceForm(ServiceResponseClass(preq.value.action), reply.data, preq.value, request, meta);
      r == (ToOutcome(f.0), Some(f.1))
  {
    var routed := Route(preq, reply);
    if routed.Some? then (routed.value, None)
    else if reply.status != 200 then
      var ctx := Get(reply.data, "contextId");
      (Unchanged, if Truthy(ctx) then Some(ctx) else None)
    else
      var f := ServiceForm(ServiceResponseClass(preq.value.action), reply.data, preq.value, request, meta);
      (ToOutcome(f.0), Some(f.1))
  }

  /** Where the browser manager records a context id. */
  datatype Registry = MiddlewareRegistry | ManagerRegistry

  /** `BrowserManager.process_response` as written: the context id of a
      failed reply goes to the calling middleware's registry, that of a
      successful one to the manager's own. */
  function ManagerProcessAsWritten(preq: Option<PuppeteerRequest>, reply: Reply, request: Json, meta: map<string, Json>): (r: (Outcome, Option<(Registry, Json)>))
    ensures Route(preq, reply).None? && reply.status != 200 && Truthy(Get(reply.data, "contextId")) ==>
      r.1 == Some((MiddlewareRegistry, reply.data["contextId"]))
  {
    var routed := Route(preq, reply);
    if routed.Some? then (routed.value, None)
    else if reply.status != 200 then
      var ctx := Get(reply.data, "contextId");
      (Unchanged, if Truthy(ctx) then Some((MiddlewareRegistry, ctx)) else None)
    else
      var f := ManagerForm(ManagerResponseClass(preq.value.action), reply.data, preq.value, request, meta);
      (ToOutcome(f.0), Some((ManagerRegistry, f.1)))
  }

  /** `BrowserManager.process_response` with every context recorded where
      the manager's `close_used_contexts` looks for it. */
  function ManagerProcess(preq: Option<PuppeteerRequest>, reply: Reply, request: Json, meta: map<string, Json>): (r: (Outcome, Option<Json>))
    ensures Route(preq, reply).Some? ==> r == (Route(preq, reply).value, None)
    ensures Route(preq, reply).None? && reply.status != 200 ==>
      r.0 == Unchanged && (r.1.Some? <==> Truthy(Get(reply.data, "contextId")))
    ensures Route(preq, reply).None? && reply.status == 200 ==>
      var f := ManagerForm(ManagerResponseClass(preq.value.action), reply.data, preq.value, request, meta);
      r == (ToOutcome(f.0), Some(f.1))
    ensures var w := ManagerProcessAsWritten(preq, reply, request, meta);
      r.0 == w.0 && (r.1.Some? <==> w.1.Some?) && (r.1.Some? ==> r.1.value == w.1.value.1)
  {
    var w := ManagerProcessAsWritten(preq, reply, request, meta);
    (w.0, if w.1.Some? then Some(w.1.value.1) else None)
  }

  /** The service middleware records a failed reply's context where it
      flushes from; the browser manager as written does not. */
  lemma FailedContextLeaks(preq: PuppeteerRequest, request: Json)
    ensures var reply := Reply(true, JsonContentType, 422, map["contextId" := Str("C")]);
      ServiceProcess(Some(preq), reply, request, map[]).1 == Some(Str("C")) &&
      ManagerProcessAsWritten(Some(preq), reply, request, map[]).1 == Some((MiddlewareRegistry, Str("C"))) &&
      ManagerProcess(Some(preq), reply, request, map[]).1 == Some(Str("C"))
  {
    var reply := Reply(true, JsonContentType, 422, map["contextId" := Str("C")]);
    assert OccursAt(reply.contentType, JsonContentType, 0);
  }

  // ---------------------------------------------------------------------
  // Used-contexts registry

  /** The contexts recorded for a spider (a defaultdict of sets). */
  function Entry(used: map<int, set<Json>>, spider: int): set<Json> {
    if spider in used then used[spider] else {}
  }

  /** The request that asks the service to close contexts: posted to
      `/close_context` with the context list as JSON body. */
  datatype CloseContextRequest = CloseContextRequest(url: string, validUrl: bool, contexts: seq<Json>)

  /** Lists the elements of a set in some order, each once (Python's
      `list(set)`, whose order is unspecified). */
  method ListOf(s: set<Json>) returns (xs: seq<Json>)
    ensures |xs| == |s|
    ensures forall x :: x in xs <==> x in s
    ensures forall i, j :: 0 <= i < j < |xs| ==> xs[i] != xs[j]
  {
    xs := [];
    var rest := s;
    while rest != {}
      invariant rest <= s
      invariant forall x :: x in xs <==> x in s && x !in rest
      invariant forall i, j :: 0 <= i < j < |xs| ==> xs[i] != xs[j]
      invariant |xs| + |rest| == |s|
      decreases |rest|
    {
      var x :| x in rest;
      xs := xs + [x];
      rest := rest - {x};
    }
  }

  /** The service downloader middleware: its configuration and the
      per-spider used-contexts registry. */
  class ServiceMiddleware {
    const config: ServiceConfig
    var used: map<int, set<Json>>

    constructor(config: ServiceConfig)
      ensures this.config == config && used == map[]
    {
      this.config := config;
      used := map[];
    }

    /** `process_response`: hands on the outcome and records the context id
        the reply names. */
    method ProcessResponse(spider: int, preq: Option<PuppeteerRequest>, reply: Reply, request: Json, meta: map<string, Json>)
      returns (out: Outcome)
      modifies this
      ensures out == ServiceProcess(preq, reply, request, meta).0
      ensures var rec := ServiceProcess(preq, reply, request, meta).1;
        used == if rec.Some? then old(used)[spider := Entry(old(used), spider) + {rec.value}] else old(used)
    {
      var r := ServiceProcess(preq, reply, request, meta);
      if r.1.Some? {
        used := used[spider := Entry(used, spider) + {r.1.value}];
      }
      out := r.0;
    }

    /** `close_used_contexts`: one close request listing every recorded
        context of the spider, when there is any. The registry is not
        cleared; reading the defaultdict creates the spider's entry. */
    method CloseUsedContexts(spider: int, join: (string, string) -> string) returns (req: Option<CloseContextRequest>)
      modifies this
      ensures used == old(used)[spider := Entry(old(used), spider)]
      ensures req.None? <==> Entry(old(used), spider) == {}
      ensures req.Some? ==>
        req.value.url == join(config.baseUrl, "/close_context") && req.value.validUrl &&
        (forall x :: x in req.value.contexts <==> x in Entry(old(used), spider)) &&
        |req.value.contexts| == |Entry(old(used), spider)|
    {
      var contexts := ListOf(Entry(used, spider));
      used := used[spider := Entry(used, spider)];
      if contexts == [] {
        req := None;
      } else {
        req := Some(CloseContextRequest(join(config.baseUrl, "/close_context"), true, contexts));
      }
    }
  }

  /** A request to the service browser manager. */
  datatype ManagedRequest = CloseRequest(close: CloseContextRequest) | Puppeteer(request: PuppeteerRequest) | OtherRequest

  /** What the manager's `process_request` returns: a fixed-up close request,
      a service request, or None. */
  datatype Routed = RoutedClose(close: CloseContextRequest) | RoutedAction(action: ActionRequest) | NotHandled

  /** What `close_used_contexts` does: nothing, or schedule a close request
      and keep the spider open (`DontCloseSpider`). */
  datatype CloseOutcome = NothingToClose | DeferClose(request: CloseContextRequest)

  /** The service browser manager (scrapypuppeteer/browser_manager.py). */
  class ServiceBrowserManager {
    const config: ServiceConfig
    var used: map<int, set<Json>>

    constructor(config: ServiceConfig)
      ensures this.config == config && used == map[]
    {
      this.config := config;
      used := map[];
    }

    /** `process_request`: close requests first, then Puppeteer requests; a
        close request without a valid url is sent to the service's
        `/close_context`. */
    method ProcessRequest(r: ManagedRequest, join: (string, string) -> string,
                          encode: seq<(string, string)> -> string) returns (out: Routed)
      ensures r.CloseRequest? && !r.close.validUrl ==>
        out == RoutedClose(r.close.(url := join(config.baseUrl, "/close_context"), validUrl := true))
      ensures r.CloseRequest? && r.close.validUrl ==> out == NotHandled
      ensures r.Puppeteer? ==> out == RoutedAction(ToActionRequest(config, r.request, join, encode))
      ensures r.OtherRequest? ==> out == NotHandled
    {
      match r
      case CloseRequest(close) =>
        if !close.validUrl {
          out := RoutedClose(close.(url := join(config.baseUrl, "/close_context"), validUrl := true));
        } else {
          out := NotHandled;
        }
      case Puppeteer(request) =>
        out := RoutedAction(ToActionRequest(config, request, join, encode));
      case OtherRequest =>
        out := NotHandled;
    }

    /** `process_response`, recording every context id in this manager's
        registry. */
    method ProcessResponse(spider: int, preq: Option<PuppeteerRequest>, reply: Reply, request: Json, meta: map<string, Json>)
      returns (out: Outcome)
      modifies this
      ensures out == ManagerProcess(preq, reply, request, meta).0
      ensures var rec := ManagerProcess(preq, reply, request, meta).1;
        used == if rec.Some? then old(used)[spider := Entry(old(used), spider) + {rec.value}] else old(used)
    {
      var r := ManagerProcess(preq, reply, request, meta);
      if r.1.Some? {
        used := used[spider := Entry(used, spider) + {r.1.value}];
      }
      out := r.0;
    }

    /** `close_used_contexts`: takes the spider's entry out of the registry
        and, when it held contexts, schedules one close request for them
        all and keeps the spider open. */
    method CloseUsedContexts(spider: int) returns (out: CloseOutcome)
      modifies this
      ensures used == map s | s in old(used) && s != spider :: old(used)[s]
      ensures out.NothingToClose? <==> Entry(old(used), spider) == {}
      ensures out.DeferClose? ==>
        !out.request.validUrl &&
        (forall x :: x in out.request.contexts <==> x in Entry(old(used), spider)) &&
        |out.request.contexts| == |Entry(old(used), spider)|
    {
      var contexts := ListOf(Entry(used, spider));
      used := map s | s in used && s != spider :: used[s];
      if contexts == [] {
        out := NothingToClose;
      } else {
        out := DeferClose(CloseContextRequest("", false, contexts));
      }
    }
  }

  /** A context used by a successful reply is closed at shutdown: the flush
      names it, and routing the flushed request sends it to the service. */
  method CloseAfterUse(cfg: ServiceConfig, preq: PuppeteerRequest, reply: Reply, request: Json, join: (string, string) -> string,
                       encode: seq<(string, string)> -> string) returns (routed: Routed)
    requires Route(Some(preq), reply).None? && reply.status == 200
    ensures routed.RoutedClose? && routed.close.url == join(cfg.baseUrl, "/close_context")
    ensures PopId(reply.data, "contextId", preq.contextId) in routed.close.contexts
  {
    var ctx := PopId(reply.data, "contextId", preq.contextId);
    assert ManagerProcess(Some(preq), reply, request, map[]).1 == Some(ctx);
    var manager := new ServiceBrowserManager(cfg);
    var _ := manager.ProcessResponse(0, Some(preq), reply, request, map[]);
    assert ctx in Entry(manager.used, 0);
    var out := manager.CloseUsedContexts(0);
    routed := manager.ProcessRequest(CloseRequest(out.request), join, encode);
  }
}
