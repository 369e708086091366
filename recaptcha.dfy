/** The reCAPTCHA interceptor (scrapypuppeteer/middlewares/recaptcha.py and
    the near-identical class in scrapypuppeteer/middleware.py). After a page
    loads it runs a solver step on the same page, optionally clicks a submit
    button, and then hands back the original response rebuilt from the last
    step. Closing the page is deferred until the interceptor is done. */
module Recaptcha {
  import opened Common
  import opened Json
  import opened Actions
  import opened Request
  import opened Response

  // ---------------------------------------------------------------------
  // Configuration

  /** A value of the submit-selector table: a selector string, a Click
      action, or something else. */
  datatype SelectorValue = SelectorString(selector: string) | SelectorAction(action: Action) | SelectorOther

  /** The submit-selector setting: a table (domain fragment to selector, in
      insertion order), or a plain string that is not a dictionary. */
  datatype SelectorSetting = SelectorTable(entries: seq<(string, SelectorValue)>) | SelectorText(text: string)

  datatype RecaptchaConfig = RecaptchaConfig(solving: bool, selectors: seq<(string, Action)>)

  /** Which version's error a bad selector raises: TypeError in
      middlewares/recaptcha.py, ValueError in middleware.py. */
  datatype Version = Current | Legacy

  predicate AllClicks(selectors: seq<(string, Action)>) {
    forall i :: 0 <= i < |selectors| ==> selectors[i].1.Click?
  }

  /** Normalises the table: a string becomes `Click(selector)`, a Click is
      kept, anything else is an error. */
  function NormaliseSelectors(entries: seq<(string, SelectorValue)>, version: Version): (r: Result<seq<(string, Action)>>)
    ensures r.Ok? <==> forall i :: 0 <= i < |entries| ==>
      entries[i].1.SelectorString? || (entries[i].1.SelectorAction? && entries[i].1.action.Click?)
    ensures r.Ok? ==> |r.value| == |entries| && AllClicks(r.value)
    ensures r.Ok? ==> forall i :: 0 <= i < |entries| ==>
      (r.value[i].0 == entries[i].0 &&
       (entries[i].1.SelectorString? ==> r.value[i].1 == Click(entries[i].1.selector, Null, Null, Null)) &&
       (entries[i].1.SelectorAction? ==> r.value[i].1 == entries[i].1.action))
    ensures r.Err? ==> r.error == if version == Current then TypeError("Submit selector must be str or Click")
                                  else ValueError("Submit selector must be str or Click")
  {
    if entries == [] then Ok([])
    else
      var (domain, value) := entries[0];
      var head: Result<Action> :=
        (match value
        case SelectorString(s) => Ok(Click(s, Null, Null, Null))
        case SelectorAction(a) =>
          if a.Click? then Ok(a)
          else if version == Current then Err(TypeError("Submit selector must be str or Click"))
          else Err(ValueError("Submit selector must be str or Click"))
        case SelectorOther =>
          if version == Current then Err(TypeError("Submit selector must be str or Click"))
          else Err(ValueError("Submit selector must be str or Click")));
      if head.Err? then Err(head.error)
      else
        var rest := NormaliseSelectors(entries[1..], version);
        if rest.Err? then
          assert !forall i :: 0 <= i < |entries| ==>
            entries[i].1.SelectorString? || (entries[i].1.SelectorAction? && entries[i].1.action.Click?) by {
            var j :| 0 <= j < |entries[1..]| && !(entries[1..][j].1.SelectorString? ||
              (entries[1..][j].1.SelectorAction? && entries[1..][j].1.action.Click?));
            assert entries[j + 1] == entries[1..][j];
          }
          rest
        else
          assert forall i :: 1 <= i < |entries| ==> entries[i] == entries[1..][i - 1];
          Ok([(domain, head.value)] + rest.value)
  }

  /** `from_crawler`: a falsy activation disables the middleware; a string
      setting is one selector for every domain. */
  function FromCrawler(activation: Json, solving: bool, setting: SelectorSetting, version: Version): (r: Result<RecaptchaConfig>)
    ensures !Truthy(activation) ==> r == Err(NotConfigured)
    ensures Truthy(activation) && setting.SelectorText? ==>
      r == Ok(RecaptchaConfig(solving, [("", Click(setting.text, Null, Null, Null))]))
    ensures Truthy(activation) && setting.SelectorTable? ==>
      (r.Ok? <==> NormaliseSelectors(setting.entries, version).Ok?) &&
      (r.Ok? ==> r.value == RecaptchaConfig(solving, NormaliseSelectors(setting.entries, version).value)) &&
      (r.Err? ==> r.error == NormaliseSelectors(setting.entries, version).error)
    ensures r.Ok? ==> AllClicks(r.value.selectors) && r.value.solving == solving
  {
    if !Truthy(activation) then Err(NotConfigured)
    else
      var entries := if setting.SelectorTable? then setting.entries else [("", SelectorString(setting.text))];
      var selectors :- NormaliseSelectors(entries, version);
      assert setting.SelectorText? ==> selectors == [("", Click(setting.text, Null, Null, Null))] by {
        if setting.SelectorText? {
          assert |selectors| == 1 && selectors[0] == ("", Click(setting.text, Null, Null, Null));
        }
      }
      Ok(RecaptchaConfig(solving, selectors))
  }

  /** The first entry, in table order, whose domain fragment occurs in the
      url. */
  function FirstMatch(selectors: seq<(string, Action)>, url: string): (r: Option<Action>)
    ensures r.None? <==> forall i :: 0 <= i < |selectors| ==> !Contains(url, selectors[i].0)
    ensures r.Some? ==> exists i :: (0 <= i < |selectors| && selectors[i].1 == r.value && Contains(url, selectors[i].0) &&
      forall j :: 0 <= j < i ==> !Contains(url, selectors[j].0))
  {
    if selectors == [] then None
    else if Occurs(url, selectors[0].0) then Some(selectors[0].1)
    else
      var r := FirstMatch(selectors[1..], url);
      if r.Some? then
        assert exists i :: (0 <= i < |selectors| && selectors[i].1 == r.value && Contains(url, selectors[i].0) &&
          forall j :: 0 <= j < i ==> !Contains(url, selectors[j].0)) by {
          var i :| 0 <= i < |selectors[1..]| && selectors[1..][i].1 == r.value && Contains(url, selectors[1..][i].0) &&
            forall j :: 0 <= j < i ==> !Contains(url, selectors[1..][j].0);
          assert selectors[i + 1] == selectors[1..][i];
          assert forall j :: 1 <= j < i + 1 ==> selectors[j] == selectors[1..][j - 1];
        }
        r
      else
        assert forall i :: 1 <= i < |selectors| ==> selectors[i] == selectors[1..][i - 1];
        r
  }

  // ---------------------------------------------------------------------
  // Reading the solver's reply

  /** `response.recaptcha_data["captchas"]`: only a solver response has
      the attribute, here read from its data. */
  function Captchas(resp: PuppeteerResponse): Result<Json> {
    if !resp.content.SolverContent? then Err(AttributeError("recaptcha_data"))
    else if "recaptcha_data" !in resp.content.data then Err(KeyError("recaptcha_data"))
    else
      var rd := resp.content.data["recaptcha_data"];
      if rd.Obj? && "captchas" in rd.fields then Ok(rd.fields["captchas"]) else Err(KeyError("captchas"))
  }

  /** `response.html`: an HTML response's html, a solver response's html
      (read from its data); a JSON or screenshot response has none. */
  function SolverHtml(resp: PuppeteerResponse): Result<Json> {
    match resp.content
    case HtmlContent(html, _, _) => Ok(html)
    case ScreenshotContent(_) => Err(AttributeError("html"))
    case JsonContent(_) => Err(AttributeError("html"))
    case SolverContent(data) => if "html" in data then Ok(data["html"]) else Err(KeyError("html"))
  }

  /** `response.body`: the page body of an HTML response, empty otherwise. */
  function BodyOf(resp: PuppeteerResponse): Json {
    if resp.content.HtmlContent? then resp.content.body else Str("")
  }

  /** Values `len` accepts. */
  predicate Sized(j: Json) {
    j.Str? || j.Arr? || j.Obj?
  }

  // ---------------------------------------------------------------------
  // The state machine

  /** The stored main responses, keyed by page id, and the main requests
      whose page closing was deferred. */
  datatype RState = RState(pageResponses: map<Option<string>, PuppeteerResponse>, pageClosing: set<PuppeteerRequest>)

  const Empty := RState(map[], {})

  datatype ResponseOutcome = PassResponse | Followed(request: PuppeteerRequest) | Rebuilt(response: PuppeteerResponse) | Raised(error: Error)

  /** `process_request`: a request that would close its page is re-issued
      with closing deferred (unless it is the submit click itself). */
  function RequestStep(st: RState, r: PuppeteerRequest): (res: (RState, Option<PuppeteerRequest>))
    ensures Truthy(Get(r.meta, "dont_recaptcha")) ==> res == (st, None)
    ensures !Truthy(Get(r.meta, "dont_recaptcha")) && r.closePage && !Truthy(Get(r.meta, "_captcha_submission")) ==>
      res.1 == Some(r.(closePage := false, dontFilter := true)) &&
      res.0 == st.(pageClosing := st.pageClosing + {res.1.value})
    ensures !(!Truthy(Get(r.meta, "dont_recaptcha")) && r.closePage && !Truthy(Get(r.meta, "_captcha_submission"))) ==>
      res == (st, None)
  {
    if Truthy(Get(r.meta, "dont_recaptcha")) then (st, None)
    else if r.closePage && !Truthy(Get(r.meta, "_captcha_submission")) then
      var deferred := r.(closePage := false, dontFilter := true);
      (st.(pageClosing := st.pageClosing + {deferred}), Some(deferred))
    else (st, None)
  }

  /** `__is_closing`: whether the main request stored for the response's
      page deferred its closing; with `remove` the deferral is consumed. */
  function IsClosing(st: RState, resp: PuppeteerResponse, remove: bool): (r: Result<(bool, RState)>)
    ensures r.Err? <==> resp.pageId !in st.pageResponses
    ensures r.Ok? ==>
      var main := st.pageResponses[resp.pageId].puppeteerRequest;
      r.value.0 == (main in st.pageClosing) &&
      r.value.1 == st.(pageClosing := if remove then st.pageClosing - {main} else st.pageClosing)
  {
    if resp.pageId !in st.pageResponses then Err(KeyError("page_id"))
    else
      var main := st.pageResponses[resp.pageId].puppeteerRequest;
      var closing := main in st.pageClosing;
      Ok((closing, if closing && remove then st.(pageClosing := st.pageClosing - {main}) else st))
  }

  /** A deferral is consumed once: asking again after removal says no. */
  lemma IsClosingOnce(st: RState, resp: PuppeteerResponse)
    requires IsClosing(st, resp, true).Ok?
    ensures var st1 := IsClosing(st, resp, true).value.1;
      IsClosing(st1, resp, true).Ok? && !IsClosing(st1, resp, true).value.0
  {
  }

  /** The overrides that rebuild the main response. */
  function PageAndBody(pageId: Option<string>, body: Option<Json>): ResponseOverrides {
    ResponseOverrides(None, None, None, Some(pageId), body, None)
  }

  /** `__gen_response`: takes the stored main response out, and rebuilds it
      with page id None when its request deferred closing (consuming the
      deferral) and the step's page id otherwise; an HTML main response gets
      the solver's html or the click's body. */
  function GenResponse(st: RState, resp: PuppeteerResponse): (r: (ResponseOutcome, RState))
    ensures resp.pageId !in st.pageResponses ==> r == (Raised(KeyError("page_id")), st)
    ensures resp.pageId in st.pageResponses ==>
      var main := st.pageResponses[resp.pageId];
      var closing := main.puppeteerRequest in st.pageClosing;
      r.1 == RState(st.pageResponses - {resp.pageId}, st.pageClosing - {main.puppeteerRequest}) &&
      (r.0.Rebuilt? ==>
        r.0.response.pageId == (if closing then None else resp.puppeteerRequest.pageId) &&
        r.0.response.url == main.url && r.0.response.contextId == main.contextId &&
        ClassOf(r.0.response) == ClassOf(main)) &&
      (r.0.Raised? <==> main.content.HtmlContent? && resp.puppeteerRequest.action.RecaptchaSolver? && SolverHtml(resp).Err?) &&
      (r.0.Rebuilt? && main.content.HtmlContent? ==>
        r.0.response.content.body ==
          if resp.puppeteerRequest.action.RecaptchaSolver? then SolverHtml(resp).value
          else if resp.puppeteerRequest.action.Click? then BodyOf(resp)
          else main.content.body)
    ensures !r.0.PassResponse? && !r.0.Followed?
  {
    match IsClosing(st, resp, true)
    case Err(e) => (Raised(e), st)
    case Ok((closing, st1)) =>
      var pageId := if closing then None else resp.puppeteerRequest.pageId;
      var main := st1.pageResponses[resp.pageId];
      var st2 := st1.(pageResponses := st1.pageResponses - {resp.pageId});
      var action := resp.puppeteerRequest.action;
      if main.content.HtmlContent? && action.RecaptchaSolver? then
        match SolverHtml(resp)
        case Err(e) => (Raised(e), st2)
        case Ok(html) => (Rebuilt(Response.Replace(main, PageAndBody(pageId, Some(html))).value), st2)
      else if main.content.HtmlContent? && action.Click? then
        (Rebuilt(Response.Replace(main, PageAndBody(pageId, Some(BodyOf(resp)))).value), st2)
      else
        (Rebuilt(Response.Replace(main, PageAndBody(pageId, None)).value), st2)
  }

  const SolvingMeta: map<string, Json> := map["_captcha_solving" := Bool(true)]
  const SubmissionMeta: map<string, Json> := map["_captcha_submission" := Bool(true)]

  /** `_solve_recaptcha`: stores the main response under its page and runs
      the solver on the same page, keeping it open; the solver closes the
      page on an empty result exactly when the main request deferred its
      closing. The deferral set is not changed. */
  function SolveStep(st: RState, resp: PuppeteerResponse, solving: bool, join: (string, string) -> string): (r: (ResponseOutcome, RState))
    ensures r.1 == st.(pageResponses := st.pageResponses[resp.pageId := resp])
    ensures r.0.Followed?
    ensures r.0.request.action == RecaptchaSolver(solving, resp.puppeteerRequest in st.pageClosing, Null, Null)
    ensures !r.0.request.closePage && r.0.request.meta == SolvingMeta
    ensures r.0.request.contextId == resp.contextId
    ensures r.0.request.pageId == if resp.puppeteerRequest.closePage then None else resp.pageId
  {
    var st1 := st.(pageResponses := st.pageResponses[resp.pageId := resp]);
    var closing := IsClosing(st1, resp, false).value.0;
    var solver := RecaptchaSolver(solving, closing, Null, Null);
    var next := Follow(resp, ActionValue(solver), false, false, Unset, NoKwargs.(meta := SolvingMeta), join);
    (Followed(next.value), st1)
  }

  /** `_submit_recaptcha`. With captchas found, solving on and a selector
      table, the first matching domain decides: an empty selector hands back
      the main response, another one clicks it on the same page with the
      deferred closing applied to the click. No matching domain drops the
      request. In every other case the main response is handed back.
      `consumeAtClick` says whether the deferral is consumed at the click
      (as written) or left for the rebuilt response (corrected). */
  function SubmitStep(st: RState, resp: PuppeteerResponse, selectors: seq<(string, Action)>,
                      join: (string, string) -> string, consumeAtClick: bool): (r: (ResponseOutcome, RState))
  {
    var action := resp.puppeteerRequest.action;
    if !action.RecaptchaSolver? then (Raised(AttributeError("solve_recaptcha")), st)
    else
      match Captchas(resp)
      case Err(e) => (Raised(e), st)
      case Ok(captchas) =>
        if !action.solveRecaptcha then
          if !Sized(captchas) then (Raised(TypeError("object has no len()")), st) else GenResponse(st, resp)
        else if Truthy(captchas) && selectors != [] then
          match FirstMatch(selectors, resp.url)
          case None => (Raised(IgnoreRequest("No submit selector found to click on the page but captcha found")), st)
          case Some(submitting) =>
            if !submitting.Click? then (Raised(AttributeError("selector")), st)
            else if submitting.selector == "" then GenResponse(st, resp)
            else
              match IsClosing(st, resp, consumeAtClick)
              case Err(e) => (Raised(e), st)
              case Ok((closing, st1)) =>
                var click := Follow(resp, ActionValue(submitting), closing, false, Unset, NoKwargs.(meta := SubmissionMeta), join);
                (Followed(click.value), st1)
        else GenResponse(st, resp)
  }


  /** A solver response whose solving was on and whose captchas could be
      read. */
  predicate Solving(resp: PuppeteerResponse) {
    resp.puppeteerRequest.action.RecaptchaSolver? && resp.puppeteerRequest.action.solveRecaptcha && Captchas(resp).Ok?
  }

  /** A solved response with captchas found, and selectors to click. */
  predicate MustClick(resp: PuppeteerResponse, selectors: seq<(string, Action)>) {
    Solving(resp) && Truthy(Captchas(resp).value) && selectors != []
  }

  /** The submit step with the deferral left for the rebuilt response. The
      first matching domain's selector is clicked on the same page, closing
      it exactly when the main request deferred it; the deferral set is left
      as it was. No matching domain drops the request; every other case
      hands back the rebuilt main response. */
  function Submit(st: RState, resp: PuppeteerResponse, selectors: seq<(string, Action)>,
                  join: (string, string) -> string): (r: (ResponseOutcome, RState))
    ensures !resp.puppeteerRequest.action.RecaptchaSolver? ==> r == (Raised(AttributeError("solve_recaptcha")), st)
    ensures resp.puppeteerRequest.action.RecaptchaSolver? && Captchas(resp).Err? ==> r == (Raised(Captchas(resp).error), st)
    ensures resp.puppeteerRequest.action.RecaptchaSolver? && !resp.puppeteerRequest.action.solveRecaptcha && Captchas(resp).Ok? ==>
      r == if Sized(Captchas(resp).value) then GenResponse(st, resp) else (Raised(TypeError("object has no len()")), st)
    ensures Solving(resp) && !MustClick(resp, selectors) ==> r == GenResponse(st, resp)
    ensures (r.0.Raised? && r.0.error.IgnoreRequest?) <==> MustClick(resp, selectors) && FirstMatch(selectors, resp.url).None?
    ensures MustClick(resp, selectors) && FirstMatch(selectors, resp.url).Some? &&
            FirstMatch(selectors, resp.url).value.Click? && FirstMatch(selectors, resp.url).value.selector == "" ==>
      r == GenResponse(st, resp)
    ensures MustClick(resp, selectors) && FirstMatch(selectors, resp.url).Some? &&
            FirstMatch(selectors, resp.url).value.Click? && FirstMatch(selectors, resp.url).value.selector != "" &&
            resp.pageId in st.pageResponses ==>
      r.0.Followed?
    ensures r.0.Followed? ==>
      r.1 == st && resp.pageId in st.pageResponses &&
      FirstMatch(selectors, resp.url) == Some(r.0.request.action) &&
      r.0.request.closePage == (st.pageResponses[resp.pageId].puppeteerRequest in st.pageClosing) &&
      r.0.request.meta == SubmissionMeta && r.0.request.action.Click? &&
      r.0.request.contextId == resp.contextId &&
      r.0.request.pageId == (if resp.puppeteerRequest.closePage then None else resp.pageId)
  {
    SubmitStep(st, resp, selectors, join, false)
  }

  predicate NoCaptchaAfter(a: Action) {
    a.Screenshot? || a.Scroll? || a.CustomJsAction? || a.RecaptchaSolver?
  }

  /** `process_response`, dispatching on the flags the interceptor put in
      the request meta. */
  function ResponseStepWith(st: RState, resp: PuppeteerResponse, cfg: RecaptchaConfig,
                            join: (string, string) -> string, consumeAtClick: bool): (r: (ResponseOutcome, RState))
  {
    var meta := resp.puppeteerRequest.meta;
    if Truthy(Get(meta, "dont_recaptcha")) then (PassResponse, st)
    else if Truthy(Get(meta, "_captcha_submission")) then GenResponse(st, resp)
    else if Truthy(Get(meta, "_captcha_solving")) then SubmitStep(st, resp, cfg.selectors, join, consumeAtClick)
    else if NoCaptchaAfter(resp.puppeteerRequest.action) then (PassResponse, st)
    else SolveStep(st, resp, cfg.solving, join)
  }

  /** `process_response` with the corrected submit step. Responses the user
      opted out of, and responses to actions after which no captcha is
      looked for, pass through untouched. The response to the submit click
      rebuilds the main response, the solver's response goes to the submit
      step, and any other response is stored and followed by the solver. */
  function ResponseStep(st: RState, resp: PuppeteerResponse, cfg: RecaptchaConfig,
                        join: (string, string) -> string): (r: (ResponseOutcome, RState))
    ensures Truthy(Get(resp.puppeteerRequest.meta, "dont_recaptcha")) ==> r == (PassResponse, st)
    ensures !Truthy(Get(resp.puppeteerRequest.meta, "dont_recaptcha")) &&
            Truthy(Get(resp.puppeteerRequest.meta, "_captcha_submission")) ==>
      r == GenResponse(st, resp)
    ensures !Truthy(Get(resp.puppeteerRequest.meta, "dont_recaptcha")) &&
            !Truthy(Get(resp.puppeteerRequest.meta, "_captcha_submission")) &&
            Truthy(Get(resp.puppeteerRequest.meta, "_captcha_solving")) ==>
      r == Submit(st, resp, cfg.selectors, join)
    ensures !Truthy(Get(resp.puppeteerRequest.meta, "dont_recaptcha")) &&
            !Truthy(Get(resp.puppeteerRequest.meta, "_captcha_submission")) &&
            !Truthy(Get(resp.puppeteerRequest.meta, "_captcha_solving")) &&
            !NoCaptchaAfter(resp.puppeteerRequest.action) ==>
      r == SolveStep(st, resp, cfg.solving, join)
    ensures !Truthy(Get(resp.puppeteerRequest.meta, "dont_recaptcha")) &&
            !Truthy(Get(resp.puppeteerRequest.meta, "_captcha_submission")) &&
            !Truthy(Get(resp.puppeteerRequest.meta, "_captcha_solving")) ==>
      (r == (PassResponse, st) <==> NoCaptchaAfter(resp.puppeteerRequest.action))
  {
    ResponseStepWith(st, resp, cfg, join, false)
  }

  // ---------------------------------------------------------------------
  // The deferred close along the submit path

  /** The session of a page that loads, is solved, and is submitted by a
      click. `main` answers the deferred main request on page `page`,
      `solved` answers the solver step, `clicked` answers the click. */
  predicate SubmitSession(r0: PuppeteerRequest, main: PuppeteerResponse, solved: PuppeteerResponse,
                          clicked: PuppeteerResponse, page: string, cfg: RecaptchaConfig,
                          join: (string, string) -> string, consumeAtClick: bool)
  {
    var (st1, deferred) := RequestStep(Empty, r0);
    deferred.Some? && main.puppeteerRequest == deferred.value && main.pageId == Some(page) &&
    main.content.HtmlContent? && !NoCaptchaAfter(r0.action) &&
    var (o2, st2) := ResponseStepWith(st1, main, cfg, join, consumeAtClick);
    o2.Followed? && solved.puppeteerRequest == o2.request && solved.pageId == Some(page) &&
    var (o3, st3) := ResponseStepWith(st2, solved, cfg, join, consumeAtClick);
    o3.Followed? && clicked.puppeteerRequest == o3.request && clicked.pageId == Some(page)
  }

  /** In the scenario below, the solver's response must be clicked, on the
      table's only selector. */
  lemma ScenarioClicks(solved: PuppeteerResponse, cfg: RecaptchaConfig)
    requires cfg.selectors == [("", Click("#submit", Null, Null, Null))]
    requires solved.content == SolverContent(map["recaptcha_data" := Obj(map["captchas" := Arr([Str("c")])])])
    requires solved.puppeteerRequest.action == RecaptchaSolver(true, true, Null, Null)
    ensures MustClick(solved, cfg.selectors)
    ensures FirstMatch(cfg.selectors, solved.url) == Some(Click("#submit", Null, Null, Null))
  {
    assert OccursAt(solved.url, "", 0);
  }

  /** A scenario with a captcha, solving on, and a selector table whose only
      entry matches every url. */
  predicate CaptchaScenario(r0: PuppeteerRequest, solved: PuppeteerResponse, cfg: RecaptchaConfig) {
    r0.closePage && r0.meta == map[] && cfg.solving &&
    cfg.selectors == [("", Click("#submit", Null, Null, Null))] &&
    solved.content == SolverContent(map["recaptcha_data" := Obj(map["captchas" := Arr([Str("c")])])])
  }

  /** No flag of the interceptor is set in the meta. */
  predicate Unflagged(meta: map<string, Json>) {
    !Truthy(Get(meta, "dont_recaptcha")) && !Truthy(Get(meta, "_captcha_submission")) &&
    !Truthy(Get(meta, "_captcha_solving"))
  }

  /** A request that closes its page is re-issued keeping it open and
      remembered as closing; its response is stored under its page and
      followed by a solver step on that page that closes it on an empty
      result. */
  lemma SessionSteps(r0: PuppeteerRequest, main: PuppeteerResponse, page: string, cfg: RecaptchaConfig,
                     join: (string, string) -> string, consumeAtClick: bool)
    requires r0.closePage && Unflagged(r0.meta)
    requires main.puppeteerRequest == r0.(closePage := false, dontFilter := true) && main.pageId == Some(page)
    requires main.content.HtmlContent? && !NoCaptchaAfter(r0.action)
    ensures var st1 := RState(map[], {main.puppeteerRequest});
      var st2 := RState(map[Some(page) := main], {main.puppeteerRequest});
      RequestStep(Empty, r0) == (st1, Some(main.puppeteerRequest)) &&
      ResponseStepWith(st1, main, cfg, join, consumeAtClick).1 == st2 &&
      ResponseStepWith(st1, main, cfg, join, consumeAtClick).0.Followed? &&
      var s := ResponseStepWith(st1, main, cfg, join, consumeAtClick).0.request;
      s.action == RecaptchaSolver(cfg.solving, true, Null, Null) && s.meta == SolvingMeta && s.pageId == Some(page)
  {
    var st1 := RState(map[], {main.puppeteerRequest});
    assert Empty.pageClosing + {main.puppeteerRequest} == {main.puppeteerRequest};
    assert RequestStep(Empty, r0) == (st1, Some(main.puppeteerRequest));
    assert ResponseStepWith(st1, main, cfg, join, consumeAtClick) == SolveStep(st1, main, cfg.solving, join);
    assert map[][Some(page) := main] == map[Some(page) := main];
  }

  /** The solver's response on a page whose main request deferred its
      closing, with captchas found and a non-empty selector for the first
      matching domain, is followed by a click of that selector that closes
      the page; as written the click also spends the deferral. */
  lemma ClickStep(st2: RState, main: PuppeteerResponse, solved: PuppeteerResponse, page: string,
                  cfg: RecaptchaConfig, join: (string, string) -> string, consumeAtClick: bool)
    requires st2 == RState(map[Some(page) := main], {main.puppeteerRequest})
    requires solved.pageId == Some(page) && solved.puppeteerRequest.meta == SolvingMeta
    requires MustClick(solved, cfg.selectors)
    requires FirstMatch(cfg.selectors, solved.url).Some? && FirstMatch(cfg.selectors, solved.url).value.Click? &&
             FirstMatch(cfg.selectors, solved.url).value.selector != ""
    ensures var (o3, st3) := ResponseStepWith(st2, solved, cfg, join, consumeAtClick);
      o3.Followed? && o3.request.closePage && o3.request.meta == SubmissionMeta &&
      o3.request.action == FirstMatch(cfg.selectors, solved.url).value &&
      st3 == (if consumeAtClick then RState(map[Some(page) := main], {}) else st2)
  {
  }

  /** As written, the response rebuilt after the submit click still names
      the page the click request closed, and the deferred close was spent by
      the click. */
  lemma SubmitKeepsClosedPage(r0: PuppeteerRequest, main: PuppeteerResponse, solved: PuppeteerResponse,
                              clicked: PuppeteerResponse, page: string, cfg: RecaptchaConfig,
                              join: (string, string) -> string)
    requires CaptchaScenario(r0, solved, cfg)
    requires SubmitSession(r0, main, solved, clicked, page, cfg, join, true)
    ensures var st3 := RState(map[Some(page) := main], {});
      var (out, _) := ResponseStepWith(st3, clicked, cfg, join, true);
      clicked.puppeteerRequest.closePage && out.Rebuilt? && out.response.pageId == Some(page)
  {
    var st1 := RState(map[], {main.puppeteerRequest});
    var st2 := RState(map[Some(page) := main], {main.puppeteerRequest});
    SessionSteps(r0, main, page, cfg, join, true);
    ScenarioClicks(solved, cfg);
    ClickStep(st2, main, solved, page, cfg, join, true);
  }

  /** Corrected, the click closes the page once and the rebuilt response
      names no page; the interceptor ends with no state left. */
  lemma SubmitClosesPageOnce(r0: PuppeteerRequest, main: PuppeteerResponse, solved: PuppeteerResponse,
                             clicked: PuppeteerResponse, page: string, cfg: RecaptchaConfig,
                             join: (string, string) -> string)
    requires CaptchaScenario(r0, solved, cfg)
    requires SubmitSession(r0, main, solved, clicked, page, cfg, join, false)
    ensures var st3 := RState(map[Some(page) := main], {main.puppeteerRequest});
      var (out, st4) := ResponseStep(st3, clicked, cfg, join);
      clicked.puppeteerRequest.closePage && out.Rebuilt? && out.response.pageId.None? && st4 == Empty
  {
    var st1 := RState(map[], {main.puppeteerRequest});
    var st2 := RState(map[Some(page) := main], {main.puppeteerRequest});
    SessionSteps(r0, main, page, cfg, join, false);
    ScenarioClicks(solved, cfg);
    ClickStep(st2, main, solved, page, cfg, join, false);
    var st3 := RState(map[Some(page) := main], {main.puppeteerRequest});
    assert st3.pageResponses - {Some(page)} == map[];
  }

  // ---------------------------------------------------------------------
  // The middleware object

  class RecaptchaMiddleware {
    const config: RecaptchaConfig
    var pageResponses: map<Option<string>, PuppeteerResponse>
    var pageClosing: set<PuppeteerRequest>

    function State(): RState
      reads this
    {
      RState(pageResponses, pageClosing)
    }

    constructor(config: RecaptchaConfig)
      ensures this.config == config && State() == Empty
    {
      this.config := config;
      pageResponses := map[];
      pageClosing := {};
    }

    method ProcessRequest(r: PuppeteerRequest) returns (out: Option<PuppeteerRequest>)
      modifies this
      ensures (State(), out) == RequestStep(old(State()), r)
    {
      out := None;
      if Truthy(Get(r.meta, "dont_recaptcha")) {
        return;
      }
      if r.closePage && !Truthy(Get(r.meta, "_captcha_submission")) {
        var deferred := r.(closePage := false, dontFilter := true);
        pageClosing := pageClosing + {deferred};
        out := Some(deferred);
      }
    }

    method IsClosingNow(resp: PuppeteerResponse, remove: bool) returns (r: Result<bool>)
      modifies this
      ensures old(IsClosing(State(), resp, remove)).Err? ==>
        r == Err(old(IsClosing(State(), resp, remove)).error) && State() == old(State())
      ensures old(IsClosing(State(), resp, remove)).Ok? ==>
        r == Ok(old(IsClosing(State(), resp, remove)).value.0) && State() == old(IsClosing(State(), resp, remove)).value.1
    {
      if resp.pageId !in pageResponses {
        return Err(KeyError("page_id"));
      }
      var main := pageResponses[resp.pageId].puppeteerRequest;
      var closing := main in pageClosing;
      if closing && remove {
        pageClosing := pageClosing - {main};
      }
      r := Ok(closing);
    }

    method GenMainResponse(resp: PuppeteerResponse) returns (out: ResponseOutcome)
      modifies this
      ensures (out, State()) == GenResponse(old(State()), resp)
    {
      var closing := IsClosingNow(resp, true);
      if closing.Err? {
        return Raised(closing.error);
      }
      var pageId := if closing.value then None else resp.puppeteerRequest.pageId;
      var main := pageResponses[resp.pageId];
      pageResponses := pageResponses - {resp.pageId};
      var action := resp.puppeteerRequest.action;
      var body: Option<Json> := None;
      if main.content.HtmlContent? {
        if action.RecaptchaSolver? {
          var html := SolverHtml(resp);
          if html.Err? {
            return Raised(html.error);
          }
          body := Some(html.value);
        } else if action.Click? {
          body := Some(BodyOf(resp));
        }
      }
      out := Rebuilt(Response.Replace(main, PageAndBody(pageId, body)).value);
    }

    method SolveRecaptcha(resp: PuppeteerResponse, join: (string, string) -> string) returns (out: ResponseOutcome)
      modifies this
      ensures (out, State()) == SolveStep(old(State()), resp, config.solving, join)
    {
      pageResponses := pageResponses[resp.pageId := resp];
      var closing := IsClosingNow(resp, false);
      var solver := RecaptchaSolver(config.solving, closing.value, Null, Null);
      out := Followed(Follow(resp, ActionValue(solver), false, false, Unset, NoKwargs.(meta := SolvingMeta), join).value);
    }

    method SubmitRecaptcha(resp: PuppeteerResponse, join: (string, string) -> string) returns (out: ResponseOutcome)
      modifies this
      ensures (out, State()) == Submit(old(State()), resp, config.selectors, join)
    {
      var action := resp.puppeteerRequest.action;
      if !action.RecaptchaSolver? {
        return Raised(AttributeError("solve_recaptcha"));
      }
      var captchas := Captchas(resp);
      if captchas.Err? {
        return Raised(captchas.error);
      }
      if !action.solveRecaptcha {
        if !Sized(captchas.value) {
          return Raised(TypeError("object has no len()"));
        }
        out := GenMainResponse(resp);
        return;
      }
      if Truthy(captchas.value) && config.selectors != [] {
        var submitting := FirstMatch(config.selectors, resp.url);
        if submitting.None? {
          return Raised(IgnoreRequest("No submit selector found to click on the page but captcha found"));
        }
        if !submitting.value.Click? {
          return Raised(AttributeError("selector"));
        }
        if submitting.value.selector == "" {
          out := GenMainResponse(resp);
          return;
        }
        var closing := IsClosingNow(resp, false);
        if closing.Err? {
          return Raised(closing.error);
        }
        var click := Follow(resp, ActionValue(submitting.value), closing.value, false, Unset,
                            NoKwargs.(meta := SubmissionMeta), join);
        return Followed(click.value);
      }
      out := GenMainResponse(resp);
    }

    method ProcessResponse(resp: PuppeteerResponse, join: (string, string) -> string) returns (out: ResponseOutcome)
      modifies this
      ensures (out, State()) == ResponseStep(old(State()), resp, config, join)
    {
      var meta := resp.puppeteerRequest.meta;
      if Truthy(Get(meta, "dont_recaptcha")) {
        return PassResponse;
      }
      if Truthy(Get(meta, "_captcha_submission")) {
        out := GenMainResponse(resp);
        return;
      }
      if Truthy(Get(meta, "_captcha_solving")) {
        out := SubmitRecaptcha(resp, join);
        return;
      }
      if NoCaptchaAfter(resp.puppeteerRequest.action) {
        return PassResponse;
      }
      out := SolveRecaptcha(resp, join);
    }
  }
}
