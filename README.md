# scrapy-puppeteer: the request/response protocol, verified

This project models the core of scrapy-puppeteer in Dafny. scrapy-puppeteer is the bridge between a Scrapy crawl and a browser backend. The backend is a remote Puppeteer service or a local pyppeteer or Playwright browser. The model covers:

- **Actions**: the closed catalog of browser actions (`GoTo`, `Click`, `Compose`, …), with their endpoint tags, content types and payloads, and how `Compose` flattens nested actions.
- **Envelopes**: `PuppeteerRequest` construction and `replace`; the response classes, their `replace`, and `follow`, which continues a browser session from a response.
- **Service wire format**: query parameters, the JSON body (nulls dropped, proxy, forwarded headers), the two classifications from action to response class, splitting a reply into named attributes and leftover `data`, and the per-spider registry of used contexts with its single close request.
- **CAPTCHA interceptor**: a per-page state machine over stored main responses and a set of requests whose page closing is deferred. It inserts a solver step and optionally a submit click, and applies the deferred close once.
- **Context restore**: three interceptors that differ from each other. One keeps recovery counters, one keeps a stored bootstrap request with a length counter, and one replays a bounded `Compose` history.
- **Local managers**: the context/page bookkeeping, the pyppeteer wait-option resolver, its `compose` loop and its error reply, the Playwright option mappers and request routing, and the older local request handler's dispatch.

Python values are a `Json` datatype. A Python object that is not JSON, such as the Scrapy request a response keeps, is a `Ref` known only by identity. Python exceptions are `Error` values carried in a `Result`. Scrapy's `IgnoreRequest` and `NotConfigured` are errors too. Each stateful Python class is a Dafny `class` whose fields the methods update. Each method's `ensures` ties the new state and the result to a pure transition function of the old state. What the source promises is stated as lemmas about those functions.

These are passed in as function parameters:

- `urljoin` is `join`.
- `urlencode` is `encode`.
- The page operations of the local drivers are `drive`.
- The browser objects are opaque `Handle`s.
- Fresh uuids come from `FreshId`, a loop that returns a string not yet used.

Files: `common.dfy`, `json.dfy`, `actions.dfy`, `request.dfy`, `response.dfy`, `service.dfy`, `recaptcha.dfy`, `restore_base.dfy`, `restore_request.dfy`, `restore_history.dfy`, `recovery.dfy`, `context_manager.dfy`, `pyppeteer.dfy`, `playwright.dfy`.

## Model

| member | source | states |
|---|---|---|
| Common.Occurs | scrapypuppeteer/middlewares/recaptcha.py:166 | Python's substring test: true exactly when the part occurs somewhere in the string |
| Json.DropNulls | scrapypuppeteer/middleware.py:132 | exactly the entries whose value is not None are kept, with their values |
| Actions.Endpoint | scrapypuppeteer/actions.py:58-356 | every catalog action has one of the eleven fixed endpoint tags; only an action class defined outside the catalog has another |
| Actions.ContentType | scrapypuppeteer/actions.py:6-13 | the content type is application/javascript exactly for CustomJsAction and application/json for every other action |
| Actions.PayloadShape | scrapypuppeteer/actions.py:72-345 | a CustomJsAction's payload is exactly its script string; every other payload is a dictionary with exactly that action's fixed keys (GoTo's url, navigationOptions, waitOptions, harRecording, and so on) |
| Actions.DecodePayload | scrapypuppeteer/actions.py:72-381 | the endpoint and payload determine the action: decoding the payload under its endpoint gives back the action, nested Compose steps included |
| Actions.DecodeEncodedSteps | scrapypuppeteer/actions.py:375-381 | the Compose step list `[{endpoint, body}]` decodes back to the actions, in order |
| Actions.PayloadInjective | scrapypuppeteer/actions.py:72-345 | two actions with the same endpoint and payload are equal |
| Actions.EncodeSteps | scrapypuppeteer/actions.py:375-381 | the Compose payload has one `{endpoint, body}` entry per action, in order, with body = that action's payload |
| Actions.MakeCompose | scrapypuppeteer/actions.py:358-373 | a built Compose holds the flattening of its arguments |
| Actions.MakeComposeFails | scrapypuppeteer/actions.py:371-372 | construction fails exactly when every argument is an empty Compose, so flattening yields nothing |
| Actions.FlattenAppend | scrapypuppeteer/actions.py:362-370 | flattening distributes over concatenation of the argument lists |
| Actions.FlattenFlat | scrapypuppeteer/actions.py:362-370 | a list without Compose elements is left as it is |
| Actions.FlattenMembers | scrapypuppeteer/actions.py:362-370 | an action is in the flattened list iff it is a non-Compose argument or a member of a Compose argument; arguments that were themselves built flat give a list with no Compose in it |
| Actions.ComposeAssociative | scrapypuppeteer/actions.py:358-373 | Compose(Compose(xs), ys...) has the same actions as Compose(xs..., ys...) |
| Actions.MakeComposeBuilt | scrapypuppeteer/actions.py:358-373 | a Compose built from built actions contains no Compose |
| Actions.MakeScreenshot | scrapypuppeteer/actions.py:224-229 | the screenshot options are the given options overridden by the keyword options; options that are neither falsy nor a dictionary are an error |
| Request.NewRequest | scrapypuppeteer/request.py:28-68 | a string becomes GoTo(string, navigation options, wait options) with that url; a GoTo's url is the request url; a non-action is a ValueError; a non-GoTo without `url` is a ValueError; the session arguments are stored as given and the url always agrees with a GoTo action |
| Request.Make | scrapypuppeteer/request.py:28-34 | the defaults are no context, no page, close_page true and no header policy |
| Request.Replace | scrapypuppeteer/request.py:70-81 | every attribute not overridden is copied; only overridden fields change, and a GoTo action still decides the url |
| Request.ReplaceNothing | scrapypuppeteer/request.py:70-81 | replacing nothing rebuilds the same request |
| Request.NewRequestReplace | scrapypuppeteer/request.py:28-81 | every request the constructor accepts is rebuilt unchanged by an empty `replace` |
| Request.ReplaceUrlOfGoTo | scrapypuppeteer/request.py:57-58 | a url override does not move a navigation request: the GoTo's url wins |
| Response.NewResponse | scrapypuppeteer/response.py:25-122 | each response class requires its own keywords (html and cookies, screenshot); an HTML body defaults to its html; a JSON or solver response needs a `request` keyword (KeyError otherwise), keeps it in its data and keeps every other keyword argument as data, and a keyword that clashes with a named parameter is a TypeError; the common attributes are stored as given |
| Response.Follow | scrapypuppeteer/response.py:36-62 | follow keeps the context id, clears the page id iff the originating request closed its page, resolves a string or GoTo url against the response url, uses the response url and dont_filter for other actions, and overlays supplied meta on the response meta when accumulating |
| Response.FollowSession | scrapypuppeteer/response.py:50-62 | a followed request continues on a page only when the previous request kept it open, and always in the same context |
| Response.FollowMetaPrecedence | scrapypuppeteer/response.py:58-59 | with accumulate_meta, a supplied meta value wins over the response's |
| Response.JsonReplaceData | scrapypuppeteer/response.py:124-138 | the rebuilt JSON data is the stored attributes over the old data entries, minus the constructor's own keywords, and holds the `request` passed by the rebuilt response under `request` |
| Response.JsonReplaceKeepsRequest | scrapypuppeteer/response.py:117-138 | a JSON or solver response built with a request still holds that request in its data after an empty replace |
| Response.Replace | scrapypuppeteer/response.py:124-138 | explicit keywords take precedence over stored attributes, which take precedence over entries of data; the class is kept; a `data` keyword on an HTML or screenshot response is an error |
| Response.JsonReplaceIdempotent | scrapypuppeteer/response.py:124-138 | replacing nothing twice gives the same data as once |
| Response.HtmlReplaceNothing | scrapypuppeteer/response.py:65-104 | an empty replace rebuilds an HTML or screenshot response unchanged |
| Service.LookupAppend | scrapypuppeteer/middleware.py:117-125 | looking a parameter up in a concatenated list finds the first list's value first |
| Service.ServiceParams | scrapypuppeteer/middleware.py:117-125 | the parameters hold contextId iff the context id is set, pageId iff the page id is set, and closePage=1 iff close_page is true, each at most once (the same code is in middleware/service.py at lines 116-124 and in browser_manager.py at lines 458-466) |
| Service.ServiceUrl | scrapypuppeteer/middleware.py:80-114 | the service url is the endpoint joined to the base url, followed by `?` and the encoded parameters only when there are any |
| Service.EffectivePolicy | scrapypuppeteer/middleware.py:136-137 | the request's include_headers overrides the default unless it is None |
| Service.SelectHeaders | scrapypuppeteer/middleware.py:138-141 | a list policy keeps exactly the listed headers that are present in any letter case, under lower-cased names and with their values |
| Service.SelectHeadersIgnoresCase | scrapypuppeteer/middleware.py:138-141 | a listed name finds a stored header that differs from it only in letter case, and forwards that header's value |
| Service.HeadersJson | scrapypuppeteer/middleware.py:138-141 | the forwarded headers are carried unchanged as JSON strings |
| Service.SerializeBody | scrapypuppeteer/middleware.py:127-143 | a JSON body holds exactly the non-None payload fields with their values, plus proxy exactly when the meta proxy is truthy, plus headers exactly when the effective policy is truthy, so no other key appears; a custom script is sent as its text (also middleware/service.py:126-142 and browser_manager.py:469-491) |
| Service.ProxyAndHeadersOnlyWhenAsked | scrapypuppeteer/middleware.py:133-141 | for a catalog action, whose payload has no proxy or headers field, the body has proxy iff the meta proxy is truthy and headers iff the effective policy is truthy |
| Service.MakeConfig | scrapypuppeteer/browser_manager.py:401-410 | no base url is a ValueError, otherwise the settings are kept |
| Service.ToActionRequest | scrapypuppeteer/browser_manager.py:428-455 | the service request carries the service url, the action, its content type and serialized body, dont_filter, and meta that disables the proxy, merged over the request's meta only with include_meta (the same as the middleware's process_request at middleware.py:80-114) |
| Service.ServiceResponseClass | scrapypuppeteer/middleware.py:194-199 | GoTo, GoForward, GoBack, Click and Scroll give an HTML response, Screenshot a screenshot response, everything else a JSON response (also middleware/service.py:193-198) |
| Service.ManagerResponseClass | scrapypuppeteer/browser_manager.py:360-367 | the same classification, with RecaptchaSolver giving the solver response |
| Service.ClassificationsAgree | scrapypuppeteer/browser_manager.py:360-367 | the two classifications differ only on RecaptchaSolver |
| Service.Rest | scrapypuppeteer/middleware.py:169-191 | popping the ids leaves every other reply field unchanged |
| Service.Leftover | scrapypuppeteer/middleware.py:169-191 | the leftover is exactly the reply fields that are not attributes of the response class |
| Service.SplitReply | scrapypuppeteer/middleware.py:169-191 | the class's named attributes are passed by name, and the non-empty leftover becomes `data` (also middleware/service.py:168-190) |
| Service.SplitReplyLossless | scrapypuppeteer/middleware.py:169-191 | splitting a reply without a `data` key and rejoining gives back the reply |
| Service.ServiceForm | scrapypuppeteer/middleware.py:169-191 | the session ids come from the reply, falling back to the request's; the class, url, request and meta are kept; the recorded context is the popped context id; a JSON or solver response's data holds the Scrapy request under `request`, and without the request it rejoins to every reply field except the ids (also middleware/service.py:168-190) |
| Service.ManagerForm | scrapypuppeteer/browser_manager.py:342-357 | the same id fallback and recorded context; a JSON or solver response's data is every reply field except the ids, plus the Scrapy request under `request`; a reply field that clashes with a named constructor parameter is a TypeError |
| Service.Route | scrapypuppeteer/middleware.py:145-157 | a reply is formed into a response only when it is text, has a Puppeteer request and is JSON; anything else passes through |
| Service.ServiceProcess | scrapypuppeteer/middleware.py:145-167 | a non-200 JSON reply is returned unchanged and records its truthy contextId; a 200 reply is formed and records its context (also middleware/service.py:144-166) |
| Service.ManagerProcessAsWritten | scrapypuppeteer/browser_manager.py:308-340 | as written, a failed reply's context id goes to the calling middleware's registry |
| Service.ManagerProcess | scrapypuppeteer/browser_manager.py:308-357 | with every context recorded in the manager's own registry, the outcome is the same as written and the recorded id is the same |
| Service.FailedContextLeaks | scrapypuppeteer/browser_manager.py:327 | for a failed reply the middleware records the context where it will flush it, while the manager as written records it in a registry its own flush never reads |
| Service.ListOf | scrapypuppeteer/middleware.py:203 | the listed contexts are the registry's, each exactly once |
| Service.ServiceMiddleware.constructor | scrapypuppeteer/middleware.py:51-60 | a new middleware has an empty registry |
| Service.ServiceMiddleware.ProcessResponse | scrapypuppeteer/middleware.py:145-167 | the outcome and the registry update are those of ServiceProcess |
| Service.ServiceMiddleware.CloseUsedContexts | scrapypuppeteer/middleware.py:201-209 | one close request with exactly the spider's contexts is produced only when there are any, and the registry is not cleared (also middleware/service.py:200-208) |
| Service.ServiceBrowserManager.constructor | scrapypuppeteer/browser_manager.py:401-410 | a new manager keeps its configuration and has an empty registry |
| Service.ServiceBrowserManager.ProcessRequest | scrapypuppeteer/browser_manager.py:413-425 | a close request is routed first and gets the service close url only when its url is not valid; a Puppeteer request becomes its service request |
| Service.ServiceBrowserManager.ProcessResponse | scrapypuppeteer/browser_manager.py:308-357 | the outcome and registry update are those of ManagerProcess |
| Service.ServiceBrowserManager.CloseUsedContexts | scrapypuppeteer/browser_manager.py:493-521 | the spider's entry is popped; only a non-empty entry yields one close request naming exactly its contexts, and closing is deferred |
| Service.CloseAfterUse | scrapypuppeteer/browser_manager.py:308-521 | on the service browser manager, the context a successful reply names is recorded by process_response, is in the one close request close_used_contexts produces, and process_request routes that request to the service's close_context url |
| Recaptcha.NormaliseSelectors | scrapypuppeteer/middlewares/recaptcha.py:84-91 | string selectors become Click actions, Click actions are kept, and any other value is an error (TypeError here, ValueError in the older copy at middleware.py:260-280), preserving domains and order |
| Recaptcha.FromCrawler | scrapypuppeteer/middlewares/recaptcha.py:65-92 | a falsy activation setting is NotConfigured; a single string selector applies to every domain; a table is accepted exactly when NormaliseSelectors accepts it, giving its normalised entries in order, and otherwise fails with its TypeError |
| Recaptcha.FirstMatch | scrapypuppeteer/middlewares/recaptcha.py:164-170 | the submit action is that of the first domain, in table order, that occurs in the url; none iff no domain occurs |
| Recaptcha.RequestStep | scrapypuppeteer/middlewares/recaptcha.py:94-106 | dont_recaptcha requests pass; a close_page request that is not a submission is re-issued with close_page false and dont_filter true and remembered as closing; others pass |
| Recaptcha.IsClosing | scrapypuppeteer/middlewares/recaptcha.py:199-204 | whether the stored main request is closing, removing it from the set when asked; an unknown page is an error |
| Recaptcha.IsClosingOnce | scrapypuppeteer/middlewares/recaptcha.py:199-204 | after one removing query the same page is no longer closing, so the close is applied at most once |
| Recaptcha.GenResponse | scrapypuppeteer/middlewares/recaptcha.py:183-197 | the stored main response is removed and rebuilt; its page id is None iff the main request was closing; an HTML main response gets the solver's html or the click's body |
| Recaptcha.SolveStep | scrapypuppeteer/middlewares/recaptcha.py:137-153 | the main response is stored under its page and followed by RecaptchaSolver(solving, close_on_empty = closing), without closing the page; the closing set is not changed |
| Recaptcha.Submit | scrapypuppeteer/middlewares/recaptcha.py:155-181 | corrected (the deferral is left for the rebuilt response): a non-solver response is an AttributeError and unreadable captchas are its error; with solving off the main response is rebuilt (a captchas value without len is a TypeError); with solving on and no captchas or no selectors it is rebuilt; with captchas and selectors, IgnoreRequest happens exactly when no domain matches, an empty matched selector rebuilds, and otherwise FirstMatch's click follows on the same page and context, closing it iff the main request deferred it, with the submission mark and the state unchanged |
| Recaptcha.ResponseStep | scrapypuppeteer/middlewares/recaptcha.py:108-135 | corrected: dont_recaptcha responses pass; the answer to the submit click is GenResponse; the answer to the solver step is the corrected Submit; any other response passes exactly when its action is a screenshot, scroll, custom script or solver, and is otherwise SolveStep |
| Recaptcha.SessionSteps | scrapypuppeteer/middlewares/recaptcha.py:94-153 | for any configuration and any unflagged closing request: it becomes a kept-open request remembered as closing, and its response is stored and followed by RecaptchaSolver(solving, close_on_empty true) on the same page |
| Recaptcha.ClickStep | scrapypuppeteer/middlewares/recaptcha.py:155-181 | for any selector table: a solved response with captchas whose first matching domain has a non-empty selector is followed by a click of that selector that closes the page; as written this also empties the closing set |
| Recaptcha.ScenarioClicks | scrapypuppeteer/middlewares/recaptcha.py:164-170 | with one catch-all entry and a found captcha, the solver response must be clicked, on that entry's selector |
| Recaptcha.SubmitKeepsClosedPage | scrapypuppeteer/middlewares/recaptcha.py:175 | as written, the rebuilt main response after the click keeps the page id of a page the click closed |
| Recaptcha.SubmitClosesPageOnce | scrapypuppeteer/middlewares/recaptcha.py:183-197 | corrected, the rebuilt response has no page id and the interceptor's state is empty again |
| Recaptcha.RecaptchaMiddleware.constructor | scrapypuppeteer/middlewares/recaptcha.py:58-62 | a new interceptor keeps its configuration and has no stored responses and no closing requests |
| Recaptcha.RecaptchaMiddleware.ProcessRequest | scrapypuppeteer/middlewares/recaptcha.py:94-106 | the result and new state are those of RequestStep (the older copy is at middleware.py:282-292) |
| Recaptcha.RecaptchaMiddleware.IsClosingNow | scrapypuppeteer/middlewares/recaptcha.py:199-204 | the result and new state are those of IsClosing |
| Recaptcha.RecaptchaMiddleware.GenMainResponse | scrapypuppeteer/middlewares/recaptcha.py:183-197 | the result and new state are those of GenResponse |
| Recaptcha.RecaptchaMiddleware.SolveRecaptcha | scrapypuppeteer/middlewares/recaptcha.py:137-153 | the result and new state are those of SolveStep |
| Recaptcha.RecaptchaMiddleware.SubmitRecaptcha | scrapypuppeteer/middlewares/recaptcha.py:155-181 | the result and new state are those of the corrected Submit |
| Recaptcha.RecaptchaMiddleware.ProcessResponse | scrapypuppeteer/middlewares/recaptcha.py:108-135 | the result and new state are those of the corrected ResponseStep (the older copy is at middleware.py:294-317) |
| RestoreBase.ParsedContextId | scrapypuppeteer/middleware/restore.py:118-119 | the context id of a failed reply is read from its JSON body; a body that is not a JSON object is an error |
| RestoreBase.PositiveSetting | scrapypuppeteer/middleware.py:412-418 | an integer setting such as N_RECOVERY: an absent setting is 1; an int of at least 1 (a true bool included) is accepted; a non-int is a TypeError and a smaller int a ValueError (the restore interceptors check their settings the same way) |
| RestoreBase.Less | scrapypuppeteer/middleware/restore.py:98 | a counter comparison succeeds exactly on numbers |
| RestoreBase.Incremented | scrapypuppeteer/middleware/restore.py:100-101 | `+= 1` adds one to a number and fails on anything else |
| RestoreBase.IncrementKey | scrapypuppeteer/middleware/restore.py:100-101 | `meta[key] += 1` raises KeyError when the key is absent, and otherwise changes only that key |
| RestoreBase.IncrementOrStart | scrapypuppeteer/middleware/restore.py:100-101 | the corrected increment starts a missing counter at 1 |
| RestoreBase.PopRecover | scrapypuppeteer/middleware/restore.py:77 | the recover_context flag is popped from the meta |
| RestoreBase.FromCrawler | scrapypuppeteer/middleware/restore.py:56-69 | RESTORING_LENGTH and N_RETRY_RESTORING default to 1 and must both be ints of at least 1, the length being checked first (the same check is in middlewares/restore.py at lines 43-64) |
| RequestRestore.MarkRequest | scrapypuppeteer/middleware/restore.py:72-84 | a recover_context request with a context or page id is IgnoreRequest; otherwise it is marked as binding with dont_filter |
| RequestRestore.DeleteContext | scrapypuppeteer/middleware/restore.py:138-144 | deleting removes the context from both maps and keeps their key sets equal |
| RequestRestore.Restoring | scrapypuppeteer/middleware/restore.py:107-115 | the stored copy keeps the request, preserves its restore count (default 0) and records the new context id |
| RequestRestore.BindContext | scrapypuppeteer/middleware/restore.py:107-115 | binding stores the copy under the new context with length 0, after deleting the request's old context when it names one; when that deletion fails its state and KeyError are the result |
| RequestRestore.RestoreContext | scrapypuppeteer/middleware/restore.py:117-136 | an untracked context keeps the response; a too-long context or an exhausted count deletes the entry; otherwise the count is incremented, the length set to 1 and the stored request re-sent |
| RequestRestore.ResponseStep | scrapypuppeteer/middleware/restore.py:86-105 | corrected (a missing count starts at 0): a formed response increments its tracked context's length; a binding response first binds its request, with length 1 after the increment, and a failed deletion of its old context is that KeyError; a 422 on a binding request is re-sent with an incremented count while the count is below N; a 422 on any other service request is RestoreContext; all other responses pass unchanged; the key sets stay equal |
| RequestRestore.FirstRetryRaises | scrapypuppeteer/middleware/restore.py:100-101 | as written, the first 422 on a binding request raises KeyError('__restore_count') |
| RequestRestore.FirstRetryResends | scrapypuppeteer/middleware/restore.py:96-102 | corrected, the first 422 re-sends the request with count 1 |
| RequestRestore.RestoreBounded | scrapypuppeteer/middleware/restore.py:117-136 | repeated failures of a tracked context end, after a bounded number of re-sends, with the context deleted and the response kept |
| RequestRestore.RequestRestoreMiddleware.constructor | scrapypuppeteer/middleware/restore.py:49-53 | a new interceptor has no tracked contexts |
| RequestRestore.RequestRestoreMiddleware.DeleteContextNow | scrapypuppeteer/middleware/restore.py:138-144 | the new state and error are those of DeleteContext |
| RequestRestore.RequestRestoreMiddleware.Bind | scrapypuppeteer/middleware/restore.py:107-115 | the new state and error are those of BindContext |
| RequestRestore.RequestRestoreMiddleware.Restore | scrapypuppeteer/middleware/restore.py:117-136 | the result and new state are those of RestoreContext |
| RequestRestore.RequestRestoreMiddleware.ProcessResponse | scrapypuppeteer/middleware/restore.py:86-105 | the result and new state are those of the corrected ResponseStep |
| HistoryRestore.MarkRequest | scrapypuppeteer/middlewares/restore.py:66-81 | a recover_context request without ids is marked as binding; one with ids is only unmarked; nothing else changes |
| HistoryRestore.FlattenOne | scrapypuppeteer/middlewares/restore.py:91-93 | the history of one action is its flattened steps |
| HistoryRestore.FlattenPair | scrapypuppeteer/middlewares/restore.py:132-149 | a history followed by an action flattens to the history's steps followed by the action's |
| HistoryRestore.UpdateContextActions | scrapypuppeteer/middlewares/restore.py:115-130 | a history longer than RESTORING_LENGTH is deleted before the request's action is read; otherwise a request without an action is an AttributeError, and an action's steps are appended with other contexts unchanged |
| HistoryRestore.RestoreContext | scrapypuppeteer/middlewares/restore.py:132-152 | a tracked context's history is removed and the request re-scheduled as Compose(history, failing action), with no context or page and the binding flag set; an untracked one keeps the response |
| HistoryRestore.ResponseStep | scrapypuppeteer/middlewares/restore.py:83-113 | corrected (a missing count starts at 0): a binding response starts the history with its steps, and a binding action with no steps is an error; a formed response of a tracked context is UpdateContextActions, and of an untracked one passes; a 422 on a binding request is re-sent with an incremented count while below N; a 422 on any other service request is RestoreContext; all other responses pass unchanged |
| HistoryRestore.HistoryBound | scrapypuppeteer/middlewares/restore.py:94-96 | a history never holds more than RESTORING_LENGTH + 1 steps, when each request carries a single step |
| HistoryRestore.FirstRetryRaises | scrapypuppeteer/middlewares/restore.py:105-109 | as written, the first 422 on a binding request raises KeyError('__request_binding_count') |
| HistoryRestore.FirstRetryResends | scrapypuppeteer/middlewares/restore.py:97-110 | corrected, the first 422 re-sends the request with count 1 |
| HistoryRestore.RestoreReplaysHistory | scrapypuppeteer/middlewares/restore.py:132-149 | after a 422 the context is forgotten, and the replayed request's response starts a history holding the old steps followed by the failing action |
| HistoryRestore.HistoryRestoreMiddleware.constructor | scrapypuppeteer/middlewares/restore.py:37-40 | a new interceptor has no histories |
| HistoryRestore.HistoryRestoreMiddleware.Update | scrapypuppeteer/middlewares/restore.py:115-130 | the new state or error is that of UpdateContextActions |
| HistoryRestore.HistoryRestoreMiddleware.Restore | scrapypuppeteer/middlewares/restore.py:132-152 | the result and new state are those of RestoreContext |
| HistoryRestore.HistoryRestoreMiddleware.ProcessResponse | scrapypuppeteer/middlewares/restore.py:83-113 | the result and new state are those of the corrected ResponseStep |
| ContextRecovery.MarkRequest | scrapypuppeteer/middleware.py:421-433 | a recover_context request with a context or page id is IgnoreRequest; otherwise it is marked as binding |
| ContextRecovery.Recover | scrapypuppeteer/middleware.py:459-488 | a tracked context recovers while its counter is at most n_recovery and its restore count below 5, resetting the counter to 1; past n_recovery both entries are deleted |
| ContextRecovery.RetryBinding | scrapypuppeteer/middleware.py:457-465 | a failed binding is retried once, with count 1 and dont_filter |
| ContextRecovery.ResponseStep | scrapypuppeteer/middleware.py:435-495 | a binding response records the request with counter 1; later tracked responses increment the counter; a 422 on a binding request is RetryBinding; a 422 on any other service request is Recover; all other responses pass unchanged; both maps keep the same keys |
| ContextRecovery.RecoveryBounded | scrapypuppeteer/middleware.py:474 | repeated failures stop re-sending after the fifth recovery, though the entry stays |
| ContextRecovery.RecoveryMiddleware.constructor | scrapypuppeteer/middleware.py:406-409 | a new interceptor has no tracked contexts |
| ContextRecovery.RecoveryMiddleware.ProcessResponse | scrapypuppeteer/middleware.py:435-495 | the result and new state are those of ResponseStep |
| Contexts.ConsistentOpen | scrapypuppeteer/browser_managers/__init__.py:42-50 | opening a fresh context with a fresh page keeps the invariant that contexts and context2page have the same keys, the pages are exactly the mapped pages, and no two contexts share a page |
| Contexts.ConsistentClose | scrapypuppeteer/browser_managers/__init__.py:59-67 | closing a context with its page keeps the invariant |
| Contexts.FreshId | scrapypuppeteer/browser_managers/__init__.py:43-44 | a generated id is not among those in use |
| Contexts.ContextManager.constructor | scrapypuppeteer/browser_managers/__init__.py:16-20 | a new context manager has no contexts or pages |
| Contexts.ContextManager.OpenNewPage | scrapypuppeteer/browser_managers/__init__.py:42-50 | exactly one new context, one new page and their link are added, under fresh ids |
| Contexts.ContextManager.CheckContextAndPage | scrapypuppeteer/browser_managers/__init__.py:37-40 | when both ids are truthy they are returned and nothing changes; otherwise a new pair is opened (the same code is in playwright_browser_manager.py at lines 26-29 and browser_manager.py at lines 53-56) |
| Contexts.ContextManager.PageById | scrapypuppeteer/browser_managers/__init__.py:52-53 | the page is looked up by page id alone; an unknown id is a KeyError |
| Contexts.ContextManager.CloseContexts | scrapypuppeteer/browser_managers/__init__.py:59-67 | every listed context that is present is removed with its page and link; absent ids are ignored and all else is unchanged (the same loop is in playwright_browser_manager.py at lines 49-58) |
| Contexts.LocalDispatch | scrapypuppeteer/browser_manager.py:85-102 | an endpoint without a handler gives no result, a refused endpoint raises its ValueError, any other runs its handler |
| Contexts.RequestHandlerCoverage | scrapypuppeteer/browser_manager.py:85-102 | the older handler has no HAR, form-filling or Compose handler, and refuses custom scripts and the solver |
| Pyppeteer.WaitTargets | scrapypuppeteer/browser_managers/pyppeteer_browser_manager.py:105-118 | a truthy selectorOrTimeout that is a number becomes the timeout, a string starting with // the xpath, any other string the selector; otherwise the explicit options stand |
| Pyppeteer.ResolveWait | scrapypuppeteer/browser_managers/pyppeteer_browser_manager.py:104-130 | more than one truthy target is a ValueError; otherwise the wait is on the selector, else the xpath, else the timeout, else nothing, with the given options |
| Pyppeteer.ComposeOk | scrapypuppeteer/browser_managers/pyppeteer_browser_manager.py:240-246 | a Compose succeeds iff it has steps and all succeed, and then returns the last step's data; an empty Compose fails with its result unbound |
| Pyppeteer.ComposeFailsAt | scrapypuppeteer/browser_managers/pyppeteer_browser_manager.py:240-246 | the first failing step's error is the Compose's error |
| Pyppeteer.ComposeLoop | scrapypuppeteer/browser_managers/pyppeteer_browser_manager.py:240-246 | the loop computes RunCompose |
| Pyppeteer.RefusedStepAsWritten | scrapypuppeteer/browser_managers/pyppeteer_browser_manager.py:248-249 | as written, a CustomJsAction fails with a TypeError about the call; corrected, with the ValueError naming the action |
| Pyppeteer.ReplyFor | scrapypuppeteer/browser_managers/pyppeteer_browser_manager.py:74-98 | a successful step's data gets contextId and pageId and is sent as JSON; a failed step gives a 500 JSON reply holding exactly error, contextId and pageId |
| Pyppeteer.PyppeteerBrowserManager.constructor | scrapypuppeteer/browser_managers/pyppeteer_browser_manager.py:29-46 | a new manager has not started its browser |
| Pyppeteer.PyppeteerBrowserManager.StartBrowserManager | scrapypuppeteer/browser_managers/pyppeteer_browser_manager.py:55-58 | the context manager is created on the first start only |
| Pyppeteer.PyppeteerBrowserManager.PerformAction | scrapypuppeteer/browser_managers/pyppeteer_browser_manager.py:64-99 | ActionPerformed, with the corrected refused steps (ValueError naming the action rather than the call TypeError): an endpoint outside the action map is ValueError("No such action"); before the start the call fails; the step runs on the request's page with the context manager unchanged, or on a freshly opened context and page under fresh ids when an id is missing; a missing page is an error; the reply is ReplyFor the step |
| Pyppeteer.PyppeteerBrowserManager.CloseContextsAsWritten | scrapypuppeteer/browser_managers/pyppeteer_browser_manager.py:101-102 | as written, the close is never awaited so nothing changes; before the start the call fails |
| Pyppeteer.PyppeteerBrowserManager.CloseContexts | scrapypuppeteer/browser_managers/pyppeteer_browser_manager.py:101-102 | corrected, the listed contexts are closed with their pages |
| Pyppeteer.PyppeteerBrowserManager.DownloadRequest | scrapypuppeteer/browser_managers/pyppeteer_browser_manager.py:48-53 | a Puppeteer request gives the reply PerformAction describes, with the same change to the context manager; a close request on a started manager gives nothing and removes exactly the listed contexts, their links and their pages (the awaited close; the close as written is a finding below); before the start a close request is an AttributeError; anything else gives nothing |
| Pyppeteer.CloseLeavesContext | scrapypuppeteer/browser_managers/pyppeteer_browser_manager.py:101-102 | a context opened before a close request stays open as written and is gone after the corrected close |
| Playwright.MapEvent | scrapypuppeteer/browser_managers/playwright_browser_manager.py:102-118 | load and domcontentloaded map to themselves, networkidle0 and networkidle2 to networkidle; a list or dictionary is unhashable; anything else is ValueError("Invalid waitUntil value") |
| Playwright.MapNavigationOptions | scrapypuppeteer/browser_managers/playwright_browser_manager.py:99-120 | falsy options map to {}; timeout is copied only when present; a truthy waitUntil (its first element if a list) becomes wait_until or fails as MapEvent does; a string or list holding "timeout" fails on indexing with a TypeError |
| Playwright.NetworkIdleMapped | scrapypuppeteer/browser_managers/playwright_browser_manager.py:102-118 | networkidle0 or networkidle2, alone or first in a list, maps to networkidle, next to a copied timeout |
| Playwright.MapClickOptions | scrapypuppeteer/browser_managers/playwright_browser_manager.py:122-130 | falsy options map to {}; otherwise exactly delay (default 0.0), button (default left) and click_count (from clickCount, default 1) |
| Playwright.DriverOptions | scrapypuppeteer/browser_managers/playwright_browser_manager.py:144-345 | navigation handlers use the mapped navigation options, the click handler the mapped click options, the rest none |
| Playwright.RunHandler | scrapypuppeteer/browser_managers/playwright_browser_manager.py:144-345 | a handler's response carries the context and page it ran on, the request, the GoTo's url or the request url, and is a screenshot response exactly for Screenshot; an option error comes first |
| Playwright.PlaywrightBrowserManager.constructor | scrapypuppeteer/browser_managers/playwright_browser_manager.py:65-78 | a new manager has an empty context manager |
| Playwright.PlaywrightBrowserManager.ProcessRequest | scrapypuppeteer/browser_managers/playwright_browser_manager.py:80-91 | an endpoint with a handler runs it on the request's page or a fresh one; action, recaptcha_solver and har raise their ValueError; a close request closes contexts; anything else has no route |

## Left out

- Browser driving: the bodies of the goto, click, back, forward, scroll, screenshot and fill_form handlers in all managers are the `drive` parameter, and navigation, waits and sleeps are not modelled. `Pyppeteer.ResolveWait` chooses the wait kind only.
- I/O and plumbing: HTTP, Scrapy signals, `crawler.engine.download`, Deferreds, coroutines and `syncer` are not modelled. Settings are read as already-parsed `Json` values, except for the int ≥ 1 checks.
- `json.loads`, `json.dumps`, `urljoin`, `urlencode`, base64 and `uuid4`: these are parameters, an `Option<Json>` for a parsed body, or `FreshId`.
- Request identity: the CAPTCHA interceptor keys its closing set by request object; the model keys it by request value.
- Meta mutation on requests that are then discarded is not modelled. Every other in-place meta update is a new meta map.
- The `ActionRequest`, `CloseContextRequest` and `PuppeteerRecaptchaSolverResponse` classes are not part of this model. They are records here. A close request is never also a Puppeteer request. `__perform_action` receives the service request that wraps a Puppeteer request.
- `FillForm` answers with a JSON response, as the classification code says.
- Cookies: the Playwright handlers' `request.cookies` are not modelled; the cookies field of their responses is Null.
- `Playwright.ScalarText`: the error message for a float `waitUntil` value does not render the float.
- `Pyppeteer.ArityMessage` and `Pyppeteer.ErrorText`: Python's exact messages for a wrong argument count and for an unbound local vary between Python versions; the model uses one wording.
- `HistoryRestore.HistoryBound`: the RESTORING_LENGTH + 1 bound is proved for requests whose action is a single step. A Compose of several steps can exceed it, because length is checked before appending.
- `ContextRecovery.RecoveryBounded`: the entry of a context whose restore count reached 5 is not deleted. The model states that re-sending stops, not that the context is forgotten.
- `RequestRestore.RetryBinding`, `ContextRecovery.Recover` and `ContextRecovery.RetryBinding`: the source updates request objects in place, and the same object can also be a kept entry. A resent kept request that fails again has its count written into the kept entry. A re-bound kept request has its count reset to 0 under its old context too. The model copies values, so kept entries change only where the transition writes them.
- The Scrapy `request` attribute of HTML and screenshot responses is not modelled. Only JSON and solver responses carry it, as the `request` entry of their data.
- Headers are keyed by their lower-cased name. The letter case of names when every header is forwarded depends on the Scrapy version and is not modelled.
- `Common.Lower` folds ASCII letters only. Python's `lower()` also folds other Unicode letters.
- `Service.IdOf`: a context or page id that is not a string is treated as no id.
- `RequestRestore.DeleteContext`: the KeyError carries the name `context_id` rather than the missing key's value.
- `Response.Follow`: the source rewrites the url of the caller's GoTo action in place; the model builds a new action and leaves the caller's unchanged. An HTML response's `urljoin` resolves against the document's `<base>` href; the model always joins against the response url with `join`.
- `Pyppeteer.ResolveWait`: a `Sleep` whose timeout is not a number is chosen like any other. The TypeError that sleeping on it would raise is not modelled.
- `Actions.MakeScreenshot`: the source updates the caller's options dictionary in place with the keyword options; the model builds a new map and leaves the caller's unchanged.
- `Recaptcha.Captchas` and `Recaptcha.SolverHtml` read `recaptcha_data` and `html` as attributes, as middlewares/recaptcha.py does: only a solver response carries them, as entries of its data record, and a JSON response has neither (an AttributeError). The older copy in middleware.py reads them from the data of any JSON response; that reading is not modelled.
- The older prototype package, the backend-selection wiring, `local_browser_manager.py`, logging and the tests are not part of this model.

## Findings

| source | as written | input that shows it | evidently intended | confidence | as-written member | corrected member |
|---|---|---|---|---|---|---|
| scrapypuppeteer/middleware/restore.py:100-101 | `__restore_count` is read with default 0 but then incremented with `+=`, which raises KeyError when the key is absent | the first 422 reply to a binding request whose meta has no `__restore_count` | re-send with count 1 | not executed | RequestRestore.FirstRetryRaises | RequestRestore.FirstRetryResends |
| scrapypuppeteer/middlewares/restore.py:105-109 | `__request_binding_count` is compared with default 0 but then incremented with `+=` | the first 422 reply to a binding request | re-send with count 1 | not executed | HistoryRestore.FirstRetryRaises | HistoryRestore.FirstRetryResends |
| scrapypuppeteer/middlewares/recaptcha.py:175 | issuing the submit click consumes the closing mark, so the rebuilt main response after the click keeps the page id of the page the click closed (also middleware.py:331-352) | a closing request to a page with a captcha and a matching submit selector | the rebuilt response has no page id and the state is empty | not executed | Recaptcha.SubmitKeepsClosedPage | Recaptcha.SubmitClosesPageOnce |
| scrapypuppeteer/browser_manager.py:327 | a failed reply's context id is recorded in the calling middleware's registry, while `close_used_contexts` pops the manager's own | a 422 JSON reply with contextId "C" | the context is closed with the others | not executed | Service.FailedContextLeaks | Service.ManagerProcess |
| scrapypuppeteer/browser_managers/pyppeteer_browser_manager.py:101-102 | `close_contexts` calls the coroutine of the context manager without awaiting it, so no context is closed | a close request naming an open context | the context and its page are closed | not executed | Pyppeteer.PyppeteerBrowserManager.CloseContextsAsWritten | Pyppeteer.PyppeteerBrowserManager.CloseContexts |
| scrapypuppeteer/browser_managers/pyppeteer_browser_manager.py:248-255 | `action`, `recaptcha_solver` and `har` take only the request but are called with the page and the request, so they fail with a TypeError | a request with a CustomJsAction | ValueError("CustomJsAction is not available in local mode") | not executed | Pyppeteer.RefusedStepAsWritten | Pyppeteer.PyppeteerBrowserManager.PerformAction |
