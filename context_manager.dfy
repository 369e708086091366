/** The page bookkeeping of the local browser managers
    (scrapypuppeteer/browser_managers/__init__.py, and the copies inside
    playwright_browser_manager.py and browser_manager.py): every context
    opened has exactly one
    page, recorded in three maps keyed by generated ids. The browser objects
    themselves are handles supplied by the driver. */
module Contexts {
  import opened Common
  import opened Json
  import opened Actions

  /** The endpoints the local managers know but refuse. */
  const UnavailableLocally: set<string> := {"action", "recaptcha_solver", "har"}

  function UnavailableMessage(endpoint: string): string {
    if endpoint == "action" then "CustomJsAction is not available in local mode"
    else if endpoint == "recaptcha_solver" then "RecaptchaSolver is not available in local mode"
    else "Har is not available in local mode"
  }

  /** A browser context or page object created by the driver. */
  datatype Handle = Handle(id: nat)

  /** The ids a close request names that can match a context id. */
  function ListedIds(ids: seq<Json>): set<string> {
    set i | 0 <= i < |ids| && ids[i].Str? :: ids[i].s
  }

  lemma ListedIdsSnoc(ids: seq<Json>, k: nat)
    requires k < |ids|
    ensures ListedIds(ids[..k + 1]) == ListedIds(ids[..k]) + (if ids[k].Str? then {ids[k].s} else {})
  {
    var a := ids[..k];
    var b := ids[..k + 1];
    assert forall i :: 0 <= i < k ==> b[i] == a[i];
    forall s | s in ListedIds(b) ensures s in ListedIds(a) + (if ids[k].Str? then {ids[k].s} else {}) {
      var i :| 0 <= i < |b| && b[i].Str? && b[i].s == s;
      if i < k {
        assert a[i] == b[i];
      }
    }
    forall s | s in ListedIds(a) ensures s in ListedIds(b) {
      var i :| 0 <= i < |a| && a[i].Str? && a[i].s == s;
      assert b[i] == a[i];
    }
    if ids[k].Str? {
      assert b[k] == ids[k];
    }
  }

  /** The pages of the contexts in `closed`. */
  function PagesOf(context2page: map<string, string>, closed: set<string>): set<string> {
    set c | c in closed && c in context2page :: context2page[c]
  }

  /** Every context has its own page, and every page belongs to one
      context. */
  predicate Consistent(contexts: map<string, Handle>, pages: map<string, Handle>, context2page: map<string, string>) {
    context2page.Keys == contexts.Keys &&
    pages.Keys == PagesOf(context2page, context2page.Keys) &&
    forall a, b :: a in context2page && b in context2page && a != b ==> context2page[a] != context2page[b]
  }

  lemma ConsistentOpen(contexts: map<string, Handle>, pages: map<string, Handle>, context2page: map<string, string>,
                       c: string, p: string, hc: Handle, hp: Handle)
    requires Consistent(contexts, pages, context2page) && c !in contexts && p !in pages
    ensures Consistent(contexts[c := hc], pages[p := hp], context2page[c := p])
  {
    var m := context2page[c := p];
    forall x | x in PagesOf(m, m.Keys) ensures x in PagesOf(context2page, context2page.Keys) + {p} {
      var d :| d in m.Keys && d in m && m[d] == x;
      if d != c {
        assert d in context2page && context2page[d] == x;
      }
    }
    forall x | x in PagesOf(context2page, context2page.Keys) + {p} ensures x in PagesOf(m, m.Keys) {
      if x == p {
        assert c in m && m[c] == p;
      } else {
        var d :| d in context2page.Keys && d in context2page && context2page[d] == x;
        assert d in m && m[d] == x;
      }
    }
  }

  lemma ConsistentClose(contexts: map<string, Handle>, pages: map<string, Handle>, context2page: map<string, string>, c: string)
    requires Consistent(contexts, pages, context2page) && c in contexts
    ensures Consistent(contexts - {c}, pages - {context2page[c]}, context2page - {c})
  {
    var m := context2page - {c};
    var p := context2page[c];
    forall x | x in PagesOf(m, m.Keys) ensures x in PagesOf(context2page, context2page.Keys) - {p} {
      var d :| d in m.Keys && d in m && m[d] == x;
      assert d in context2page && context2page[d] == x && d != c;
    }
    forall x | x in PagesOf(context2page, context2page.Keys) - {p} ensures x in PagesOf(m, m.Keys) {
      var d :| d in context2page.Keys && d in context2page && context2page[d] == x;
      assert d != c && d in m && m[d] == x;
    }
  }

  lemma PagesOfAdd(m: map<string, string>, closed: set<string>, c: string)
    ensures PagesOf(m, closed + {c}) == PagesOf(m, closed) + (if c in m then {m[c]} else {})
  {
  }

  /** The maps once the contexts in `closed` are closed. */
  function AfterClose(contexts: map<string, Handle>, pages: map<string, Handle>, context2page: map<string, string>,
                      closed: set<string>): (map<string, Handle>, map<string, Handle>, map<string, string>)
  {
    (contexts - closed, pages - PagesOf(context2page, closed), context2page - closed)
  }

  lemma AfterCloseStep(contexts: map<string, Handle>, pages: map<string, Handle>, context2page: map<string, string>,
                       closed: set<string>, c: string)
    requires Consistent(contexts, pages, context2page)
    ensures var (c1, p1, m1) := AfterClose(contexts, pages, context2page, closed);
      AfterClose(contexts, pages, context2page, closed + {c}) ==
        if c in c1 then (c1 - {c}, p1 - {context2page[c]}, m1 - {c}) else (c1, p1, m1)
  {
    PagesOfAdd(context2page, closed, c);
    var (c1, p1, m1) := AfterClose(contexts, pages, context2page, closed);
    if c in c1 {
      assert contexts - (closed + {c}) == c1 - {c};
      assert context2page - (closed + {c}) == m1 - {c};
      assert pages - PagesOf(context2page, closed + {c}) == p1 - {context2page[c]};
    } else if c in contexts {
      assert c in closed;
      assert closed + {c} == closed;
    } else {
      assert c !in context2page;
      assert contexts - (closed + {c}) == c1;
      assert context2page - (closed + {c}) == m1;
      assert pages - PagesOf(context2page, closed + {c}) == p1;
    }
  }

  /** `s` made of `n` zeros. */
  function Zeros(n: nat): (s: string)
    ensures |s| == n
  {
    if n == 0 then "" else "0" + Zeros(n - 1)
  }

  /** A string that is not in `used`, standing for a generated uuid. */
  method FreshId(used: set<string>) returns (s: string)
    ensures s !in used
  {
    var n: nat := 0;
    var rest := used;
    while rest != {}
      invariant rest <= used
      invariant forall x :: x in used && x !in rest ==> |x| < n
      decreases |rest|
    {
      var x :| x in rest;
      if |x| >= n {
        n := |x| + 1;
      }
      rest := rest - {x};
    }
    s := Zeros(n);
  }

  class ContextManager {
    var contexts: map<string, Handle>
    var pages: map<string, Handle>
    var context2page: map<string, string>

    /** Every context has its own page, and every page belongs to one
        context. */
    predicate Valid()
      reads this
    {
      Consistent(contexts, pages, context2page)
    }

    constructor()
      ensures Valid() && contexts == map[] && pages == map[] && context2page == map[]
    {
      contexts := map[];
      pages := map[];
      context2page := map[];
    }

    /** `open_new_page`: one new context and one new page in it, under
        fresh ids. */
    method OpenNewPage(context: Handle, page: Handle) returns (contextId: string, pageId: string)
      requires Valid()
      modifies this
      ensures Valid()
      ensures contextId !in old(contexts) && pageId !in old(pages)
      ensures contexts == old(contexts)[contextId := context]
      ensures pages == old(pages)[pageId := page]
      ensures context2page == old(context2page)[contextId := pageId]
    {
      contextId := FreshId(contexts.Keys);
      pageId := FreshId(pages.Keys);
      ConsistentOpen(contexts, pages, context2page, contextId, pageId, context, page);
      contexts := contexts[contextId := context];
      pages := pages[pageId := page];
      context2page := context2page[contextId := pageId];
    }

    /** `check_context_and_page`: the given pair when both ids are set, a new
        context and page otherwise. */
    method CheckContextAndPage(contextId: Option<string>, pageId: Option<string>, context: Handle, page: Handle)
      returns (c: string, p: string)
      requires Valid()
      modifies this
      ensures Valid()
      ensures TruthyId(contextId) && TruthyId(pageId) ==>
        c == contextId.value && p == pageId.value &&
        contexts == old(contexts) && pages == old(pages) && context2page == old(context2page)
      ensures !(TruthyId(contextId) && TruthyId(pageId)) ==>
        c !in old(contexts) && p !in old(pages) &&
        contexts == old(contexts)[c := context] && pages == old(pages)[p := page] &&
        context2page == old(context2page)[c := p]
    {
      if !TruthyId(contextId) || !TruthyId(pageId) {
        c, p := OpenNewPage(context, page);
      } else {
        c, p := contextId.value, pageId.value;
      }
    }

    /** `get_page_by_id`: by page id alone. */
    function PageById(contextId: string, pageId: string): (r: Result<Handle>)
      reads this
      ensures r.Ok? <==> pageId in pages
      ensures r.Ok? ==> r.value == pages[pageId]
    {
      if pageId in pages then Ok(pages[pageId]) else Err(KeyError(pageId))
    }

    /** `close_contexts`: every listed context that is open is closed with
        its page; unknown ids are skipped, and nothing else changes. */
    method CloseContexts(ids: seq<Json>)
      requires Valid()
      modifies this
      ensures Valid()
      ensures contexts == old(contexts) - ListedIds(ids)
      ensures context2page == old(context2page) - ListedIds(ids)
      ensures pages == old(pages) - PagesOf(old(context2page), ListedIds(ids))
    {
      var k := 0;
      assert ListedIds(ids[..0]) == {};
      assert PagesOf(context2page, {}) == {};
      assert contexts - {} == contexts && pages - {} == pages && context2page - {} == context2page;
      assert AfterClose(contexts, pages, context2page, {}) == (contexts, pages, context2page);
      while k < |ids|
        invariant 0 <= k <= |ids|
        invariant Valid()
        invariant (contexts, pages, context2page) == AfterClose(old(contexts), old(pages), old(context2page), ListedIds(ids[..k]))
      {
        ListedIdsSnoc(ids, k);
        var id := ids[k];
        if id.Str? {
          AfterCloseStep(old(contexts), old(pages), old(context2page), ListedIds(ids[..k]), id.s);
        } else {
          assert ListedIds(ids[..k + 1]) == ListedIds(ids[..k]);
        }
        if id.Str? && id.s in contexts {
          var pageId := context2page[id.s];
          ConsistentClose(contexts, pages, context2page, id.s);
          pages := pages - {pageId};
          contexts := contexts - {id.s};
          context2page := context2page - {id.s};
        }
        k := k + 1;
      }
      assert ids[..k] == ids;
    }
  }

  // ---------------------------------------------------------------------
  // Dispatch of the older local request handler (browser_manager.py)

  /** The endpoints `RequestHandler.process_puppeteer_request` has a
      handler for. */
  const RequestHandlerTags: set<string> :=
    {"goto", "click", "back", "forward", "scroll", "screenshot", "action", "recaptcha_solver"}

  /** Looking an endpoint up in a local action table: no entry gives no
      result, a refused endpoint raises, any other runs its handler. */
  function LocalDispatch<R>(table: set<string>, endpoint: string, run: string -> Result<R>): (r: Option<Result<R>>)
    ensures r.None? <==> endpoint !in table
    ensures endpoint in table && endpoint in UnavailableLocally ==> r == Some(Err(ValueError(UnavailableMessage(endpoint))))
    ensures endpoint in table && endpoint !in UnavailableLocally ==> r == Some(run(endpoint))
  {
    if endpoint !in table then None
    else if endpoint in UnavailableLocally then Some(Err(ValueError(UnavailableMessage(endpoint))))
    else Some(run(endpoint))
  }

  /** The older handler serves no HAR capture, form filling or Compose,
      and refuses custom JavaScript and the solver. */
  lemma RequestHandlerCoverage<R>(a: Action, run: string -> Result<R>)
    ensures LocalDispatch(RequestHandlerTags, Endpoint(a), run).None? <==>
      a.Har? || a.FillForm? || a.Compose? || (a.Extension? && a.name !in RequestHandlerTags)
    ensures a.CustomJsAction? ==>
      LocalDispatch(RequestHandlerTags, Endpoint(a), run) == Some(Err(ValueError("CustomJsAction is not available in local mode")))
    ensures a.RecaptchaSolver? ==>
      LocalDispatch(RequestHandlerTags, Endpoint(a), run) == Some(Err(ValueError("RecaptchaSolver is not available in local mode")))
  {
    match a {
      case Har => assert "har" !in RequestHandlerTags;
      case FillForm(_, _) => assert "fill_form" !in RequestHandlerTags;
      case Compose(_) => assert "compose" !in RequestHandlerTags;
      case CustomJsAction(_) => assert "action" in RequestHandlerTags && "action" in UnavailableLocally;
      case RecaptchaSolver(_, _, _, _) => assert "recaptcha_solver" in RequestHandlerTags && "recaptcha_solver" in UnavailableLocally;
      case Extension(_, _) =>
      case _ => assert Endpoint(a) in RequestHandlerTags;
    }
  }
}
