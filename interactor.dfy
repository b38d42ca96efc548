/** The page interactor's selector wait and click handlers, in the pyppeteer interactor
    (fixed 5000 ms timeout, wait length a parameter) and in the agent's interactor (both read
    from its configuration). The `wait_for_selector` decorator becomes the first step of each
    decorated method: the wait is made, and a failed wait ends the call before the wrapped
    body runs. */
module PageInteractor {
  import opened Base
  import G = JsGenerator
  import opened Browser
  import J = JsHandlers
  import C = InteractionConfig

  /** The pyppeteer decorator's module-level timeout. */
  const PyppTimeoutMs := 5000
  /** The pyppeteer click handler's default `new_page_wait`. */
  const DefaultNewPageWaitMs := 1000

  /** The agent decorator reads its timeout from the handler's configuration. */
  function AgentTimeout(cfg: C.PageInteractionConfig): (t: int)
    ensures t == cfg.selectorWaitTimeOut
  {
    cfg.selectorWaitTimeOut
  }

  /** Under `_config.py`'s defaults the agent's configured wait is the pyppeteer decorator's fixed one. */
  lemma AgentDefaultIsPyppTimeout()
    ensures AgentTimeout(C.Default()) == PyppTimeoutMs
  {
  }

  /** The calls a click makes, given whether the selector showed up and what the click
      script returned. */
  function ClickEffects(selector: string, timeoutMs: int, present: bool, clicked: Result<JsValue>,
                        newPage: bool, waitMs: int): seq<Effect>
  {
    if !present then [WaitSelector(selector, timeoutMs)]
    else if clicked.Err? then [WaitSelector(selector, timeoutMs), Eval(G.Click(selector))]
    else [WaitSelector(selector, timeoutMs), Eval(G.Click(selector))] + (if newPage then [WaitFor(waitMs)] else [])
  }

  /** The selector wait comes first; the click script is evaluated exactly once, and only when
      the wait succeeded; the extra wait happens iff the click went through and `new_page` is
      set, and then it is the last call, after the click. */
  lemma ClickOrder(selector: string, timeoutMs: int, present: bool, clicked: Result<JsValue>,
                   newPage: bool, waitMs: int)
    ensures var es := ClickEffects(selector, timeoutMs, present, clicked, newPage, waitMs);
      |es| > 0 && es[0] == WaitSelector(selector, timeoutMs) &&
      multiset(es)[Eval(G.Click(selector))] == (if present then 1 else 0) &&
      (present ==> es[1] == Eval(G.Click(selector))) &&
      (WaitFor(waitMs) in es <==> present && clicked.Ok? && newPage) &&
      (present && clicked.Ok? && newPage ==> |es| == 3 && es[2] == WaitFor(waitMs))
  {
    var es := ClickEffects(selector, timeoutMs, present, clicked, newPage, waitMs);
    if present {
      assert es[..2] == [WaitSelector(selector, timeoutMs), Eval(G.Click(selector))];
      assert es == es[..2] + es[2..];
    }
  }

  /** The shared body of both click handlers: wait for the selector, click it through the
      action handler, then wait for a new page if asked to. */
  method Click(page: Page, timeoutMs: int, selector: string, newPage: bool, waitMs: int) returns (r: Result<()>)
    modifies page
    ensures var present := page.env.present(old(page.trace), selector, timeoutMs);
      var clicked := page.env.eval(old(page.trace) + [WaitSelector(selector, timeoutMs)], G.Click(selector));
      page.trace == old(page.trace) + ClickEffects(selector, timeoutMs, present, clicked, newPage, waitMs) &&
      r == (if !present then Err(SelectorTimeout(selector, timeoutMs))
            else if clicked.Err? then Err(clicked.error) else Ok(()))
  {
    var waited := page.WaitForSelector(selector, timeoutMs);
    if waited.Err? {
      return Err(waited.error);
    }
    var clicked := J.Click(page, selector);
    if clicked.Err? {
      return Err(clicked.error);
    }
    if newPage {
      page.WaitForMs(waitMs);
    }
    r := Ok(());
  }

  /** The pyppeteer interactor's `click`. */
  method PyppClick(page: Page, selector: string, newPage: bool := false, newPageWait: int := DefaultNewPageWaitMs)
    returns (r: Result<()>)
    modifies page
    ensures var present := page.env.present(old(page.trace), selector, PyppTimeoutMs);
      var clicked := page.env.eval(old(page.trace) + [WaitSelector(selector, PyppTimeoutMs)], G.Click(selector));
      page.trace == old(page.trace) + ClickEffects(selector, PyppTimeoutMs, present, clicked, newPage, newPageWait) &&
      r == (if !present then Err(SelectorTimeout(selector, PyppTimeoutMs))
            else if clicked.Err? then Err(clicked.error) else Ok(()))
  {
    r := Click(page, PyppTimeoutMs, selector, newPage, newPageWait);
  }

  /** The agent interactor's `click`: timeout and new-page wait both come from the configuration. */
  method AgentClick(page: Page, cfg: C.PageInteractionConfig, selector: string, newPage: bool := false)
    returns (r: Result<()>)
    modifies page
    ensures var t := AgentTimeout(cfg);
      var present := page.env.present(old(page.trace), selector, t);
      var clicked := page.env.eval(old(page.trace) + [WaitSelector(selector, t)], G.Click(selector));
      page.trace == old(page.trace) + ClickEffects(selector, t, present, clicked, newPage, cfg.newPageWait) &&
      r == (if !present then Err(SelectorTimeout(selector, t))
            else if clicked.Err? then Err(clicked.error) else Ok(()))
  {
    r := Click(page, AgentTimeout(cfg), selector, newPage, cfg.newPageWait);
  }
}
