/** The three scroll handlers built around the shared loop: the pyppeteer one (counting every
    fifth tick, with step callbacks), the agent's script-level one (counting every tick) and
    the agent interactor's one (counting every tick, where a missing count or threshold is a
    TypeError and the pause is in seconds). Each exposes `scroll_load`, which passes no
    selector, and `scroll_load_selector`, which runs the loop and then asks the page once more.

    A call whose loop is still going after `fuel` ticks has not returned: the selector
    variants then answer None. */
module PyppScroll {
  import opened Base
  import opened Browser
  import L = ScrollLoop
  import Q = DataHandlers

  /** `_scroll_load_`'s `count_check_interval`. */
  const CountCheckInterval := 5

  /** `scroll_load`'s and `scroll_load_selector`'s defaults. */
  const DefaultStep: Option<int> := Some(400)
  const DefaultLoadWaitMs := 40
  const DefaultSameTh := 20
  const DefaultLogInterval := 100

  /** `_scroll_load_`'s settings in this handler: a lenient count every fifth tick. */
  function Settings(selector: Option<string>, threshold: Option<int>, step: Option<int>, loadWaitMs: int,
                    sameTh: int, callbacks: seq<nat>, logInterval: int): L.Params {
    L.Params(selector, step, loadWaitMs, sameTh, threshold, callbacks, logInterval, CountCheckInterval, false)
  }

  /** `scroll_load`: the loop without a selector. */
  method ScrollLoad(page: Page, step: Option<int> := DefaultStep, loadWaitMs: int := DefaultLoadWaitMs,
                    sameTh: int := DefaultSameTh, callbacks: seq<nat> := [], fuel: nat)
    returns (why: L.Stop)
    modifies page
    ensures var o := L.Run(page.env, Settings(None, None, step, loadWaitMs, sameTh, callbacks, DefaultLogInterval),
                           L.Start, old(page.trace), fuel);
      why == o.why && page.trace == o.trace
  {
    why := L.ScrollLoad(page, Settings(None, None, step, loadWaitMs, sameTh, callbacks, DefaultLogInterval), fuel);
  }

  /** `scroll_load_selector`: the loop, then a fresh `query_all` whose elements are returned;
      `len` of a None result is a TypeError, and a failing script in the loop propagates. */
  method ScrollLoadSelector(page: Page, selector: string, threshold: Option<int> := None, step: Option<int> := DefaultStep,
                            loadWaitMs: int := DefaultLoadWaitMs, sameTh: int := DefaultSameTh, callbacks: seq<nat> := [],
                            logInterval: int := DefaultLogInterval, fuel: nat)
    returns (r: Option<Result<seq<Handle>>>)
    modifies page
    ensures var o := L.Run(page.env, Settings(Some(selector), threshold, step, loadWaitMs, sameTh, callbacks, logInterval),
                           L.Start, old(page.trace), fuel);
      var found := QueryResult(page.env, o.trace, selector);
      if o.why == L.OutOfFuel then r == None && page.trace == o.trace
      else if o.why.Failed? then r == Some(Err(o.why.error)) && page.trace == o.trace
      else page.trace == o.trace + [Query(selector)] &&
           r == Some(if found.None? then Err(TypeError) else Ok(found.value))
  {
    var why := L.ScrollLoad(page, Settings(Some(selector), threshold, step, loadWaitMs, sameTh, callbacks, logInterval), fuel);
    if why == L.OutOfFuel {
      return None;
    }
    if why.Failed? {
      return Some(Err(why.error));
    }
    var elements := Q.QueryAll(page, selector);
    if elements.None? {
      return Some(Err(TypeError));
    }
    r := Some(Ok(elements.value));
  }

  /** `scroll_load` never queries the page for elements. */
  lemma LoadNeverCounts(env: Env, step: Option<int>, loadWaitMs: int, sameTh: int, callbacks: seq<nat>,
                        h: seq<Effect>, fuel: nat)
    requires L.NoQueries(h)
    ensures L.NoQueries(L.Run(env, Settings(None, None, step, loadWaitMs, sameTh, callbacks, DefaultLogInterval),
                              L.Start, h, fuel).trace)
  {
    L.NoSelectorNoQuery(env, Settings(None, None, step, loadWaitMs, sameTh, callbacks, DefaultLogInterval), L.Start, h, fuel);
  }

  /** A threshold stop comes at the start of tick 5k, after 5k - 1 scroll steps. */
  lemma ThresholdEveryFifthTick(env: Env, selector: string, threshold: Option<int>, step: Option<int>,
                                loadWaitMs: int, sameTh: int, callbacks: seq<nat>, logInterval: int,
                                h: seq<Effect>, fuel: nat)
    ensures var p := Settings(Some(selector), threshold, step, loadWaitMs, sameTh, callbacks, logInterval);
      var o := L.Run(env, p, L.Start, h, fuel);
      o.why.ThresholdReached? ==>
        L.MultipleOf(o.ticks, CountCheckInterval) && L.Steps(o.trace, p) == L.Steps(h, p) + o.ticks - 1
  {
    var p := Settings(Some(selector), threshold, step, loadWaitMs, sameTh, callbacks, logInterval);
    L.ThresholdTiming(env, p, L.Start, h, fuel);
    L.ThresholdSteps(env, p, L.Start, h, fuel);
  }
}

module AgentJsScroll {
  import opened Base
  import opened Browser
  import L = ScrollLoop
  import Q = DataHandlers

  const DefaultStep: Option<int> := Some(400)
  const DefaultLoadWaitMs := 40
  const DefaultSameTh := 20

  /** This handler has no progress log; `prev_count` is kept at a fixed interval that
      `ScrollLoop.LoggingIsInert` shows to be immaterial. */
  const NoLogInterval := 0

  /** `_scroll_load_`'s settings here: a lenient count at every tick, no callbacks. */
  function Settings(selector: Option<string>, threshold: Option<int>, step: Option<int>, loadWaitMs: int,
                    sameTh: int): L.Params {
    L.Params(selector, step, loadWaitMs, sameTh, threshold, [], NoLogInterval, 1, false)
  }

  /** `scroll_load`: the loop without a selector. */
  method ScrollLoad(page: Page, step: Option<int> := DefaultStep, loadWaitMs: int := DefaultLoadWaitMs,
                    sameTh: int := DefaultSameTh, fuel: nat) returns (why: L.Stop)
    modifies page
    ensures var o := L.Run(page.env, Settings(None, None, step, loadWaitMs, sameTh), L.Start, old(page.trace), fuel);
      why == o.why && page.trace == o.trace
  {
    why := L.ScrollLoad(page, Settings(None, None, step, loadWaitMs, sameTh), fuel);
  }

  /** `scroll_load_selector`: the loop, then a count re-taken with one more query. */
  method ScrollLoadSelector(page: Page, selector: string, threshold: Option<int> := None, step: Option<int> := DefaultStep,
                            loadWaitMs: int := DefaultLoadWaitMs, sameTh: int := DefaultSameTh, fuel: nat)
    returns (r: Option<Result<nat>>)
    modifies page
    ensures var o := L.Run(page.env, Settings(Some(selector), threshold, step, loadWaitMs, sameTh), L.Start, old(page.trace), fuel);
      if o.why == L.OutOfFuel then r == None && page.trace == o.trace
      else if o.why.Failed? then r == Some(Err(o.why.error)) && page.trace == o.trace
      else page.trace == o.trace + [Query(selector)] &&
           r == Some(Ok(Q.CountOf(QueryResult(page.env, o.trace, selector))))
  {
    var why := L.ScrollLoad(page, Settings(Some(selector), threshold, step, loadWaitMs, sameTh), fuel);
    if why == L.OutOfFuel {
      return None;
    }
    if why.Failed? {
      return Some(Err(why.error));
    }
    var n := Q.Count(page, selector);
    r := Some(Ok(n));
  }

  /** Every tick that goes on, or ends on a stable offset, begins with the count query and
      then makes its one scroll step. */
  lemma CountsEveryTick(env: Env, selector: string, threshold: Option<int>, step: Option<int>,
                        loadWaitMs: int, sameTh: int, st: L.LoopState, h: seq<Effect>)
    requires L.Inv(Settings(Some(selector), threshold, step, loadWaitMs, sameTh), st)
    ensures var p := Settings(Some(selector), threshold, step, loadWaitMs, sameTh);
      var ph := L.Tick(env, p, st, h);
      (ph.Go? || ph == L.Halt(L.Stable, ph.h)) ==>
        |ph.h| >= |h| + 2 && ph.h[|h|] == Query(selector) && ph.h[|h| + 1] == Eval(L.StepScript(step))
  {
    var p := Settings(Some(selector), threshold, step, loadWaitMs, sameTh);
    assert L.Counts(p, st);
    L.TickOrder(env, p, st, h);
  }

  /** When the first count already meets the threshold the loop ends at once, with no
      scroll step; otherwise it does not end on the threshold in its first tick. */
  lemma FirstCountStops(env: Env, selector: string, threshold: int, step: Option<int>, loadWaitMs: int,
                        sameTh: int, h: seq<Effect>, fuel: nat)
    requires fuel > 0
    ensures var n := Q.CountOf(QueryResult(env, h, selector));
      var o := L.Run(env, Settings(Some(selector), Some(threshold), step, loadWaitMs, sameTh), L.Start, h, fuel);
      (n >= threshold ==> o == L.Outcome(L.ThresholdReached(n), h + [Query(selector)], 1)) &&
      (o.why.ThresholdReached? && o.ticks == 1 <==> n >= threshold)
  {
    L.FirstCount(env, Settings(Some(selector), Some(threshold), step, loadWaitMs, sameTh), h, fuel);
  }

  /** Without a threshold only a stable offset or a failing script ends the loop. */
  lemma NoThresholdOnlyStability(env: Env, selector: Option<string>, step: Option<int>, loadWaitMs: int,
                                 sameTh: int, h: seq<Effect>, fuel: nat)
    ensures var o := L.Run(env, Settings(selector, None, step, loadWaitMs, sameTh), L.Start, h, fuel);
      o.why == L.Stable || o.why.Failed? || o.why == L.OutOfFuel
  {
    L.NoThresholdNoThresholdStop(env, Settings(selector, None, step, loadWaitMs, sameTh), L.Start, h, fuel);
  }

  /** A page whose offset settles at v != None stops after exactly `same_th` + 1 ticks. */
  lemma ConstantOffsetStops(env: Env, selector: Option<string>, step: Option<int>, loadWaitMs: int,
                            sameTh: int, v: JsValue, h: seq<Effect>, fuel: nat)
    requires L.SettlesAt(env, Settings(selector, None, step, loadWaitMs, sameTh), v) && v != Null
    requires fuel >= L.Max1(sameTh) + 1
    ensures var o := L.Run(env, Settings(selector, None, step, loadWaitMs, sameTh), L.Start, h, fuel);
      o.why == L.Stable && o.ticks == L.Max1(sameTh) + 1
  {
    L.SettledPageStops(env, Settings(selector, None, step, loadWaitMs, sameTh), v, h, fuel);
  }
}

module AgentScroll {
  import opened Base
  import opened Browser
  import G = JsGenerator
  import L = ScrollLoop
  import D = Dom

  /** The defaults: no step, so every step scrolls to the bottom. */
  const DefaultStep: Option<int> := None
  const DefaultLoadWait := 40
  const DefaultSameTh := 20
  const NoLogInterval := 0

  /** `_scroll_load_`'s settings here: a strict count at every tick, no callbacks, and a pause
      of `load_wait` seconds. */
  function Settings(selector: Option<string>, threshold: Option<int>, step: Option<int>, loadWait: int,
                    sameTh: int): L.Params {
    L.Params(selector, step, loadWait * 1000, sameTh, threshold, [], NoLogInterval, 1, true)
  }

  /** The default step scrolls to the bottom. */
  lemma DefaultStepIsBottom()
    ensures L.StepScript(DefaultStep) == G.ScrollToBottom()
  {
  }

  /** `scroll_load`: the loop without a selector. */
  method ScrollLoad(page: Page, step: Option<int> := DefaultStep, loadWait: int := DefaultLoadWait,
                    sameTh: int := DefaultSameTh, fuel: nat) returns (why: L.Stop)
    modifies page
    ensures var o := L.Run(page.env, Settings(None, None, step, loadWait, sameTh), L.Start, old(page.trace), fuel);
      why == o.why && page.trace == o.trace
  {
    why := L.ScrollLoad(page, Settings(None, None, step, loadWait, sameTh), fuel);
  }

  /** `scroll_load_selector`: the loop, then `count` once more. */
  method ScrollLoadSelector(page: Page, selector: string, threshold: Option<int> := None, step: Option<int> := DefaultStep,
                            loadWait: int := DefaultLoadWait, sameTh: int := DefaultSameTh, fuel: nat)
    returns (r: Option<Result<nat>>)
    modifies page
    ensures var o := L.Run(page.env, Settings(Some(selector), threshold, step, loadWait, sameTh), L.Start, old(page.trace), fuel);
      var found := QueryResult(page.env, o.trace, selector);
      if o.why == L.OutOfFuel then r == None && page.trace == o.trace
      else if o.why.Failed? then r == Some(Err(o.why.error)) && page.trace == o.trace
      else page.trace == o.trace + [Query(selector)] &&
           r == Some(if found.None? then Err(TypeError) else Ok(|found.value|))
  {
    var why := L.ScrollLoad(page, Settings(Some(selector), threshold, step, loadWait, sameTh), fuel);
    if why == L.OutOfFuel {
      return None;
    }
    if why.Failed? {
      return Some(Err(why.error));
    }
    var n := L.StrictCount(page, selector);
    r := Some(n);
  }

  /** The pause is `load_wait` seconds, read as milliseconds by the page. */
  lemma PauseIsSeconds(selector: Option<string>, threshold: Option<int>, step: Option<int>, loadWait: int, sameTh: int)
    ensures Settings(selector, threshold, step, loadWait, sameTh).sleepMs == 1000 * loadWait
  {
  }

  /** With a selector and no threshold, the comparison `count >= threshold` fails in the
      first tick, right after the first count query. */
  lemma MissingThresholdFails(env: Env, selector: string, step: Option<int>, loadWait: int, sameTh: int,
                              h: seq<Effect>, fuel: nat)
    requires fuel > 0
    ensures L.Run(env, Settings(Some(selector), None, step, loadWait, sameTh), L.Start, h, fuel)
         == L.Outcome(L.Failed(TypeError), h + [Query(selector)], 1)
  {
    L.FirstCount(env, Settings(Some(selector), None, step, loadWait, sameTh), h, fuel);
  }

  /** With a threshold, a first count that the page cannot produce is a TypeError, and a
      first count that meets the threshold ends the loop before any step. */
  lemma FirstCountDecides(env: Env, selector: string, threshold: int, step: Option<int>, loadWait: int,
                          sameTh: int, h: seq<Effect>, fuel: nat)
    requires fuel > 0
    ensures var found := QueryResult(env, h, selector);
      var o := L.Run(env, Settings(Some(selector), Some(threshold), step, loadWait, sameTh), L.Start, h, fuel);
      (found.None? ==> o == L.Outcome(L.Failed(TypeError), h + [Query(selector)], 1)) &&
      (found.Some? && |found.value| >= threshold ==>
         o == L.Outcome(L.ThresholdReached(|found.value|), h + [Query(selector)], 1))
  {
    L.FirstCount(env, Settings(Some(selector), Some(threshold), step, loadWait, sameTh), h, fuel);
  }

  /** A document that nothing but the loop changes settles at its height under the default
      step: scrolling to the bottom always succeeds and any later sample reads the height. */
  lemma StaticDocumentSettles(init: D.Doc, selector: Option<string>, threshold: Option<int>, loadWait: int, sameTh: int)
    ensures L.SettlesAt(D.DomEnv(init), Settings(selector, threshold, DefaultStep, loadWait, sameTh), Num(init.height))
  {
    var p := Settings(selector, threshold, DefaultStep, loadWait, sameTh);
    forall h | true
      ensures L.StepAnswer(D.DomEnv(init), p, h).Ok?
    {
      D.ApplyBottom(D.Replay(init, h));
    }
    forall h, rest | L.NoEvals(rest)
      ensures L.SampleAfterStep(D.DomEnv(init), p, h, rest) == Ok(Num(init.height))
    {
      D.BottomOffsetIsHeight(init, h, rest);
    }
  }

  /** `scroll_load` with its defaults on such a document ends on a stable offset after
      exactly `same_th` + 1 ticks. */
  lemma StaticDocumentStops(init: D.Doc, loadWait: int, sameTh: int, h: seq<Effect>, fuel: nat)
    requires fuel >= L.Max1(sameTh) + 1
    ensures var o := L.Run(D.DomEnv(init), Settings(None, None, DefaultStep, loadWait, sameTh), L.Start, h, fuel);
      o.why == L.Stable && o.ticks == L.Max1(sameTh) + 1
  {
    StaticDocumentSettles(init, None, None, loadWait, sameTh);
    L.SettledPageStops(D.DomEnv(init), Settings(None, None, DefaultStep, loadWait, sameTh), Num(init.height), h, fuel);
  }
}
