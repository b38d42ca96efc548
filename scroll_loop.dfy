/** The convergence scroll loader `_scroll_load_`, the loop the three scroll handlers share.
    Each tick may count the matches of a selector against a threshold, makes one scroll step,
    runs the step callbacks, sleeps, and samples the scroll offset; a run of unchanged
    offsets ends the loop. The handlers differ only in how often they count, whether a
    missing count or threshold is an error, and their callbacks and defaults, so one loop
    with those as parameters stands for all three.

    The source loop has no bound: here it runs for at most `fuel` ticks and reports
    `OutOfFuel` when it would go on. */
module ScrollLoop {
  import opened Base
  import G = JsGenerator
  import opened Browser
  import J = JsHandlers
  import Q = DataHandlers

  datatype Params = Params(
    selector: Option<string>,    // what to count, if anything
    step: Option<int>,           // pixels per step; None scrolls to the bottom
    sleepMs: int,                // the pause after the callbacks, in milliseconds
    sameTh: int,                 // how many unchanged offsets in a row end the loop
    threshold: Option<int>,      // the match count that ends the loop
    callbacks: seq<nat>,         // the step callbacks, in order
    logInterval: int,            // growth of the count between progress messages
    checkInterval: int,          // count every this many ticks
    strict: bool)                // a None query result or threshold is a TypeError

  /** The loop's variables: `same_count`, `last_top`, `count_check_counter`, `count`, `prev_count`. */
  datatype LoopState = LoopState(sameCount: int, lastTop: JsValue, counter: int, count: nat, prevCount: int)

  const Start := LoopState(0, Null, 0, 0, 0)

  datatype Stop = ThresholdReached(count: nat) | Stable | Failed(error: Error) | OutOfFuel

  /** Where a phase of a tick leaves the loop: going on from a state, or stopped. */
  datatype Phase = Go(st: LoopState, h: seq<Effect>) | Halt(why: Stop, h: seq<Effect>)

  /** `_scroll_step`'s script. */
  function StepScript(step: Option<int>): (js: string)
    ensures step.None? ==> js == G.ScrollToBottom()
    ensures step.Some? ==> js == G.ScrollBy(0, step.value)
  {
    if step.None? then G.ScrollToBottom() else G.ScrollBy(0, step.value)
  }

  /** A step never reads like the offset sample. */
  lemma StepIsNotSample(step: Option<int>)
    ensures StepScript(step) != G.GetScrollTop()
  {
    assert G.GetScrollTop()[0] == 'd';
    if step.None? {
      assert G.ScrollToBottom()[0] == 'w';
    } else {
      assert G.ScrollBy(0, step.value)[0] == 'w';
    }
  }

  function CallbackEffects(callbacks: seq<nat>): (es: seq<Effect>)
    ensures |es| == |callbacks|
    ensures forall i :: 0 <= i < |callbacks| ==> es[i] == Callback(callbacks[i])
  {
    if |callbacks| == 0 then [] else CallbackEffects(callbacks[..|callbacks| - 1]) + [Callback(callbacks[|callbacks| - 1])]
  }

  /** Whether this tick counts: a selector is given and the bumped counter reaches the interval. */
  predicate Counts(p: Params, st: LoopState) {
    p.selector.Some? && st.counter + 1 >= p.checkInterval
  }

  /** The count check at the top of a tick. */
  function CountCheck(env: Env, p: Params, st: LoopState, h: seq<Effect>): Phase {
    if p.selector.None? then Go(st, h)
    else if !Counts(p, st) then Go(st.(counter := st.counter + 1), h)
    else
      var s := p.selector.value;
      var h1 := h + [Query(s)];
      var found := QueryResult(env, h, s);
      if p.strict && found.None? then Halt(Failed(TypeError), h1)
      else
        var n := Q.CountOf(found);
        if p.strict && p.threshold.None? then Halt(Failed(TypeError), h1)
        else if p.threshold.Some? && n >= p.threshold.value then Halt(ThresholdReached(n), h1)
        else
          var prev := if n - st.prevCount >= p.logInterval then n else st.prevCount;
          Go(st.(counter := 0, count := n, prevCount := prev), h1)
  }

  /** The rest of a tick: the step, the callbacks, the pause and the offset sample. */
  function ScrollPhase(env: Env, p: Params, st: LoopState, h: seq<Effect>): Phase {
    var js := StepScript(p.step);
    var h1 := h + [Eval(js)];
    match env.eval(h, js)
    case Err(e) => Halt(Failed(e), h1)
    case Ok(_) =>
      var h2 := h1 + CallbackEffects(p.callbacks) + [Sleep(p.sleepMs)];
      var h3 := h2 + [Eval(G.GetScrollTop())];
      match env.eval(h2, G.GetScrollTop())
      case Err(e) => Halt(Failed(e), h3)
      case Ok(top) =>
        if top == st.lastTop then
          if st.sameCount + 1 >= p.sameTh then Halt(Stable, h3)
          else Go(st.(sameCount := st.sameCount + 1, lastTop := top), h3)
        else Go(st.(sameCount := 0, lastTop := top), h3)
  }

  function Tick(env: Env, p: Params, st: LoopState, h: seq<Effect>): Phase {
    match CountCheck(env, p, st, h)
    case Halt(why, h1) => Halt(why, h1)
    case Go(st1, h1) => ScrollPhase(env, p, st1, h1)
  }

  /** How a run ends: why, with which trace, after how many ticks were begun. */
  datatype Outcome = Outcome(why: Stop, trace: seq<Effect>, ticks: nat)

  function Run(env: Env, p: Params, st: LoopState, h: seq<Effect>, fuel: nat): (o: Outcome)
    ensures o.ticks <= fuel
    ensures o.why == OutOfFuel ==> o.ticks == fuel
    ensures fuel > 0 ==> o.ticks >= 1
    decreases fuel
  {
    if fuel == 0 then Outcome(OutOfFuel, h, 0)
    else
      match Tick(env, p, st, h)
      case Halt(why, h1) => Outcome(why, h1, 1)
      case Go(st1, h1) =>
        var o := Run(env, p, st1, h1, fuel - 1);
        o.(ticks := o.ticks + 1)
  }

  // ---- the loop, as the handlers run it

  method ScrollStep(page: Page, step: Option<int>) returns (r: Result<JsValue>)
    modifies page
    ensures page.trace == old(page.trace) + [Eval(StepScript(step))]
    ensures r == page.env.eval(old(page.trace), StepScript(step))
  {
    if step.None? {
      r := J.ScrollToBottom(page);
    } else {
      r := J.ScrollBy(page, 0, step.value);
    }
  }

  /** Each callback once, in list order. */
  method RunCallbacks(page: Page, callbacks: seq<nat>)
    modifies page
    ensures page.trace == old(page.trace) + CallbackEffects(callbacks)
  {
    for i := 0 to |callbacks|
      invariant page.trace == old(page.trace) + CallbackEffects(callbacks[..i])
    {
      assert callbacks[..i + 1][..i] == callbacks[..i];
      page.RunCallback(callbacks[i]);
    }
    assert callbacks[..|callbacks|] == callbacks;
  }

  /** The interactor's `count`: `len(query_all(selector))`, a TypeError when the query yields None. */
  method StrictCount(page: Page, selector: string) returns (r: Result<nat>)
    modifies page
    ensures page.trace == old(page.trace) + [Query(selector)]
    ensures var found := QueryResult(page.env, old(page.trace), selector);
      r == if found.None? then Err(TypeError) else Ok(|found.value|)
  {
    var elements := page.QueryAll(selector);
    if elements.None? {
      return Err(TypeError);
    }
    r := Ok(|elements.value|);
  }

  method CountStep(page: Page, p: Params, st: LoopState) returns (ph: Phase)
    modifies page
    ensures ph == CountCheck(page.env, p, st, old(page.trace)) && page.trace == ph.h
  {
    if p.selector.None? {
      return Go(st, page.trace);
    }
    var counter := st.counter + 1;
    if counter < p.checkInterval {
      return Go(st.(counter := counter), page.trace);
    }
    var n: nat;
    if p.strict {
      var c := StrictCount(page, p.selector.value);
      if c.Err? {
        return Halt(Failed(c.error), page.trace);
      }
      n := c.value;
    } else {
      n := Q.Count(page, p.selector.value);
    }
    counter := 0;
    if p.strict && p.threshold.None? {
      return Halt(Failed(TypeError), page.trace);
    }
    var prev := st.prevCount;
    if p.threshold.Some? && n >= p.threshold.value {
      return Halt(ThresholdReached(n), page.trace);
    } else if n - prev >= p.logInterval {
      prev := n;
    }
    ph := Go(st.(counter := counter, count := n, prevCount := prev), page.trace);
  }

  method SampleStep(page: Page, p: Params, st: LoopState) returns (ph: Phase)
    modifies page
    ensures ph == ScrollPhase(page.env, p, st, old(page.trace)) && page.trace == ph.h
  {
    var stepped := ScrollStep(page, p.step);
    if stepped.Err? {
      return Halt(Failed(stepped.error), page.trace);
    }
    RunCallbacks(page, p.callbacks);
    page.SleepMs(p.sleepMs);
    var top := J.GetScrollTop(page);
    if top.Err? {
      return Halt(Failed(top.error), page.trace);
    }
    var same := st.sameCount;
    if top.value == st.lastTop {
      same := same + 1;
      if same >= p.sameTh {
        return Halt(Stable, page.trace);
      }
    } else {
      same := 0;
    }
    ph := Go(st.(sameCount := same, lastTop := top.value), page.trace);
  }

  /** `_scroll_load_`, for at most `fuel` ticks. */
  method ScrollLoad(page: Page, p: Params, fuel: nat) returns (why: Stop)
    modifies page
    ensures var o := Run(page.env, p, Start, old(page.trace), fuel);
      why == o.why && page.trace == o.trace
  {
    var st := Start;
    var t: nat := 0;
    ghost var goal := Run(page.env, p, Start, page.trace, fuel);
    while t < fuel
      invariant t <= fuel
      invariant Inv(p, st)
      invariant var o := Run(page.env, p, st, page.trace, fuel - t); goal == o.(ticks := o.ticks + t)
      decreases fuel - t
    {
      ghost var h := page.trace;
      TickKeepsInv(page.env, p, st, h);
      var ph := CountStep(page, p, st);
      if ph.Halt? {
        RunHalt(page.env, p, st, h, fuel - t);
        return ph.why;
      }
      ph := SampleStep(page, p, ph.st);
      if ph.Halt? {
        RunHalt(page.env, p, st, h, fuel - t);
        return ph.why;
      }
      RunGo(page.env, p, st, h, fuel - t);
      st := ph.st;
      t := t + 1;
    }
    why := OutOfFuel;
  }

  // ---- properties of a tick

  function Max1(n: int): int { if n < 1 then 1 else n }

  /** At the top of every tick: 0 <= same_count < same_th and 0 <= counter < interval
      (reading a bound below 1 as 1). */
  predicate Inv(p: Params, st: LoopState) {
    0 <= st.sameCount < Max1(p.sameTh) && 0 <= st.counter < Max1(p.checkInterval)
  }

  lemma TickKeepsInv(env: Env, p: Params, st: LoopState, h: seq<Effect>)
    requires Inv(p, st)
    ensures Tick(env, p, st, h).Go? ==> Inv(p, Tick(env, p, st, h).st)
  {
  }

  /** The calls of one full tick, in order. */
  function TickEffects(p: Params, counted: bool): seq<Effect> {
    (if counted && p.selector.Some? then [Query(p.selector.value)] else []) + [Eval(StepScript(p.step))]
      + CallbackEffects(p.callbacks) + [Sleep(p.sleepMs)] + [Eval(G.GetScrollTop())]
  }

  /** The calls of the scroll phase, in order. */
  function PhaseEffects(p: Params): seq<Effect> {
    [Eval(StepScript(p.step))] + CallbackEffects(p.callbacks) + [Sleep(p.sleepMs)] + [Eval(G.GetScrollTop())]
  }

  /** A count check that goes on adds at most the query and leaves the offset variables alone. */
  lemma CountCheckGoes(env: Env, p: Params, st: LoopState, h: seq<Effect>)
    requires Counts(p, st) ==> p.selector.Some?
    ensures var c := CountCheck(env, p, st, h);
      c.Go? ==> c.h == h + (if Counts(p, st) then [Query(p.selector.value)] else []) &&
                c.st.sameCount == st.sameCount && c.st.lastTop == st.lastTop
  {
  }

  /** A scroll phase that goes on, or ends on a stable offset, makes all its calls, and the
      sample decides the new offset and the run of unchanged offsets. */
  lemma PhaseOrder(env: Env, p: Params, st: LoopState, h: seq<Effect>)
    ensures var s := ScrollPhase(env, p, st, h);
      (s.Go? || s == Halt(Stable, s.h)) ==>
        s.h == h + PhaseEffects(p) &&
        var top := env.eval(s.h[..|s.h| - 1], G.GetScrollTop());
        top.Ok? &&
        (s.Go? ==> s.st.lastTop == top.value &&
                   s.st.sameCount == (if top.value == st.lastTop then st.sameCount + 1 else 0)) &&
        (s.Halt? ==> top.value == st.lastTop && st.sameCount + 1 >= p.sameTh)
  {
    var s := ScrollPhase(env, p, st, h);
    if s.Go? || s == Halt(Stable, s.h) {
      var h1 := h + [Eval(StepScript(p.step))];
      var h2 := h1 + CallbackEffects(p.callbacks) + [Sleep(p.sleepMs)];
      assert s.h == h2 + [Eval(G.GetScrollTop())];
      DropLast(h2, Eval(G.GetScrollTop()));
    }
  }

  lemma DropLast<T>(a: seq<T>, x: T)
    ensures (a + [x])[..|a|] == a
  {
  }

  /** A tick that goes on is its count check's calls then a scroll phase from there. */
  lemma TickIsPhase(env: Env, p: Params, st: LoopState, h: seq<Effect>)
    requires Tick(env, p, st, h).Go? || Tick(env, p, st, h) == Halt(Stable, Tick(env, p, st, h).h)
    ensures var c := CountCheck(env, p, st, h); c.Go? && Tick(env, p, st, h) == ScrollPhase(env, p, c.st, c.h)
  {
  }

  lemma TickEffectsSplit(p: Params, counted: bool)
    ensures TickEffects(p, counted) == (if counted && p.selector.Some? then [Query(p.selector.value)] else []) + PhaseEffects(p)
  {
  }

  /** A tick that goes on, or ends on a stable offset, made exactly: the count query when
      it counts, one scroll step, each callback once in list order, the pause, one sample. */
  lemma TickOrder(env: Env, p: Params, st: LoopState, h: seq<Effect>)
    requires Counts(p, st) ==> p.selector.Some?
    ensures var ph := Tick(env, p, st, h);
      (ph.Go? || ph == Halt(Stable, ph.h)) ==> ph.h == h + TickEffects(p, Counts(p, st))
  {
    var ph := Tick(env, p, st, h);
    if ph.Go? || ph == Halt(Stable, ph.h) {
      TickIsPhase(env, p, st, h);
      var c := CountCheck(env, p, st, h);
      CountCheckGoes(env, p, st, h);
      PhaseOrder(env, p, c.st, c.h);
      TickEffectsSplit(p, Counts(p, st));
      var q := if Counts(p, st) then [Query(p.selector.value)] else [];
      AppendAssoc(h, q, PhaseEffects(p));
    }
  }

  lemma AppendAssoc<T>(a: seq<T>, b: seq<T>, c: seq<T>)
    ensures (a + b) + c == a + (b + c)
  {
  }

  /** The counter only moves towards the interval and wraps to 0 when the count is taken. */
  lemma CountingTicks(env: Env, p: Params, st: LoopState, h: seq<Effect>)
    requires p.selector.Some?
    ensures var c := CountCheck(env, p, st, h);
      (Counts(p, st) ==> c.h == h + [Query(p.selector.value)] && (c.Go? ==> c.st.counter == 0)) &&
      (!Counts(p, st) ==> c == Go(st.(counter := st.counter + 1), h))
  {
  }

  /** `prev_count` moves only when the count grew by at least `log_interval`, and then to the count. */
  lemma PrevCountMoves(env: Env, p: Params, st: LoopState, h: seq<Effect>)
    ensures var c := CountCheck(env, p, st, h);
      c.Go? && c.st.prevCount != st.prevCount ==> c.st.count - st.prevCount >= p.logInterval && c.st.prevCount == c.st.count
  {
  }

  // ---- properties of a run

  /** `prev_count` and `log_interval` never influence how the loop goes or ends. */
  lemma {:induction false} LoggingIsInert(env: Env, p: Params, st: LoopState, h: seq<Effect>, fuel: nat, logInterval: int, prev: int)
    ensures Run(env, p, st, h, fuel) == Run(env, p.(logInterval := logInterval), st.(prevCount := prev), h, fuel)
    decreases fuel
  {
    if fuel > 0 {
      var p', st' := p.(logInterval := logInterval), st.(prevCount := prev);
      var a, b := CountCheck(env, p, st, h), CountCheck(env, p', st', h);
      assert a.Halt? <==> b.Halt?;
      if a.Go? {
        assert b.st == a.st.(prevCount := b.st.prevCount) && b.h == a.h;
        var c, d := ScrollPhase(env, p, a.st, a.h), ScrollPhase(env, p', b.st, b.h);
        assert c.Halt? <==> d.Halt?;
        if c.Go? {
          assert d.st == c.st.(prevCount := d.st.prevCount) && d.h == c.h;
          LoggingIsInert(env, p, c.st, c.h, fuel - 1, logInterval, d.st.prevCount);
        }
      }
    }
  }

  ghost predicate NoQueries(s: seq<Effect>) {
    forall i :: 0 <= i < |s| ==> !s[i].Query?
  }

  /** Without a selector nothing is ever counted. */
  lemma {:induction false} NoSelectorNoQuery(env: Env, p: Params, st: LoopState, h: seq<Effect>, fuel: nat)
    requires p.selector.None? && NoQueries(h)
    ensures NoQueries(Run(env, p, st, h, fuel).trace)
    decreases fuel
  {
    if fuel > 0 {
      var c := CountCheck(env, p, st, h);
      assert c == Go(st, h);
      var js := StepScript(p.step);
      var h1 := h + [Eval(js)];
      var h2 := h1 + CallbackEffects(p.callbacks) + [Sleep(p.sleepMs)];
      var h3 := h2 + [Eval(G.GetScrollTop())];
      assert NoQueries(h1) && NoQueries(h2) && NoQueries(h3);
      var s := ScrollPhase(env, p, st, h);
      if s.Go? {
        NoSelectorNoQuery(env, p, s.st, s.h, fuel - 1);
      }
    }
  }

  /** A tick that stops on the threshold made only the count query, and its count is the
      page's answer to it. */
  lemma ThresholdTickCounted(env: Env, p: Params, st: LoopState, h: seq<Effect>)
    ensures var t := Tick(env, p, st, h);
      t.Halt? && t.why.ThresholdReached? ==>
        p.selector.Some? && p.threshold.Some? && t.why.count >= p.threshold.value &&
        t.h == h + [Query(p.selector.value)] &&
        t.why.count == Q.CountOf(QueryResult(env, h, p.selector.value))
  {
  }

  /** A threshold stop ends a tick whose only call was the count query, with a count of at
      least the threshold, as the page reported it. */
  lemma {:induction false} ThresholdStopIsCounted(env: Env, p: Params, st: LoopState, h: seq<Effect>, fuel: nat)
    ensures var o := Run(env, p, st, h, fuel);
      o.why.ThresholdReached? ==>
        p.selector.Some? && p.threshold.Some? && o.why.count >= p.threshold.value &&
        |o.trace| > 0 && o.trace[|o.trace| - 1] == Query(p.selector.value) &&
        o.why.count == Q.CountOf(QueryResult(env, o.trace[..|o.trace| - 1], p.selector.value))
    decreases fuel
  {
    if fuel > 0 {
      var t := Tick(env, p, st, h);
      if t.Halt? {
        RunHalt(env, p, st, h, fuel);
        ThresholdTickCounted(env, p, st, h);
        if t.why.ThresholdReached? {
          DropLast(h, Query(p.selector.value));
        }
      } else {
        RunGo(env, p, st, h, fuel);
        ThresholdStopIsCounted(env, p, t.st, t.h, fuel - 1);
      }
    }
  }

  /** Without a threshold, and with a lenient count, counting never ends the loop: only a
      stable offset or a failing script does. */
  lemma {:induction false} NoThresholdNoThresholdStop(env: Env, p: Params, st: LoopState, h: seq<Effect>, fuel: nat)
    requires p.threshold.None? && !p.strict
    ensures !Run(env, p, st, h, fuel).why.ThresholdReached?
    decreases fuel
  {
    if fuel > 0 {
      var c := CountCheck(env, p, st, h);
      assert c.Go?;
      var s := ScrollPhase(env, p, c.st, c.h);
      if s.Go? {
        NoThresholdNoThresholdStop(env, p, s.st, s.h, fuel - 1);
      }
    }
  }

  /** The number of scroll steps among the calls s. */
  function Steps(s: seq<Effect>, p: Params): (n: nat)
    ensures n <= |s|
  {
    if |s| == 0 then 0
    else Steps(s[..|s| - 1], p) + (if s[|s| - 1] == Eval(StepScript(p.step)) then 1 else 0)
  }

  /** t is one of 0, k, 2k, ... */
  predicate MultipleOf(t: int, k: int)
    requires k >= 1
    decreases if t < 0 then 0 else t
  {
    t == 0 || (t >= k && MultipleOf(t - k, k))
  }

  /** A tick that stops on the threshold was one whose counter reached the interval, and its
      only call was the count query. */
  lemma ThresholdTick(env: Env, p: Params, st: LoopState, h: seq<Effect>)
    requires p.selector.Some? && p.checkInterval >= 1 && 0 <= st.counter < p.checkInterval
    ensures var t := Tick(env, p, st, h);
      t.Halt? && t.why.ThresholdReached? ==> st.counter + 1 == p.checkInterval && t.h == h + [Query(p.selector.value)]
  {
  }

  /** A tick that goes on leaves the counter in range: back at 0 when it counted, one up
      otherwise. */
  lemma TickCounter(env: Env, p: Params, st: LoopState, h: seq<Effect>)
    requires p.selector.Some? && p.checkInterval >= 1 && 0 <= st.counter < p.checkInterval
    ensures Counts(p, st) <==> st.counter + 1 == p.checkInterval
    ensures var t := Tick(env, p, st, h);
      t.Go? ==> (0 <= t.st.counter < p.checkInterval &&
                 t.st.counter == (if Counts(p, st) then 0 else st.counter + 1))
  {
    var c := CountCheck(env, p, st, h);
    if c.Go? {
      assert c.st.counter == (if Counts(p, st) then 0 else st.counter + 1);
      assert ScrollPhase(env, p, c.st, c.h).Go? ==> ScrollPhase(env, p, c.st, c.h).st.counter == c.st.counter;
    }
  }

  lemma {:induction false} StepsAppend(a: seq<Effect>, b: seq<Effect>, p: Params)
    ensures Steps(a + b, p) == Steps(a, p) + Steps(b, p)
    decreases |b|
  {
    if |b| == 0 {
      assert a + b == a;
    } else {
      var b' := b[..|b| - 1];
      assert (a + b)[..|a + b| - 1] == a + b';
      StepsAppend(a, b', p);
    }
  }

  /** Calls without the step script hold no scroll step. */
  lemma {:induction false} NoStepNoSteps(s: seq<Effect>, p: Params)
    requires Eval(StepScript(p.step)) !in s
    ensures Steps(s, p) == 0
    decreases |s|
  {
    if |s| > 0 {
      assert forall i :: 0 <= i < |s| - 1 ==> s[..|s| - 1][i] == s[i];
      NoStepNoSteps(s[..|s| - 1], p);
    }
  }

  /** The calls of a tick hold exactly one scroll step. */
  lemma StepsOfTick(p: Params, counted: bool)
    ensures Steps(TickEffects(p, counted), p) == 1
  {
    var e := Eval(StepScript(p.step));
    var q := if counted && p.selector.Some? then [Query(p.selector.value)] else [];
    var cb := CallbackEffects(p.callbacks);
    StepIsNotSample(p.step);
    assert e !in cb;
    NoStepNoSteps(cb, p);
    assert Steps([Sleep(p.sleepMs)], p) == 0;
    assert Steps([Eval(G.GetScrollTop())], p) == 0;
    assert Steps([e], p) == 1;
    StepsAppend(q, [e], p);
    StepsAppend(q + [e], cb, p);
    StepsAppend(q + [e] + cb, [Sleep(p.sleepMs)], p);
    StepsAppend(q + [e] + cb + [Sleep(p.sleepMs)], [Eval(G.GetScrollTop())], p);
  }

  /** A tick that goes on makes exactly one scroll step. */
  lemma TickSteps(env: Env, p: Params, st: LoopState, h: seq<Effect>)
    requires Counts(p, st) ==> p.selector.Some?
    ensures var t := Tick(env, p, st, h); t.Go? ==> Steps(t.h, p) == Steps(h, p) + 1
  {
    var t := Tick(env, p, st, h);
    if t.Go? {
      TickOrder(env, p, st, h);
      StepsAppend(h, TickEffects(p, Counts(p, st)), p);
      StepsOfTick(p, Counts(p, st));
    }
  }

  lemma QueryIsNotStep(h: seq<Effect>, p: Params)
    requires p.selector.Some?
    ensures Steps(h + [Query(p.selector.value)], p) == Steps(h, p)
  {
    assert (h + [Query(p.selector.value)])[..|h|] == h;
  }

  /** With every-`interval` counting, a threshold stop comes at the start of a tick whose
      number (counting from the first, from a zero counter) is a multiple of the interval. */
  lemma {:induction false} ThresholdTiming(env: Env, p: Params, st: LoopState, h: seq<Effect>, fuel: nat)
    requires p.selector.Some? && p.checkInterval >= 1 && 0 <= st.counter < p.checkInterval
    ensures var o := Run(env, p, st, h, fuel);
      o.why.ThresholdReached? ==> MultipleOf(st.counter + o.ticks, p.checkInterval)
    decreases fuel
  {
    var o := Run(env, p, st, h, fuel);
    if fuel > 0 && o.why.ThresholdReached? {
      var t := Tick(env, p, st, h);
      if t.Halt? {
        RunHalt(env, p, st, h, fuel);
        ThresholdTick(env, p, st, h);
        assert MultipleOf(p.checkInterval - p.checkInterval, p.checkInterval);
      } else {
        RunGo(env, p, st, h, fuel);
        TickCounter(env, p, st, h);
        ThresholdTiming(env, p, t.st, t.h, fuel - 1);
        var o' := Run(env, p, t.st, t.h, fuel - 1);
        if Counts(p, st) {
          assert st.counter + o.ticks == p.checkInterval + o'.ticks;
        }
      }
    }
  }

  /** A threshold stop comes after one scroll step for each tick before it. */
  lemma ThresholdSteps(env: Env, p: Params, st: LoopState, h: seq<Effect>, fuel: nat)
    requires p.selector.Some?
    ensures var o := Run(env, p, st, h, fuel);
      o.why.ThresholdReached? ==> Steps(o.trace, p) == Steps(h, p) + o.ticks - 1
  {
    var _ := RunStepsFit(env, p, st, h, fuel);
  }

  /** The run from st after h, with its step count in line (o is named so that callers need
      not restate the run). */
  lemma {:induction false} RunStepsFit(env: Env, p: Params, st: LoopState, h: seq<Effect>, fuel: nat)
    returns (o: Outcome)
    requires p.selector.Some?
    ensures o == Run(env, p, st, h, fuel) && StepsFit(o, h, p)
    decreases fuel, 1
  {
    if fuel == 0 {
      o := Run(env, p, st, h, fuel);
    } else if Tick(env, p, st, h).Halt? {
      o := ThresholdStepsHalt(env, p, st, h, fuel);
    } else {
      o := ThresholdStepsGo(env, p, st, h, fuel);
    }
  }

  lemma ThresholdStepsHalt(env: Env, p: Params, st: LoopState, h: seq<Effect>, fuel: nat)
    returns (o: Outcome)
    requires p.selector.Some? && fuel > 0 && Tick(env, p, st, h).Halt?
    ensures o == Run(env, p, st, h, fuel) && StepsFit(o, h, p)
  {
    var t := Tick(env, p, st, h);
    RunHalt(env, p, st, h, fuel);
    ThresholdTickCounted(env, p, st, h);
    QueryIsNotStep(h, p);
    o := Outcome(t.why, t.h, 1);
  }

  lemma {:induction false} ThresholdStepsGo(env: Env, p: Params, st: LoopState, h: seq<Effect>, fuel: nat)
    returns (o: Outcome)
    requires p.selector.Some? && fuel > 0 && Tick(env, p, st, h).Go?
    ensures o == Run(env, p, st, h, fuel) && StepsFit(o, h, p)
    decreases fuel, 0
  {
    var t := Tick(env, p, st, h);
    var o' := RunStepsFit(env, p, t.st, t.h, fuel - 1);
    StepsOneMore(env, p, st, h, o');
    RunGo(env, p, st, h, fuel);
    o := o'.(ticks := o'.ticks + 1);
  }

  /** Whether a threshold stop of run o, begun after history h, has one scroll step for each
      tick before it. */
  ghost predicate StepsFit(o: Outcome, h: seq<Effect>, p: Params) {
    o.why.ThresholdReached? ==> Steps(o.trace, p) == Steps(h, p) + o.ticks - 1
  }

  /** One more tick, which adds one scroll step, keeps a threshold stop's step count in line. */
  lemma StepsOneMore(env: Env, p: Params, st: LoopState, h: seq<Effect>, o': Outcome)
    requires p.selector.Some? && Tick(env, p, st, h).Go?
    requires StepsFit(o', Tick(env, p, st, h).h, p)
    ensures StepsFit(o'.(ticks := o'.ticks + 1), h, p)
  {
    TickSteps(env, p, st, h);
  }

  /** With counting at every tick, the first tick decides on the first count before any
      scroll step: a strict count fails on a None query result or a missing threshold, and
      otherwise the loop stops right there exactly when the count meets the threshold. */
  lemma FirstCount(env: Env, p: Params, h: seq<Effect>, fuel: nat)
    requires fuel > 0 && p.selector.Some? && p.checkInterval <= 1
    ensures var q := h + [Query(p.selector.value)];
      var found := QueryResult(env, h, p.selector.value);
      var n := Q.CountOf(found);
      var o := Run(env, p, Start, h, fuel);
      var fails := p.strict && (found.None? || p.threshold.None?);
      (fails ==> o == Outcome(Failed(TypeError), q, 1)) &&
      (!fails && p.threshold.Some? && n >= p.threshold.value ==> o == Outcome(ThresholdReached(n), q, 1)) &&
      (!fails ==> (o.why.ThresholdReached? && o.ticks == 1 <==> p.threshold.Some? && n >= p.threshold.value))
  {
    assert Counts(p, Start);
    var t := Tick(env, p, Start, h);
    if t.Halt? {
      RunHalt(env, p, Start, h, fuel);
    } else {
      RunGo(env, p, Start, h, fuel);
    }
  }

  /** What the step script answers after history h. */
  function StepAnswer(env: Env, p: Params, h: seq<Effect>): Result<JsValue> {
    env.eval(h, StepScript(p.step))
  }

  /** What the offset sample answers after history h, one step, then rest. */
  function SampleAfterStep(env: Env, p: Params, h: seq<Effect>, rest: seq<Effect>): Result<JsValue> {
    env.eval(h + [Eval(StepScript(p.step))] + rest, G.GetScrollTop())
  }

  predicate NoEvals(s: seq<Effect>) {
    forall i :: 0 <= i < |s| ==> !s[i].Eval?
  }

  /** The document the scroll step leaves behind holds still: the step goes through, and any
      sample taken after a step with nothing evaluated in between gives offset v. */
  ghost predicate SettlesAt(env: Env, p: Params, v: JsValue) {
    (forall h :: StepAnswer(env, p, h).Ok?) &&
    (forall h, rest :: NoEvals(rest) ==> SampleAfterStep(env, p, h, rest) == Ok(v))
  }

  /** Counting that can never stop the loop. */
  predicate CountNeverStops(p: Params) {
    p.selector.None? || (p.threshold.None? && !p.strict)
  }

  lemma CheckGoes(env: Env, p: Params, st: LoopState, h: seq<Effect>)
    requires CountNeverStops(p)
    ensures CountCheck(env, p, st, h).Go? && CountCheck(env, p, st, h).st.sameCount == st.sameCount
    ensures CountCheck(env, p, st, h).st.lastTop == st.lastTop
  {
  }

  /** The scroll phase once its two scripts are known to answer. */
  lemma ScrollPhaseSampled(env: Env, p: Params, st: LoopState, h: seq<Effect>, v: JsValue)
    requires env.eval(h, StepScript(p.step)).Ok?
    requires env.eval(h + [Eval(StepScript(p.step))] + CallbackEffects(p.callbacks) + [Sleep(p.sleepMs)], G.GetScrollTop()) == Ok(v)
    ensures var s := ScrollPhase(env, p, st, h);
      var h3 := h + [Eval(StepScript(p.step))] + CallbackEffects(p.callbacks) + [Sleep(p.sleepMs)] + [Eval(G.GetScrollTop())];
      (v == st.lastTop && st.sameCount + 1 >= p.sameTh ==> s == Halt(Stable, h3)) &&
      (v == st.lastTop && st.sameCount + 1 < p.sameTh ==> s == Go(st.(sameCount := st.sameCount + 1, lastTop := v), h3)) &&
      (v != st.lastTop ==> s == Go(st.(sameCount := 0, lastTop := v), h3))
  {
  }

  /** Every tick on a settled page samples v. */
  lemma SampleOnSettled(env: Env, p: Params, v: JsValue, st: LoopState, h: seq<Effect>)
    requires SettlesAt(env, p, v) && CountNeverStops(p)
    ensures var c := CountCheck(env, p, st, h);
      var h1 := c.h + [Eval(StepScript(p.step))];
      env.eval(c.h, StepScript(p.step)).Ok? &&
      env.eval(h1 + CallbackEffects(p.callbacks) + [Sleep(p.sleepMs)], G.GetScrollTop()) == Ok(v)
  {
    CheckGoes(env, p, st, h);
    var c := CountCheck(env, p, st, h);
    var rest := CallbackEffects(p.callbacks) + [Sleep(p.sleepMs)];
    assert NoEvals(rest);
    assert StepAnswer(env, p, c.h).Ok?;
    assert SampleAfterStep(env, p, c.h, rest) == Ok(v);
    assert c.h + [Eval(StepScript(p.step))] + CallbackEffects(p.callbacks) + [Sleep(p.sleepMs)]
        == c.h + [Eval(StepScript(p.step))] + rest;
  }

  /** A run whose first tick goes on is that tick followed by a run with one tick less. */
  lemma RunGo(env: Env, p: Params, st: LoopState, h: seq<Effect>, fuel: nat)
    requires fuel > 0 && Tick(env, p, st, h).Go?
    ensures var t := Tick(env, p, st, h); var o := Run(env, p, t.st, t.h, fuel - 1);
      Run(env, p, st, h, fuel) == o.(ticks := o.ticks + 1)
  {
  }

  /** A run whose first tick stops ends there, after one tick. */
  lemma RunHalt(env: Env, p: Params, st: LoopState, h: seq<Effect>, fuel: nat)
    requires fuel > 0 && Tick(env, p, st, h).Halt?
    ensures var t := Tick(env, p, st, h); Run(env, p, st, h, fuel) == Outcome(t.why, t.h, 1)
  {
  }

  /** One tick on a settled page once v has been seen: the unchanged run grows by one, and
      the loop stops when it reaches `same_th`. */
  lemma SettledTick(env: Env, p: Params, v: JsValue, st: LoopState, h: seq<Effect>)
    requires SettlesAt(env, p, v) && CountNeverStops(p) && st.lastTop == v
    ensures var t := Tick(env, p, st, h);
      (st.sameCount + 1 >= p.sameTh ==> t.Halt? && t.why == Stable) &&
      (st.sameCount + 1 < p.sameTh ==> t.Go? && t.st.sameCount == st.sameCount + 1 && t.st.lastTop == v)
  {
    SampleOnSettled(env, p, v, st, h);
    CheckGoes(env, p, st, h);
    var c := CountCheck(env, p, st, h);
    ScrollPhaseSampled(env, p, c.st, c.h, v);
  }

  /** The first tick from the initial state on a page settled at v != None: the sample
      replaces None and the unchanged run starts at 0. */
  lemma SettledFirstTick(env: Env, p: Params, v: JsValue, h: seq<Effect>)
    requires SettlesAt(env, p, v) && CountNeverStops(p) && v != Null
    ensures var t := Tick(env, p, Start, h); t.Go? && t.st.sameCount == 0 && t.st.lastTop == v
  {
    SampleOnSettled(env, p, v, Start, h);
    CheckGoes(env, p, Start, h);
    var c := CountCheck(env, p, Start, h);
    ScrollPhaseSampled(env, p, c.st, c.h, v);
  }

  /** Once the offset has been seen, the loop stops exactly when the unchanged run reaches `same_th`. */
  lemma {:induction false} SettledRunStops(env: Env, p: Params, v: JsValue, st: LoopState, h: seq<Effect>, fuel: nat)
    requires SettlesAt(env, p, v) && CountNeverStops(p)
    requires st.lastTop == v && 0 <= st.sameCount < Max1(p.sameTh)
    requires fuel >= Max1(p.sameTh) - st.sameCount
    ensures var o := Run(env, p, st, h, fuel); o.why == Stable && o.ticks == Max1(p.sameTh) - st.sameCount
    decreases fuel
  {
    SettledTick(env, p, v, st, h);
    var t := Tick(env, p, st, h);
    if st.sameCount + 1 < p.sameTh {
      SettledRunStops(env, p, v, t.st, t.h, fuel - 1);
      RunGo(env, p, st, h, fuel);
    } else {
      RunHalt(env, p, st, h, fuel);
    }
  }

  /** A page whose offset settles at a value other than None stops the loop on stability
      after exactly `same_th` + 1 ticks (2 when `same_th` is below 1): the first sample only
      replaces the initial None. */
  lemma SettledPageStops(env: Env, p: Params, v: JsValue, h: seq<Effect>, fuel: nat)
    requires SettlesAt(env, p, v) && CountNeverStops(p) && v != Null
    requires fuel >= Max1(p.sameTh) + 1
    ensures var o := Run(env, p, Start, h, fuel); o.why == Stable && o.ticks == Max1(p.sameTh) + 1
  {
    SettledFirstTick(env, p, v, h);
    var t := Tick(env, p, Start, h);
    SettledRunStops(env, p, v, t.st, t.h, fuel - 1);
    RunGo(env, p, Start, h, fuel);
  }
}
