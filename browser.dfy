/** The one browser page every component drives, replaced by a simulated sink. The page
    records each call made on it, in order, as an effect in `trace`; what the page answers
    is a pure function (`env`) of the calls made before the current one and of the current
    request. A scripted sequence of answers, a replayed document or an arbitrary adversary
    are all instances of `env`. */
module Browser {
  import opened Base

  /** One call into the browser. */
  datatype Effect =
    | Eval(script: string)                       // page.evaluate / exec_js
    | EvalOn(script: string, target: Handle)     // page.evaluate(script, element)
    | WaitSelector(selector: string, timeoutMs: int)
    | WaitFor(ms: int)                           // page.waitFor
    | Sleep(ms: int)                             // asyncio.sleep / time.sleep, in milliseconds
    | Query(selector: string)                    // page.querySelectorAll
    | Callback(id: nat)                          // a user callback run by the scroll loop

  /** The answers of the outside world, each a function of the history so far. `matches`
      gives the number of elements a query finds (None when the driver yields None) and
      `present` whether waitForSelector succeeds within the timeout. */
  datatype Env = Env(
    eval: (seq<Effect>, string) -> Result<JsValue>,
    evalOn: (seq<Effect>, string, Handle) -> Result<JsValue>,
    matches: (seq<Effect>, string) -> Option<nat>,
    present: (seq<Effect>, string, int) -> bool)

  /** The handles a query made at history length `stamp` returns: one per match, in document order. */
  function Handles(selector: string, stamp: nat, n: nat): (hs: seq<Handle>)
    ensures |hs| == n
    ensures forall i :: 0 <= i < n ==> hs[i] == Handle(selector, stamp, i)
  {
    if n == 0 then [] else Handles(selector, stamp, n - 1) + [Handle(selector, stamp, n - 1)]
  }

  /** The answer to `query_all(selector)` after history h. */
  function QueryResult(env: Env, h: seq<Effect>, selector: string): Option<seq<Handle>> {
    match env.matches(h, selector)
    case None => None
    case Some(n) => Some(Handles(selector, |h|, n))
  }

  class Page {
    var trace: seq<Effect>
    const env: Env

    constructor(env: Env)
      ensures this.env == env && trace == []
    {
      this.env := env;
      trace := [];
    }

    method Evaluate(script: string) returns (r: Result<JsValue>)
      modifies this
      ensures trace == old(trace) + [Eval(script)]
      ensures r == env.eval(old(trace), script)
    {
      r := env.eval(trace, script);
      trace := trace + [Eval(script)];
    }

    method EvaluateOn(script: string, target: Handle) returns (r: Result<JsValue>)
      modifies this
      ensures trace == old(trace) + [EvalOn(script, target)]
      ensures r == env.evalOn(old(trace), script, target)
    {
      r := env.evalOn(trace, script, target);
      trace := trace + [EvalOn(script, target)];
    }

    method WaitForSelector(selector: string, timeoutMs: int) returns (r: Result<()>)
      modifies this
      ensures trace == old(trace) + [WaitSelector(selector, timeoutMs)]
      ensures r == if env.present(old(trace), selector, timeoutMs) then Ok(()) else Err(SelectorTimeout(selector, timeoutMs))
    {
      r := if env.present(trace, selector, timeoutMs) then Ok(()) else Err(SelectorTimeout(selector, timeoutMs));
      trace := trace + [WaitSelector(selector, timeoutMs)];
    }

    method QueryAll(selector: string) returns (r: Option<seq<Handle>>)
      modifies this
      ensures trace == old(trace) + [Query(selector)]
      ensures r == QueryResult(env, old(trace), selector)
    {
      r := QueryResult(env, trace, selector);
      trace := trace + [Query(selector)];
    }

    method WaitForMs(ms: int)
      modifies this
      ensures trace == old(trace) + [WaitFor(ms)]
    {
      trace := trace + [WaitFor(ms)];
    }

    method SleepMs(ms: int)
      modifies this
      ensures trace == old(trace) + [Sleep(ms)]
    {
      trace := trace + [Sleep(ms)];
    }

    method RunCallback(id: nat)
      modifies this
      ensures trace == old(trace) + [Callback(id)]
    {
      trace := trace + [Callback(id)];
    }
  }
}
