/** `type_input`, the type-and-verify retry loop shared by the agent's two input handlers:
    after the selector wait, each attempt writes `text` into the element's `value` attribute
    and reads it back; the first read-back equal to `text` ends the loop, and three mismatches
    end it with RuntimeError. */
module InputRetry {
  import opened Base
  import G = JsGenerator
  import opened Browser
  import J = JsHandlers
  import R = ScriptReader
  import D = Dom
  import C = InteractionConfig
  import P = PageInteractor

  const MaxRetry := 3

  function WriteScript(selector: string, text: string): string { G.SetAttr(selector, "value", text) }
  function ReadScript(selector: string): string { G.GetAttr(selector, "value") }

  /** k attempts' worth of calls: a write then a read, k times. */
  function Tries(selector: string, text: string, k: nat): (es: seq<Effect>)
    ensures |es| == 2 * k
  {
    if k == 0 then [] else [Eval(WriteScript(selector, text)), Eval(ReadScript(selector))] + Tries(selector, text, k - 1)
  }

  /** The attempts from `retry` on, after history h; `last` is the latest read-back. Python's
      `current_text == text` holds only for a string equal to `text`. */
  function Attempts(env: Env, h: seq<Effect>, selector: string, text: string, retry: nat, last: JsValue): (Result<nat>, seq<Effect>)
    decreases MaxRetry - retry
  {
    if retry >= MaxRetry then (Err(InputVerification(selector, text, last)), h)
    else
      var h1 := h + [Eval(WriteScript(selector, text))];
      match env.eval(h, WriteScript(selector, text))
      case Err(e) => (Err(e), h1)
      case Ok(_) =>
        var h2 := h1 + [Eval(ReadScript(selector))];
        match env.eval(h1, ReadScript(selector))
        case Err(e) => (Err(e), h2)
        case Ok(current) =>
          if current == Str(text) then (Ok(retry), h2)
          else Attempts(env, h2, selector, text, retry + 1, current)
  }

  /** The whole call: the selector wait, then the attempts from 0 with an empty `current_text`. */
  function TypeInputSpec(env: Env, h: seq<Effect>, timeoutMs: int, selector: string, text: string): (Result<nat>, seq<Effect>) {
    var hw := h + [WaitSelector(selector, timeoutMs)];
    if !env.present(h, selector, timeoutMs) then (Err(SelectorTimeout(selector, timeoutMs)), hw)
    else Attempts(env, hw, selector, text, 0, Str(""))
  }

  /** `type_input`; the result carries the `retry_count` it logs on success. */
  method TypeInput(page: Page, timeoutMs: int, selector: string, text: string) returns (r: Result<nat>)
    modifies page
    ensures (r, page.trace) == TypeInputSpec(page.env, old(page.trace), timeoutMs, selector, text)
  {
    var waited := page.WaitForSelector(selector, timeoutMs);
    if waited.Err? {
      return Err(waited.error);
    }
    var current: JsValue := Str("");
    var retry: nat := 0;
    ghost var goal := Attempts(page.env, page.trace, selector, text, 0, current);
    while retry < MaxRetry
      invariant retry <= MaxRetry
      invariant Attempts(page.env, page.trace, selector, text, retry, current) == goal
      decreases MaxRetry - retry
    {
      var written := J.SetAttr(page, selector, "value", text);
      if written.Err? {
        return Err(written.error);
      }
      var read := J.GetAttr(page, selector, "value");
      if read.Err? {
        return Err(read.error);
      }
      current := read.value;
      if current == Str(text) {
        return Ok(retry);
      }
      retry := retry + 1;
    }
    r := Err(InputVerification(selector, text, current));
  }

  /** The agent's `type_input` as its `wait_for_selector` decorator runs it: the wait uses the
      configured selector timeout. */
  method AgentTypeInput(page: Page, cfg: C.PageInteractionConfig, selector: string, text: string) returns (r: Result<nat>)
    modifies page
    ensures (r, page.trace) == TypeInputSpec(page.env, old(page.trace), P.AgentTimeout(cfg), selector, text)
  {
    r := TypeInput(page, P.AgentTimeout(cfg), selector, text);
  }

  /** The read-back of attempt j (counting from 0) after history h, had the earlier attempts' calls been made. */
  function ReadBack(env: Env, h: seq<Effect>, selector: string, text: string, j: nat): Result<JsValue> {
    env.eval(h + Tries(selector, text, j) + [Eval(WriteScript(selector, text))], ReadScript(selector))
  }

  /** Whether attempt j's write went through. */
  predicate Written(env: Env, h: seq<Effect>, selector: string, text: string, j: nat) {
    env.eval(h + Tries(selector, text, j), WriteScript(selector, text)).Ok?
  }

  lemma TriesStep(h: seq<Effect>, selector: string, text: string, j: nat)
    ensures h + [Eval(WriteScript(selector, text))] + [Eval(ReadScript(selector))] + Tries(selector, text, j)
         == h + Tries(selector, text, j + 1)
  {
  }

  /** Success after n failed attempts: the calls are exactly n + 1 write/read pairs, every
      write went through, read-back n equals `text` and the earlier ones all differ from it. */
  lemma {:induction false} AttemptsSucceed(env: Env, h: seq<Effect>, selector: string, text: string, retry: nat, last: JsValue)
    ensures var (res, h') := Attempts(env, h, selector, text, retry, last);
      res.Ok? ==>
        retry <= res.value < MaxRetry &&
        h' == h + Tries(selector, text, res.value - retry + 1) &&
        ReadBack(env, h, selector, text, res.value - retry) == Ok(Str(text)) &&
        forall j :: 0 <= j <= res.value - retry ==>
          (Written(env, h, selector, text, j) &&
           (j < res.value - retry ==> ReadBack(env, h, selector, text, j).Ok? && ReadBack(env, h, selector, text, j) != Ok(Str(text))))
    decreases MaxRetry - retry
  {
    var (res, h') := Attempts(env, h, selector, text, retry, last);
    if retry < MaxRetry && res.Ok? {
      var w, q := WriteScript(selector, text), ReadScript(selector);
      var h1 := h + [Eval(w)];
      var h2 := h1 + [Eval(q)];
      assert h + Tries(selector, text, 0) == h;
      assert env.eval(h, w).Ok? && env.eval(h1, q).Ok?;
      var current := env.eval(h1, q).value;
      if current != Str(text) {
        AttemptsSucceed(env, h2, selector, text, retry + 1, current);
        var n := res.value - retry;
        assert Attempts(env, h, selector, text, retry, last) == Attempts(env, h2, selector, text, retry + 1, current);
        TriesStep(h, selector, text, n);
        forall j | 0 < j <= n
          ensures Written(env, h, selector, text, j) &&
            (j < n ==> ReadBack(env, h, selector, text, j).Ok? && ReadBack(env, h, selector, text, j) != Ok(Str(text)))
        {
          TriesStep(h, selector, text, j - 1);
          assert h2 + Tries(selector, text, j - 1) == h + Tries(selector, text, j);
          assert Written(env, h2, selector, text, j - 1);
        }
        TriesStep(h, selector, text, n - 1);
        assert h2 + Tries(selector, text, n - 1) == h + Tries(selector, text, n);
      }
    }
  }

  /** Three mismatching read-backs with every call going through end in RuntimeError after
      exactly three write/read pairs, reporting the last read-back and the target. */
  lemma {:induction false} AttemptsExhausted(env: Env, h: seq<Effect>, selector: string, text: string, retry: nat, last: JsValue)
    requires retry < MaxRetry
    requires forall j :: 0 <= j < MaxRetry - retry ==>
      (Written(env, h, selector, text, j) &&
       ReadBack(env, h, selector, text, j).Ok? && ReadBack(env, h, selector, text, j) != Ok(Str(text)))
    ensures Attempts(env, h, selector, text, retry, last) ==
      (Err(InputVerification(selector, text, ReadBack(env, h, selector, text, MaxRetry - retry - 1).value)),
       h + Tries(selector, text, MaxRetry - retry))
    decreases MaxRetry - retry
  {
    var w, q := WriteScript(selector, text), ReadScript(selector);
    var h1 := h + [Eval(w)];
    var h2 := h1 + [Eval(q)];
    assert h + Tries(selector, text, 0) == h;
    assert Written(env, h, selector, text, 0);
    assert ReadBack(env, h, selector, text, 0) == env.eval(h1, q);
    var current := env.eval(h1, q).value;
    TriesStep(h, selector, text, 0);
    if retry + 1 < MaxRetry {
      forall j | 0 <= j < MaxRetry - (retry + 1)
        ensures Written(env, h2, selector, text, j) &&
          ReadBack(env, h2, selector, text, j).Ok? && ReadBack(env, h2, selector, text, j) != Ok(Str(text))
      {
        TriesStep(h, selector, text, j);
        assert h2 + Tries(selector, text, j) == h + Tries(selector, text, j + 1);
        assert Written(env, h, selector, text, j + 1);
      }
      AttemptsExhausted(env, h2, selector, text, retry + 1, current);
      TriesStep(h, selector, text, MaxRetry - retry - 1);
      TriesStep(h, selector, text, MaxRetry - retry - 2);
      assert h2 + Tries(selector, text, MaxRetry - retry - 2) == h + Tries(selector, text, MaxRetry - retry - 1);
    } else {
      assert Tries(selector, text, 0) == [];
      assert h2 == h + Tries(selector, text, 1);
    }
  }

  /** Whatever the page answers, at most three attempts are made: a call ends after at most
      the wait and six evaluations, and success reports fewer than three failed attempts. */
  lemma {:induction false} AttemptsBounded(env: Env, h: seq<Effect>, selector: string, text: string, retry: nat, last: JsValue)
    requires retry <= MaxRetry
    ensures var (res, h') := Attempts(env, h, selector, text, retry, last);
      |h| <= |h'| <= |h| + 2 * (MaxRetry - retry) && h'[..|h|] == h && (res.Ok? ==> res.value < MaxRetry)
    decreases MaxRetry - retry
  {
    if retry < MaxRetry {
      var w, q := WriteScript(selector, text), ReadScript(selector);
      var h1 := h + [Eval(w)];
      var h2 := h1 + [Eval(q)];
      if env.eval(h, w).Ok? && env.eval(h1, q).Ok? && env.eval(h1, q).value != Str(text) {
        AttemptsBounded(env, h2, selector, text, retry + 1, env.eval(h1, q).value);
        var h' := Attempts(env, h2, selector, text, retry + 1, env.eval(h1, q).value).1;
        assert h'[..|h|] == h'[..|h2|][..|h|];
      }
    }
  }

  /** A failed selector wait ends the call before any write. */
  lemma WaitFailureStopsEarly(env: Env, h: seq<Effect>, timeoutMs: int, selector: string, text: string)
    requires !env.present(h, selector, timeoutMs)
    ensures TypeInputSpec(env, h, timeoutMs, selector, text) ==
      (Err(SelectorTimeout(selector, timeoutMs)), h + [WaitSelector(selector, timeoutMs)])
  {
  }

  /** With a document that honours writes, typing into an existing element succeeds on the
      first attempt: the wait, one write and one read. */
  lemma DocumentAcceptsFirstTry(init: D.Doc, h: seq<Effect>, timeoutMs: int, selector: string, text: string)
    requires R.QuoteFree(selector) && R.QuoteFree(text)
    requires D.First(D.Replay(init, h), selector).Some?
    ensures TypeInputSpec(D.DomEnv(init), h, timeoutMs, selector, text) ==
      (Ok(0), h + [WaitSelector(selector, timeoutMs), Eval(WriteScript(selector, text)), Eval(ReadScript(selector))])
  {
    var hw := h + [WaitSelector(selector, timeoutMs)];
    D.ReplayOther(init, h, WaitSelector(selector, timeoutMs));
    assert R.QuoteFree("value");
    D.SetThenGet(init, hw, selector, "value", text);
    FirstAttemptSucceeds(D.DomEnv(init), hw, selector, text, Str(""));
    assert hw + [Eval(WriteScript(selector, text)), Eval(ReadScript(selector))]
        == h + [WaitSelector(selector, timeoutMs), Eval(WriteScript(selector, text)), Eval(ReadScript(selector))];
  }

  /** A write that goes through and a read-back equal to `text` end the attempts at once. */
  lemma FirstAttemptSucceeds(env: Env, h: seq<Effect>, selector: string, text: string, last: JsValue)
    requires env.eval(h, WriteScript(selector, text)).Ok?
    requires env.eval(h + [Eval(WriteScript(selector, text))], ReadScript(selector)) == Ok(Str(text))
    ensures Attempts(env, h, selector, text, 0, last) ==
      (Ok(0), h + [Eval(WriteScript(selector, text)), Eval(ReadScript(selector))])
  {
    assert h + [Eval(WriteScript(selector, text))] + [Eval(ReadScript(selector))]
        == h + [Eval(WriteScript(selector, text)), Eval(ReadScript(selector))];
  }
}
