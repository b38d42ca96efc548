/** The execution layer of the agent's JavaScript utilities: the `execute_js` decorator and
    the handler classes whose methods each build one generator script and hand it to the
    executor. A handler holds nothing but its executor, so each method here takes the page
    it drives. */
module JsHandlers {
  import opened Base
  import G = JsGenerator
  import opened Browser

  /** `execute_js`: the wrapped builder is run once, a non-empty script is evaluated exactly once
      and its raw result returned; an empty script is not sent and the call yields None. */
  method ExecuteJs(page: Page, js: string) returns (r: Result<JsValue>)
    modifies page
    ensures js == "" ==> page.trace == old(page.trace) && r == Ok(Null)
    ensures js != "" ==> page.trace == old(page.trace) + [Eval(js)] && r == page.env.eval(old(page.trace), js)
  {
    if js == "" {
      r := Ok(Null);
    } else {
      r := page.Evaluate(js);
    }
  }

  // ---- decoding

  /** The values of an object's fields, in field order. */
  function Values(fields: seq<(string, JsValue)>): (vs: seq<JsValue>)
    ensures |vs| == |fields|
    ensures forall i :: 0 <= i < |fields| ==> vs[i] == fields[i].1
  {
    if |fields| == 0 then [] else [fields[0].1] + Values(fields[1..])
  }

  /** `list(raw.values())`: an object's values in key order; any other value has no `values()`. */
  function ValuesOf(raw: JsValue): (r: Result<seq<JsValue>>)
    ensures r.Ok? <==> raw.Obj?
    ensures raw.Obj? ==> |r.value| == |raw.fields| && forall i :: 0 <= i < |raw.fields| ==> r.value[i] == raw.fields[i].1
  {
    if raw.Obj? then Ok(Values(raw.fields)) else Err(AttributeError)
  }

  /** An evaluation result followed by decoding; an evaluation error propagates unchanged. */
  function DecodeClassList(raw: Result<JsValue>): (r: Result<seq<JsValue>>)
    ensures raw.Err? ==> r == Err(raw.error)
    ensures raw.Ok? ==> r == ValuesOf(raw.value)
  {
    match raw
    case Err(e) => Err(e)
    case Ok(v) => ValuesOf(v)
  }

  // ---- JsClassListHandler

  method GetClassList(page: Page, selector: string) returns (r: Result<seq<JsValue>>)
    modifies page
    ensures page.trace == old(page.trace) + [Eval(G.GetClassList(selector))]
    ensures r == DecodeClassList(page.env.eval(old(page.trace), G.GetClassList(selector)))
  {
    var raw := ExecuteJs(page, G.GetClassList(selector));
    r := DecodeClassList(raw);
  }

  method AddClass(page: Page, selector: string, className: string) returns (r: Result<JsValue>)
    modifies page
    ensures page.trace == old(page.trace) + [Eval(G.AddClass(selector, className))]
    ensures r == page.env.eval(old(page.trace), G.AddClass(selector, className))
  {
    r := ExecuteJs(page, G.AddClass(selector, className));
  }

  method RemoveClass(page: Page, selector: string, className: string) returns (r: Result<JsValue>)
    modifies page
    ensures page.trace == old(page.trace) + [Eval(G.RemoveClass(selector, className))]
    ensures r == page.env.eval(old(page.trace), G.RemoveClass(selector, className))
  {
    r := ExecuteJs(page, G.RemoveClass(selector, className));
  }

  method ToggleClass(page: Page, selector: string, className: string) returns (r: Result<JsValue>)
    modifies page
    ensures page.trace == old(page.trace) + [Eval(G.ToggleClass(selector, className))]
    ensures r == page.env.eval(old(page.trace), G.ToggleClass(selector, className))
  {
    r := ExecuteJs(page, G.ToggleClass(selector, className));
  }

  // ---- JsAttrHandler

  /** The raw result is returned as the executor gave it. */
  method GetAttr(page: Page, selector: string, attr: string) returns (r: Result<JsValue>)
    modifies page
    ensures page.trace == old(page.trace) + [Eval(G.GetAttr(selector, attr))]
    ensures r == page.env.eval(old(page.trace), G.GetAttr(selector, attr))
  {
    r := ExecuteJs(page, G.GetAttr(selector, attr));
  }

  method SetAttr(page: Page, selector: string, attr: string, value: string) returns (r: Result<JsValue>)
    modifies page
    ensures page.trace == old(page.trace) + [Eval(G.SetAttr(selector, attr, value))]
    ensures r == page.env.eval(old(page.trace), G.SetAttr(selector, attr, value))
  {
    r := ExecuteJs(page, G.SetAttr(selector, attr, value));
  }

  // ---- JsActionHandler

  method Click(page: Page, selector: string) returns (r: Result<JsValue>)
    modifies page
    ensures page.trace == old(page.trace) + [Eval(G.Click(selector))]
    ensures r == page.env.eval(old(page.trace), G.Click(selector))
  {
    r := ExecuteJs(page, G.Click(selector));
  }

  method Submit(page: Page, selector: string) returns (r: Result<JsValue>)
    modifies page
    ensures page.trace == old(page.trace) + [Eval(G.Submit(selector))]
    ensures r == page.env.eval(old(page.trace), G.Submit(selector))
  {
    r := ExecuteJs(page, G.Submit(selector));
  }

  method Focus(page: Page, selector: string) returns (r: Result<JsValue>)
    modifies page
    ensures page.trace == old(page.trace) + [Eval(G.Focus(selector))]
    ensures r == page.env.eval(old(page.trace), G.Focus(selector))
  {
    r := ExecuteJs(page, G.Focus(selector));
  }

  method Blur(page: Page, selector: string) returns (r: Result<JsValue>)
    modifies page
    ensures page.trace == old(page.trace) + [Eval(G.Blur(selector))]
    ensures r == page.env.eval(old(page.trace), G.Blur(selector))
  {
    r := ExecuteJs(page, G.Blur(selector));
  }

  method Select(page: Page, selector: string) returns (r: Result<JsValue>)
    modifies page
    ensures page.trace == old(page.trace) + [Eval(G.Select(selector))]
    ensures r == page.env.eval(old(page.trace), G.Select(selector))
  {
    r := ExecuteJs(page, G.Select(selector));
  }

  // ---- JsScrollHandler

  method ScrollTo(page: Page, x: int, y: int) returns (r: Result<JsValue>)
    modifies page
    ensures page.trace == old(page.trace) + [Eval(G.ScrollTo(x, y))]
    ensures r == page.env.eval(old(page.trace), G.ScrollTo(x, y))
  {
    r := ExecuteJs(page, G.ScrollTo(x, y));
  }

  method ScrollBy(page: Page, xDisp: int, yDisp: int) returns (r: Result<JsValue>)
    modifies page
    ensures page.trace == old(page.trace) + [Eval(G.ScrollBy(xDisp, yDisp))]
    ensures r == page.env.eval(old(page.trace), G.ScrollBy(xDisp, yDisp))
  {
    r := ExecuteJs(page, G.ScrollBy(xDisp, yDisp));
  }

  method ScrollToBottom(page: Page) returns (r: Result<JsValue>)
    modifies page
    ensures page.trace == old(page.trace) + [Eval(G.ScrollToBottom())]
    ensures r == page.env.eval(old(page.trace), G.ScrollToBottom())
  {
    r := ExecuteJs(page, G.ScrollToBottom());
  }

  method ScrollToTop(page: Page) returns (r: Result<JsValue>)
    modifies page
    ensures page.trace == old(page.trace) + [Eval(G.ScrollToTop())]
    ensures r == page.env.eval(old(page.trace), G.ScrollToTop())
  {
    r := ExecuteJs(page, G.ScrollToTop());
  }

  method GetScrollHeight(page: Page) returns (r: Result<JsValue>)
    modifies page
    ensures page.trace == old(page.trace) + [Eval(G.GetScrollHeight())]
    ensures r == page.env.eval(old(page.trace), G.GetScrollHeight())
  {
    r := ExecuteJs(page, G.GetScrollHeight());
  }

  method GetScrollWidth(page: Page) returns (r: Result<JsValue>)
    modifies page
    ensures page.trace == old(page.trace) + [Eval(G.GetScrollWidth())]
    ensures r == page.env.eval(old(page.trace), G.GetScrollWidth())
  {
    r := ExecuteJs(page, G.GetScrollWidth());
  }

  method GetScrollTop(page: Page) returns (r: Result<JsValue>)
    modifies page
    ensures page.trace == old(page.trace) + [Eval(G.GetScrollTop())]
    ensures r == page.env.eval(old(page.trace), G.GetScrollTop())
  {
    r := ExecuteJs(page, G.GetScrollTop());
  }
}
