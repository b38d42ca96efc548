/** The pypp data extractor: reads through element handles, each one evaluation of a fixed
    arrow-function script on the handle, and a raw `exec_js`. */
module DataExtractor {
  import opened Base
  import opened Browser
  import J = JsHandlers

  const TextScript := "(element) => element.textContent"
  const ClassListScript := "(element) => element.classList"
  const AttrScriptHead := "(element) => element.getAttribute(\""

  /** The attribute name is spliced in verbatim between double quotes. */
  function AttrScript(attribute: string): (js: string)
    ensures |js| == |AttrScriptHead| + |attribute| + 2
    ensures js[..|AttrScriptHead|] == AttrScriptHead && js[|AttrScriptHead|..|js| - 2] == attribute && js[|js| - 2..] == "\")"
  {
    AttrScriptHead + attribute + "\")"
  }

  /** What `get_text` is handed: an element handle, or any other value. */
  datatype Arg = ElementArg(handle: Handle) | OtherArg(value: JsValue)

  /** `get_text`: a non-handle is refused with TypeError before anything is evaluated. */
  method GetText(page: Page, element: Arg) returns (r: Result<JsValue>)
    modifies page
    ensures element.OtherArg? ==> r == Err(TypeError) && page.trace == old(page.trace)
    ensures element.ElementArg? ==>
      page.trace == old(page.trace) + [EvalOn(TextScript, element.handle)] &&
      r == page.env.evalOn(old(page.trace), TextScript, element.handle)
  {
    if element.OtherArg? {
      return Err(TypeError);
    }
    r := page.EvaluateOn(TextScript, element.handle);
  }

  /** The text reads `get_texts` makes, one per handle in order. */
  function TextReads(hs: seq<Handle>): (es: seq<Effect>)
    ensures |es| == |hs|
    ensures forall i :: 0 <= i < |hs| ==> es[i] == EvalOn(TextScript, hs[i])
  {
    if |hs| == 0 then [] else TextReads(hs[..|hs| - 1]) + [EvalOn(TextScript, hs[|hs| - 1])]
  }

  /** Reading the texts of hs, in order, from history h: the first failing read ends it. */
  function ReadTexts(env: Env, h: seq<Effect>, hs: seq<Handle>): (Result<seq<JsValue>>, seq<Effect>)
    decreases |hs|
  {
    if |hs| == 0 then (Ok([]), h)
    else
      var (done, h0) := ReadTexts(env, h, hs[..|hs| - 1]);
      if done.Err? then (done, h0)
      else
        var last := hs[|hs| - 1];
        match env.evalOn(h0, TextScript, last)
        case Err(e) => (Err(e), h0 + [EvalOn(TextScript, last)])
        case Ok(t) => (Ok(done.value + [t]), h0 + [EvalOn(TextScript, last)])
  }

  /** On success there is one text per handle, in query order, each read after the reads of
      the handles before it, and the trace grows by exactly those reads. */
  lemma {:induction false} ReadTextsInOrder(env: Env, h: seq<Effect>, hs: seq<Handle>)
    ensures var (r, h') := ReadTexts(env, h, hs);
      r.Ok? ==>
        |r.value| == |hs| && h' == h + TextReads(hs) &&
        forall i :: 0 <= i < |hs| ==> Ok(r.value[i]) == env.evalOn(h + TextReads(hs[..i]), TextScript, hs[i])
    decreases |hs|
  {
    var (r, h') := ReadTexts(env, h, hs);
    if |hs| > 0 && r.Ok? {
      var n := |hs| - 1;
      var front := hs[..n];
      ReadTextsInOrder(env, h, front);
      var (done, h0) := ReadTexts(env, h, front);
      assert TextReads(hs) == TextReads(front) + [EvalOn(TextScript, hs[n])];
      assert h' == h + TextReads(hs);
      forall i | 0 <= i < |hs|
        ensures Ok(r.value[i]) == env.evalOn(h + TextReads(hs[..i]), TextScript, hs[i])
      {
        if i < n {
          assert front[..i] == hs[..i];
          assert r.value[i] == done.value[i];
        } else {
          assert hs[..i] == front;
        }
      }
    }
  }

  /** Once a read fails, the later handles are not read. */
  lemma {:induction false} ReadTextsStops(env: Env, h: seq<Effect>, hs: seq<Handle>, i: nat)
    requires i <= |hs|
    requires ReadTexts(env, h, hs[..i]).0.Err?
    ensures ReadTexts(env, h, hs) == ReadTexts(env, h, hs[..i])
    decreases |hs| - i
  {
    if i < |hs| {
      assert hs[..|hs| - 1][..i] == hs[..i];
      ReadTextsStops(env, h, hs[..|hs| - 1], i);
    } else {
      assert hs[..i] == hs;
    }
  }

  /** `get_texts`: one query, then one text read per match; iterating a None result is a TypeError. */
  method GetTexts(page: Page, selector: string) returns (r: Result<seq<JsValue>>)
    modifies page
    ensures var found := QueryResult(page.env, old(page.trace), selector);
      var hq := old(page.trace) + [Query(selector)];
      if found.None? then r == Err(TypeError) && page.trace == hq
      else (r, page.trace) == ReadTexts(page.env, hq, found.value)
  {
    var elements := page.QueryAll(selector);
    if elements.None? {
      return Err(TypeError);
    }
    var hs := elements.value;
    ghost var hq := page.trace;
    var texts: seq<JsValue> := [];
    var i := 0;
    while i < |hs|
      invariant 0 <= i <= |hs|
      invariant ReadTexts(page.env, hq, hs[..i]) == (Ok(texts), page.trace)
    {
      assert hs[..i + 1][..i] == hs[..i];
      var t := GetText(page, ElementArg(hs[i]));
      if t.Err? {
        ReadTextsStops(page.env, hq, hs, i + 1);
        return Err(t.error);
      }
      texts := texts + [t.value];
      i := i + 1;
    }
    assert hs[..i] == hs;
    r := Ok(texts);
  }

  /** `get_attr` on a handle. */
  method GetAttr(page: Page, element: Handle, attribute: string) returns (r: Result<JsValue>)
    modifies page
    ensures page.trace == old(page.trace) + [EvalOn(AttrScript(attribute), element)]
    ensures r == page.env.evalOn(old(page.trace), AttrScript(attribute), element)
  {
    r := page.EvaluateOn(AttrScript(attribute), element);
  }

  /** `get_cls_list`: the classList object's values, in key order. */
  method GetClsList(page: Page, element: Handle) returns (r: Result<seq<JsValue>>)
    modifies page
    ensures page.trace == old(page.trace) + [EvalOn(ClassListScript, element)]
    ensures r == J.DecodeClassList(page.env.evalOn(old(page.trace), ClassListScript, element))
  {
    var raw := page.EvaluateOn(ClassListScript, element);
    r := J.DecodeClassList(raw);
  }

  /** Python's `cls in cls_list`: only a string value equal to cls matches. */
  predicate HasClass(values: seq<JsValue>, cls: string) {
    Str(cls) in values
  }

  /** For a decoded class-list object, membership is exactly: some field's value is the class name. */
  lemma HasClassOfObject(fields: seq<(string, JsValue)>, cls: string)
    ensures HasClass(J.ValuesOf(Obj(fields)).value, cls) <==> exists i :: 0 <= i < |fields| && fields[i].1 == Str(cls)
  {
    var vs := J.ValuesOf(Obj(fields)).value;
    if HasClass(vs, cls) {
      var i :| 0 <= i < |vs| && vs[i] == Str(cls);
      assert fields[i].1 == Str(cls);
    }
  }

  method HasCls(page: Page, element: Handle, cls: string) returns (r: Result<bool>)
    modifies page
    ensures page.trace == old(page.trace) + [EvalOn(ClassListScript, element)]
    ensures var listed := J.DecodeClassList(page.env.evalOn(old(page.trace), ClassListScript, element));
      r == if listed.Ok? then Ok(HasClass(listed.value, cls)) else Err(listed.error)
  {
    var listed := GetClsList(page, element);
    if listed.Err? {
      return Err(listed.error);
    }
    r := Ok(HasClass(listed.value, cls));
  }

  /** `exec_js` forwards any script, the empty one included, and returns the raw result. */
  method ExecJs(page: Page, js: string) returns (r: Result<JsValue>)
    modifies page
    ensures page.trace == old(page.trace) + [Eval(js)]
    ensures r == page.env.eval(old(page.trace), js)
  {
    r := page.Evaluate(js);
  }
}
