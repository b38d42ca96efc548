/** A page whose answers come from a document that honours writes: every evaluated script
    is read back into its command (`ScriptReader.Parse`) and executed on the document, and the
    document at any moment is the initial one with all earlier evaluations replayed on it.
    Class lists follow the DOMTokenList rules of section 7.1 of the WHATWG DOM Standard
    (ordered, duplicate-free, tokens must be non-empty and free of ASCII whitespace).
    Each selector denotes its own list of matching elements and read/write commands act on the
    first of them; the answers the four kinds of request get are `DomEnv`. */
module Dom {
  import opened Base
  import G = JsGenerator
  import R = ScriptReader
  import B = Browser
  import J = JsHandlers
  import X = DataExtractor

  datatype Element = Element(attrs: map<string, string>, classes: seq<string>, text: string)

  /** The elements each selector matches, in document order; the body's vertical scroll
      offset and its scrollable height and width. */
  datatype Doc = Doc(elements: map<string, seq<Element>>, top: int, height: nat, width: nat)

  function Matches(d: Doc, selector: string): seq<Element> {
    if selector in d.elements then d.elements[selector] else []
  }

  function First(d: Doc, selector: string): Option<Element> {
    if |Matches(d, selector)| > 0 then Some(Matches(d, selector)[0]) else None
  }

  function ReplaceFirst(d: Doc, selector: string, e: Element): (d': Doc)
    requires First(d, selector).Some?
    ensures First(d', selector) == Some(e)
    ensures d'.top == d.top && d'.height == d.height && d'.width == d.width
    ensures |Matches(d', selector)| == |Matches(d, selector)| && Matches(d', selector)[1..] == Matches(d, selector)[1..]
    ensures forall t :: t != selector ==> Matches(d', t) == Matches(d, t)
  {
    d.(elements := d.elements[selector := [e] + Matches(d, selector)[1..]])
  }

  // ---- DOMTokenList

  predicate AsciiWhitespace(c: char) {
    c == ' ' || c == '\t' || c == '\n' || c == '\r' || c == '\U{000C}'
  }

  /** `add`, `remove` and `toggle` throw for an empty token or one holding ASCII whitespace. */
  predicate ValidToken(t: string) {
    t != "" && forall i :: 0 <= i < |t| ==> !AsciiWhitespace(t[i])
  }

  function Without(cs: seq<string>, t: string): (r: seq<string>)
    ensures forall x :: x in r <==> x in cs && x != t
  {
    if |cs| == 0 then []
    else (if cs[0] == t then [] else [cs[0]]) + Without(cs[1..], t)
  }

  function With(cs: seq<string>, t: string): (r: seq<string>)
    ensures forall x :: x in r <==> x in cs || x == t
    ensures t in cs ==> r == cs
  {
    if t in cs then cs else cs + [t]
  }

  /** A token list as the driver serialises it: an object from decimal index to token. */
  function TokenFields(cs: seq<string>, from: nat): (fs: seq<(string, JsValue)>)
    ensures |fs| == |cs|
    ensures forall i :: 0 <= i < |cs| ==> fs[i] == (G.Decimal(from + i), Str(cs[i]))
  {
    if |cs| == 0 then [] else [(G.Decimal(from), Str(cs[0]))] + TokenFields(cs[1..], from + 1)
  }

  /** Decoding a serialised class list gives back the tokens, in order. */
  lemma TokenListDecodes(cs: seq<string>)
    ensures J.ValuesOf(Obj(TokenFields(cs, 0))).Ok?
    ensures var vs := J.ValuesOf(Obj(TokenFields(cs, 0))).value;
      |vs| == |cs| && (forall i :: 0 <= i < |cs| ==> vs[i] == Str(cs[i])) && (forall t :: Str(t) in vs <==> t in cs)
  {
    var vs := J.ValuesOf(Obj(TokenFields(cs, 0))).value;
    forall t
      ensures Str(t) in vs <==> t in cs
    {
      if Str(t) in vs {
        var i :| 0 <= i < |vs| && vs[i] == Str(t);
        assert cs[i] == t;
      }
      if t in cs {
        var i :| 0 <= i < |cs| && cs[i] == t;
        assert vs[i] == Str(t);
      }
    }
  }

  // ---- executing commands

  function Clamp(d: Doc, y: int): (t: int)
    ensures 0 <= t <= d.height
    ensures 0 <= y <= d.height ==> t == y
  {
    if y < 0 then 0 else if y > d.height then d.height else y
  }

  /** What a read or write on the first match answers when nothing matches: the script throws. */
  const NoElement: Result<JsValue> := Err(ExecutionFailure)

  function SetClasses(d: Doc, s: string, e: Element, cs: seq<string>): Doc
    requires First(d, s) == Some(e)
  {
    ReplaceFirst(d, s, e.(classes := cs))
  }

  function Exec(d: Doc, c: R.Command): (Doc, Result<JsValue>) {
    match c
    case QueryOne(s) => (d, Ok(if First(d, s).Some? then Obj([]) else Null))
    case QueryAll(s) => (d, Ok(Obj(seq(|Matches(d, s)|, i => (G.Decimal(i), Obj([]))))))
    case GetAttribute(s, a) =>
      (d, match First(d, s)
          case None => NoElement
          case Some(e) => Ok(if a in e.attrs then Str(e.attrs[a]) else Null))
    case SetAttribute(s, a, v) =>
      (match First(d, s)
       case None => (d, NoElement)
       case Some(e) => (ReplaceFirst(d, s, e.(attrs := e.attrs[a := v])), Ok(Null)))
    case ClassList(s) =>
      (d, match First(d, s)
          case None => NoElement
          case Some(e) => Ok(Obj(TokenFields(e.classes, 0))))
    case AddClass(s, k) =>
      (match First(d, s)
       case None => (d, NoElement)
       case Some(e) => if ValidToken(k) then (SetClasses(d, s, e, With(e.classes, k)), Ok(Null)) else (d, Err(ExecutionFailure)))
    case RemoveClass(s, k) =>
      (match First(d, s)
       case None => (d, NoElement)
       case Some(e) => if ValidToken(k) then (SetClasses(d, s, e, Without(e.classes, k)), Ok(Null)) else (d, Err(ExecutionFailure)))
    case ToggleClass(s, k) =>
      (match First(d, s)
       case None => (d, NoElement)
       case Some(e) =>
         if !ValidToken(k) then (d, Err(ExecutionFailure))
         else if k in e.classes then (SetClasses(d, s, e, Without(e.classes, k)), Ok(Bool(false)))
         else (SetClasses(d, s, e, With(e.classes, k)), Ok(Bool(true))))
    case Click(s) => (d, if First(d, s).Some? then Ok(Null) else NoElement)
    case Submit(s) => (d, if First(d, s).Some? then Ok(Null) else NoElement)
    case Focus(s) => (d, if First(d, s).Some? then Ok(Null) else NoElement)
    case Blur(s) => (d, if First(d, s).Some? then Ok(Null) else NoElement)
    case Select(s) => (d, if First(d, s).Some? then Ok(Null) else NoElement)
    case ScrollHeight => (d, Ok(Num(d.height)))
    case ScrollWidth => (d, Ok(Num(d.width)))
    case ScrollTop => (d, Ok(Num(d.top)))
    case ScrollTo(x, y) => (d.(top := Clamp(d, y)), Ok(Null))
    case ScrollBy(x, y) => (d.(top := Clamp(d, d.top + y)), Ok(Null))
    case ScrollToBottom => (d.(top := Clamp(d, d.height)), Ok(Null))
    case ScrollToTop => (d.(top := Clamp(d, 0)), Ok(Null))
  }

  /** A script outside the generator's templates is not understood and fails. */
  function Apply(d: Doc, js: string): (Doc, Result<JsValue>) {
    match R.Parse(js)
    case None => (d, Err(ExecutionFailure))
    case Some(c) => Exec(d, c)
  }

  /** The element a handle designates, looked up again in the current document. */
  function ElementAt(d: Doc, h: Handle): Option<Element> {
    if h.index < |Matches(d, h.selector)| then Some(Matches(d, h.selector)[h.index]) else None
  }

  /** The element-handle scripts of the data extractor; they only read. */
  function ApplyOn(d: Doc, js: string, h: Handle): Result<JsValue> {
    match ElementAt(d, h)
    case None => Err(ExecutionFailure)
    case Some(e) =>
      if js == X.TextScript then Ok(Str(e.text))
      else if js == X.ClassListScript then Ok(Obj(TokenFields(e.classes, 0)))
      else if X.AttrScriptHead <= js then
        match R.Quoted(js[|X.AttrScriptHead|..], ")")
        case None => Err(ExecutionFailure)
        case Some(a) => Ok(if a in e.attrs then Str(e.attrs[a]) else Null)
      else Err(ExecutionFailure)
  }

  /** The document after every evaluation in the history, in order. */
  function Replay(init: Doc, h: seq<B.Effect>): Doc
    decreases |h|
  {
    if |h| == 0 then init
    else
      var d := Replay(init, h[..|h| - 1]);
      match h[|h| - 1]
      case Eval(js) => Apply(d, js).0
      case _ => d
  }

  function DomEnv(init: Doc): B.Env {
    B.Env(
      (h: seq<B.Effect>, js: string) => Apply(Replay(init, h), js).1,
      (h: seq<B.Effect>, js: string, t: Handle) => ApplyOn(Replay(init, h), js, t),
      (h: seq<B.Effect>, s: string) => Some(|Matches(Replay(init, h), s)|),
      (h: seq<B.Effect>, s: string, ms: int) => First(Replay(init, h), s).Some?)
  }

  // ---- properties of the document sink

  lemma ReplayEval(init: Doc, h: seq<B.Effect>, js: string)
    ensures Replay(init, h + [B.Eval(js)]) == Apply(Replay(init, h), js).0
  {
    assert (h + [B.Eval(js)])[..|h|] == h;
  }

  lemma ReplayOther(init: Doc, h: seq<B.Effect>, e: B.Effect)
    requires !e.Eval?
    ensures Replay(init, h + [e]) == Replay(init, h)
  {
    assert (h + [e])[..|h|] == h;
  }

  lemma ExecKeepsHeight(d: Doc, c: R.Command)
    ensures Exec(d, c).0.height == d.height
  {
    match c
    case SetAttribute(s, a, v) =>
    case AddClass(s, k) =>
    case RemoveClass(s, k) =>
    case ToggleClass(s, k) =>
    case _ =>
  }

  /** No script changes the document's scrollable height. */
  lemma {:induction false} HeightIsFixed(init: Doc, h: seq<B.Effect>)
    ensures Replay(init, h).height == init.height
    decreases |h|
  {
    if |h| > 0 {
      HeightIsFixed(init, h[..|h| - 1]);
      var d := Replay(init, h[..|h| - 1]);
      if h[|h| - 1].Eval? {
        var js := h[|h| - 1].script;
        if R.Parse(js).Some? {
          ExecKeepsHeight(d, R.Parse(js).value);
        }
      }
    }
  }

  /** The attribute test: with a document that honours writes, `set_attr(s, a, v)` followed
      by `get_attr(s, a)` yields v. */
  lemma SetThenGet(init: Doc, h: seq<B.Effect>, s: string, a: string, v: string)
    requires R.QuoteFree(s) && R.QuoteFree(a) && R.QuoteFree(v)
    requires First(Replay(init, h), s).Some?
    ensures DomEnv(init).eval(h, G.SetAttr(s, a, v)) == Ok(Null)
    ensures DomEnv(init).eval(h + [B.Eval(G.SetAttr(s, a, v))], G.GetAttr(s, a)) == Ok(Str(v))
  {
    R.ParseRender(R.SetAttribute(s, a, v));
    R.ParseRender(R.GetAttribute(s, a));
    ReplayEval(init, h, G.SetAttr(s, a, v));
  }

  /** The class list `get_class_list` decodes after history h. */
  function ClassesAfter(init: Doc, h: seq<B.Effect>, s: string): Result<seq<JsValue>> {
    J.DecodeClassList(DomEnv(init).eval(h, G.GetClassList(s)))
  }

  lemma ClassesRead(init: Doc, h: seq<B.Effect>, s: string)
    requires R.QuoteFree(s)
    requires First(Replay(init, h), s).Some?
    ensures ClassesAfter(init, h, s).Ok?
    ensures forall t :: Str(t) in ClassesAfter(init, h, s).value <==> t in First(Replay(init, h), s).value.classes
  {
    R.ParseRender(R.ClassList(s));
    TokenListDecodes(First(Replay(init, h), s).value.classes);
  }

  /** The class-list tests: after `add_class` the class is listed ... */
  lemma AddThenListed(init: Doc, h: seq<B.Effect>, s: string, k: string)
    requires R.QuoteFree(s) && R.QuoteFree(k) && ValidToken(k)
    requires First(Replay(init, h), s).Some?
    ensures var h1 := h + [B.Eval(G.AddClass(s, k))];
      ClassesAfter(init, h1, s).Ok? && Str(k) in ClassesAfter(init, h1, s).value
  {
    var h1 := h + [B.Eval(G.AddClass(s, k))];
    R.ParseRender(R.AddClass(s, k));
    ReplayEval(init, h, G.AddClass(s, k));
    ClassesRead(init, h1, s);
  }

  /** ... after `add_class` then `remove_class` it is not ... */
  lemma AddRemoveThenUnlisted(init: Doc, h: seq<B.Effect>, s: string, k: string)
    requires R.QuoteFree(s) && R.QuoteFree(k) && ValidToken(k)
    requires First(Replay(init, h), s).Some?
    ensures var h2 := h + [B.Eval(G.AddClass(s, k)), B.Eval(G.RemoveClass(s, k))];
      ClassesAfter(init, h2, s).Ok? && Str(k) !in ClassesAfter(init, h2, s).value
  {
    var h1 := h + [B.Eval(G.AddClass(s, k))];
    var h2 := h1 + [B.Eval(G.RemoveClass(s, k))];
    assert h2 == h + [B.Eval(G.AddClass(s, k)), B.Eval(G.RemoveClass(s, k))];
    R.ParseRender(R.AddClass(s, k));
    R.ParseRender(R.RemoveClass(s, k));
    ReplayEval(init, h, G.AddClass(s, k));
    ReplayEval(init, h1, G.RemoveClass(s, k));
    ClassesRead(init, h2, s);
  }

  /** ... and each `toggle_class` flips membership, so toggling twice restores it. */
  lemma ToggleFlips(init: Doc, h: seq<B.Effect>, s: string, k: string)
    requires R.QuoteFree(s) && R.QuoteFree(k) && ValidToken(k)
    requires First(Replay(init, h), s).Some?
    ensures var h1 := h + [B.Eval(G.ToggleClass(s, k))];
      First(Replay(init, h1), s).Some? &&
      ClassesAfter(init, h, s).Ok? && ClassesAfter(init, h1, s).Ok? &&
      (Str(k) in ClassesAfter(init, h1, s).value <==> Str(k) !in ClassesAfter(init, h, s).value)
  {
    var h1 := h + [B.Eval(G.ToggleClass(s, k))];
    R.ParseRender(R.ToggleClass(s, k));
    ReplayEval(init, h, G.ToggleClass(s, k));
    ClassesRead(init, h, s);
    ClassesRead(init, h1, s);
  }

  lemma ToggleTwiceRestores(init: Doc, h: seq<B.Effect>, s: string, k: string)
    requires R.QuoteFree(s) && R.QuoteFree(k) && ValidToken(k)
    requires First(Replay(init, h), s).Some?
    ensures var h2 := h + [B.Eval(G.ToggleClass(s, k)), B.Eval(G.ToggleClass(s, k))];
      ClassesAfter(init, h, s).Ok? && ClassesAfter(init, h2, s).Ok? &&
      (Str(k) in ClassesAfter(init, h2, s).value <==> Str(k) in ClassesAfter(init, h, s).value)
  {
    var h1 := h + [B.Eval(G.ToggleClass(s, k))];
    ToggleFlips(init, h, s, k);
    ToggleFlips(init, h1, s, k);
    assert h1 + [B.Eval(G.ToggleClass(s, k))] == h + [B.Eval(G.ToggleClass(s, k)), B.Eval(G.ToggleClass(s, k))];
  }

  lemma {:induction false} ReplayWithoutEvals(init: Doc, h: seq<B.Effect>, rest: seq<B.Effect>)
    requires forall i :: 0 <= i < |rest| ==> !rest[i].Eval?
    ensures Replay(init, h + rest) == Replay(init, h)
    decreases |rest|
  {
    if |rest| > 0 {
      var front := rest[..|rest| - 1];
      assert h + rest == (h + front) + [rest[|rest| - 1]];
      ReplayOther(init, h + front, rest[|rest| - 1]);
      ReplayWithoutEvals(init, h, front);
    } else {
      assert h + rest == h;
    }
  }

  lemma ApplyParsed(d: Doc, js: string, c: R.Command)
    requires R.Parse(js) == Some(c)
    ensures Apply(d, js) == Exec(d, c)
  {
  }

  lemma ApplyBottom(d: Doc)
    ensures Apply(d, G.ScrollToBottom()) == (d.(top := d.height), Ok(Null))
  {
    R.FixedScriptsRead();
    ApplyScrollToBottom(d, G.ScrollToBottom());
  }

  lemma ApplyScrollToBottom(d: Doc, js: string)
    requires R.Parse(js) == Some(R.ScrollToBottom)
    ensures Apply(d, js) == (d.(top := d.height), Ok(Null))
  {
    ApplyParsed(d, js, R.ScrollToBottom);
    ExecBottom(d);
  }

  lemma ExecBottom(d: Doc)
    ensures Exec(d, R.ScrollToBottom) == (d.(top := d.height), Ok(Null))
  {
  }

  lemma ApplyTop(d: Doc)
    ensures Apply(d, G.GetScrollTop()).1 == Ok(Num(d.top))
  {
    R.FixedScriptsRead();
    ApplyScrollTop(d, G.GetScrollTop());
  }

  lemma ApplyScrollTop(d: Doc, js: string)
    requires R.Parse(js) == Some(R.ScrollTop)
    ensures Apply(d, js) == (d, Ok(Num(d.top)))
  {
    ApplyParsed(d, js, R.ScrollTop);
    ExecTop(d);
  }

  lemma ExecTop(d: Doc)
    ensures Exec(d, R.ScrollTop) == (d, Ok(Num(d.top)))
  {
  }

  /** After `scroll_to_bottom` the offset is the page height, whatever came before; with a
      fixed height every later sample is the same, which is what the scroll loaders wait for. */
  lemma BottomOffsetIsHeight(init: Doc, h: seq<B.Effect>, rest: seq<B.Effect>)
    requires forall i :: 0 <= i < |rest| ==> !rest[i].Eval?
    ensures DomEnv(init).eval(h + [B.Eval(G.ScrollToBottom())] + rest, G.GetScrollTop()) == Ok(Num(init.height))
  {
    var hb := h + [B.Eval(G.ScrollToBottom())];
    ReplayWithoutEvals(init, hb, rest);
    ReplayEval(init, h, G.ScrollToBottom());
    HeightIsFixed(init, h);
    ApplyBottom(Replay(init, h));
    ApplyTop(Replay(init, hb + rest));
  }
}
