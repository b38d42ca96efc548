/** How a page reads the generator's scripts back: `Parse` recovers the operation and its
    arguments from a script. It is the partner of the generator: for arguments without a
    double quote it inverts `Render`; with quotes the verbatim splicing lets one argument
    spill into the next, and two different operations render to the same text. */
module ScriptReader {
  import opened Base
  import G = JsGenerator

  /** The operations the generator has a template for. */
  datatype Command =
    | QueryOne(selector: string)
    | QueryAll(selector: string)
    | GetAttribute(selector: string, attr: string)
    | SetAttribute(selector: string, attr: string, value: string)
    | ClassList(selector: string)
    | AddClass(selector: string, className: string)
    | RemoveClass(selector: string, className: string)
    | ToggleClass(selector: string, className: string)
    | Click(selector: string)
    | Submit(selector: string)
    | Focus(selector: string)
    | Blur(selector: string)
    | Select(selector: string)
    | ScrollHeight
    | ScrollWidth
    | ScrollTop
    | ScrollTo(x: int, y: int)
    | ScrollBy(xDisp: int, yDisp: int)
    | ScrollToBottom
    | ScrollToTop

  /** The script the generator emits for a command. */
  function Render(c: Command): (js: string)
    ensures |js| > 0
  {
    match c
    case QueryOne(s) => G.GetElement(s)
    case QueryAll(s) => G.GetElements(s)
    case GetAttribute(s, a) => G.GetAttr(s, a)
    case SetAttribute(s, a, v) => G.SetAttr(s, a, v)
    case ClassList(s) => G.GetClassList(s)
    case AddClass(s, k) => G.AddClass(s, k)
    case RemoveClass(s, k) => G.RemoveClass(s, k)
    case ToggleClass(s, k) => G.ToggleClass(s, k)
    case Click(s) => G.Click(s)
    case Submit(s) => G.Submit(s)
    case Focus(s) => G.Focus(s)
    case Blur(s) => G.Blur(s)
    case Select(s) => G.Select(s)
    case ScrollHeight => G.GetScrollHeight()
    case ScrollWidth => G.GetScrollWidth()
    case ScrollTop => G.GetScrollTop()
    case ScrollTo(x, y) => G.ScrollTo(x, y)
    case ScrollBy(x, y) => G.ScrollBy(x, y)
    case ScrollToBottom => G.ScrollToBottom()
    case ScrollToTop => G.ScrollToTop()
  }

  /** No argument of the command contains a double quote. */
  predicate QuoteFree(s: string) { '"' !in s }

  predicate ArgumentsQuoteFree(c: Command) {
    match c
    case QueryOne(s) => QuoteFree(s)
    case QueryAll(s) => QuoteFree(s)
    case GetAttribute(s, a) => QuoteFree(s) && QuoteFree(a)
    case SetAttribute(s, a, v) => QuoteFree(s) && QuoteFree(a) && QuoteFree(v)
    case ClassList(s) => QuoteFree(s)
    case AddClass(s, k) => QuoteFree(s) && QuoteFree(k)
    case RemoveClass(s, k) => QuoteFree(s) && QuoteFree(k)
    case ToggleClass(s, k) => QuoteFree(s) && QuoteFree(k)
    case Click(s) => QuoteFree(s)
    case Submit(s) => QuoteFree(s)
    case Focus(s) => QuoteFree(s)
    case Blur(s) => QuoteFree(s)
    case Select(s) => QuoteFree(s)
    case _ => true
  }

  // ---- reading primitives

  /** The rest of s after the prefix p, if s starts with p. */
  function After(p: string, s: string): (r: Option<string>)
    ensures r.Some? ==> s == p + r.value
  {
    if p <= s then Some(s[|p|..]) else None
  }

  /** Splits s at the first occurrence of c: the text before it and the text after it. */
  function ReadUntil(s: string, c: char): (r: Option<(string, string)>)
    decreases |s|
  {
    if |s| == 0 then None
    else if s[0] == c then Some(([], s[1..]))
    else match ReadUntil(s[1..], c)
      case None => None
      case Some(split) => Some(([s[0]] + split.0, split.1))
  }

  lemma AfterPrefix(p: string, r: string)
    ensures After(p, p + r) == Some(r)
  {
    assert (p + r)[..|p|] == p;
    assert (p + r)[|p|..] == r;
  }

  lemma {:induction false} ReadUntilSplits(a: string, c: char, rest: string)
    requires c !in a
    ensures ReadUntil(a + [c] + rest, c) == Some((a, rest))
    decreases |a|
  {
    if |a| == 0 {
      assert a + [c] + rest == [c] + rest;
    } else {
      assert (a + [c] + rest)[1..] == a[1..] + [c] + rest;
      ReadUntilSplits(a[1..], c, rest);
      assert [a[0]] + a[1..] == a;
    }
  }

  /** Reads `arg"` followed by exactly `tail`, giving arg. */
  function Quoted(s: string, tail: string): Option<string> {
    match ReadUntil(s, '"')
    case None => None
    case Some(split) => if split.1 == tail then Some(split.0) else None
  }

  lemma QuotedReads(a: string, tail: string)
    requires QuoteFree(a)
    ensures Quoted(a + "\"" + tail, tail) == Some(a)
  {
    ReadUntilSplits(a, '"', tail);
  }

  // ---- the reader

  const ElementPrefix := "document.querySelector(\""
  const ElementsPrefix := "document.querySelectorAll(\""

  /** The operation applied to an element, from what follows the selector's closing quote. */
  function ElementOp(selector: string, t: string): Option<Command> {
    if t == ")" then Some(QueryOne(selector))
    else if t == ").classList" then Some(ClassList(selector))
    else if t == ").click()" then Some(Click(selector))
    else if t == ").submit()" then Some(Submit(selector))
    else if t == ").focus()" then Some(Focus(selector))
    else if t == ").blur()" then Some(Blur(selector))
    else if t == ").select()" then Some(Select(selector))
    else if ").getAttribute(\"" <= t then
      match Quoted(t[16..], ")")
      case None => None
      case Some(a) => Some(GetAttribute(selector, a))
    else if ").setAttribute(\"" <= t then
      match ReadUntil(t[16..], '"')
      case None => None
      case Some(split) =>
        if ", \"" <= split.1 then
          match Quoted(split.1[3..], ")")
          case None => None
          case Some(v) => Some(SetAttribute(selector, split.0, v))
        else None
    else if ").classList.add(\"" <= t then ClassOp(selector, t[17..], 0)
    else if ").classList.remove(\"" <= t then ClassOp(selector, t[20..], 1)
    else if ").classList.toggle(\"" <= t then ClassOp(selector, t[20..], 2)
    else None
  }

  function ClassOp(selector: string, s: string, which: nat): Option<Command> {
    match Quoted(s, ")")
    case None => None
    case Some(k) =>
      Some(if which == 0 then AddClass(selector, k) else if which == 1 then RemoveClass(selector, k) else ToggleClass(selector, k))
  }

  /** Reads the two integer arguments of `window.scrollTo(x, y);` / `window.scrollBy(x, y);`. */
  function TwoInts(s: string): Option<(int, int)> {
    match ReadUntil(s, ',')
    case None => None
    case Some(first) =>
      if " " <= first.1 then
        match ReadUntil(first.1[1..], ')')
        case None => None
        case Some(second) =>
          if second.1 == ";" then
            match (G.ReadDecimal(first.0), G.ReadDecimal(second.0))
            case (Some(x), Some(y)) => Some((x, y))
            case _ => None
          else None
      else None
  }

  /** The command a script denotes, or None for a script outside the generator's templates. */
  function Parse(js: string): Option<Command> {
    if js == G.GetScrollHeight() then Some(ScrollHeight)
    else if js == G.GetScrollWidth() then Some(ScrollWidth)
    else if js == G.GetScrollTop() then Some(ScrollTop)
    else if ElementPrefix <= js then ParseElement(js[|ElementPrefix|..])
    else if ElementsPrefix <= js then ParseElements(js[|ElementsPrefix|..])
    else if ScrollToPrefix <= js then ParseScrollTo(js)
    else if ScrollByPrefix <= js then ParseScrollBy(js[16..])
    else None
  }

  function ParseElement(s: string): Option<Command> {
    match ReadUntil(s, '"')
    case None => None
    case Some(split) => ElementOp(split.0, split.1)
  }

  function ParseElements(s: string): Option<Command> {
    match Quoted(s, ")")
    case None => None
    case Some(sel) => Some(QueryAll(sel))
  }

  function ParseScrollTo(js: string): Option<Command>
    requires |js| >= 16
  {
    match TwoInts(js[16..])
    case Some(p) => Some(ScrollTo(p.0, p.1))
    case None =>
      if js == G.ScrollToBottom() then Some(ScrollToBottom)
      else if js == G.ScrollToTop() then Some(ScrollToTop)
      else None
  }

  function ParseScrollBy(s: string): Option<Command> {
    match TwoInts(s)
    case None => None
    case Some(p) => Some(ScrollBy(p.0, p.1))
  }

  const ScrollToPrefix := "window.scrollTo("
  const ScrollByPrefix := "window.scrollBy("

  // ---- the reader inverts the generator

  lemma Assoc<T>(a: seq<T>, b: seq<T>, c: seq<T>)
    ensures (a + b) + c == a + (b + c)
  {
  }

  lemma Split<T>(p: seq<T>, r: seq<T>)
    ensures (p + r)[|p|..] == r && (p + r)[..|p|] == p
  {
  }

  /** A script that starts like `get_element` of a quote-free selector is read as an operation on it. */
  lemma ElementScriptReads(selector: string, u: string)
    requires QuoteFree(selector)
    ensures Parse(G.GetElement(selector) + u) == ElementOp(selector, ")" + u)
  {
    var js := G.GetElement(selector) + u;
    var rest := selector + ("\"" + (")" + u));
    calc {
      js;
      (ElementPrefix + selector + "\")") + u;
      { Assoc(ElementPrefix, selector, "\")"); }
      (ElementPrefix + (selector + "\")")) + u;
      { Assoc(ElementPrefix, selector + "\")", u); }
      ElementPrefix + ((selector + "\")") + u);
      { Assoc(selector, "\")", u); }
      ElementPrefix + (selector + ("\")" + u));
      { assert "\")" == "\"" + ")"; Assoc("\"", ")", u); }
      ElementPrefix + rest;
    }
    Split(ElementPrefix, rest);
    assert js[9] == 'q' && G.GetScrollHeight()[9] == 'b' && G.GetScrollWidth()[9] == 'b' && G.GetScrollTop()[9] == 'b';
    assert rest == selector + ['"'] + (")" + u);
    ReadUntilSplits(selector, '"', ")" + u);
  }

  lemma QueryAllScriptReads(selector: string)
    requires QuoteFree(selector)
    ensures Parse(G.GetElements(selector)) == Some(QueryAll(selector))
  {
    var js := G.GetElements(selector);
    var rest := selector + "\")";
    Assoc(ElementsPrefix, selector, "\")");
    Split(ElementsPrefix, rest);
    assert js[9] == 'q' && js[22] == 'A' && ElementPrefix[22] == '(';
    assert G.GetScrollHeight()[9] == 'b' && G.GetScrollWidth()[9] == 'b' && G.GetScrollTop()[9] == 'b';
    assert rest == selector + "\"" + ")";
    QuotedReads(selector, ")");
  }

  /** The fixed tails of the per-element templates. */
  lemma FixedTailsRead(selector: string)
    ensures ElementOp(selector, ")" + "") == Some(QueryOne(selector))
    ensures ElementOp(selector, ")" + ".classList") == Some(ClassList(selector))
    ensures ElementOp(selector, ")" + ".click()") == Some(Click(selector))
    ensures ElementOp(selector, ")" + ".submit()") == Some(Submit(selector))
    ensures ElementOp(selector, ")" + ".focus()") == Some(Focus(selector))
    ensures ElementOp(selector, ")" + ".blur()") == Some(Blur(selector))
    ensures ElementOp(selector, ")" + ".select()") == Some(Select(selector))
  {
    assert ")" + "" == ")";
    assert ")" + ".classList" == ").classList";
    assert ")" + ".click()" == ").click()";
    assert ")" + ".submit()" == ").submit()";
    assert ")" + ".focus()" == ").focus()";
    assert ")" + ".blur()" == ").blur()";
    assert ")" + ".select()" == ").select()";
  }

  lemma GetAttributeTail(selector: string, attr: string)
    requires QuoteFree(attr)
    ensures ElementOp(selector, ")" + (".getAttribute(\"" + attr + "\")")) == Some(GetAttribute(selector, attr))
  {
    Assoc(".getAttribute(\"", attr, "\")");
    Assoc(")", ".getAttribute(\"", attr + "\")");
    assert ")" + ".getAttribute(\"" == ").getAttribute(\"";
    GetAttributeReads(selector, attr);
  }

  lemma GetAttributeReads(selector: string, attr: string)
    requires QuoteFree(attr)
    ensures ElementOp(selector, ").getAttribute(\"" + (attr + "\")")) == Some(GetAttribute(selector, attr))
  {
    var p := ").getAttribute(\"";
    assert |p + (attr + "\")")| > 11;
    QuotedNameReads(p, attr);
  }

  lemma SetAttributeTail(selector: string, attr: string, value: string)
    requires QuoteFree(attr) && QuoteFree(value)
    ensures ElementOp(selector, ")" + (".setAttribute(\"" + attr + "\", \"" + value + "\")"))
              == Some(SetAttribute(selector, attr, value))
  {
    SetAttributeShape(attr, value);
    SetAttributeReads(selector, ").setAttribute(\"", attr, value, ", \"" + (value + "\")"));
  }

  /** The `set_attr` tail regrouped as the method text, the name, its quote, and the rest. */
  lemma SetAttributeShape(attr: string, value: string)
    ensures ")" + (".setAttribute(\"" + attr + "\", \"" + value + "\")")
         == ").setAttribute(\"" + (attr + ("\"" + (", \"" + (value + "\")"))))
  {
    assert "\", \"" == "\"" + ", \"";
    Regroup(")", ".setAttribute(\"", attr, "\"", ", \"", value, "\")");
    assert ")" + ".setAttribute(\"" == ").setAttribute(\"";
  }

  lemma Regroup<T>(r: seq<T>, m: seq<T>, a: seq<T>, q: seq<T>, s: seq<T>, v: seq<T>, c: seq<T>)
    ensures r + (m + a + (q + s) + v + c) == (r + m) + (a + (q + (s + (v + c))))
  {
    calc {
      r + (m + a + (q + s) + v + c);
      { Assoc(m + a + (q + s), v, c); Assoc(m + a, q + s, v + c); Assoc(m, a, (q + s) + (v + c)); }
      r + (m + (a + ((q + s) + (v + c))));
      { Assoc(q, s, v + c); }
      r + (m + (a + (q + (s + (v + c)))));
      { Assoc(r, m, a + (q + (s + (v + c)))); }
      (r + m) + (a + (q + (s + (v + c))));
    }
  }

  lemma SetAttributeReads(selector: string, p: string, attr: string, value: string, u: string)
    requires QuoteFree(attr) && QuoteFree(value)
    requires p == ").setAttribute(\"" && u == ", \"" + (value + "\")")
    ensures ElementOp(selector, p + (attr + ("\"" + u))) == Some(SetAttribute(selector, attr, value))
  {
    var t := p + (attr + ("\"" + u));
    assert |t| > 11 && t[2] == 's';
    Split(p, attr + ("\"" + u));
    assert attr + ("\"" + u) == attr + ['"'] + u;
    ReadUntilSplits(attr, '"', u);
    Split(", \"", value + "\")");
    assert value + "\")" == value + "\"" + ")";
    QuotedReads(value, ")");
  }

  lemma ClassTail(selector: string, m: string, className: string, which: nat)
    requires QuoteFree(className)
    requires m == (if which == 0 then ".add(\"" else if which == 1 then ".remove(\"" else ".toggle(\"")
    ensures ElementOp(selector, ")" + (".classList" + m + className + "\")"))
              == Some(if which == 0 then AddClass(selector, className) else if which == 1 then RemoveClass(selector, className) else ToggleClass(selector, className))
  {
    ClassRegroup(")", ".classList", m, className, "\")");
    if which == 0 {
      assert ")" + ".classList" + m == ").classList.add(\"";
      AddClassReads(selector, className);
    } else if which == 1 {
      assert ")" + ".classList" + m == ").classList.remove(\"";
      RemoveClassReads(selector, className);
    } else {
      assert ")" + ".classList" + m == ").classList.toggle(\"";
      ToggleClassReads(selector, className);
    }
  }

  lemma ClassRegroup<T>(r: seq<T>, l: seq<T>, m: seq<T>, k: seq<T>, c: seq<T>)
    ensures r + (l + m + k + c) == (r + l + m) + (k + c)
  {
    Assoc(l + m, k, c);
    Assoc(r, l + m, k + c);
    Assoc(r, l, m);
  }

  lemma AddClassReads(selector: string, className: string)
    requires QuoteFree(className)
    ensures ElementOp(selector, ").classList.add(\"" + (className + "\")")) == Some(AddClass(selector, className))
  {
    var p := ").classList.add(\"";
    var t := p + (className + "\")");
    assert |t| > 11 && t[2] == 'c' && t[12] == p[12];
    QuotedNameReads(p, className);
  }

  lemma RemoveClassReads(selector: string, className: string)
    requires QuoteFree(className)
    ensures ElementOp(selector, ").classList.remove(\"" + (className + "\")")) == Some(RemoveClass(selector, className))
  {
    var p := ").classList.remove(\"";
    var t := p + (className + "\")");
    assert |t| > 11 && t[2] == 'c' && t[12] == p[12];
    QuotedNameReads(p, className);
  }

  lemma ToggleClassReads(selector: string, className: string)
    requires QuoteFree(className)
    ensures ElementOp(selector, ").classList.toggle(\"" + (className + "\")")) == Some(ToggleClass(selector, className))
  {
    var p := ").classList.toggle(\"";
    var t := p + (className + "\")");
    assert |t| > 11 && t[2] == 'c' && t[12] == p[12];
    QuotedNameReads(p, className);
  }

  /** After the method text p, a quote-free name and `")` read as that name. */
  lemma QuotedNameReads(p: string, className: string)
    requires QuoteFree(className)
    ensures (p + (className + "\")"))[|p|..] == className + "\"" + ")"
    ensures Quoted(className + "\"" + ")", ")") == Some(className)
  {
    Split(p, className + "\")");
    assert className + "\")" == className + "\"" + ")";
    QuotedReads(className, ")");
  }

  lemma TwoIntsRead(x: int, y: int)
    ensures TwoInts(G.Decimal(x) + ", " + G.Decimal(y) + ");") == Some((x, y))
  {
    G.DecimalHasNoDelimiters(x);
    G.DecimalHasNoDelimiters(y);
    G.DecimalRoundTrip(x);
    G.DecimalRoundTrip(y);
    var dx, dy := G.Decimal(x), G.Decimal(y);
    var rest := " " + (dy + ");");
    calc {
      dx + ", " + dy + ");";
      { Assoc(dx + ", ", dy, ");"); Assoc(dx, ", ", dy + ");"); }
      dx + (", " + (dy + ");"));
      { assert ", " == [','] + " "; Assoc([','], " ", dy + ");"); }
      dx + ([','] + rest);
      { Assoc(dx, [','], rest); }
      dx + [','] + rest;
    }
    ReadUntilSplits(dx, ',', rest);
    Split(" ", dy + ");");
    assert dy + ");" == dy + [')'] + ";";
    ReadUntilSplits(dy, ')', ";");
  }

  /** Scripts that start with "window." are not the fixed "document." scripts and not element scripts. */
  lemma WindowScriptSkipsDocument(js: string)
    requires |js| > 0 && js[0] == 'w'
    ensures js != G.GetScrollHeight() && js != G.GetScrollWidth() && js != G.GetScrollTop()
    ensures !(ElementPrefix <= js) && !(ElementsPrefix <= js)
  {
    assert G.GetScrollHeight()[0] == 'd' && G.GetScrollWidth()[0] == 'd' && G.GetScrollTop()[0] == 'd';
    assert ElementPrefix[0] == 'd' && ElementsPrefix[0] == 'd';
  }

  /** `scroll_to(x, y)` is the prefix, the two decimals and the fixed closing text. */
  lemma ScrollTemplate(p: string, x: int, y: int)
    ensures p + G.Decimal(x) + ", " + G.Decimal(y) + ");" == p + (G.Decimal(x) + ", " + G.Decimal(y) + ");")
  {
    var dx, dy := G.Decimal(x), G.Decimal(y);
    Assoc(p, dx, ", ");
    Assoc(p, dx + ", ", dy);
    Assoc(p, dx + ", " + dy, ");");
  }

  lemma ScrollToRead(x: int, y: int)
    ensures Parse(G.ScrollTo(x, y)) == Some(ScrollTo(x, y))
  {
    var r := G.Decimal(x) + ", " + G.Decimal(y) + ");";
    ScrollTemplate(ScrollToPrefix, x, y);
    Split(ScrollToPrefix, r);
    TwoIntsRead(x, y);
    WindowScriptSkipsDocument(G.ScrollTo(x, y));
  }

  lemma ScrollByRead(x: int, y: int)
    ensures Parse(G.ScrollBy(x, y)) == Some(ScrollBy(x, y))
  {
    var b := G.ScrollBy(x, y);
    var r := G.Decimal(x) + ", " + G.Decimal(y) + ");";
    ScrollTemplate(ScrollByPrefix, x, y);
    Split(ScrollByPrefix, r);
    TwoIntsRead(x, y);
    WindowScriptSkipsDocument(b);
    assert b[13] == 'B' && ScrollToPrefix[13] == 'T';
  }

  lemma FixedScriptsRead()
    ensures Parse(G.GetScrollHeight()) == Some(ScrollHeight)
    ensures Parse(G.GetScrollWidth()) == Some(ScrollWidth)
    ensures Parse(G.GetScrollTop()) == Some(ScrollTop)
    ensures Parse(G.ScrollToBottom()) == Some(ScrollToBottom)
    ensures Parse(G.ScrollToTop()) == Some(ScrollToTop)
  {
    BottomIsNotTwoInts();
    TopIsNotTwoInts();
    WindowScriptSkipsDocument(G.ScrollToBottom());
    WindowScriptSkipsDocument(G.ScrollToTop());
    assert G.ScrollToBottom()[..16] == ScrollToPrefix;
    assert G.ScrollToTop()[..16] == ScrollToPrefix;
    assert |G.ScrollToTop()| != |G.ScrollToBottom()|;
  }

  lemma BottomIsNotTwoInts()
    ensures TwoInts(G.ScrollToBottom()[16..]) == None
  {
    BottomArguments();
    HeightIsNotDecimal();
    SecondNotDecimal("0", G.GetScrollHeight());
  }

  lemma BottomArguments()
    ensures G.ScrollToBottom()[16..] == "0" + [','] + (" " + (G.GetScrollHeight() + [')'] + ";"))
  {
  }

  lemma HeightIsNotDecimal()
    ensures ')' !in G.GetScrollHeight() && G.ReadDecimal(G.GetScrollHeight()).None?
  {
    assert !G.IsDigit(G.GetScrollHeight()[0]);
  }

  /** Two arguments whose second is not a decimal are not read as two integers. */
  lemma SecondNotDecimal(a: string, b: string)
    requires ',' !in a && ')' !in b && G.ReadDecimal(b).None?
    ensures TwoInts(a + [','] + (" " + (b + [')'] + ";"))) == None
  {
    var rest := " " + (b + [')'] + ";");
    ReadUntilSplits(a, ',', rest);
    assert rest[1..] == b + [')'] + ";";
    ReadUntilSplits(b, ')', ";");
  }

  lemma TopIsNotTwoInts()
    ensures TwoInts(G.ScrollToTop()[16..]) == None
  {
    assert G.ScrollToTop()[16..] == "0" + [','] + "0);";
    ReadUntilSplits("0", ',', "0);");
  }

  /** The round trip: reading a rendered command with quote-free arguments gives the command back. */
  lemma ParseRender(c: Command)
    requires ArgumentsQuoteFree(c)
    ensures Parse(Render(c)) == Some(c)
  {
    match c
    case QueryOne(s) => FixedTailScriptRead(c);
    case QueryAll(s) => QueryAllScriptReads(s);
    case GetAttribute(s, a) => GetAttributeRead(s, a);
    case SetAttribute(s, a, v) => SetAttributeRead(s, a, v);
    case ClassList(s) => FixedTailScriptRead(c);
    case AddClass(s, k) => ClassScriptRead(s, ".add(\"", k, 0);
    case RemoveClass(s, k) => ClassScriptRead(s, ".remove(\"", k, 1);
    case ToggleClass(s, k) => ClassScriptRead(s, ".toggle(\"", k, 2);
    case Click(s) => FixedTailScriptRead(c);
    case Submit(s) => FixedTailScriptRead(c);
    case Focus(s) => FixedTailScriptRead(c);
    case Blur(s) => FixedTailScriptRead(c);
    case Select(s) => FixedTailScriptRead(c);
    case ScrollHeight => FixedScriptsRead();
    case ScrollWidth => FixedScriptsRead();
    case ScrollTop => FixedScriptsRead();
    case ScrollTo(x, y) => ScrollToRead(x, y);
    case ScrollBy(x, y) => ScrollByRead(x, y);
    case ScrollToBottom => FixedScriptsRead();
    case ScrollToTop => FixedScriptsRead();
  }

  /** The element commands whose template ends in fixed text. */
  lemma FixedTailScriptRead(c: Command)
    requires c.QueryOne? || c.ClassList? || c.Click? || c.Submit? || c.Focus? || c.Blur? || c.Select?
    requires QuoteFree(c.selector)
    ensures Parse(Render(c)) == Some(c)
  {
    var s := c.selector;
    FixedTailsRead(s);
    match c
    case QueryOne(_) =>
      assert Render(c) == G.GetElement(s) + "";
      ElementScriptReads(s, "");
    case ClassList(_) => ElementScriptReads(s, ".classList");
    case Click(_) => ElementScriptReads(s, ".click()");
    case Submit(_) => ElementScriptReads(s, ".submit()");
    case Focus(_) => ElementScriptReads(s, ".focus()");
    case Blur(_) => ElementScriptReads(s, ".blur()");
    case Select(_) => ElementScriptReads(s, ".select()");
  }

  lemma GetAttributeRead(s: string, a: string)
    requires QuoteFree(s) && QuoteFree(a)
    ensures Parse(G.GetAttr(s, a)) == Some(GetAttribute(s, a))
  {
    Assoc(G.GetElement(s), ".getAttribute(\"" + a, "\")");
    Assoc(G.GetElement(s), ".getAttribute(\"", a);
    ElementScriptReads(s, ".getAttribute(\"" + a + "\")");
    GetAttributeTail(s, a);
  }

  lemma SetAttributeRead(s: string, a: string, v: string)
    requires QuoteFree(s) && QuoteFree(a) && QuoteFree(v)
    ensures Parse(G.SetAttr(s, a, v)) == Some(SetAttribute(s, a, v))
  {
    var ge := G.GetElement(s);
    Assoc(ge, ".setAttribute(\"" + a + "\", \"" + v, "\")");
    Assoc(ge, ".setAttribute(\"" + a + "\", \"", v);
    Assoc(ge, ".setAttribute(\"" + a, "\", \"");
    Assoc(ge, ".setAttribute(\"", a);
    ElementScriptReads(s, ".setAttribute(\"" + a + "\", \"" + v + "\")");
    SetAttributeTail(s, a, v);
  }

  lemma ClassScriptRead(s: string, m: string, k: string, which: nat)
    requires QuoteFree(s) && QuoteFree(k)
    requires m == (if which == 0 then ".add(\"" else if which == 1 then ".remove(\"" else ".toggle(\"")
    ensures Parse(G.GetClassList(s) + m + k + "\")")
              == Some(if which == 0 then AddClass(s, k) else if which == 1 then RemoveClass(s, k) else ToggleClass(s, k))
  {
    var ge := G.GetElement(s);
    Assoc(ge, ".classList" + m + k, "\")");
    Assoc(ge, ".classList" + m, k);
    Assoc(ge, ".classList", m);
    ElementScriptReads(s, ".classList" + m + k + "\")");
    ClassTail(s, m, k, which);
  }

  /** Hence rendering is injective on quote-free commands. */
  lemma RenderInjective(c: Command, d: Command)
    requires ArgumentsQuoteFree(c) && ArgumentsQuoteFree(d)
    requires Render(c) == Render(d)
    ensures c == d
  {
    ParseRender(c);
    ParseRender(d);
  }

  /** Unescaped splicing: the text `", "` followed by m can sit at the end of the attribute
      name or at the start of the value, and the script is the same. */
  lemma QuoteSplice(selector: string, attr: string, m: string, value: string)
    ensures G.SetAttr(selector, attr + ("\", \"" + m), value) == G.SetAttr(selector, attr, m + ("\", \"" + value))
  {
    SpliceRegroup(G.GetElement(selector) + ".setAttribute(\"", attr, "\", \"", m, value, "\")");
  }

  lemma SpliceRegroup<T>(g: seq<T>, a: seq<T>, k: seq<T>, m: seq<T>, v: seq<T>, c: seq<T>)
    ensures g + (a + (k + m)) + k + v + c == g + a + k + (m + (k + v)) + c
  {
    calc {
      g + (a + (k + m)) + k + v + c;
      { Assoc(g, a, k + m); Assoc(g + a, k, m); }
      g + a + k + m + k + v + c;
      { Assoc(g + a + k + m, k, v); Assoc(g + a + k, m, k + v); }
      g + a + k + (m + (k + v)) + c;
    }
  }

  /** Without escaping, a quote in an argument moves text between arguments: two different
      `set_attr` calls produce the same script, so no reader can recover both. */
  lemma SetAttrSplicesQuotes()
    ensures G.SetAttr("a", "b\", \"c", "d") == G.SetAttr("a", "b", "c\", \"d")
    ensures Parse(Render(SetAttribute("a", "b\", \"c", "d"))) != Some(SetAttribute("a", "b\", \"c", "d"))
            || Parse(Render(SetAttribute("a", "b", "c\", \"d"))) != Some(SetAttribute("a", "b", "c\", \"d"))
  {
    QuoteSplice("a", "b", "c", "d");
    assert "b" + ("\", \"" + "c") == "b\", \"c" && "c" + ("\", \"" + "d") == "c\", \"d";
    assert SetAttribute("a", "b\", \"c", "d") != SetAttribute("a", "b", "c\", \"d") by {
      assert "b\", \"c"[1] != "b"[0] || |"b\", \"c"| != |"b"|;
    }
  }
}
