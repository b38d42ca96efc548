/** The query handler of the agent's data-handler module: element counting and the two
    pseudo-element probes. Unlike the generator, the probes embed the selector through
    `json.dumps`, which writes it as a JSON string literal (section 7 of RFC 8259); the
    encoder is a parameter here, assumed injective, and its escape tables are not modelled.
    The attribute and class-list handlers of the same module issue the same scripts as
    those of `JsHandlers` and are modelled there. */
module DataHandlers {
  import opened Base
  import opened Browser
  import J = JsHandlers

  /** `0 if elements is None else len(elements)`. */
  function CountOf(elements: Option<seq<Handle>>): (n: nat)
    ensures elements.None? ==> n == 0
    ensures elements.Some? ==> n == |elements.value|
  {
    if elements.None? then 0 else |elements.value|
  }

  /** The count is exactly the number of matches the page reports, 0 when it reports none. */
  lemma CountIsMatches(env: Env, h: seq<Effect>, selector: string)
    ensures CountOf(QueryResult(env, h, selector)) == (if env.matches(h, selector).Some? then env.matches(h, selector).value else 0)
  {
  }

  method QueryAll(page: Page, selector: string) returns (r: Option<seq<Handle>>)
    modifies page
    ensures page.trace == old(page.trace) + [Query(selector)]
    ensures r == QueryResult(page.env, old(page.trace), selector)
  {
    r := page.QueryAll(selector);
  }

  /** `JsQueryHandler.count`: one query, never negative. */
  method Count(page: Page, selector: string) returns (n: nat)
    modifies page
    ensures page.trace == old(page.trace) + [Query(selector)]
    ensures n == CountOf(QueryResult(page.env, old(page.trace), selector))
  {
    var elements := page.QueryAll(selector);
    n := CountOf(elements);
  }

  /** `extract_texts` has no body: it touches nothing and yields None. */
  method ExtractTexts(page: Page, selector: string) returns (r: JsValue)
    ensures r == Null
  {
    r := Null;
  }

  // ---- pseudo-element probes

  const ProbeHead := "\n            (function(selector) {\n                const element = document.querySelector(selector);\n                if (!element) {\n                    return false;\n                }\n"
  /** The style lookup and the returned object, for pseudo-element `p` (`P` capitalised). */
  function ProbeBody(p: string, P: string): string {
    "                const " + p + " = window.getComputedStyle(element, '::" + p + "');\n                return { has"
      + P + ": " + p + ".content !== 'none' };\n            })("
  }

  const BeforeBody := ProbeBody("before", "Before")
  const AfterBody := ProbeBody("after", "After")
  const ProbeTail := ")\n        "

  /** The text of `has_before_pseudo_elements` with the encoded selector spliced in. */
  function BeforeProbe(encoded: string): (js: string)
    ensures |js| == |ProbeHead| + |BeforeBody| + |encoded| + |ProbeTail|
  {
    ProbeHead + BeforeBody + encoded + ProbeTail
  }

  function AfterProbe(encoded: string): (js: string)
    ensures |js| == |ProbeHead| + |AfterBody| + |encoded| + |ProbeTail|
  {
    ProbeHead + AfterBody + encoded + ProbeTail
  }

  ghost predicate Injective(dumps: string -> string) {
    forall a, b :: dumps(a) == dumps(b) ==> a == b
  }

  lemma Assoc4(a: string, b: string, c: string, d: string)
    ensures a + b + c + d == (a + b) + (c + d)
  {
  }

  /** The encoded selector sits between a fixed prefix and a fixed suffix of the probe. */
  lemma ProbeFrames(encoded: string)
    ensures BeforeProbe(encoded)[|ProbeHead| + |BeforeBody|..|BeforeProbe(encoded)| - |ProbeTail|] == encoded
    ensures AfterProbe(encoded)[|ProbeHead| + |AfterBody|..|AfterProbe(encoded)| - |ProbeTail|] == encoded
  {
    Assoc4(ProbeHead, BeforeBody, encoded, ProbeTail);
    Assoc4(ProbeHead, AfterBody, encoded, ProbeTail);
    var b := (ProbeHead + BeforeBody) + (encoded + ProbeTail);
    assert b[|ProbeHead + BeforeBody|..] == encoded + ProbeTail;
    assert (encoded + ProbeTail)[..|encoded|] == encoded;
    var a := (ProbeHead + AfterBody) + (encoded + ProbeTail);
    assert a[|ProbeHead + AfterBody|..] == encoded + ProbeTail;
  }

  /** With an injective encoder, different selectors give different probes, whatever
      characters the selectors contain (contrast `ScriptReader.SetAttrSplicesQuotes`). */
  lemma ProbesInjective(dumps: string -> string, s: string, t: string)
    requires Injective(dumps)
    ensures BeforeProbe(dumps(s)) == BeforeProbe(dumps(t)) ==> s == t
    ensures AfterProbe(dumps(s)) == AfterProbe(dumps(t)) ==> s == t
  {
    ProbeFrames(dumps(s));
    ProbeFrames(dumps(t));
  }

  /** The two probes never coincide: they differ in the pseudo-element they ask about. */
  lemma ProbesDiffer(x: string, y: string)
    ensures BeforeProbe(x) != AfterProbe(y)
  {
    var k := |ProbeHead| + 22;
    assert BeforeBody[22] == 'b' && AfterBody[22] == 'a';
    assert BeforeProbe(x)[k] == BeforeBody[22];
    assert AfterProbe(y)[k] == AfterBody[22];
  }

  method HasBeforePseudoElements(page: Page, dumps: string -> string, selector: string) returns (r: Result<JsValue>)
    modifies page
    ensures page.trace == old(page.trace) + [Eval(BeforeProbe(dumps(selector)))]
    ensures r == page.env.eval(old(page.trace), BeforeProbe(dumps(selector)))
  {
    r := J.ExecuteJs(page, BeforeProbe(dumps(selector)));
  }

  method HasAfterPseudoElements(page: Page, dumps: string -> string, selector: string) returns (r: Result<JsValue>)
    modifies page
    ensures page.trace == old(page.trace) + [Eval(AfterProbe(dumps(selector)))]
    ensures r == page.env.eval(old(page.trace), AfterProbe(dumps(selector)))
  {
    r := J.ExecuteJs(page, AfterProbe(dumps(selector)));
  }
}
