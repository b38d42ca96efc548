/** The script generator: every operation is a string built from a fixed template with the
    arguments spliced in verbatim (selectors, attribute names, values and class names are not
    escaped; integers are written in decimal as Python's str does). */
module JsGenerator {
  import opened Base

  // query related

  function GetElement(selector: string): string {
    "document.querySelector(\"" + selector + "\")"
  }

  function GetElements(selector: string): string {
    "document.querySelectorAll(\"" + selector + "\")"
  }

  // attribute related

  function GetAttr(selector: string, attr: string): string {
    GetElement(selector) + ".getAttribute(\"" + attr + "\")"
  }

  function SetAttr(selector: string, attr: string, value: string): string {
    GetElement(selector) + ".setAttribute(\"" + attr + "\", \"" + value + "\")"
  }

  // class list related

  function GetClassList(selector: string): string {
    GetElement(selector) + ".classList"
  }

  function AddClass(selector: string, className: string): string {
    GetClassList(selector) + ".add(\"" + className + "\")"
  }

  function RemoveClass(selector: string, className: string): string {
    GetClassList(selector) + ".remove(\"" + className + "\")"
  }

  function ToggleClass(selector: string, className: string): string {
    GetClassList(selector) + ".toggle(\"" + className + "\")"
  }

  // action related

  function Click(selector: string): string { GetElement(selector) + ".click()" }
  function Submit(selector: string): string { GetElement(selector) + ".submit()" }
  function Focus(selector: string): string { GetElement(selector) + ".focus()" }
  function Blur(selector: string): string { GetElement(selector) + ".blur()" }
  function Select(selector: string): string { GetElement(selector) + ".select()" }

  // scroll related

  function GetScrollHeight(): string { "document.body.scrollHeight" }
  function GetScrollWidth(): string { "document.body.scrollWidth" }
  function GetScrollTop(): string { "document.body.scrollTop" }

  function ScrollTo(x: int, y: int): string {
    "window.scrollTo(" + Decimal(x) + ", " + Decimal(y) + ");"
  }

  function ScrollBy(xDisp: int, yDisp: int): string {
    "window.scrollBy(" + Decimal(xDisp) + ", " + Decimal(yDisp) + ");"
  }

  function ScrollToBottom(): string {
    "window.scrollTo(0, " + GetScrollHeight() + ");"
  }

  function ScrollToTop(): string { "window.scrollTo(0,0);" }

  // decimal rendering of integers, as an f-string renders an int

  predicate IsDigit(c: char) { '0' <= c <= '9' }

  function DigitChar(d: nat): (c: char)
    requires d < 10
    ensures IsDigit(c) && DigitValue(c) == d
  {
    "0123456789"[d]
  }

  function DigitValue(c: char): nat
    requires IsDigit(c)
  {
    (c as int - '0' as int) as nat
  }

  /** The decimal digits of n, most significant first, without leading zeros. */
  function NatDigits(n: nat): (s: string)
    decreases n
    ensures |s| > 0 && forall i :: 0 <= i < |s| ==> IsDigit(s[i])
  {
    if n < 10 then [DigitChar(n)] else NatDigits(n / 10) + [DigitChar(n % 10)]
  }

  function Decimal(x: int): (s: string)
    ensures |s| > 0
  {
    if x < 0 then "-" + NatDigits(-x) else NatDigits(x)
  }

  /** The value of a string of digits (the reading a JavaScript engine gives a numeric literal). */
  function DigitsValue(s: string): nat
    requires forall i :: 0 <= i < |s| ==> IsDigit(s[i])
  {
    if |s| == 0 then 0 else 10 * DigitsValue(s[..|s| - 1]) + DigitValue(s[|s| - 1])
  }

  /** Reads a non-empty digit string. */
  function ReadDigits(s: string): Option<nat> {
    if |s| > 0 && forall i :: 0 <= i < |s| ==> IsDigit(s[i]) then Some(DigitsValue(s)) else None
  }

  /** Reads an optionally negated, non-empty digit string. */
  function ReadDecimal(s: string): Option<int> {
    if |s| > 0 && s[0] == '-' then
      match ReadDigits(s[1..])
      case None => None
      case Some(n) => Some(0 - n)
    else ReadDigits(s)
  }

  lemma {:induction false} NatDigitsValue(n: nat)
    ensures DigitsValue(NatDigits(n)) == n
    decreases n
  {
    if n >= 10 {
      var s := NatDigits(n);
      NatDigitsValue(n / 10);
      assert s[..|s| - 1] == NatDigits(n / 10);
    }
  }

  lemma ReadNatDigits(n: nat)
    ensures ReadDigits(NatDigits(n)) == Some(n)
  {
    NatDigitsValue(n);
  }

  lemma ReadNonNegative(x: int)
    requires x >= 0
    ensures ReadDecimal(Decimal(x)) == Some(x)
  {
    var s := NatDigits(x);
    assert Decimal(x) == s;
    assert IsDigit(s[0]);
    ReadNatDigits(x);
  }

  lemma ReadNegative(x: int)
    requires x < 0
    ensures ReadDecimal(Decimal(x)) == Some(x)
  {
    ReadNatDigits(-x);
    ReadMinus(NatDigits(-x), -x);
  }

  lemma ReadMinus(s: string, n: nat)
    requires ReadDigits(s) == Some(n)
    ensures ReadDecimal("-" + s) == Some(0 - n)
  {
    assert ("-" + s)[1..] == s;
  }

  /** Decimal is the inverse of reading a decimal literal. */
  lemma DecimalRoundTrip(x: int)
    ensures ReadDecimal(Decimal(x)) == Some(x)
  {
    if x < 0 {
      ReadNegative(x);
    } else {
      ReadNonNegative(x);
    }
  }

  /** Consequently Decimal is injective. */
  lemma DecimalInjective(x: int, y: int)
    requires Decimal(x) == Decimal(y)
    ensures x == y
  {
    DecimalRoundTrip(x);
    DecimalRoundTrip(y);
  }

  /** A decimal rendering never contains the characters that delimit the scroll templates. */
  lemma DecimalHasNoDelimiters(x: int)
    ensures ',' !in Decimal(x) && ')' !in Decimal(x) && ' ' !in Decimal(x)
  {
    var d := if x < 0 then NatDigits(-x) else NatDigits(x);
    assert forall c :: c in d ==> IsDigit(c);
  }

  /** The selector is spliced in verbatim: `get_element` is a fixed prefix, the selector, a fixed suffix. */
  lemma GetElementFrames(selector: string)
    ensures var s := GetElement(selector);
      |s| == |selector| + 26 && s[24..|s| - 2] == selector
  {
  }

  /** Because of that framing, `get_element` is injective in its selector, quotes included. */
  lemma GetElementInjective(a: string, b: string)
    requires GetElement(a) == GetElement(b)
    ensures a == b
  {
    GetElementFrames(a);
    GetElementFrames(b);
  }

  /** `scroll_to_top` is not textually `scroll_to(0, 0)`: the template has no space after the comma. */
  lemma ScrollToTopIsNotScrollToOrigin()
    ensures ScrollToTop() != ScrollTo(0, 0)
    ensures ScrollTo(0, 0) == "window.scrollTo(0, 0);"
  {
    assert Decimal(0) == "0";
    assert |ScrollTo(0, 0)| == 22 != |ScrollToTop()|;
  }
}
