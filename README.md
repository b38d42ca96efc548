# zephyrion core, modelled in Dafny

zephyrion drives one browser page to scrape content that only loads while the user scrolls.
Every call it makes into the browser is opaque. This model puts one simulated page in place
of the browser: `Browser.Page` records each call as an `Effect` in a trace, and it answers
each call through functions of the history so far. What is left of the program is the
sequential logic around those calls, and that is what is modelled and proved:

- **The script generator** (`JsGenerator`): every JavaScript template, as pure string
  functions. Its partner is `ScriptReader.Parse`, which is how a page reads a script back.
  - Rendering then parsing gives the operation back whenever no argument holds a double quote.
  - A concrete pair of different `set_attr` calls produces the same text, because arguments
    are spliced in without escaping.
- **A page that honours writes** (`Dom`): it replays the evaluated scripts on a document.
  - Attributes and class lists behave as the DOMTokenList of section 7.1 of the WHATWG DOM
    Standard describes.
  - The repository's attribute and class-list tests are proved against it.
- **The execution layer**:
  - `execute_js`;
  - the class-list, attribute, action and scroll handlers, each sending exactly its
    generator script;
  - the query handler's count and pseudo-element probes;
  - the pyppeteer data extractor.
- **The convergence scroll loader** `_scroll_load_` (`ScrollLoop`): one loop, parameterised
  so that it covers three variants:
  - the pyppeteer handler: a lenient count every fifth tick, with callbacks;
  - the agent's JavaScript handler: a lenient count every tick;
  - the agent's page-interactor handler: a strict count every tick, and a pause given in
    seconds.

  The source loop has no cap, so the model runs it on fuel. The lemmas prove which condition
  ended a run, when it fired, and how many scroll steps came before it.
- **The type-and-verify retry** `type_input` (`InputRetry`): write, read back, at most three
  attempts, proved against a recursive specification.
- **The selector-wait and click decorators** (`PageInteractor`), as effect traces.
- **The video record** (`VideoCommentRecord`): its setters, `to_dict`, `from_dict` and
  `__str__`. The round trip through `to_dict` is proved.
- **The two browser managers' lifecycles**, as classes:
  - the pyppeteer single-page browser;
  - the playwright manager.
- **The page-interaction configuration** and its defaults.

Three behaviours of the code that are easy to misread:
- **Stability stop.** A page whose offset never changes stops the scroll loader after
  `same_th` + 1 ticks, not after `same_th`. The first sample only replaces `last_top`'s
  initial None. See `ScrollLoop.SettledPageStops`.
- **Retry count.** The count `type_input` reaches on success is the number of *failed*
  attempts. It is 1 when the second attempt succeeds, not 2.
- **Count-stalled stop.** No variant of the loop stops because the count stopped growing.
  `prev_count` only feeds the progress log (`ScrollLoop.LoggingIsInert`).

## Model

| member | source | states |
|---|---|---|
| InteractionConfig.Default | zephyrion/browser_agent/pypp/page_interactor/_config.py:2-14 | a new configuration waits 1000 ms after a new page, a click and an input, 200 ms quick, 2000 ms slow, and 5000 ms for a selector |
| InteractionConfig.ParseConfig | zephyrion/browser_agent/pypp/page_interactor/_config.py:16-18 | `parse_config` leaves every field unchanged |
| InteractionConfig.DumpConfig | zephyrion/browser_agent/pypp/page_interactor/_config.py:20-22 | `dump_config` leaves every field unchanged |
| JsGenerator.NatDigits | zephyrion/browser_agent/pypp_agent/js_util/generator.py:75-80 | the decimal text of a natural is non-empty and made only of digits |
| JsGenerator.NatDigitsValue | zephyrion/browser_agent/pypp_agent/js_util/generator.py:75-80 | reading the digits of n as a numeric literal gives n back |
| JsGenerator.DecimalRoundTrip | zephyrion/browser_agent/pypp_agent/js_util/generator.py:75-80 | the text Python's f-string gives an integer, negatives included, reads back as that integer |
| JsGenerator.DecimalInjective | zephyrion/browser_agent/pypp_agent/js_util/generator.py:75-80 | different integers render differently |
| JsGenerator.DecimalHasNoDelimiters | zephyrion/browser_agent/pypp_agent/js_util/generator.py:75-80 | a rendered integer holds no comma, parenthesis or space, so it cannot break out of the scroll templates |
| JsGenerator.GetElementFrames | zephyrion/browser_agent/pypp_agent/js_util/generator.py:7-8 | `get_element(s)` is a fixed 24-character prefix, s verbatim, and a fixed 2-character suffix |
| JsGenerator.GetElementInjective | zephyrion/browser_agent/pypp_agent/js_util/generator.py:7-8 | different selectors give different `get_element` scripts, quotes included |
| JsGenerator.ScrollToTopIsNotScrollToOrigin | zephyrion/browser_agent/pypp_agent/js_util/generator.py:75-88 | `scroll_to_top()` differs from `scroll_to(0, 0)`, which is `window.scrollTo(0, 0);` with a space |
| ScriptReader.Render | zephyrion/browser_agent/pypp_agent/js_util/generator.py:7-88 | every generated script is non-empty |
| ScriptReader.ElementScriptReads | zephyrion/browser_agent/pypp_agent/js_util/generator.py:7-8 | any script that starts with `get_element` of a quote-free selector is read as an operation on that selector, decided by the text after the closing quote |
| ScriptReader.QueryAllScriptReads | zephyrion/browser_agent/pypp_agent/js_util/generator.py:11-12 | `get_elements(s)` reads back as a query for all matches of s |
| ScriptReader.FixedTailsRead | zephyrion/browser_agent/pypp_agent/js_util/generator.py:25-59 | the fixed suffixes `.classList`, `.click()`, `.submit()`, `.focus()`, `.blur()` and `.select()` each read as their own operation |
| ScriptReader.FixedTailScriptRead | zephyrion/browser_agent/pypp_agent/js_util/generator.py:7-59 | element lookup, class list, click, submit, focus, blur and select on a quote-free selector read back as themselves |
| ScriptReader.GetAttributeRead | zephyrion/browser_agent/pypp_agent/js_util/generator.py:16-17 | `get_attr(s, a)` with quote-free arguments reads back as a lookup of attribute a on s |
| ScriptReader.SetAttributeRead | zephyrion/browser_agent/pypp_agent/js_util/generator.py:20-21 | `set_attr(s, a, v)` with quote-free arguments reads back as that write |
| ScriptReader.ClassScriptRead | zephyrion/browser_agent/pypp_agent/js_util/generator.py:25-38 | `get_class_list(s)` followed by `.add`, `.remove` or `.toggle` of a quote-free class reads back as that class-list operation |
| ScriptReader.TwoIntsRead | zephyrion/browser_agent/pypp_agent/js_util/generator.py:75-80 | the argument text `x, y);` of the scroll templates reads back as the pair (x, y) |
| ScriptReader.ScrollToRead | zephyrion/browser_agent/pypp_agent/js_util/generator.py:75-76 | `scroll_to(x, y)` reads back as a scroll to (x, y) |
| ScriptReader.ScrollByRead | zephyrion/browser_agent/pypp_agent/js_util/generator.py:79-80 | `scroll_by(x, y)` reads back as a scroll by (x, y) |
| ScriptReader.FixedScriptsRead | zephyrion/browser_agent/pypp_agent/js_util/generator.py:63-88 | the scroll height, width and offset getters, `scroll_to_bottom` and `scroll_to_top` each read back as their own operation |
| ScriptReader.BottomIsNotTwoInts | zephyrion/browser_agent/pypp_agent/js_util/generator.py:83-84 | `scroll_to_bottom` embeds the height expression, not a number, so it is not read as a numeric scroll |
| ScriptReader.TopIsNotTwoInts | zephyrion/browser_agent/pypp_agent/js_util/generator.py:87-88 | `scroll_to_top`'s unspaced argument text is not read as a numeric scroll |
| ScriptReader.ParseRender | zephyrion/browser_agent/pypp_agent/js_util/generator.py:7-88 | round trip: when no argument holds a double quote, reading every generated script gives back the operation and arguments it was made from |
| ScriptReader.RenderInjective | zephyrion/browser_agent/pypp_agent/js_util/generator.py:7-88 | different quote-free operations never produce the same script |
| ScriptReader.QuoteSplice | zephyrion/browser_agent/pypp_agent/js_util/generator.py:20-21 | without escaping, text holding `", "` moves unchanged from the end of the attribute name to the start of the value, and the script stays the same |
| ScriptReader.SetAttrSplicesQuotes | zephyrion/browser_agent/pypp_agent/js_util/generator.py:20-21 | two distinct `set_attr` calls give one identical script, and the call whose attribute holds a quote does not survive the round trip |
| Dom.ReplaceFirst | test/browser_agent/pypp_agent/js_util/executor/attr_test.py:28-34 | replacing the first match of a selector makes the new element its first match, keeps the scroll geometry, the number of matches and the later matches, and leaves every other selector's matches unchanged |
| Dom.Without | test/browser_agent/pypp_agent/js_util/executor/class_list_test.py:26-50 | removing a token keeps exactly the other tokens |
| Dom.With | test/browser_agent/pypp_agent/js_util/executor/class_list_test.py:26-50 | adding a token keeps every token and adds it, and adding a present token changes nothing |
| Dom.TokenListDecodes | zephyrion/browser_agent/pypp_agent/js_util/handler.py:22-29 | a class list serialised as an index-to-token object decodes to its tokens in order, and a token is listed exactly when it is in the list |
| Dom.Clamp | zephyrion/browser_agent/pypp_agent/js_util/generator.py:75-80 | the page's scroll offset stays between 0 and the height, and an in-range target is reached exactly |
| Dom.HeightIsFixed | zephyrion/browser_agent/pypp_agent/js_util/generator.py:7-88 | no generated script changes the document's scrollable height |
| Dom.SetThenGet | test/browser_agent/pypp_agent/js_util/executor/attr_test.py:28-34 | on a page that honours writes, `set_attr(s, a, v)` succeeds and a following `get_attr(s, a)` yields v |
| Dom.ClassesRead | zephyrion/browser_agent/pypp_agent/js_util/handler.py:22-29 | `get_class_list` on an existing element yields exactly the classes of its first match |
| Dom.AddThenListed | test/browser_agent/pypp_agent/js_util/executor/class_list_test.py:26-33 | after `add_class(s, k)` the class list of s contains k |
| Dom.AddRemoveThenUnlisted | test/browser_agent/pypp_agent/js_util/executor/class_list_test.py:35-42 | after `add_class` then `remove_class` of k, the list does not contain k |
| Dom.ToggleFlips | test/browser_agent/pypp_agent/js_util/executor/class_list_test.py:44-50 | each `toggle_class` flips whether k is listed |
| Dom.ToggleTwiceRestores | test/browser_agent/pypp_agent/js_util/executor/class_list_test.py:44-50 | toggling k twice leaves its membership as it was, so a class that was absent is absent again |
| Dom.BottomOffsetIsHeight | zephyrion/browser_agent/pypp_agent/js_util/generator.py:83-84 | after `scroll_to_bottom`, and any non-evaluating calls, the offset sample reads the page height |
| JsHandlers.ExecuteJs | zephyrion/browser_agent/pypp_agent/js_util/handler.py:7-19 | a non-empty script is evaluated exactly once and its result returned unchanged; an empty one makes no call and yields None. The standalone decorators at zephyrion/browser_agent/pypp_agent/js_util/decorator.py:4-16 and zephyrion/browser_agent/pypp/js_util/decorator.py:4-17 are the same code |
| JsHandlers.Values | zephyrion/browser_agent/pypp_agent/js_util/handler.py:23-25 | an object's values, one per field, in field order |
| JsHandlers.ValuesOf | zephyrion/browser_agent/pypp_agent/js_util/handler.py:23-25 | `list(raw.values())` succeeds exactly for an object, and gives its values in order |
| JsHandlers.DecodeClassList | zephyrion/browser_agent/pypp_agent/js_util/handler.py:23-25 | an evaluation error propagates unchanged, and a result is decoded as by `values()` |
| JsHandlers.GetClassList | zephyrion/browser_agent/pypp_agent/js_util/handler.py:22-29 | exactly one evaluation, of `get_class_list(s)`, whose mapping values are returned in order |
| JsHandlers.AddClass | zephyrion/browser_agent/pypp_agent/js_util/handler.py:31-36 | exactly one evaluation, of `add_class(s, k)`, and its raw result |
| JsHandlers.RemoveClass | zephyrion/browser_agent/pypp_agent/js_util/handler.py:38-43 | exactly one evaluation, of `remove_class(s, k)`, and its raw result |
| JsHandlers.ToggleClass | zephyrion/browser_agent/pypp_agent/js_util/handler.py:45-50 | exactly one evaluation, of `toggle_class(s, k)`, and its raw result |
| JsHandlers.GetAttr | zephyrion/browser_agent/pypp_agent/js_util/handler.py:53-60 | exactly one evaluation, of `get_attr(s, a)`, whose result is returned unchanged |
| JsHandlers.SetAttr | zephyrion/browser_agent/pypp_agent/js_util/handler.py:62-67 | exactly one evaluation, of `set_attr(s, a, v)` |
| JsHandlers.Click | zephyrion/browser_agent/pypp_agent/js_util/handler.py:70-76 | exactly one evaluation, of `click(s)` |
| JsHandlers.Submit | zephyrion/browser_agent/pypp_agent/js_util/handler.py:78-83 | exactly one evaluation, of `submit(s)` |
| JsHandlers.Focus | zephyrion/browser_agent/pypp_agent/js_util/handler.py:85-90 | exactly one evaluation, of `focus(s)` |
| JsHandlers.Blur | zephyrion/browser_agent/pypp_agent/js_util/handler.py:92-97 | exactly one evaluation, of `blur(s)` |
| JsHandlers.Select | zephyrion/browser_agent/pypp_agent/js_util/handler.py:99-104 | exactly one evaluation, of `select(s)` |
| JsHandlers.ScrollTo | zephyrion/browser_agent/pypp_agent/js_util/handler.py:107-113 | exactly one evaluation, of `scroll_to(x, y)` |
| JsHandlers.ScrollBy | zephyrion/browser_agent/pypp_agent/js_util/handler.py:115-120 | exactly one evaluation, of `scroll_by(dx, dy)` |
| JsHandlers.ScrollToBottom | zephyrion/browser_agent/pypp_agent/js_util/handler.py:122-127 | exactly one evaluation, of `scroll_to_bottom()` |
| JsHandlers.ScrollToTop | zephyrion/browser_agent/pypp_agent/js_util/handler.py:129-134 | exactly one evaluation, of `scroll_to_top()` |
| JsHandlers.GetScrollHeight | zephyrion/browser_agent/pypp_agent/js_util/handler.py:136-141 | exactly one evaluation, of the height getter, and its raw result |
| JsHandlers.GetScrollWidth | zephyrion/browser_agent/pypp_agent/js_util/handler.py:143-148 | exactly one evaluation, of the width getter, and its raw result |
| JsHandlers.GetScrollTop | zephyrion/browser_agent/pypp_agent/js_util/handler.py:150-155 | exactly one evaluation, of the offset getter, and its raw result |
| DataHandlers.CountOf | zephyrion/browser_agent/pypp_agent/js_util/js_handler/data_handler/common.py:41-50 | the count is 0 when the query yields None, otherwise the number of elements, and never negative |
| DataHandlers.CountIsMatches | zephyrion/browser_agent/pypp_agent/js_util/js_handler/data_handler/common.py:41-50 | the count is exactly the number of matches the page reports, 0 when it reports none |
| DataHandlers.QueryAll | zephyrion/browser_agent/pypp_agent/js_util/js_handler/data_handler/common.py:32-39 | one query, whose answer is returned as it is |
| DataHandlers.Count | zephyrion/browser_agent/pypp_agent/js_util/js_handler/data_handler/common.py:41-50 | one query, and the count of its answer |
| DataHandlers.ExtractTexts | zephyrion/browser_agent/pypp_agent/js_util/js_handler/data_handler/common.py:62-68 | the stub makes no call and yields None |
| DataHandlers.BeforeProbe | zephyrion/browser_agent/pypp_agent/js_util/js_handler/data_handler/common.py:71-83 | the `::before` probe is the fixed text with the encoded selector spliced in |
| DataHandlers.AfterProbe | zephyrion/browser_agent/pypp_agent/js_util/js_handler/data_handler/common.py:85-97 | the `::after` probe is the fixed text with the encoded selector spliced in |
| DataHandlers.ProbeFrames | zephyrion/browser_agent/pypp_agent/js_util/js_handler/data_handler/common.py:71-97 | the encoded selector can be cut back out of either probe between its fixed prefix and suffix |
| DataHandlers.ProbesInjective | zephyrion/browser_agent/pypp_agent/js_util/js_handler/data_handler/common.py:71-97 | with the JSON string encoding of section 7 of RFC 8259 taken as injective, different selectors always give different probes, whatever characters they hold |
| DataHandlers.ProbesDiffer | zephyrion/browser_agent/pypp_agent/js_util/js_handler/data_handler/common.py:71-97 | the `::before` and `::after` probes never coincide |
| DataHandlers.HasBeforePseudoElements | zephyrion/browser_agent/pypp_agent/js_util/js_handler/data_handler/common.py:71-83 | exactly one evaluation, of the `::before` probe for the encoded selector, and its raw result |
| DataHandlers.HasAfterPseudoElements | zephyrion/browser_agent/pypp_agent/js_util/js_handler/data_handler/common.py:85-97 | exactly one evaluation, of the `::after` probe for the encoded selector, and its raw result |
| DataExtractor.AttrScript | zephyrion/pypp/data_extractor.py:47-55 | the attribute name sits verbatim between double quotes, after a fixed head |
| DataExtractor.GetText | zephyrion/pypp/data_extractor.py:26-35 | a non-handle is refused with TypeError and nothing is evaluated; a handle gets one text read, whose result is returned |
| DataExtractor.TextReads | zephyrion/pypp/data_extractor.py:37-45 | one text read per handle, in order |
| DataExtractor.ReadTextsInOrder | zephyrion/pypp/data_extractor.py:37-45 | on success there is one text per handle, in query order, and each is read after the reads of the handles before it |
| DataExtractor.ReadTextsStops | zephyrion/pypp/data_extractor.py:44-45 | once a read fails, no later handle is read |
| DataExtractor.GetTexts | zephyrion/pypp/data_extractor.py:37-45 | one query, then the text reads of its handles in order; a None answer is a TypeError |
| DataExtractor.GetAttr | zephyrion/pypp/data_extractor.py:47-55 | one evaluation on the handle, of the attribute script, whose result is returned |
| DataExtractor.GetClsList | zephyrion/pypp/data_extractor.py:57-64 | one evaluation on the handle, decoded to the class-list values in order |
| DataExtractor.HasClassOfObject | zephyrion/pypp/data_extractor.py:66-75 | for a decoded class list, `cls in cls_list` holds exactly when some field's value is the string cls |
| DataExtractor.HasCls | zephyrion/pypp/data_extractor.py:66-75 | one evaluation, and the result is true exactly when cls is among the decoded values |
| DataExtractor.ExecJs | zephyrion/pypp/data_extractor.py:77-84 | any script, the empty one included, is evaluated once unchanged and its result returned |
| InputRetry.Tries | zephyrion/browser_agent/pypp_agent/page_interactor/handler/input_handler.py:24-29 | k attempts make 2k calls |
| InputRetry.TypeInput | zephyrion/browser_agent/pypp_agent/page_interactor/handler/input_handler.py:7-36 | the loop's result and calls are exactly those of the recursive specification: the selector wait, then the write/read attempts |
| InputRetry.AttemptsSucceed | zephyrion/browser_agent/pypp_agent/page_interactor/handler/input_handler.py:24-36 | success after n failed attempts: exactly n + 1 write/read pairs with the same text, every earlier read-back differs, the last one equals the text, and n < 3 |
| InputRetry.AttemptsExhausted | zephyrion/browser_agent/pypp_agent/page_interactor/handler/input_handler.py:20-34 | three mismatching read-backs end in RuntimeError after exactly three pairs, carrying the last read-back and the target |
| InputRetry.AttemptsBounded | zephyrion/browser_agent/pypp_agent/page_interactor/handler/input_handler.py:20-34 | whatever the page answers, at most three write/read pairs are made |
| InputRetry.WaitFailureStopsEarly | zephyrion/browser_agent/pypp_agent/page_interactor/handler/input_handler.py:7 | a failed selector wait ends the call before the first write |
| InputRetry.DocumentAcceptsFirstTry | zephyrion/browser_agent/pypp_agent/page_interactor/handler/input_handler.py:7-36 | on a page that honours writes, typing into an existing element succeeds on the first attempt with a retry count of 0 |
| InputRetry.FirstAttemptSucceeds | zephyrion/browser_agent/pypp_agent/page_interactor/handler/input_handler.py:25-29 | a write that goes through and a matching read-back end the attempts at once |
| PageInteractor.AgentTimeout | zephyrion/browser_agent/pypp_agent/page_interactor/decorator.py:4-8 | the agent's wait uses the configured selector timeout |
| InputRetry.AgentTypeInput | zephyrion/browser_agent/pypp_agent/page_interactor/decorator.py:4-8 | `type_input` under its decorator: the selector wait uses the configured selector timeout, and the result and calls are exactly those of the specification |
| PageInteractor.AgentDefaultIsPyppTimeout | zephyrion/browser_agent/pypp/page_interactor/_decorator.py:3 | with `_config.py`'s defaults, the agent's configured wait equals the pyppeteer decorator's fixed 5000 ms |
| PageInteractor.ClickOrder | zephyrion/browser_agent/pypp/js_util/js_handler/action_handler/_click_handler.py:10-26 | the selector wait comes first; the click is evaluated exactly once, right after it, and only if the wait succeeded; the extra wait happens exactly when the click went through and `new_page` is set, and then it comes last |
| PageInteractor.Click | zephyrion/browser_agent/pypp/page_interactor/_decorator.py:3-10 | wait, click, optional wait, in that order; a failed wait raises before the body runs, and a failed click stops the call |
| PageInteractor.PyppClick | zephyrion/browser_agent/pypp/js_util/js_handler/action_handler/_click_handler.py:10-26 | the pyppeteer click, under the fixed 5000 ms selector timeout and the given `new_page_wait` (default 1000 ms, as `DefaultNewPageWaitMs`) |
| PageInteractor.AgentClick | zephyrion/browser_agent/pypp_agent/page_interactor/handler/click_handler.py:7-21 | the agent click, with timeout and new-page wait taken from the configuration |
| PyppBrowserManager.PickPage | zephyrion/pypp/browser_manager.py:78-87 | None when not running or with no page; NonSingletonError exactly when running with more than one page; the page exactly when running with one |
| PyppBrowserManager.StoppedHasNoPage | zephyrion/pypp/browser_manager.py:80-81 | a stopped browser yields None whatever pages it reports |
| PyppBrowserManager.SinglePageBrowser.constructor | zephyrion/pypp/browser_manager.py:58-66 | a new manager is not running and has no browser |
| PyppBrowserManager.SinglePageBrowser.GetPage | zephyrion/pypp/browser_manager.py:78-87 | the singleton-page rule, applied to the running flag and the reported pages |
| PyppBrowserManager.SinglePageBrowser.StartBrowser | zephyrion/pypp/browser_manager.py:89-95 | no relaunch while running with its page; otherwise a new browser and the running flag set; NonSingletonError propagates with nothing changed |
| PyppBrowserManager.SinglePageBrowser.CloseBrowser | zephyrion/pypp/browser_manager.py:97-103 | it always ends stopped with no browser, and launches nothing |
| PyppBrowserManager.SinglePageBrowser.RestartBrowser | zephyrion/pypp/browser_manager.py:105-107 | it ends running on a freshly launched browser |
| PyppBrowserManager.SinglePageBrowser.EnsureThePage | zephyrion/pypp/browser_manager.py:35-47 | the supplied page, else `get_page`'s; its error propagates; NoActivePageError when neither yields a page |
| PyppBrowserManager.SinglePageBrowser.EnsureBrowserIsRunning | zephyrion/pypp/browser_manager.py:25-32 | BrowserNotRunningError exactly when the manager is not running |
| PlaywrightManager.SingleBrowserManager.constructor | zephyrion/playwr/browser_manager.py:11-26 | a new manager is not running and has no browser, context or page |
| PlaywrightManager.SingleBrowserManager.Start | zephyrion/playwr/browser_manager.py:68-77 | while running nothing changes; otherwise browser, context and page are opened and it runs |
| PlaywrightManager.SingleBrowserManager.Close | zephyrion/playwr/browser_manager.py:79-89 | it ends stopped with browser, context and page all None; while stopped nothing changes |
| PlaywrightManager.SingleBrowserManager.Restart | zephyrion/playwr/browser_manager.py:91-93 | close then start: it always ends running on a new launch |
| PlaywrightManager.SingleBrowserManager.Go | zephyrion/playwr/browser_manager.py:95-98 | NoActivePageError without a page, otherwise exactly one navigation to the url; the lifecycle state is untouched |
| PlaywrightManager.SingleBrowserManager.GoBack | zephyrion/playwr/browser_manager.py:100-103 | NoActivePageError without a page, otherwise exactly one step back; the lifecycle state is untouched |
| PlaywrightManager.NavigationNeedsRunning | zephyrion/playwr/browser_manager.py:68-103 | in a consistent manager, navigation is refused exactly when it is not running |
| VideoCommentRecord.NameOf | youtube_crawler/data/pojo/video_comment.py:99-101 | a key names a setter only if it is that field's key |
| VideoCommentRecord.NameOfKey | youtube_crawler/data/pojo/video_comment.py:56-81 | every field's key finds that field's own setter |
| VideoCommentRecord.KeyInjective | youtube_crawler/data/pojo/video_comment.py:83-94 | no two fields share a key |
| VideoCommentRecord.DictKeys | youtube_crawler/data/pojo/video_comment.py:83-94 | the dictionary has exactly the nine field keys |
| VideoCommentRecord.DictValues | youtube_crawler/data/pojo/video_comment.py:83-94 | each field's value is stored under its own key |
| VideoCommentRecord.Put | youtube_crawler/data/pojo/video_comment.py:56-81 | a setter sets its own field and leaves the other eight alone |
| VideoCommentRecord.FieldsAgree | youtube_crawler/data/pojo/video_comment.py:9-18 | two records that agree on all nine fields are the same record |
| VideoCommentRecord.Offered | youtube_crawler/data/pojo/video_comment.py:99-101 | an entry whose key has no setter changes nothing; otherwise its setter is applied |
| VideoCommentRecord.Loaded | youtube_crawler/data/pojo/video_comment.py:96-101 | after the loop every field holds the value stored under its key, or None when the key is absent |
| VideoCommentRecord.LoadedUpdate | youtube_crawler/data/pojo/video_comment.py:99-101 | one more entry is one more setter call, whatever order the loop visits the entries in |
| VideoCommentRecord.LoadedIgnoresOtherKeys | youtube_crawler/data/pojo/video_comment.py:99-101 | entries whose key has no setter play no part |
| VideoCommentRecord.Show | youtube_crawler/data/pojo/video_comment.py:106-107 | a string is shown as it is, and None as `None` |
| VideoCommentRecord.VideoComment.constructor | youtube_crawler/data/pojo/video_comment.py:9-18 | a new record has all nine fields None |
| VideoCommentRecord.VideoComment.SetVideoId | youtube_crawler/data/pojo/video_comment.py:56-57 | only the video id changes |
| VideoCommentRecord.VideoComment.SetTitle | youtube_crawler/data/pojo/video_comment.py:59-60 | only the title changes |
| VideoCommentRecord.VideoComment.SetVideoUrl | youtube_crawler/data/pojo/video_comment.py:62-63 | only the video url changes |
| VideoCommentRecord.VideoComment.SetIsShort | youtube_crawler/data/pojo/video_comment.py:65-66 | only the short flag changes |
| VideoCommentRecord.VideoComment.SetViewCount | youtube_crawler/data/pojo/video_comment.py:68-69 | only the view count changes |
| VideoCommentRecord.VideoComment.SetPublishTime | youtube_crawler/data/pojo/video_comment.py:71-72 | only the publish time changes |
| VideoCommentRecord.VideoComment.SetChannelName | youtube_crawler/data/pojo/video_comment.py:74-75 | only the channel name changes |
| VideoCommentRecord.VideoComment.SetChannelUrl | youtube_crawler/data/pojo/video_comment.py:77-78 | only the channel url changes |
| VideoCommentRecord.VideoComment.SetDescText | youtube_crawler/data/pojo/video_comment.py:80-81 | only the description changes |
| VideoCommentRecord.VideoComment.Offer | youtube_crawler/data/pojo/video_comment.py:100-101 | the `hasattr`/`getattr` dispatch: the setter the key names, or nothing |
| VideoCommentRecord.VideoComment.ToDict | youtube_crawler/data/pojo/video_comment.py:83-94 | exactly the nine keys, each mapped to its field |
| VideoCommentRecord.VideoComment.Str | youtube_crawler/data/pojo/video_comment.py:106-107 | the shown video id between the fixed head `VideoInfo(video_id=` and a closing parenthesis |
| VideoCommentRecord.FromDict | youtube_crawler/data/pojo/video_comment.py:96-104 | ValueError exactly when the loaded record has no video id; otherwise a new record holding every entry that names a field |
| VideoCommentRecord.RoundTrip | youtube_crawler/data/pojo/video_comment.py:83-104 | loading a record's dictionary gives back the record field by field, and it is refused exactly when the record has no video id |
| VideoCommentRecord.MissingIdRefused | youtube_crawler/data/pojo/video_comment.py:102-103 | a dictionary is refused exactly when `video_id` is absent or None |
| VideoCommentRecord.StrShowsId | youtube_crawler/data/pojo/video_comment.py:106-107 | a record whose id is the string id prints as `VideoInfo(video_id=` + id + `)` |
| ScrollLoop.StepScript | zephyrion/pypp/js_util/js_handler/action_handler/_scroll_handler.py:75-82 | the step is `scroll_to_bottom` without a step size, otherwise `scroll_by(0, step)` |
| ScrollLoop.StepIsNotSample | zephyrion/pypp/js_util/js_handler/action_handler/_scroll_handler.py:162-173 | a scroll step is never the offset sample's script |
| ScrollLoop.CallbackEffects | zephyrion/pypp/js_util/js_handler/action_handler/_scroll_handler.py:164-169 | each callback once, in list order |
| ScrollLoop.Run | zephyrion/pypp/js_util/js_handler/action_handler/_scroll_handler.py:120-182 | a run begins at least one tick and at most fuel; it runs out of fuel only after using all of it |
| ScrollLoop.ScrollStep | zephyrion/pypp/js_util/js_handler/action_handler/_scroll_handler.py:75-82 | exactly one evaluation, of the step script |
| ScrollLoop.RunCallbacks | zephyrion/pypp/js_util/js_handler/action_handler/_scroll_handler.py:164-169 | the trace grows by each callback once, in list order |
| ScrollLoop.StrictCount | zephyrion/browser_agent/pypp_agent/page_interactor/handler/scroll_handler.py:12-20 | one query; the length of its answer, or TypeError when it yields None |
| ScrollLoop.CountStep | zephyrion/pypp/js_util/js_handler/action_handler/_scroll_handler.py:148-160 | the count check at the top of a tick, as the loop's tick function states it |
| ScrollLoop.SampleStep | zephyrion/pypp/js_util/js_handler/action_handler/_scroll_handler.py:162-182 | step, callbacks, pause and offset sample, as the loop's tick function states them |
| ScrollLoop.ScrollLoad | zephyrion/pypp/js_util/js_handler/action_handler/_scroll_handler.py:120-182 | the imperative loop ends for the same reason and with the same calls as the tick-by-tick run |
| ScrollLoop.TickKeepsInv | zephyrion/pypp/js_util/js_handler/action_handler/_scroll_handler.py:141-182 | at the top of every tick 0 <= `same_count` < `same_th` and 0 <= `count_check_counter` < `count_check_interval` |
| ScrollLoop.CountCheckGoes | zephyrion/pypp/js_util/js_handler/action_handler/_scroll_handler.py:148-160 | a count check that goes on adds at most the count query and leaves `same_count` and `last_top` alone |
| ScrollLoop.PhaseOrder | zephyrion/pypp/js_util/js_handler/action_handler/_scroll_handler.py:162-182 | a scroll phase that goes on or ends stable makes the step, the callbacks, the pause and the sample, in that order |
| ScrollLoop.TickOrder | zephyrion/pypp/js_util/js_handler/action_handler/_scroll_handler.py:148-173 | a tick that goes on or ends stable makes the count query (only when it counts), then one step, each callback once in order, the pause and one sample |
| ScrollLoop.CountingTicks | zephyrion/pypp/js_util/js_handler/action_handler/_scroll_handler.py:143-157 | the counter moves up by one, and goes back to 0 exactly when the count is taken |
| ScrollLoop.PrevCountMoves | zephyrion/pypp/js_util/js_handler/action_handler/_scroll_handler.py:158-160 | `prev_count` changes only when the count grew by at least `log_interval`, and then becomes the count |
| ScrollLoop.LoggingIsInert | zephyrion/pypp/js_util/js_handler/action_handler/_scroll_handler.py:158-160 | `prev_count` and `log_interval` never change how a run goes or ends |
| ScrollLoop.NoSelectorNoQuery | zephyrion/pypp/js_util/js_handler/action_handler/_scroll_handler.py:148 | without a selector no count query is ever made |
| ScrollLoop.ThresholdTickCounted | zephyrion/pypp/js_util/js_handler/action_handler/_scroll_handler.py:150-157 | a tick that stops on the threshold made only the count query, and that count reached the threshold |
| ScrollLoop.ThresholdStopIsCounted | zephyrion/pypp/js_util/js_handler/action_handler/_scroll_handler.py:150-157 | a threshold stop carries a count at least the threshold, and the run's last call is the count query |
| ScrollLoop.NoThresholdNoThresholdStop | zephyrion/pypp/js_util/js_handler/action_handler/_scroll_handler.py:155-157 | without a threshold, and with a lenient count, the loop never stops on the threshold |
| ScrollLoop.Steps | zephyrion/pypp/js_util/js_handler/action_handler/_scroll_handler.py:162 | the number of scroll steps among some calls never exceeds the number of calls |
| ScrollLoop.ThresholdTick | zephyrion/pypp/js_util/js_handler/action_handler/_scroll_handler.py:150-157 | a tick that stops on the threshold was one whose counter reached the interval |
| ScrollLoop.TickCounter | zephyrion/pypp/js_util/js_handler/action_handler/_scroll_handler.py:143-157 | a tick counts exactly when the bumped counter equals the interval, and a tick that goes on leaves the counter in range |
| ScrollLoop.TickSteps | zephyrion/pypp/js_util/js_handler/action_handler/_scroll_handler.py:162 | a tick that goes on makes exactly one scroll step |
| ScrollLoop.ThresholdTiming | zephyrion/pypp/js_util/js_handler/action_handler/_scroll_handler.py:143-157 | counting every `interval` ticks from a zero counter, a threshold stop comes at tick k·interval |
| ScrollLoop.ThresholdSteps | zephyrion/pypp/js_util/js_handler/action_handler/_scroll_handler.py:150-162 | a threshold stop comes after exactly one scroll step for each tick before it |
| ScrollLoop.FirstCount | zephyrion/browser_agent/pypp_agent/js_util/js_handler/action_handler/_scroll_handler.py:131-135 | counting every tick, the first tick queries the count before any step, and a first count that decides the run ends it with no scroll step |
| ScrollLoop.RunGo | zephyrion/pypp/js_util/js_handler/action_handler/_scroll_handler.py:120-182 | a run whose first tick goes on is that tick followed by the run from its state |
| ScrollLoop.RunHalt | zephyrion/pypp/js_util/js_handler/action_handler/_scroll_handler.py:120-182 | a run whose first tick stops ends there after one tick |
| ScrollLoop.SettledTick | zephyrion/pypp/js_util/js_handler/action_handler/_scroll_handler.py:173-182 | on a settled page, once its offset has been seen, each tick adds one to `same_count` and stops when it reaches `same_th` |
| ScrollLoop.SettledFirstTick | zephyrion/pypp/js_util/js_handler/action_handler/_scroll_handler.py:141-182 | the first tick only replaces the initial None: `same_count` stays 0 |
| ScrollLoop.SettledRunStops | zephyrion/pypp/js_util/js_handler/action_handler/_scroll_handler.py:173-182 | once the offset has been seen, the run stops on stability after exactly `same_th` − `same_count` more ticks |
| ScrollLoop.SettledPageStops | zephyrion/pypp/js_util/js_handler/action_handler/_scroll_handler.py:141-182 | a page whose offset settles at a value other than None stops on stability after exactly `same_th` + 1 ticks |
| PyppScroll.ScrollLoad | zephyrion/pypp/js_util/js_handler/action_handler/_scroll_handler.py:84-94 | the loop without a selector; by default a 400-pixel step, a 40 ms pause and a stability threshold of 20 |
| PyppScroll.ScrollLoadSelector | zephyrion/pypp/js_util/js_handler/action_handler/_scroll_handler.py:96-118 | the loop, then a fresh query made after it whose elements are returned; a None answer is a TypeError |
| PyppScroll.LoadNeverCounts | zephyrion/pypp/js_util/js_handler/action_handler/_scroll_handler.py:84-94 | `scroll_load` never queries the page for elements |
| PyppScroll.ThresholdEveryFifthTick | zephyrion/pypp/js_util/js_handler/action_handler/_scroll_handler.py:122-162 | a threshold stop comes at the start of tick 5k, after 5k − 1 scroll steps |
| AgentJsScroll.ScrollLoad | zephyrion/browser_agent/pypp_agent/js_util/js_handler/action_handler/_scroll_handler.py:81-90 | the loop without a selector; by default a 400-pixel step, a 40 ms pause and a stability threshold of 20 |
| AgentJsScroll.ScrollLoadSelector | zephyrion/browser_agent/pypp_agent/js_util/js_handler/action_handler/_scroll_handler.py:92-108 | the loop, then a count re-taken with one more query after it |
| AgentJsScroll.CountsEveryTick | zephyrion/browser_agent/pypp_agent/js_util/js_handler/action_handler/_scroll_handler.py:131-136 | with a selector, every tick that goes on or ends stable begins with the count query, before the scroll step |
| AgentJsScroll.FirstCountStops | zephyrion/browser_agent/pypp_agent/js_util/js_handler/action_handler/_scroll_handler.py:132-135 | a first count meeting the threshold ends the loop at once, with no scroll step |
| AgentJsScroll.NoThresholdOnlyStability | zephyrion/browser_agent/pypp_agent/js_util/js_handler/action_handler/_scroll_handler.py:133-144 | without a threshold only a stable offset, a failing script or the fuel bound ends the loop |
| AgentJsScroll.ConstantOffsetStops | zephyrion/browser_agent/pypp_agent/js_util/js_handler/action_handler/_scroll_handler.py:127-147 | an offset that settles at a value other than None stops the loop after exactly `same_th` + 1 ticks |
| AgentScroll.DefaultStepIsBottom | zephyrion/browser_agent/pypp_agent/page_interactor/handler/scroll_handler.py:73-89 | the default step scrolls to the bottom |
| AgentScroll.ScrollLoad | zephyrion/browser_agent/pypp_agent/page_interactor/handler/scroll_handler.py:78-87 | the loop without a selector; by default no step (every tick scrolls to the bottom), a `load_wait` of 40 and a stability threshold of 20 |
| AgentScroll.ScrollLoadSelector | zephyrion/browser_agent/pypp_agent/page_interactor/handler/scroll_handler.py:89-105 | the loop, then `count` taken once more after it |
| AgentScroll.PauseIsSeconds | zephyrion/browser_agent/pypp_agent/page_interactor/handler/scroll_handler.py:134 | the pause is `load_wait` seconds |
| AgentScroll.MissingThresholdFails | zephyrion/browser_agent/pypp_agent/page_interactor/handler/scroll_handler.py:128-132 | with a selector and no threshold, comparing the first count with None fails in the first tick |
| AgentScroll.FirstCountDecides | zephyrion/browser_agent/pypp_agent/page_interactor/handler/scroll_handler.py:128-132 | with a threshold, a first query answering None is a TypeError, and a first count meeting the threshold stops the loop |
| AgentScroll.StaticDocumentSettles | zephyrion/browser_agent/pypp_agent/page_interactor/handler/scroll_handler.py:133-144 | on a document that only the loop changes, with the default step, every sample reads the page height |
| AgentScroll.StaticDocumentStops | zephyrion/browser_agent/pypp_agent/page_interactor/handler/scroll_handler.py:107-144 | `scroll_load` with its defaults on such a document ends on a stable offset after exactly `same_th` + 1 ticks |

## Left out

- Driver calls (launch, close, `goto`, `goBack`, cookies, reload, `get_url`, `querySelector`) are not modelled. The page answers through functions of the call history, and the managers record launches and visits as counters and lists.
- Timing is recorded only as `WaitFor`/`Sleep` events in the trace. Real time, and the difference between blocking `time.sleep` and cooperative `asyncio.sleep`, are not modelled.
- Logging is left out: the debugger and every `debug_tool` call.
- JsHandlers.ExecuteJs also stands for the two standalone `execute_js` decorators, `zephyrion/browser_agent/pypp_agent/js_util/decorator.py` and `zephyrion/browser_agent/pypp/js_util/decorator.py`. Their bodies are the one in `handler.py`; the pyppeteer copy adds a debug log, which is not modelled.
- Callbacks are opaque `Callback` events. Whether a callback is a coroutine, and what it does, are left out.
- ScrollLoop.ScrollLoad: the source loop has no cap. The model runs at most `fuel` ticks and reports `OutOfFuel` after that. The selector variants then return None and skip their final query.
- PyppScroll.ScrollLoad and AgentJsScroll.ScrollLoad take `load_wait/1000` as an integer number of milliseconds. Floating point is not modelled.
- PageInteractor.PyppClick takes `new_page_wait: float` as an integer number of milliseconds. Floating point is not modelled.
- AgentJsScroll: this handler has no progress log. `log_interval` is fixed at 0, which `ScrollLoop.LoggingIsInert` shows is immaterial.
- AgentScroll.PauseIsSeconds: `time.sleep(load_wait)` is recorded as a pause of 1000 × `load_wait` ms.
- `json.dumps` is an encoder parameter, assumed injective. Its escape tables are not modelled.
- DataHandlers.HasBeforePseudoElements and DataHandlers.HasAfterPseudoElements: the probes' JavaScript bodies are not interpreted. Their answer (false, or an object with `hasBefore`/`hasAfter`) is whatever the page returns.
- `extract_text` builds its script with `get_text_content`, which the generator file does not define, so it is left out.
- The pyppeteer scroll handler's generator and query handler, and the pyppeteer click handler's `JsActionHandler` (`zephyrion/browser_agent/pypp/js_util/js_handler/action_handler/common.py`, imported at `_click_handler.py` line 2), are not part of this model. They are taken to issue the same scripts as the agent's.
- The data-handler module imports a generator module that is not part of this model. It is taken to be the same as `generator.py`.
- The data-handler `JsAttrHandler` and `JsClassHandler` issue the same single scripts as the handlers in `handler.py`. They are modelled once, as `JsHandlers` (lines 99-192 of the data-handler `common.py`).
- VideoCommentRecord: field values are None, bool, int or str. Other Python values, type annotations, `__repr__` and the property getters are not modelled.
- Dom lets a selector match a list of elements, reads and writes the first match, and clamps scroll offsets to [0, height]. A script outside the generator's templates fails. It is a test environment, not CSS selector semantics.
- InputRetry.TypeInput returns the retry count that the source only logs.
- InputRetry.TypeInput models the page-interactor `InputHandler`. The js_util `_input_handler.py` copy derives from a `JsHandler` that sets only the executor, so as written its selector wait and its debug log would raise AttributeError before any write. The package `__init__.py` imports `input_handler`, not `_input_handler`. The model assumes the page, configuration and debug tool that `BaseHandler` sets.
- AgentJsScroll and DataHandlers.Count: as written, neither handler can be built or run. The agent's js_util `JsHandler.__init__` (`zephyrion/browser_agent/pypp_agent/js_util/interface.py` lines 21-25) takes only `js_executor`. So `ScrollHandler.__init__` (`_scroll_handler.py` lines 13-14) raises TypeError on its `super().__init__(page=..., debug_tool=...)` call and on `JsQueryHandler(page=...)`. Even when built, `JsQueryHandler.query_all` and `count` read `self._page` (data-handler `common.py` lines 30 and 39), and `_scroll_load_` reads `self._debug_tool`; that base class sets neither. The model assumes a handler that holds the page and a debugger, as the pyppeteer `JsHandler` does.
- PageInteractor.AgentClick, PageInteractor.AgentTimeout, InputRetry.AgentTypeInput and PageInteractor.AgentDefaultIsPyppTimeout: the agent's `BaseHandler` defaults to `PageInteractionConfig()` from `zephyrion.browser_agent.pypp_agent.page_interactor.config` (`base_handler.py` lines 6 and 17). That module is not part of this model. It is taken to have the fields and defaults of `zephyrion/browser_agent/pypp/page_interactor/_config.py`, which `InteractionConfig` models.
- PageInteractor.Click takes the page and the timeout directly. Handler construction and the base handler's type checks are not modelled.
- PyppBrowserManager.SinglePageBrowser.StartBrowser relaunches when running with zero pages, as the code does: it tests for a page, not only the running flag.
- Façade and delegating classes, abstract and stub files, site-specific crawler flows, packaging and the test harness are not modelled. The test files are used only as evidence for the `Dom` lemmas.
- The pyppeteer input handler, which delegates to the driver's `page.type`, is not modelled.
