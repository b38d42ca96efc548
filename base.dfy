/** Values and outcomes shared by every part of the model. */
module Base {

  datatype Option<+T> = None | Some(value: T)

  /** The kinds of exception the modelled code raises or lets through. */
  datatype Error =
    | ExecutionFailure                                        // the page raised while evaluating a script
    | SelectorTimeout(selector: string, timeoutMs: int)       // waitForSelector gave up
    | TypeError                                               // e.g. len(None), int >= None, a non-handle argument
    | AttributeError                                          // e.g. None.values()
    | InputVerification(selector: string, target: string, last: JsValue)  // type_input's RuntimeError
    | ValueError                                              // from_dict without a video_id
    | NoActivePage
    | NonSingleton(pages: nat)
    | BrowserNotRunning

  datatype Result<+T> = Ok(value: T) | Err(error: Error)

  /** A value as the driver hands it back from a script (JSON-like; numbers are integers here).
      `Null` stands for JavaScript null/undefined and for Python's None. */
  datatype JsValue =
    | Null
    | Bool(b: bool)
    | Num(n: int)
    | Str(s: string)
    | List(items: seq<JsValue>)
    | Obj(fields: seq<(string, JsValue)>)

  /** An element handle: the `index`-th match of a query for `selector` made when the
      page's trace had length `stamp`. Handles from different queries are different. */
  datatype Handle = Handle(selector: string, stamp: nat, index: nat)
}
