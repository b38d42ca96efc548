/** The pyppeteer single-page browser manager: a running flag, the launched browser, and the
    rule that exactly one page may be open. Launching, closing and the page list itself are
    the driver's: a launch is recorded as a fresh browser number, and the pages the browser
    reports are passed in by the caller. */
module PyppBrowserManager {
  import opened Base

  /** `get_page`'s decision: nothing when not running or no page is open, the page when there
      is exactly one, NonSingletonError when there are more. */
  function PickPage(running: bool, pages: seq<nat>): (r: Result<Option<nat>>)
    ensures r.Err? <==> running && |pages| > 1
    ensures r.Err? ==> r.error == NonSingleton(|pages|)
    ensures r.Ok? && r.value.Some? <==> running && |pages| == 1
    ensures r.Ok? && r.value.Some? ==> r.value.value == pages[0]
  {
    if !running then Ok(None)
    else if |pages| == 0 then Ok(None)
    else if |pages| == 1 then Ok(Some(pages[0]))
    else Err(NonSingleton(|pages|))
  }

  /** The page list is not even looked at when the browser is not running. */
  lemma StoppedHasNoPage(pages: seq<nat>, others: seq<nat>)
    ensures PickPage(false, pages) == Ok(None) == PickPage(false, others)
  {
  }

  class SinglePageBrowser {
    var isRunning: bool
    var browser: Option<nat>   // the number of the launch that produced the current browser
    var launches: nat          // how many browsers have been launched
    const headless: bool

    ghost predicate Valid()
      reads this
    {
      (isRunning <==> browser.Some?) && (browser.Some? ==> browser.value < launches)
    }

    /** A fresh manager is not running and holds no browser. */
    constructor(headless: bool)
      ensures Valid() && !isRunning && browser == None && launches == 0
      ensures this.headless == headless
    {
      isRunning := false;
      browser := None;
      launches := 0;
      this.headless := headless;
    }

    /** `get_page`, given the pages the browser reports. */
    method GetPage(pages: seq<nat>) returns (r: Result<Option<nat>>)
      ensures r == PickPage(isRunning, pages)
    {
      r := PickPage(isRunning, pages);
    }

    /** `start_browser`: no relaunch while running with its page. Otherwise a new browser is
        launched and the flag raised, even when the running browser merely has no page open.
        A NonSingletonError from `get_page` escapes before anything changes. */
    method StartBrowser(pages: seq<nat>) returns (r: Result<()>)
      requires Valid()
      modifies this
      ensures Valid()
      ensures var p := PickPage(old(isRunning), pages);
        if p.Err? then r == Err(p.error) && isRunning == old(isRunning) && browser == old(browser) && launches == old(launches)
        else if p.value.Some? then r == Ok(()) && isRunning && browser == old(browser) && launches == old(launches)
        else r == Ok(()) && isRunning && browser == Some(old(launches)) && launches == old(launches) + 1
    {
      var page := GetPage(pages);
      if page.Err? {
        return Err(page.error);
      }
      if page.value.Some? && isRunning {
        return Ok(());
      }
      browser := Some(launches);
      launches := launches + 1;
      isRunning := true;
      r := Ok(());
    }

    /** `close_browser`: a no-op when not running or without a browser; otherwise the browser
        is dropped and the flag lowered. */
    method CloseBrowser()
      requires Valid()
      modifies this
      ensures Valid() && !isRunning && browser == None && launches == old(launches)
    {
      if !isRunning || browser.None? {
      } else {
        browser := None;
        isRunning := false;
      }
    }

    /** `restart_browser`: after closing, `get_page` sees a stopped browser, so a new browser
        is always launched and the manager ends running. */
    method RestartBrowser(pages: seq<nat>) returns (r: Result<()>)
      requires Valid()
      modifies this
      ensures Valid() && r == Ok(()) && isRunning
      ensures browser == Some(old(launches)) && launches == old(launches) + 1
    {
      CloseBrowser();
      r := StartBrowser(pages);
    }

    /** `ensure_the_page`: the page the caller supplied, else `get_page`'s; NoActivePageError
        when neither yields one. */
    method EnsureThePage(given: Option<nat>, pages: seq<nat>) returns (r: Result<nat>)
      ensures given.Some? ==> r == Ok(given.value)
      ensures given.None? && PickPage(isRunning, pages).Err? ==> r == Err(PickPage(isRunning, pages).error)
      ensures given.None? && PickPage(isRunning, pages) == Ok(None) ==> r == Err(NoActivePage)
      ensures given.None? && PickPage(isRunning, pages).Ok? && PickPage(isRunning, pages).value.Some? ==>
        r == Ok(PickPage(isRunning, pages).value.value)
      ensures given.None? && r.Ok? ==> isRunning && pages == [r.value]
    {
      if given.Some? {
        return Ok(given.value);
      }
      var page := GetPage(pages);
      if page.Err? {
        return Err(page.error);
      }
      if page.value.None? {
        return Err(NoActivePage);
      }
      r := Ok(page.value.value);
    }

    /** `ensure_browser_is_running`: BrowserNotRunningError exactly when the flag is down. */
    method EnsureBrowserIsRunning() returns (r: Result<()>)
      ensures r.Err? <==> !isRunning
      ensures r.Err? ==> r.error == BrowserNotRunning
    {
      if !isRunning {
        return Err(BrowserNotRunning);
      }
      r := Ok(());
    }
  }
}
