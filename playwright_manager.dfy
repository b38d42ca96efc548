/** The playwright browser manager: a running flag and the browser, context and page it
    opens together and drops together. The driver calls are recorded as fresh numbers (one
    per launch) and navigations as a trace. */
module PlaywrightManager {
  import opened Base

  datatype Navigation = Goto(url: string) | Back

  class SingleBrowserManager {
    var isRunning: bool
    var browser: Option<nat>
    var context: Option<nat>
    var page: Option<nat>
    var launches: nat
    var visits: seq<Navigation>   // the navigations asked of the page, in order
    const headless: bool

    /** Running exactly when browser, context and page are all open. */
    ghost predicate Valid()
      reads this
    {
      (isRunning ==> browser.Some? && context.Some? && page.Some?) &&
      (!isRunning ==> browser.None? && context.None? && page.None?)
    }

    /** A new manager is not running and holds no browser, context or page. */
    constructor(headless: bool)
      ensures Valid() && !isRunning && browser == None && context == None && page == None
      ensures launches == 0 && visits == [] && this.headless == headless
    {
      isRunning := false;
      browser, context, page := None, None, None;
      launches := 0;
      visits := [];
      this.headless := headless;
    }

    /** `start`: nothing changes while running; otherwise browser, context and page are
        opened (one launch) and the flag raised. */
    method Start()
      requires Valid()
      modifies this
      ensures Valid() && isRunning && visits == old(visits)
      ensures old(isRunning) ==> browser == old(browser) && context == old(context) && page == old(page) && launches == old(launches)
      ensures !old(isRunning) ==>
        browser == Some(old(launches)) && context == Some(old(launches)) && page == Some(old(launches)) &&
        launches == old(launches) + 1
    {
      if isRunning {
        return;
      }
      browser := Some(launches);
      context := Some(launches);
      page := Some(launches);
      launches := launches + 1;
      isRunning := true;
    }

    /** `close`: nothing changes when not running; otherwise all three are dropped and the
        flag lowered. */
    method Close()
      requires Valid()
      modifies this
      ensures Valid() && !isRunning && browser == None && context == None && page == None
      ensures launches == old(launches) && visits == old(visits)
    {
      if !isRunning {
        return;
      }
      browser, context, page := None, None, None;
      isRunning := false;
    }

    /** `restart`: close, then start; it always ends running on a new launch. */
    method Restart()
      requires Valid()
      modifies this
      ensures Valid() && isRunning && launches == old(launches) + 1 && page == Some(old(launches))
      ensures visits == old(visits)
    {
      Close();
      Start();
    }

    /** `go`: NoActivePageError without a page, otherwise one navigation to url. */
    method Go(url: string) returns (r: Result<()>)
      modifies this
      ensures page.None? ==> r == Err(NoActivePage) && visits == old(visits)
      ensures page.Some? ==> r == Ok(()) && visits == old(visits) + [Goto(url)]
      ensures isRunning == old(isRunning) && browser == old(browser) && context == old(context) && page == old(page)
      ensures launches == old(launches)
    {
      if page.None? {
        return Err(NoActivePage);
      }
      visits := visits + [Goto(url)];
      r := Ok(());
    }

    /** `go_back`: NoActivePageError without a page, otherwise one step back. */
    method GoBack() returns (r: Result<()>)
      modifies this
      ensures page.None? ==> r == Err(NoActivePage) && visits == old(visits)
      ensures page.Some? ==> r == Ok(()) && visits == old(visits) + [Back]
      ensures isRunning == old(isRunning) && browser == old(browser) && context == old(context) && page == old(page)
      ensures launches == old(launches)
    {
      if page.None? {
        return Err(NoActivePage);
      }
      visits := visits + [Back];
      r := Ok(());
    }
  }

  /** For a manager in a consistent state, navigation is refused exactly when it is not running. */
  lemma NavigationNeedsRunning(m: SingleBrowserManager)
    requires m.Valid()
    ensures m.page.None? <==> !m.isRunning
  {
  }
}
