/** The browser automation behind the managers (server/bot/puppeteer-manager.ts and
    server/bot/enhanced-puppeteer-manager.ts), reduced to the two flags the managers
    observe. What the browser does is supplied by the caller as each call's outcome. */
module Driver {
  import opened Wrappers
  import opened Schema

  /** `getStatus()` */
  datatype DriverStatus = DriverStatus(isInitialized: bool, isLoggedIn: bool)

  class BrowserDriver {
    /** Whether `sendInvite` refuses to run without a logged-in page, as the enhanced
        driver does; the plain driver's test-mode `sendInvite` has no such check. */
    const checksLogin: bool
    /** `!!this.browser` */
    var initialized: bool
    /** `this.isLoggedIn` */
    var loggedIn: bool

    constructor (checksLogin: bool)
      ensures this.checksLogin == checksLogin && !initialized && !loggedIn
    {
      this.checksLogin := checksLogin;
      initialized := false;
      loggedIn := false;
    }

    /** `initialize()`: an open browser is closed first; `launch` is the launch's
        failure, if any. A login flag survives only when no browser was open. */
    method Initialize(launch: Option<Thrown>) returns (r: Completion)
      modifies this
      ensures r == (if launch.Some? then Raised(launch.value) else Done)
      ensures initialized == launch.None?
      ensures loggedIn == (old(loggedIn) && !old(initialized))
    {
      if initialized {
        Close();
      }
      if launch.Some? {
        return Raised(launch.value);
      }
      initialized := true;
      r := Done;
    }

    /** `login()`: refused without a page; `result` is what the login page did. */
    method Login(result: Attempt<bool>) returns (r: Attempt<bool>)
      modifies this
      ensures !old(initialized) ==> r == Throws(Failure("Browser not initialized")) && loggedIn == old(loggedIn)
      ensures old(initialized) ==> r == result && loggedIn == (old(loggedIn) || result == Returns(true))
      ensures initialized == old(initialized)
    {
      if !initialized {
        return Throws(Failure("Browser not initialized"));
      }
      if result == Returns(true) {
        loggedIn := true;
      }
      r := result;
    }

    /** `sendInvite(username)`: the enhanced driver throws without a logged-in page;
        otherwise the result is whether the invitation went out (a failure inside the
        call is caught and reported as `false`). */
    method SendInvite(username: string, sent: bool) returns (r: Attempt<bool>)
      ensures checksLogin && !(initialized && loggedIn) ==> r == Throws(Failure("Not logged in or browser not initialized"))
      ensures !(checksLogin && !(initialized && loggedIn)) ==> r == Returns(sent)
    {
      if checksLogin && !(initialized && loggedIn) {
        return Throws(Failure("Not logged in or browser not initialized"));
      }
      r := Returns(sent);
    }

    /** `close()`: clears everything, even when closing fails. */
    method Close()
      modifies this
      ensures !initialized && !loggedIn
    {
      initialized := false;
      loggedIn := false;
    }

    method GetStatus() returns (r: DriverStatus)
      ensures r == DriverStatus(initialized, loggedIn)
    {
      r := DriverStatus(initialized, loggedIn);
    }
  }
}
