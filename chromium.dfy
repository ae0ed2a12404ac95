/**
 * The part of the chromiumoxide browser driver (and of the async runtime that
 * runs the event drainer) that the login flow talks to.  Nothing of the real
 * driver is modelled: every call is an action appended to a log, and whether it
 * fails -- and what `url()` and `get_cookies()` answer -- is fixed in advance
 * by an oracle that stands for the browser, the network and the web site.
 */
module Chromium {
  import opened Outcomes

  /** chromiumoxide's `CdpError`; its content is opaque to the login flow. */
  datatype CdpError = Cdp(message: string)

  /** A browser cookie; only the two fields the login flow reads are kept. */
  datatype Cookie = Cookie(name: string, value: string)

  /** What the configuration builder produces: headless flag and the optional timeouts (milliseconds). */
  datatype BrowserConfig = BrowserConfig(headless: bool, requestTimeout: Option<nat>, launchTimeout: Option<nat>)

  /**
   * Everything a login attempt does, in the order it does it.  Besides the
   * browser calls, the log holds the three steps that never reach the browser:
   * building the configuration, spawning the event drainer and cancelling it.
   */
  datatype Action =
    | BuildConfig
    | Launch(config: BrowserConfig)
    | SpawnDrainer
    | NewPage(url: string)
    | WaitForNavigation
    | FindElement(selector: string)
    | Click
    | TypeStr(text: string)
    | Url
    | GetCookies
    | CancelDrainer
  {
    /** Whether the action is a browser call, i.e. one that can fail with a `CdpError`. */
    predicate IsDriverCall() {
      !(BuildConfig? || SpawnDrainer? || CancelDrainer?)
    }
  }

  /**
   * The answers of the outside world: the browser call made at log position
   * `p` fails with `faults[p]` when `p` is a key; `url` is what `url()` reports
   * after the submit; `cookies` is what `get_cookies()` returns.
   */
  datatype Oracle = Oracle(faults: map<nat, CdpError>, url: Option<string>, cookies: seq<Cookie>) {

    /** The error of the browser call made at log position `at`, if it fails. */
    function Fault(at: nat): Option<CdpError> {
      if at in faults then Some(faults[at]) else None
    }
  }

  /** The browser session, its page and the drainer task, as one log-keeping object. */
  class Driver {
    var history: seq<Action>
    const oracle: Oracle

    constructor (oracle: Oracle)
      ensures history == [] && this.oracle == oracle
    {
      history := [];
      this.oracle := oracle;
    }

    /** Performs a browser call that returns no value. */
    method Call(a: Action) returns (fault: Option<CdpError>)
      requires a.IsDriverCall()
      modifies this
      ensures history == old(history) + [a]
      ensures fault == oracle.Fault(|old(history)|)
    {
      fault := oracle.Fault(|history|);
      history := history + [a];
    }

    /** Records a step that does not go to the browser and cannot fail. */
    method Note(a: Action)
      requires !a.IsDriverCall()
      modifies this
      ensures history == old(history) + [a]
    {
      history := history + [a];
    }

    /** `page.url()`: the current URL, which may be absent. */
    method GetUrl() returns (r: Result<Option<string>, CdpError>)
      modifies this
      ensures history == old(history) + [Url]
      ensures r == if oracle.Fault(|old(history)|).Some? then Err(oracle.Fault(|old(history)|).value) else Ok(oracle.url)
    {
      var fault := Call(Url);
      if fault.Some? {
        r := Err(fault.value);
      } else {
        r := Ok(oracle.url);
      }
    }

    /** `page.get_cookies()`: every cookie of the page, in the browser's order. */
    method GetCookies() returns (r: Result<seq<Cookie>, CdpError>)
      modifies this
      ensures history == old(history) + [Action.GetCookies]
      ensures r == if oracle.Fault(|old(history)|).Some? then Err(oracle.Fault(|old(history)|).value) else Ok(oracle.cookies)
    {
      var fault := Call(Action.GetCookies);
      if fault.Some? {
        r := Err(fault.value);
      } else {
        r := Ok(oracle.cookies);
      }
    }
  }
}
