/**
 * The default login bot: the fixed sequences of page actions that fill and
 * submit Pinterest's login form, and the URL test that decides whether the
 * login was accepted.  Each operation is a method on the driver, proved equal
 * to a function that says which actions it performs and what it returns.
 */
module LoginBot {
  import opened Outcomes
  import opened Chromium
  import opened LoginTypes

  /** The email and password a login attempt types into the form. */
  datatype DefaultBrowserLoginBot = DefaultBrowserLoginBot(email: string, password: string)

  /** `DefaultBrowserLoginBot::new`: keeps the credentials exactly as given. */
  function New(email: string, password: string): (bot: DefaultBrowserLoginBot)
    ensures bot.email == email && bot.password == password
  {
    DefaultBrowserLoginBot(email, password)
  }

  const EmailSelector: string := "input#email"
  const PasswordSelector: string := "input#password"
  const SubmitSelector: string := "button[type='submit']"

  /** What one bot operation did: the actions it performed and what it returned. */
  datatype BotRun = BotRun(actions: seq<Action>, result: Result<(), PinterestLoginError>)

  /**
   * No browser call among the first `n` of `actions`, made from log position
   * `start` on, failed, and every `url()` among them returned a URL that
   * `check_login` accepts.
   */
  ghost predicate Answered(o: Oracle, start: nat, actions: seq<Action>, n: int) {
    forall i :: 0 <= i < n && i < |actions| && actions[i].IsDriverCall() ==>
      o.Fault(start + i).None? && (actions[i] == Url ==> CheckUrl(o.url).Ok?)
  }

  /** `e` is the error with which action `a`, made at log position `at`, ended the run. */
  ghost predicate StepError(o: Oracle, at: nat, a: Action, e: PinterestLoginError) {
    && a.IsDriverCall()
    && match o.Fault(at)
       case Some(f) => e == CdpError(f)
       case None => a == Url && e == AuthenticationError && CheckUrl(o.url).Err?
  }

  /**
   * `actions`, made from log position `start` on, ran the planned `steps` in
   * order and stopped at the first failure: on success they are all of
   * `steps`, every call was answered and every URL accepted; on failure they
   * end with the failing step (a failed call, or a `url()` whose URL is
   * rejected), every earlier call was answered and every earlier URL
   * accepted, and `error` is that step's error.
   */
  ghost predicate ShortCircuit(o: Oracle, start: nat, steps: seq<Action>, actions: seq<Action>, error: Option<PinterestLoginError>) {
    && actions <= steps
    && (error.None? ==> actions == steps && Answered(o, start, actions, |actions|))
    && (error.Some? ==>
          && |actions| > 0
          && Answered(o, start, actions, |actions| - 1)
          && StepError(o, start + |actions| - 1, actions[|actions| - 1], error.value))
  }

  /** Running all of `s1`, every call answered, and then `s2` from there, is a run of `s1 + s2`. */
  lemma ShortCircuitThen(o: Oracle, start: nat, s1: seq<Action>, s2: seq<Action>, a2: seq<Action>,
                         e: Option<PinterestLoginError>)
    requires ShortCircuit(o, start, s1, s1, None)
    requires ShortCircuit(o, start + |s1|, s2, a2, e)
    ensures ShortCircuit(o, start, s1 + s2, s1 + a2, e)
  {
    var a, n := s1 + a2, |s1|;
    forall i | 0 <= i < |a| && (e.None? || i < |a| - 1) && a[i].IsDriverCall()
      ensures o.Fault(start + i).None?
    {
      if i >= n {
        assert a[i] == a2[i - n];
        assert start + i == start + n + (i - n);
      } else {
        assert a[i] == s1[i];
      }
    }
    if e.Some? {
      assert a[|a| - 1] == a2[|a2| - 1];
    }
  }

  /** A run of `s1` that failed is also a failed run of any continuation of `s1`. */
  lemma ShortCircuitPrefix(o: Oracle, start: nat, s1: seq<Action>, s2: seq<Action>, a: seq<Action>,
                           e: PinterestLoginError)
    requires ShortCircuit(o, start, s1, a, Some(e))
    ensures ShortCircuit(o, start, s1 + s2, a, Some(e))
  {
    assert a <= s1 + s2 by {
      forall i | 0 <= i < |a|
        ensures a[i] == (s1 + s2)[i]
      {
        assert a[i] == s1[i];
      }
    }
  }

  /** What an operation that performed `before` and then the run `rest` did. */
  function Prepend(before: seq<Action>, rest: BotRun): BotRun {
    BotRun(before + rest.actions, rest.result)
  }

  /** The actions that fill one input field: find it by `selector`, click it, type `text`. */
  function FieldSteps(selector: string, text: string): seq<Action> {
    [FindElement(selector), Click, TypeStr(text)]
  }

  /** The actions of `fill_login_form`: wait for the page, then fill the email field, then the password field. */
  function FillSteps(bot: DefaultBrowserLoginBot): seq<Action> {
    [WaitForNavigation] + FieldSteps(EmailSelector, bot.email) + FieldSteps(PasswordSelector, bot.password)
  }

  /** The actions of `submit_login_form`: find the submit button and click it. */
  function SubmitSteps(): seq<Action> {
    [FindElement(SubmitSelector), Click]
  }

  /** The actions of `check_login`: wait for the navigation the submit caused, then read the URL. */
  function CheckSteps(): seq<Action> {
    [WaitForNavigation, Url]
  }

  /**
   * The decision of `check_login` on the URL after the submit: no URL, or
   * exactly the login URL, means the credentials were rejected; any other URL,
   * compared character by character without normalisation, is a success.
   */
  function CheckUrl(url: Option<string>): (r: Result<(), PinterestLoginError>)
    ensures r.Ok? <==> url.Some? && url.value != PinterestLoginUrl
    ensures r.Err? ==> r.error == AuthenticationError
  {
    match url
    case None => Err(AuthenticationError)
    case Some(u) => if u == PinterestLoginUrl then Err(AuthenticationError) else Ok(())
  }

  /** The URL test compares exactly: a `www.` host, a trailing slash or another case is a success. */
  lemma CheckUrlDoesNotNormalise()
    ensures CheckUrl(Some("https://www.pinterest.com/login")).Ok?
    ensures CheckUrl(Some(PinterestLoginUrl + "/")).Ok?
    ensures CheckUrl(Some("https://pinterest.com/Login")).Ok?
    ensures CheckUrl(Some(PinterestLoginUrl)) == Err(AuthenticationError)
    ensures CheckUrl(None) == Err(AuthenticationError)
  {
    assert (PinterestLoginUrl + "/")[|PinterestLoginUrl|] == '/';
    assert "https://www.pinterest.com/login"[8] != PinterestLoginUrl[8];
    assert "https://pinterest.com/Login"[22] != PinterestLoginUrl[22];
  }

  /** `find_element(selector)`, then `click()`, then `type_str(text)`, each with `?`, from log position `at`. */
  function FieldRun(o: Oracle, at: nat, selector: string, text: string): BotRun {
    match o.Fault(at)
    case Some(f) => BotRun([FindElement(selector)], Err(CdpError(f)))
    case None =>
      match o.Fault(at + 1)
      case Some(f) => BotRun([FindElement(selector), Click], Err(CdpError(f)))
      case None =>
        match o.Fault(at + 2)
        case Some(f) => BotRun(FieldSteps(selector, text), Err(CdpError(f)))
        case None => BotRun(FieldSteps(selector, text), Ok(()))
  }

  /** What `fill_login_form` does from log position `start`. */
  function FillRun(bot: DefaultBrowserLoginBot, o: Oracle, start: nat): BotRun {
    match o.Fault(start)
    case Some(f) => BotRun([WaitForNavigation], Err(CdpError(f)))
    case None =>
      var email := FieldRun(o, start + 1, EmailSelector, bot.email);
      if email.result.Err? then Prepend([WaitForNavigation], email)
      else Prepend([WaitForNavigation] + FieldSteps(EmailSelector, bot.email),
                   FieldRun(o, start + 4, PasswordSelector, bot.password))
  }

  /** What `submit_login_form` does from log position `start`. */
  function SubmitRun(o: Oracle, start: nat): BotRun {
    match o.Fault(start)
    case Some(f) => BotRun([FindElement(SubmitSelector)], Err(CdpError(f)))
    case None =>
      match o.Fault(start + 1)
      case Some(f) => BotRun(SubmitSteps(), Err(CdpError(f)))
      case None => BotRun(SubmitSteps(), Ok(()))
  }

  /**
   * What `check_login` does from log position `start`: it succeeds exactly when
   * both calls are answered and the URL passes `CheckUrl`, and it reports
   * `AuthenticationError` only after both calls were answered.
   */
  function CheckRun(o: Oracle, start: nat): (run: BotRun)
    ensures ShortCircuit(o, start, CheckSteps(), run.actions, run.result.ErrorOf())
    ensures run.result.Ok? <==>
      o.Fault(start).None? && o.Fault(start + 1).None? && o.url.Some? && o.url.value != PinterestLoginUrl
    ensures run.result == Err(AuthenticationError) ==>
      o.Fault(start).None? && o.Fault(start + 1).None? && run.actions == CheckSteps()
    ensures o.Fault(start).Some? ==> run.result == Err(CdpError(o.Fault(start).value))
    ensures o.Fault(start).None? && o.Fault(start + 1).Some? ==> run.result == Err(CdpError(o.Fault(start + 1).value))
  {
    match o.Fault(start)
    case Some(f) => BotRun([WaitForNavigation], Err(CdpError(f)))
    case None =>
      match o.Fault(start + 1)
      case Some(f) => BotRun(CheckSteps(), Err(CdpError(f)))
      case None => BotRun(CheckSteps(), CheckUrl(o.url))
  }

  /** A chain that stops at its first failure fails at or before any call that fails. */
  lemma ShortCircuitStopsAt(o: Oracle, start: nat, steps: seq<Action>, actions: seq<Action>,
                            error: Option<PinterestLoginError>, p: nat)
    requires ShortCircuit(o, start, steps, actions, error)
    requires forall a | a in steps :: a.IsDriverCall()
    requires start <= p < start + |steps| && o.Fault(p).Some?
    ensures error.Some? && |actions| <= p - start + 1
  {
    var i := p - start;
    assert steps[i] in steps;
    if error.None? || |actions| > i + 1 {
      assert false;
    }
  }

  /** Filling one field stops at its first failed call and reports it as a `CdpError`. */
  lemma FieldShortCircuits(o: Oracle, at: nat, selector: string, text: string)
    ensures var run := FieldRun(o, at, selector, text);
      && ShortCircuit(o, at, FieldSteps(selector, text), run.actions, run.result.ErrorOf())
      && (run.result.Err? ==> run.result.error.CdpError?)
  {
    var run := FieldRun(o, at, selector, text);
    assert run.actions <= FieldSteps(selector, text);
  }

  /** `fill_login_form` stops at its first failed step and reports it as a `CdpError`. */
  lemma FillShortCircuits(bot: DefaultBrowserLoginBot, o: Oracle, start: nat)
    ensures var run := FillRun(bot, o, start);
      && ShortCircuit(o, start, FillSteps(bot), run.actions, run.result.ErrorOf())
      && (run.result.Err? ==> run.result.error.CdpError?)
  {
    var wait, e, p := [WaitForNavigation], FieldSteps(EmailSelector, bot.email), FieldSteps(PasswordSelector, bot.password);
    var run := FillRun(bot, o, start);
    if o.Fault(start).Some? {
      assert ShortCircuit(o, start, wait, run.actions, run.result.ErrorOf());
      ShortCircuitPrefix(o, start, wait, e + p, run.actions, run.result.error);
      assert wait + (e + p) == FillSteps(bot);
    } else {
      var email := FieldRun(o, start + 1, EmailSelector, bot.email);
      assert ShortCircuit(o, start, wait, wait, None);
      FieldShortCircuits(o, start + 1, EmailSelector, bot.email);
      ShortCircuitThen(o, start, wait, e, email.actions, email.result.ErrorOf());
      if email.result.Err? {
        ShortCircuitPrefix(o, start, wait + e, p, wait + email.actions, email.result.error);
      } else {
        var password := FieldRun(o, start + 4, PasswordSelector, bot.password);
        FieldShortCircuits(o, start + 4, PasswordSelector, bot.password);
        ShortCircuitThen(o, start, wait + e, p, password.actions, password.result.ErrorOf());
      }
    }
  }

  /**
   * A failure while the page loads or while the email field is filled ends
   * `fill_login_form` before the password field is looked up.
   */
  lemma EmailFailureSparesPassword(bot: DefaultBrowserLoginBot, o: Oracle, start: nat, p: nat)
    requires start <= p < start + 4 && o.Fault(p).Some?
    ensures var run := FillRun(bot, o, start);
      && run.result.Err?
      && |run.actions| <= p - start + 1
      && FindElement(PasswordSelector) !in run.actions
  {
    var run, steps := FillRun(bot, o, start), FillSteps(bot);
    FillShortCircuits(bot, o, start);
    ShortCircuitStopsAt(o, start, steps, run.actions, run.result.ErrorOf(), p);
    assert run.actions == steps[..|run.actions|];
    forall i | 0 <= i < |run.actions|
      ensures run.actions[i] != FindElement(PasswordSelector)
    {
      assert run.actions[i] == steps[i];
    }
  }

  /**
   * `submit_login_form` finds the submit button and clicks it at most once;
   * it succeeds exactly when both calls are answered, having clicked once.
   */
  lemma SubmitClicksOnce(o: Oracle, start: nat)
    ensures var run := SubmitRun(o, start);
      && ShortCircuit(o, start, SubmitSteps(), run.actions, run.result.ErrorOf())
      && |run.actions| > 0 && run.actions[0] == FindElement(SubmitSelector)
      && multiset(run.actions)[Click] <= 1
      && (run.result.Ok? <==> o.Fault(start).None? && o.Fault(start + 1).None?)
      && (run.result.Ok? ==> run.actions == [FindElement(SubmitSelector), Click])
      && (run.result.Err? ==> run.result.error.CdpError?)
  {
    var run := SubmitRun(o, start);
    assert run.actions <= SubmitSteps();
  }

  /** `find_element(selector)`, then `click()`, then `type_str(text)` on the element, each with `?`. */
  method FillField(page: Driver, selector: string, text: string) returns (r: Result<(), PinterestLoginError>)
    modifies page
    ensures var run := FieldRun(page.oracle, old(|page.history|), selector, text);
      page.history == old(page.history) + run.actions && r == run.result
  {
    var fault := page.Call(FindElement(selector));
    if fault.Some? { return Err(CdpError(fault.value)); }
    fault := page.Call(Click);
    if fault.Some? { return Err(CdpError(fault.value)); }
    fault := page.Call(TypeStr(text));
    if fault.Some? { return Err(CdpError(fault.value)); }
    return Ok(());
  }

  /** `fill_login_form`: wait for the login page to load, then fill the email field, then the password field. */
  method FillLoginForm(bot: DefaultBrowserLoginBot, page: Driver) returns (r: Result<(), PinterestLoginError>)
    modifies page
    ensures var run := FillRun(bot, page.oracle, old(|page.history|));
      page.history == old(page.history) + run.actions && r == run.result
  {
    var fault := page.Call(WaitForNavigation);
    if fault.Some? { return Err(CdpError(fault.value)); }
    r := FillField(page, EmailSelector, bot.email);
    if r.Err? { return; }
    r := FillField(page, PasswordSelector, bot.password);
  }

  /** `submit_login_form`: find the submit button and click it once. */
  method SubmitLoginForm(page: Driver) returns (r: Result<(), PinterestLoginError>)
    modifies page
    ensures var run := SubmitRun(page.oracle, old(|page.history|));
      page.history == old(page.history) + run.actions && r == run.result
  {
    var fault := page.Call(FindElement(SubmitSelector));
    if fault.Some? { return Err(CdpError(fault.value)); }
    fault := page.Call(Click);
    if fault.Some? { return Err(CdpError(fault.value)); }
    return Ok(());
  }

  /** `check_login`: wait for the navigation the submit caused, read the URL, and decide. */
  method CheckLogin(page: Driver) returns (r: Result<(), PinterestLoginError>)
    modifies page
    ensures var run := CheckRun(page.oracle, old(|page.history|));
      page.history == old(page.history) + run.actions && r == run.result
  {
    var fault := page.Call(WaitForNavigation);
    if fault.Some? { return Err(CdpError(fault.value)); }
    var url := page.GetUrl();
    if url.Err? { return Err(CdpError(url.error)); }
    match url.value
    case None =>
      r := Err(AuthenticationError);
    case Some(u) =>
      if u == PinterestLoginUrl {
        r := Err(AuthenticationError);
      } else {
        r := Ok(());
      }
  }
}
