/**
 * `pinterest_login::login`: builds the browser configuration, launches the
 * browser, spawns the event drainer, opens the login page, runs the bot's
 * three operations, harvests the cookies into a map and cancels the drainer --
 * each step with Rust's `?`, so the first failure ends the attempt.
 */
module PinterestLogin {
  import opened Outcomes
  import opened Chromium
  import opened LoginTypes
  import opened LoginBot

  // ----- Cookies to map -----

  /** The map that inserting every cookie in order builds: a later cookie of the same name overwrites. */
  function CookieMap(cookies: seq<Cookie>): map<string, string>
    decreases |cookies|
  {
    if cookies == [] then map[]
    else
      var last := cookies[|cookies| - 1];
      CookieMap(cookies[..|cookies| - 1])[last.name := last.value]
  }

  /** The names that occur in a cookie list. */
  function Names(cookies: seq<Cookie>): set<string> {
    set c | c in cookies :: c.name
  }

  /** The map's keys are exactly the names in the list. */
  lemma {:induction false} CookieMapKeys(cookies: seq<Cookie>)
    ensures CookieMap(cookies).Keys == Names(cookies)
    decreases |cookies|
  {
    if cookies != [] {
      var init, last := cookies[..|cookies| - 1], cookies[|cookies| - 1];
      CookieMapKeys(init);
      assert cookies == init + [last];
      assert Names(cookies) == Names(init) + {last.name};
    }
  }

  /** A name maps to the value of the last cookie with that name. */
  lemma {:induction false} CookieMapLastWins(cookies: seq<Cookie>, i: nat)
    requires i < |cookies|
    requires forall j :: i < j < |cookies| ==> cookies[j].name != cookies[i].name
    ensures cookies[i].name in CookieMap(cookies)
    ensures CookieMap(cookies)[cookies[i].name] == cookies[i].value
    decreases |cookies|
  {
    if i < |cookies| - 1 {
      var init := cookies[..|cookies| - 1];
      CookieMapLastWins(init, i);
    }
  }

  /** Every value of the map is the value of a cookie of that name with no later namesake. */
  lemma {:induction false} CookieMapValueFromLast(cookies: seq<Cookie>, name: string)
    requires name in CookieMap(cookies)
    ensures exists i :: 0 <= i < |cookies| && cookies[i].name == name && CookieMap(cookies)[name] == cookies[i].value
                        && forall j :: i < j < |cookies| ==> cookies[j].name != name
    decreases |cookies|
  {
    var init, last := cookies[..|cookies| - 1], cookies[|cookies| - 1];
    if last.name != name {
      CookieMapValueFromLast(init, name);
      var i :| 0 <= i < |init| && init[i].name == name && CookieMap(init)[name] == init[i].value
               && forall j :: i < j < |init| ==> init[j].name != name;
      assert cookies[i] == init[i];
    }
  }

  /** The map has at most as many entries as there are cookies. */
  lemma {:induction false} CookieMapSize(cookies: seq<Cookie>)
    ensures |CookieMap(cookies)| <= |cookies|
    decreases |cookies|
  {
    if cookies != [] {
      CookieMapSize(cookies[..|cookies| - 1]);
    }
  }

  /** The loop that inserts every harvested cookie, name to value, into an empty map. */
  method CollectCookies(cookies: seq<Cookie>) returns (m: map<string, string>)
    ensures m == CookieMap(cookies)
  {
    m := map[];
    for i := 0 to |cookies|
      invariant m == CookieMap(cookies[..i])
    {
      assert cookies[..i + 1][..i] == cookies[..i];
      m := m[cookies[i].name := cookies[i].value];
    }
    assert cookies[..|cookies|] == cookies;
  }

  // ----- The login attempt -----

  /** What a login attempt did, and what it returned. */
  datatype Run = Run(trace: seq<Action>, result: Result<map<string, string>, PinterestLoginError>)

  /** The steps of a login attempt that fails nowhere, in order. */
  function Plan(bot: DefaultBrowserLoginBot, cfg: BrowserConfig): seq<Action> {
    PagePrefix(cfg) + OnPageSteps(bot)
  }

  /** The steps after the login page opened. */
  function OnPageSteps(bot: DefaultBrowserLoginBot): seq<Action> {
    FillSteps(bot) + FilledSteps()
  }

  /** The steps after the form was filled. */
  function FilledSteps(): seq<Action> {
    SubmitSteps() + SubmittedSteps()
  }

  /** The steps after the form was submitted. */
  function SubmittedSteps(): seq<Action> {
    CheckSteps() + CheckedSteps()
  }

  /** The steps after the login was accepted. */
  function CheckedSteps(): seq<Action> {
    [GetCookies, CancelDrainer]
  }

  /** `run`, with `before` logged ahead of it. */
  function Then(before: seq<Action>, run: Run): Run {
    Run(before + run.trace, run.result)
  }

  /**
   * A login attempt whose log starts at position `start`, given the outcome of
   * `build_browser_config` and the browser's answers.
   */
  function LoginRun(bot: DefaultBrowserLoginBot, config: Result<BrowserConfig, PinterestLoginError>, o: Oracle, start: nat): Run {
    match config
    case Err(e) => Run([BuildConfig], Err(e))
    case Ok(cfg) =>
      if o.Fault(start + 1).Some? then Run([BuildConfig, Launch(cfg)], Err(CdpError(o.Fault(start + 1).value)))
      else if o.Fault(start + 3).Some? then Run(PagePrefix(cfg), Err(CdpError(o.Fault(start + 3).value)))
      else Then(PagePrefix(cfg), OnPage(bot, o, start + 4))
  }

  /** What `login` logs up to and including opening the login page. */
  function PagePrefix(cfg: BrowserConfig): seq<Action> {
    [BuildConfig, Launch(cfg), SpawnDrainer, NewPage(PinterestLoginUrl)]
  }

  /** The rest of a login attempt once the login page is open at log position `at`: fill the form. */
  function OnPage(bot: DefaultBrowserLoginBot, o: Oracle, at: nat): Run {
    var fill := FillRun(bot, o, at);
    if fill.result.Err? then Run(fill.actions, Err(fill.result.error))
    else Then(fill.actions, Filled(o, at + |fill.actions|))
  }

  /** ... once the form is filled: submit it. */
  function Filled(o: Oracle, at: nat): Run {
    var submit := SubmitRun(o, at);
    if submit.result.Err? then Run(submit.actions, Err(submit.result.error))
    else Then(submit.actions, Submitted(o, at + |submit.actions|))
  }

  /** ... once the form is submitted: check the outcome. */
  function Submitted(o: Oracle, at: nat): Run {
    var check := CheckRun(o, at);
    if check.result.Err? then Run(check.actions, Err(check.result.error))
    else Then(check.actions, Checked(o, at + |check.actions|))
  }

  /** ... once the login is accepted: read the cookies, build the map, cancel the drainer. */
  function Checked(o: Oracle, at: nat): Run {
    match o.Fault(at)
    case Some(f) => Run([GetCookies], Err(CdpError(f)))
    case None => Run(CheckedSteps(), Ok(CookieMap(o.cookies)))
  }

  /** Concatenation of logs is associative. */
  lemma AppendAssoc(a: seq<Action>, b: seq<Action>, c: seq<Action>)
    ensures (a + b) + c == a + (b + c)
  {
  }

  /** `login`: the attempt, on the driver, with `config` the outcome of `build_browser_config`. */
  method Login(bot: DefaultBrowserLoginBot, config: Result<BrowserConfig, PinterestLoginError>, driver: Driver)
    returns (r: Result<map<string, string>, PinterestLoginError>)
    modifies driver
    ensures var run := LoginRun(bot, config, driver.oracle, old(|driver.history|));
      driver.history == old(driver.history) + run.trace && r == run.result
  {
    ghost var o, start := driver.oracle, |driver.history|;
    driver.Note(BuildConfig);
    if config.Err? { return Err(config.error); }
    var fault := driver.Call(Launch(config.value));
    if fault.Some? { return Err(CdpError(fault.value)); }
    driver.Note(SpawnDrainer);
    fault := driver.Call(NewPage(PinterestLoginUrl));
    if fault.Some? { return Err(CdpError(fault.value)); }
    assert driver.history == old(driver.history) + PagePrefix(config.value);
    ghost var rest := OnPage(bot, o, start + 4);
    r := LoginOnPage(bot, driver);
    AppendAssoc(old(driver.history), PagePrefix(config.value), rest.trace);
  }

  /** The part of `login` after the login page opened: fill, submit, check, read the cookies, cancel the drainer. */
  method LoginOnPage(bot: DefaultBrowserLoginBot, driver: Driver)
    returns (r: Result<map<string, string>, PinterestLoginError>)
    modifies driver
    ensures var run := OnPage(bot, driver.oracle, old(|driver.history|));
      driver.history == old(driver.history) + run.trace && r == run.result
  {
    ghost var h0, o := driver.history, driver.oracle;
    ghost var fill := FillRun(bot, o, |h0|);
    r := Ok(map[]);
    var step := FillLoginForm(bot, driver);
    if step.Err? { return Err(step.error); }
    ghost var h1 := driver.history;
    ghost var submit := SubmitRun(o, |h1|);
    step := SubmitLoginForm(driver);
    if step.Err? {
      AppendAssoc(h0, fill.actions, submit.actions);
      return Err(step.error);
    }
    ghost var h2 := driver.history;
    ghost var check := CheckRun(o, |h2|);
    step := CheckLogin(driver);
    if step.Err? {
      AppendAssoc(h1, submit.actions, check.actions);
      AppendAssoc(h0, fill.actions, submit.actions + check.actions);
      return Err(step.error);
    }
    ghost var h3 := driver.history;
    var harvested := driver.GetCookies();
    if harvested.Err? {
      AppendAssoc(h2, check.actions, [GetCookies]);
      AppendAssoc(h1, submit.actions, check.actions + [GetCookies]);
      AppendAssoc(h0, fill.actions, submit.actions + (check.actions + [GetCookies]));
      return Err(CdpError(harvested.error));
    }
    var cookies := CollectCookies(harvested.value);
    driver.Note(CancelDrainer);
    AppendAssoc(h2, check.actions, CheckedSteps());
    AppendAssoc(h1, submit.actions, check.actions + CheckedSteps());
    AppendAssoc(h0, fill.actions, submit.actions + (check.actions + CheckedSteps()));
    return Ok(cookies);
  }

  // ----- Properties of a login attempt -----

  /** Reading the cookies and cancelling the drainer stop at a failed `get_cookies`. */
  lemma CheckedShortCircuits(o: Oracle, at: nat)
    ensures var run := Checked(o, at);
      && ShortCircuit(o, at, CheckedSteps(), run.trace, run.result.ErrorOf())
      && (run.result.Ok? ==> run.result.value == CookieMap(o.cookies))
  {
  }

  /** Checking the login and what follows stop at the first failure. */
  lemma SubmittedShortCircuits(o: Oracle, at: nat)
    ensures var run := Submitted(o, at);
      && ShortCircuit(o, at, SubmittedSteps(), run.trace, run.result.ErrorOf())
      && (run.result.Ok? ==> run.result.value == CookieMap(o.cookies))
  {
    var check := CheckRun(o, at);
    if check.result.Err? {
      ShortCircuitPrefix(o, at, CheckSteps(), CheckedSteps(), check.actions, check.result.error);
    } else {
      CheckedShortCircuits(o, at + 2);
      ShortCircuitThen(o, at, CheckSteps(), CheckedSteps(), Checked(o, at + 2).trace, Checked(o, at + 2).result.ErrorOf());
    }
  }

  /** Submitting the form and what follows stop at the first failure. */
  lemma FilledShortCircuits(o: Oracle, at: nat)
    ensures var run := Filled(o, at);
      && ShortCircuit(o, at, FilledSteps(), run.trace, run.result.ErrorOf())
      && (run.result.Ok? ==> run.result.value == CookieMap(o.cookies))
  {
    var submit := SubmitRun(o, at);
    SubmitClicksOnce(o, at);
    if submit.result.Err? {
      assert Filled(o, at) == Run(submit.actions, Err(submit.result.error));
      ShortCircuitPrefix(o, at, SubmitSteps(), SubmittedSteps(), submit.actions, submit.result.error);
    } else {
      assert submit.actions == SubmitSteps();
      var rest := Submitted(o, at + 2);
      assert Filled(o, at) == Then(SubmitSteps(), rest);
      SubmittedShortCircuits(o, at + 2);
      ShortCircuitThen(o, at, SubmitSteps(), SubmittedSteps(), rest.trace, rest.result.ErrorOf());
    }
  }

  /** Filling the form and what follows stop at the first failure. */
  lemma OnPageShortCircuits(bot: DefaultBrowserLoginBot, o: Oracle, at: nat)
    ensures var run := OnPage(bot, o, at);
      && ShortCircuit(o, at, OnPageSteps(bot), run.trace, run.result.ErrorOf())
      && (run.result.Ok? ==> run.result.value == CookieMap(o.cookies))
  {
    var fill := FillRun(bot, o, at);
    FillShortCircuits(bot, o, at);
    if fill.result.Err? {
      ShortCircuitPrefix(o, at, FillSteps(bot), FilledSteps(), fill.actions, fill.result.error);
    } else {
      var rest := Filled(o, at + 7);
      FilledShortCircuits(o, at + 7);
      ShortCircuitThen(o, at, FillSteps(bot), FilledSteps(), rest.trace, rest.result.ErrorOf());
    }
  }

  /**
   * A login attempt whose configuration was built performs the steps of
   * `Plan` in order and stops at the first failure, which it reports; when
   * it succeeds the map is the one the cookie loop builds.  A configuration
   * error ends it before anything reaches the browser.
   */
  lemma LoginRunShortCircuits(bot: DefaultBrowserLoginBot, config: Result<BrowserConfig, PinterestLoginError>,
                              o: Oracle, start: nat)
    ensures var run := LoginRun(bot, config, o, start);
      && (config.Err? ==> run == Run([BuildConfig], Err(config.error)))
      && (config.Ok? ==> ShortCircuit(o, start, Plan(bot, config.value), run.trace, run.result.ErrorOf()))
      && (run.result.Ok? ==> run.result.value == CookieMap(o.cookies))
  {
    if config.Ok? {
      var cfg := config.value;
      var run := LoginRun(bot, config, o, start);
      if o.Fault(start + 1).Some? {
        assert ShortCircuit(o, start, [BuildConfig, Launch(cfg)], run.trace, run.result.ErrorOf());
        assert PagePrefix(cfg) == [BuildConfig, Launch(cfg)] + [SpawnDrainer, NewPage(PinterestLoginUrl)];
        ShortCircuitPrefix(o, start, [BuildConfig, Launch(cfg)], [SpawnDrainer, NewPage(PinterestLoginUrl)],
                           run.trace, run.result.error);
        ShortCircuitPrefix(o, start, PagePrefix(cfg), OnPageSteps(bot), run.trace, run.result.error);
      } else if o.Fault(start + 3).Some? {
        assert ShortCircuit(o, start, PagePrefix(cfg), run.trace, run.result.ErrorOf());
        ShortCircuitPrefix(o, start, PagePrefix(cfg), OnPageSteps(bot), run.trace, run.result.error);
      } else {
        var rest := OnPage(bot, o, start + 4);
        assert ShortCircuit(o, start, PagePrefix(cfg), PagePrefix(cfg), None);
        OnPageShortCircuits(bot, o, start + 4);
        ShortCircuitThen(o, start, PagePrefix(cfg), OnPageSteps(bot), rest.trace, rest.result.ErrorOf());
      }
    }
  }

  /** Every step of a login attempt but the last; the last is cancelling the drainer. */
  function BeforeCancel(bot: DefaultBrowserLoginBot, cfg: BrowserConfig): seq<Action> {
    PagePrefix(cfg) + (FillSteps(bot) + (SubmitSteps() + (CheckSteps() + [GetCookies])))
  }

  /** `Plan` cancels the drainer once, as its last step, which is no browser call. */
  lemma PlanEndsWithCancel(bot: DefaultBrowserLoginBot, cfg: BrowserConfig)
    ensures Plan(bot, cfg) == BeforeCancel(bot, cfg) + [CancelDrainer]
    ensures CancelDrainer !in BeforeCancel(bot, cfg)
  {
    var p, f, b, c := PagePrefix(cfg), FillSteps(bot), SubmitSteps(), CheckSteps();
    calc {
      Plan(bot, cfg);
      p + (f + (b + (c + ([GetCookies] + [CancelDrainer]))));
      { AppendAssoc(c, [GetCookies], [CancelDrainer]);
        AppendAssoc(b, c + [GetCookies], [CancelDrainer]);
        AppendAssoc(f, b + (c + [GetCookies]), [CancelDrainer]);
        AppendAssoc(p, f + (b + (c + [GetCookies])), [CancelDrainer]); }
      BeforeCancel(bot, cfg) + [CancelDrainer];
    }
  }

  /**
   * The drainer is cancelled exactly when the login succeeds, and then once,
   * as the last step: every failure after the spawn leaves it running.
   */
  lemma DrainerCancelledOnlyOnSuccess(bot: DefaultBrowserLoginBot, config: Result<BrowserConfig, PinterestLoginError>,
                                      o: Oracle, start: nat)
    ensures var run := LoginRun(bot, config, o, start);
      && (CancelDrainer in run.trace <==> run.result.Ok?)
      && (run.result.Ok? ==> multiset(run.trace)[CancelDrainer] == 1 && run.trace[|run.trace| - 1] == CancelDrainer)
  {
    var run := LoginRun(bot, config, o, start);
    LoginRunShortCircuits(bot, config, o, start);
    if config.Ok? {
      var plan, before := Plan(bot, config.value), BeforeCancel(bot, config.value);
      PlanEndsWithCancel(bot, config.value);
      if run.result.Ok? {
        assert multiset(plan) == multiset(before) + multiset{CancelDrainer};
      } else {
        var t := run.trace;
        assert t[|t| - 1].IsDriverCall();
        assert |t| <= |before|;
        forall i | 0 <= i < |t|
          ensures t[i] != CancelDrainer
        {
          assert t[i] == before[i];
          assert before[i] in before;
        }
      }
    }
  }

  /** A login attempt succeeds exactly when its configuration was built and it ran every step of `Plan`. */
  lemma LoginSucceedsExactly(bot: DefaultBrowserLoginBot, config: Result<BrowserConfig, PinterestLoginError>,
                             o: Oracle, start: nat)
    ensures var run := LoginRun(bot, config, o, start);
      run.result.Ok? <==> config.Ok? && run.trace == Plan(bot, config.value)
  {
    var run := LoginRun(bot, config, o, start);
    LoginRunShortCircuits(bot, config, o, start);
    if config.Ok? && run.result.Err? {
      var plan := Plan(bot, config.value);
      PlanEndsWithCancel(bot, config.value);
      assert run.trace[|run.trace| - 1].IsDriverCall();
      assert !plan[|plan| - 1].IsDriverCall();
    }
  }

  /**
   * A login attempt succeeds only if the browser launched, the login page
   * opened and each of the bot's three operations succeeded in turn, at the
   * log positions they were reached at; it returns the map the cookie loop
   * builds from what `get_cookies` answered.
   */
  lemma OkOnlyIfBotStepsSucceeded(bot: DefaultBrowserLoginBot, config: Result<BrowserConfig, PinterestLoginError>,
                                  o: Oracle, start: nat)
    requires LoginRun(bot, config, o, start).result.Ok?
    ensures config.Ok? && o.Fault(start + 1).None? && o.Fault(start + 3).None?
    ensures FillRun(bot, o, start + 4).result.Ok? && FillRun(bot, o, start + 4).actions == FillSteps(bot)
    ensures SubmitRun(o, start + 11).result.Ok? && SubmitRun(o, start + 11).actions == SubmitSteps()
    ensures CheckRun(o, start + 13).result.Ok? && CheckRun(o, start + 13).actions == CheckSteps()
    ensures o.Fault(start + 15).None?
    ensures LoginRun(bot, config, o, start).result.value == CookieMap(o.cookies)
  {
    var cfg := config.value;
    assert LoginRun(bot, config, o, start) == Then(PagePrefix(cfg), OnPage(bot, o, start + 4));
    var fill := FillRun(bot, o, start + 4);
    FillShortCircuits(bot, o, start + 4);
    assert fill.result.Ok?;
    assert fill.actions == FillSteps(bot);
    assert OnPage(bot, o, start + 4) == Then(FillSteps(bot), Filled(o, start + 11));
    var submit := SubmitRun(o, start + 11);
    SubmitClicksOnce(o, start + 11);
    assert submit.result.Ok?;
    assert Filled(o, start + 11) == Then(SubmitSteps(), Submitted(o, start + 13));
    assert CheckRun(o, start + 13).result.Ok?;
    assert Submitted(o, start + 13) == Then(CheckSteps(), Checked(o, start + 15));
  }

  /**
   * A login attempt whose every browser call is answered, but whose `url()`
   * names a page `check_login` rejects, ends with `AuthenticationError` right
   * after `url()`: it never reads the cookies and never cancels the drainer.
   */
  lemma RejectedUrlEndsLogin(bot: DefaultBrowserLoginBot, cfg: BrowserConfig, o: Oracle, start: nat)
    requires forall p :: start <= p < start + 15 ==> o.Fault(p).None?
    requires CheckUrl(o.url).Err?
    ensures LoginRun(bot, Ok(cfg), o, start)
      == Run(PagePrefix(cfg) + FillSteps(bot) + SubmitSteps() + CheckSteps(), Err(AuthenticationError))
  {
    assert o.Fault(start + 1).None? && o.Fault(start + 3).None?;
    assert LoginRun(bot, Ok(cfg), o, start) == Then(PagePrefix(cfg), OnPage(bot, o, start + 4));
    var fill := FillRun(bot, o, start + 4);
    FillShortCircuits(bot, o, start + 4);
    assert fill.actions == FillSteps(bot) && fill.result.Ok? by {
      assert o.Fault(start + 4).None?;
      assert FieldRun(o, start + 5, EmailSelector, bot.email).result.Ok?;
      assert FieldRun(o, start + 8, PasswordSelector, bot.password).result.Ok?;
    }
    assert OnPage(bot, o, start + 4) == Then(FillSteps(bot), Filled(o, start + 11));
    var submit := SubmitRun(o, start + 11);
    SubmitClicksOnce(o, start + 11);
    assert o.Fault(start + 11).None? && o.Fault(start + 12).None?;
    assert submit.result.Ok?;
    assert Filled(o, start + 11) == Then(SubmitSteps(), Submitted(o, start + 13));
    assert o.Fault(start + 13).None? && o.Fault(start + 14).None?;
    assert CheckRun(o, start + 13) == BotRun(CheckSteps(), Err(AuthenticationError));
    assert Submitted(o, start + 13) == Run(CheckSteps(), Err(AuthenticationError));
  }
}
