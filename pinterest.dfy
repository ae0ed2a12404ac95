/**
 * The API client's `Pinterest::login`: runs the browser login, takes the
 * CSRF token from the harvested cookies, optionally saves the cookies to a
 * credentials file, and replaces the HTTP client by one that carries the
 * cookies and the session headers.  reqwest's client is modelled by the two
 * things the login gives it: its default headers and its cookie jar.
 */
module PinterestClient {
  import opened Outcomes
  import opened Chromium
  import opened LoginTypes
  import opened LoginBot
  import opened PinterestLogin
  import opened Site
  import opened Headers
  import opened CookieString

  /** A `std::io::Error`; its content is opaque here. */
  datatype IoFault = IoFault(message: string)

  /** A `reqwest::Error`; its content is opaque here. */
  datatype ReqwestFault = ReqwestFault(message: string)

  /**
   * `PinterestError`, with the login and credentials features enabled.
   * `Panic` is not a variant of the program's type: it stands for the panic
   * of the `HeaderValue::from_str(..).unwrap()` that a token which is not a
   * valid header value causes.
   */
  datatype PinterestError =
    | LoginError(cause: PinterestLoginError)
    | MissingCrfToken
    | IoError(io: IoFault)
    | InvalidCredentialsFile
    | CredPathNotExists
    | RequestError(request: ReqwestFault)
    | ResponseError(message: string)
    | Panic

  /** The cookie jar: the cookie string and the URL it was added for. */
  datatype CookieJar = CookieJar(cookies: string, url: string)

  /** A reqwest client, reduced to its default headers and its cookie provider. */
  datatype HttpClient = HttpClient(headers: map<string, string>, jar: Option<CookieJar>)

  /** The cookie name whose value is the CSRF token. */
  const CsrfCookie: string := "csrftoken"

  /** The file system, as the log of credentials files written; a write fails as the oracle says. */
  class Disk {
    var writes: seq<(string, map<string, string>)>
    const faults: map<nat, IoFault>

    constructor (faults: map<nat, IoFault>)
      ensures writes == [] && this.faults == faults
    {
      writes := [];
      this.faults := faults;
    }

    /** The outcome of the write attempted after `n` earlier ones. */
    function Fault(n: nat): Option<IoFault>
    {
      if n in faults then Some(faults[n]) else None
    }

    /** `std::fs::write(path, serde_json::to_string(&cookies))`: the attempt is logged, and may fail. */
    method Write(path: string, cookies: map<string, string>) returns (fault: Option<IoFault>)
      modifies this
      ensures writes == old(writes) + [(path, cookies)]
      ensures fault == Fault(|old(writes)|)
    {
      fault := Fault(|writes|);
      writes := writes + [(path, cookies)];
    }
  }

  /** What `Pinterest::login` decides once the browser login returned. */
  datatype Adapted = Adapted(
    result: Result<(), PinterestError>,
    saved: Option<(string, map<string, string>)>,
    headers: Option<map<string, string>>)

  /**
   * The decisions of `Pinterest::login` after the browser login returned
   * `login`: `writeFault` is what writing the credentials file would answer,
   * `buildFault` what building the client would; `headers` is `Some` exactly
   * when the client is replaced, and holds its default headers.
   */
  function Adapt(login: Result<map<string, string>, PinterestLoginError>, credPath: Option<string>,
                 writeFault: Option<IoFault>, userAgent: Option<string>, buildFault: Option<ReqwestFault>): (a: Adapted)
    ensures login.Err? ==> a == Adapted(Err(LoginError(login.error)), None, None)
    ensures login.Ok? && CsrfCookie !in login.value ==> a == Adapted(Err(MissingCrfToken), None, None)
    ensures a.saved.Some? <==> login.Ok? && CsrfCookie in login.value && credPath.Some?
    ensures a.saved.Some? ==> a.saved.value == (credPath.value, login.value)
    ensures a.saved.Some? && writeFault.Some? ==> a == Adapted(Err(IoError(writeFault.value)), a.saved, None)
    ensures a.result.Err? && a.result.error.IoError? ==> a.saved.Some? && writeFault.Some?
    ensures a.result.Ok? <==> a.headers.Some?
    ensures a.result.Ok? <==>
      && login.Ok? && CsrfCookie in login.value && IsHeaderValue(login.value[CsrfCookie])
      && (credPath.Some? ==> writeFault.None?) && buildFault.None?
    ensures a.headers.Some? ==> a.headers.value == RequestHeaders(login.value[CsrfCookie], userAgent)
  {
    match login
    case Err(e) => Adapted(Err(LoginError(e)), None, None)
    case Ok(cookies) =>
      if CsrfCookie !in cookies then Adapted(Err(MissingCrfToken), None, None)
      else
        var token := cookies[CsrfCookie];
        var saved := if credPath.Some? then Some((credPath.value, cookies)) else None;
        if credPath.Some? && writeFault.Some? then Adapted(Err(IoError(writeFault.value)), saved, None)
        else if !IsHeaderValue(token) then Adapted(Err(Panic), saved, None)
        else if buildFault.Some? then Adapted(Err(RequestError(buildFault.value)), saved, None)
        else Adapted(Ok(()), saved, Some(RequestHeaders(token, userAgent)))
  }

  /** The API client. */
  class Pinterest {
    var client: HttpClient
    var username: string
    var crfToken: string
    var userAgent: Option<string>

    /** A user agent the client was built with is a valid header value, or `build_request_headers` would have panicked. */
    predicate Valid()
      reads this
    {
      userAgent.Some? ==> IsHeaderValue(userAgent.value)
    }

    /** `Pinterest::new`, with the credentials feature: a client whose default headers carry the given token. */
    constructor (username: string, crfToken: string, userAgent: Option<string>)
      requires IsHeaderValue(crfToken)
      requires userAgent.Some? ==> IsHeaderValue(userAgent.value)
      ensures Valid()
      ensures this.username == username && this.crfToken == crfToken && this.userAgent == userAgent
      ensures client == HttpClient(RequestHeaders(crfToken, userAgent), None)
    {
      var headers := BuildRequestHeaders(crfToken, userAgent);
      client := HttpClient(headers, None);
      this.username := username;
      this.crfToken := crfToken;
      this.userAgent := userAgent;
    }

    /**
     * `Pinterest::login(username, password, cred_path)`, the username being
     * the email typed into the login form.  `config` is what
     * the default browser configuration builder returns and `buildFault`
     * what building the new reqwest client answers.
     */
    method Login(email: string, password: string, credPath: Option<string>,
                 config: Result<BrowserConfig, PinterestLoginError>, driver: Driver, disk: Disk,
                 buildFault: Option<ReqwestFault>)
      returns (r: Result<(), PinterestError>)
      requires Valid()
      modifies this, driver, disk
      ensures Valid()
      ensures var run := LoginRun(New(email, password), config, driver.oracle, old(|driver.history|));
        var a := Adapt(run.result, credPath, disk.Fault(old(|disk.writes|)), old(userAgent), buildFault);
        && driver.history == old(driver.history) + run.trace
        && disk.writes == old(disk.writes) + (if a.saved.Some? then [a.saved.value] else [])
        && r == a.result
        && (a.headers.None? ==> client == old(client))
        && (a.headers.Some? ==>
              && client.headers == a.headers.value
              && client.jar.Some? && client.jar.value.url == PinterestBaseUrl
              && IsCookieString(client.jar.value.cookies, run.result.value))
      ensures username == old(username) && crfToken == old(crfToken) && userAgent == old(userAgent)
    {
      var cookies := PinterestLogin.Login(New(email, password), config, driver);
      if cookies.Err? { return Err(LoginError(cookies.error)); }
      r := Adopt(cookies.value, credPath, disk, buildFault);
    }

    /**
     * The part of `Pinterest::login` after the browser login returned
     * `cookies`: the token, the optional credentials file, the cookie string
     * and the new client.
     */
    method Adopt(cookies: map<string, string>, credPath: Option<string>, disk: Disk, buildFault: Option<ReqwestFault>)
      returns (r: Result<(), PinterestError>)
      requires Valid()
      modifies this, disk
      ensures Valid()
      ensures var a := Adapt(Ok(cookies), credPath, disk.Fault(old(|disk.writes|)), old(userAgent), buildFault);
        && disk.writes == old(disk.writes) + (if a.saved.Some? then [a.saved.value] else [])
        && r == a.result
        && (a.headers.None? ==> client == old(client))
        && (a.headers.Some? ==>
              && client.headers == a.headers.value
              && client.jar.Some? && client.jar.value.url == PinterestBaseUrl
              && IsCookieString(client.jar.value.cookies, cookies))
      ensures username == old(username) && crfToken == old(crfToken) && userAgent == old(userAgent)
    {
      if CsrfCookie !in cookies { return Err(MissingCrfToken); }
      var token := cookies[CsrfCookie];
      if credPath.Some? {
        var fault := disk.Write(credPath.value, cookies);
        if fault.Some? { return Err(IoError(fault.value)); }
      }
      var cookieStr := BuildCookieString(cookies);
      var jar := CookieJar(cookieStr, PinterestBaseUrl);
      if !IsHeaderValue(token) { return Err(Panic); }
      var headers := BuildRequestHeaders(token, userAgent);
      if buildFault.Some? { return Err(RequestError(buildFault.value)); }
      client := HttpClient(headers, Some(jar));
      return Ok(());
    }
  }

  /**
   * After a successful `Pinterest::login`, the client's `X-CSRFToken` header
   * is the value of the last `csrftoken` cookie the browser returned, its
   * `User-Agent` is the client's own or the default, and the browser ran
   * every step of the login, the URL check included.
   */
  lemma LoginSessionHeaders(username: string, password: string, credPath: Option<string>,
                            config: Result<BrowserConfig, PinterestLoginError>, o: Oracle, start: nat,
                            writeFault: Option<IoFault>, userAgent: Option<string>, buildFault: Option<ReqwestFault>)
    requires Adapt(LoginRun(New(username, password), config, o, start).result, credPath, writeFault, userAgent, buildFault).result.Ok?
    ensures var run := LoginRun(New(username, password), config, o, start);
      var headers := Adapt(run.result, credPath, writeFault, userAgent, buildFault).headers.value;
      && config.Ok? && run.trace == Plan(New(username, password), config.value)
      && CheckRun(o, start + 13).result.Ok?
      && headers[UserAgent] == UserAgentValue(userAgent)
      && exists i :: 0 <= i < |o.cookies| && o.cookies[i].name == CsrfCookie && headers[CsrfToken] == o.cookies[i].value
                     && forall j :: i < j < |o.cookies| ==> o.cookies[j].name != CsrfCookie
  {
    var bot := New(username, password);
    var run := LoginRun(bot, config, o, start);
    LoginSucceedsExactly(bot, config, o, start);
    OkOnlyIfBotStepsSucceeded(bot, config, o, start);
    CookieMapValueFromLast(o.cookies, CsrfCookie);
  }
}
