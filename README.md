# Pinterest login, modelled in Dafny

This project models the login path of a Pinterest API client written in Rust.
It also proves properties of that model. The login path has four parts:

- **`pinterest_login::login`** drives a headless browser. It builds the browser configuration, launches the browser and spawns the task that drains the browser's events. It then opens the login page and lets a login bot fill the form, submit it and check the result. Finally it reads the page's cookies into a map and cancels the drain task. Every step uses Rust's `?`, so the first failure ends the attempt and its error is returned.
- **`DefaultBrowserLoginBot`** is that login bot. It waits for the page, then finds, clicks and types into `input#email`, then does the same for `input#password`. It submits by clicking `button[type='submit']`. It reports a rejected login when the page has no URL after the submit, or when the URL is still exactly the login URL.
- **`Pinterest::login`** runs the browser login. It takes the `csrftoken` cookie, saves the cookie map when a credentials path is given, and builds a `name=value;` cookie string. It then replaces its HTTP client with one that carries the cookies and the session headers.
- **`build_request_headers`** builds the six default request headers.

## How the model works

- **The browser as an oracle.** The browser, the network and the web site are an oracle that is fixed in advance (`Chromium.Oracle`):
  - which browser call fails, keyed by its position in the log of actions;
  - which URL the page reports;
  - which cookies it returns.
- **The driver.** `Chromium.Driver` is a class whose `history` field logs every action in order.
  - The log also holds the three steps that never reach the browser: building the configuration, spawning the drainer and cancelling it.
  - This makes the whole order of a login attempt visible.
- **Operations.** Each operation has two parts:
  - a function that says which actions it performs and what it returns (`FillRun`, `SubmitRun`, `CheckRun`, `LoginRun`);
  - an imperative method with the source's own steps, whose postcondition ties the new log and the result to that function.
  
  The properties are lemmas about these functions.
- **Stopping at the first failure.** `LoginBot.ShortCircuit` says that a run performed its planned steps in order up to the first step that failed, and returned that step's error. A step fails when its browser call fails (a `CdpError`), or when it is `url()` and `check_login` rejects the URL (`AuthenticationError`).
- **`Pinterest`.** This is a class with the source's four fields.
  - Its `Login` method changes only `client`, and only when every step succeeded.
  - The file system is a `Disk` object that logs the credentials files written.
  - The reqwest client is reduced to its default headers and its cookie jar.
- **The cookie string.** The cookie map's iteration order is not fixed by the program. So the cookie string is specified as the entries taken in *some* order that lists every key exactly once (`CookieString.IsCookieString`).
- **Header names.** Header maps store names in lower case, so header keys are the lower-cased names (`Headers.KeysAreStoredNames`).
- **Drainer cancellation.** One could expect the drainer to be cancelled on every exit, but the code cancels it only on the success path. Every `?` before `handle.cancel()` returns with the task still running. The model follows the code (`PinterestLogin.DrainerCancelledOnlyOnSuccess`).

## Model

| member | source | states |
|---|---|---|
| LoginBot.New | pinterest_login/src/login_bot.rs:64-69 | the bot keeps the email and the password exactly as given |
| LoginBot.CheckUrl | pinterest_login/src/login_bot.rs:100-113 | success exactly when a URL is present and differs from the login URL; every failure is `AuthenticationError` |
| LoginBot.CheckUrlDoesNotNormalise | pinterest_login/src/login_bot.rs:105-111 | the comparison is exact: a `www.` host, a trailing slash or a changed letter case counts as success; the login URL itself and a missing URL are `AuthenticationError` |
| LoginBot.CheckRun | pinterest_login/src/login_bot.rs:98-114 | `check_login` waits, then reads the URL, and stops at the first failed call; it succeeds exactly when both calls are answered and the URL passes the test; a failed wait or `url()` is returned as that `CdpError`, never as `AuthenticationError`; `AuthenticationError` only after both calls were answered |
| LoginBot.CheckLogin | pinterest_login/src/login_bot.rs:98-114 | the method performs exactly the actions `CheckRun` lists and returns its result |
| LoginBot.ShortCircuitThen | pinterest_login/src/lib.rs:116-146 | a chain whose first part ran in full, with every call answered and every URL accepted, and whose second part stopped at its first failure is one chain that stops at its first failure |
| LoginBot.ShortCircuitPrefix | pinterest_login/src/lib.rs:116-146 | a chain that failed part-way also failed part-way in any longer chain that begins with it |
| LoginBot.FieldShortCircuits | pinterest_login/src/login_bot.rs:78-84 | filling one field runs find, click and type in order, stops at the first failed call, and returns that call's `CdpError` |
| LoginBot.ShortCircuitStopsAt | pinterest_login/src/login_bot.rs:77-84 | a chain that stops at its first failure fails no later than any call that fails |
| LoginBot.FillShortCircuits | pinterest_login/src/login_bot.rs:75-87 | `fill_login_form` waits, fills `input#email`, then fills `input#password`, stopping at the first failed step with its `CdpError` |
| LoginBot.EmailFailureSparesPassword | pinterest_login/src/login_bot.rs:77-84 | a failure of the wait or of an email step fails the form, logs at most up to that step, and never looks up the password field |
| LoginBot.FieldRun | pinterest_login/src/login_bot.rs:78-84 | the actions and the result of filling one field: find the element, click it, type the text; the first failed call ends the run with its `CdpError` (its properties are stated by `FieldShortCircuits`) |
| LoginBot.FillRun | pinterest_login/src/login_bot.rs:75-87 | the actions and the result of `fill_login_form`: the wait, then the email field, then the password field, each `?` ending the run at the first failure (its properties are stated by `FillShortCircuits` and `EmailFailureSparesPassword`) |
| LoginBot.SubmitRun | pinterest_login/src/login_bot.rs:90-95 | the actions and the result of `submit_login_form`: find the submit button, click it, each `?` ending the run at the first failure (its properties are stated by `SubmitClicksOnce`) |
| LoginBot.FillField | pinterest_login/src/login_bot.rs:78-84 | the method performs exactly the actions `FieldRun` lists (find, click, type, each with `?`) and returns its result |
| LoginBot.FillLoginForm | pinterest_login/src/login_bot.rs:75-87 | the method performs exactly the actions `FillRun` lists and returns its result |
| LoginBot.SubmitLoginForm | pinterest_login/src/login_bot.rs:90-95 | the method performs exactly the actions `SubmitRun` lists and returns its result |
| LoginBot.SubmitClicksOnce | pinterest_login/src/login_bot.rs:92-94 | `submit_login_form` stops at its first failed call with that `CdpError`; it looks up `button[type='submit']` first and clicks at most once; it succeeds exactly when both calls are answered, and then it has logged exactly the lookup and one click |
| PinterestLogin.CookieMap | pinterest_login/src/lib.rs:134-141 | the map the cookie loop yields: every cookie inserted in list order, so a later cookie overwrites an earlier one of the same name (its properties are stated by the four `CookieMap` lemmas and `CollectCookies`) |
| PinterestLogin.CollectCookies | pinterest_login/src/lib.rs:134-141 | the insertion loop builds the cookie map `CookieMap` of the harvested list |
| PinterestLogin.CookieMapKeys | pinterest_login/src/lib.rs:139-141 | the map's keys are exactly the names in the cookie list |
| PinterestLogin.CookieMapLastWins | pinterest_login/src/lib.rs:139-141 | a cookie with no later cookie of the same name gives its name that cookie's value (last write wins) |
| PinterestLogin.CookieMapValueFromLast | pinterest_login/src/lib.rs:139-141 | every value in the map is the value of the last cookie with that name |
| PinterestLogin.CookieMapSize | pinterest_login/src/lib.rs:134-141 | the map has at most as many entries as the list has cookies |
| PinterestLogin.Plan | pinterest_login/src/lib.rs:116-146 | the actions of an attempt in which nothing fails: configuration, launch, spawn, `new_page(PINTEREST_LOGIN_URL)`, the bot's three operations, `get_cookies`, cancel (used by `LoginRunShortCircuits` and `LoginSucceedsExactly`) |
| PinterestLogin.LoginRun | pinterest_login/src/lib.rs:114-147 | the actions and the result of `login`: a configuration error before any browser call, then launch and `new_page`, each `?` ending the attempt, then the steps on the page (its properties are stated by the lemmas below) |
| PinterestLogin.OnPage | pinterest_login/src/lib.rs:126-146 | the actions and the result from `fill_login_form` on: a failed fill ends the attempt with its error, otherwise the attempt goes on as `Filled` |
| PinterestLogin.Filled | pinterest_login/src/lib.rs:128-146 | the actions and the result from `submit_login_form` on: a failed submit ends the attempt, otherwise it goes on as `Submitted` |
| PinterestLogin.Submitted | pinterest_login/src/lib.rs:130-146 | the actions and the result from `check_login` on: a failed check ends the attempt, otherwise it goes on as `Checked` |
| PinterestLogin.Checked | pinterest_login/src/lib.rs:134-146 | the actions and the result from `get_cookies` on: a failed call ends the attempt with its `CdpError`, otherwise the drainer is cancelled and the cookie map returned |
| PinterestLogin.Login | pinterest_login/src/lib.rs:114-147 | `login` logs exactly the actions `LoginRun` lists and returns its result |
| PinterestLogin.LoginOnPage | pinterest_login/src/lib.rs:126-146 | the steps after the login page opened: fill, submit, check, `get_cookies`, the cookie loop, cancel; the log and the result are those of `OnPage` |
| PinterestLogin.CheckedShortCircuits | pinterest_login/src/lib.rs:137-146 | reading the cookies stops at a failed `get_cookies`; otherwise the drainer is cancelled and the map is returned |
| PinterestLogin.SubmittedShortCircuits | pinterest_login/src/lib.rs:131-146 | from `check_login` on, the steps run in order and stop at the first failure: a failed call, or a `url()` whose URL `check_login` rejects |
| PinterestLogin.FilledShortCircuits | pinterest_login/src/lib.rs:129-146 | from `submit_login_form` on, the steps run in order and stop at the first failure: a failed call, or a `url()` whose URL `check_login` rejects |
| PinterestLogin.OnPageShortCircuits | pinterest_login/src/lib.rs:127-146 | from `fill_login_form` on, the steps run in order and stop at the first failure: a failed call, or a `url()` whose URL `check_login` rejects |
| PinterestLogin.LoginRunShortCircuits | pinterest_login/src/lib.rs:116-146 | a configuration error is returned before anything reaches the browser; otherwise the attempt follows the planned order (configuration, launch, spawn, `new_page(PINTEREST_LOGIN_URL)`, fill, submit, check, `get_cookies`, cancel) and stops at the first failing step, returning that step's error: a failed call gives its `CdpError`, a `url()` whose URL `check_login` rejects gives `AuthenticationError`; a success returns the map the cookie loop builds |
| PinterestLogin.RejectedUrlEndsLogin | pinterest_login/src/lib.rs:124-131 | when every browser call is answered but `check_login` rejects the URL, `login` returns `AuthenticationError` right after `url()`, without reading the cookies or cancelling the drainer |
| PinterestLogin.PlanEndsWithCancel | pinterest_login/src/lib.rs:144 | cancelling the drainer is the last planned step and occurs nowhere earlier |
| PinterestLogin.DrainerCancelledOnlyOnSuccess | pinterest_login/src/lib.rs:118-146 | the drainer is cancelled if and only if the login succeeds, and then exactly once, as the last action |
| PinterestLogin.LoginSucceedsExactly | pinterest_login/src/lib.rs:114-146 | the attempt succeeds if and only if the configuration was built and every planned step ran |
| PinterestLogin.OkOnlyIfBotStepsSucceeded | pinterest_login/src/lib.rs:116-146 | a success implies launch and `new_page` were answered and that `fill_login_form`, `submit_login_form` and `check_login` each succeeded at the log position it ran at; `get_cookies` was answered; the result is the cookie loop's map |
| Headers.UserAgentValue | src/utils.rs:18 | the `User-Agent` value is the given one, or `DEFAULT_USER_AGENT` when none is given |
| Headers.KeysAreStoredNames | src/utils.rs:16-26 | each of the six keys is the lower-cased form of the name the program inserts |
| Headers.NamesAreDistinct | src/utils.rs:16-26 | the six header names are pairwise distinct, so no insert overwrites another |
| Headers.RequestHeaders | src/utils.rs:5-29 | the map `build_request_headers` returns (its contents are stated by `RequestHeadersContents`) |
| Headers.RequestHeadersContents | src/utils.rs:8-28 | the headers have exactly six keys: User-Agent (the given value or the default), X-CSRFToken = the token, Referer = `PINTEREST_BASE_URL`, X-Requested-With = `XMLHttpRequest`, Accept = `application/json`, Content-Type = `application/x-www-form-urlencoded; charset=UTF-8` |
| Headers.BuildRequestHeaders | src/utils.rs:5-29 | six inserts into an empty map give `RequestHeaders`; the two caller-supplied values must be valid header values |
| CookieString.Serialize | src/login.rs:31-37 | the cookie string for one iteration order: the `name=value;` entries of the keys in that order (its properties are stated by `SerializeLength` and `SerializeHasEntry`) |
| CookieString.IsCookieString | src/login.rs:31-37 | a string the loop can build: the serialization of the map in some order that lists every key exactly once (its properties are stated by `CookieStringLength` and `CookieStringHasEntries`) |
| CookieString.SerializeLength | src/login.rs:31-37 | the string for an order that visits each key once is as long as the sum of \|name\| + \|value\| + 2 over those keys |
| CookieString.SerializeHasEntry | src/login.rs:31-37 | every key visited has its `name=value;` entry somewhere in the string |
| CookieString.BuildCookieString | src/login.rs:31-37 | the loop's four pushes per entry build the entries in an order that lists every key of the map exactly once |
| CookieString.CookieStringLength | src/login.rs:31-37 | the cookie string is as long as the sum of \|name\| + \|value\| + 2 over the map's entries |
| CookieString.CookieStringHasEntries | src/login.rs:31-37 | the cookie string contains `name=value;` for every entry of the map |
| PinterestClient.Disk.Write | src/login.rs:23-24 | writing the credentials file logs one write of the cookie map to the path, failing as the disk's oracle says |
| PinterestClient.Adapt | src/login.rs:12-49 | an inner login error becomes `LoginError` with no file written and no client change; a missing `csrftoken` gives `MissingCrfToken` likewise; a file is written exactly when the login succeeded, the token exists and a path was given; a write failure gives `IoError` and leaves the client alone; the client is replaced exactly on success, with the headers built from the token and the client's user agent |
| PinterestClient.Pinterest.Login | src/login.rs:11-50 | the browser log is that of `login`; a credentials write happens exactly as `Adapt` says; the result is `Adapt`'s; `client` changes only when `Adapt` gives headers, and then holds them with a cookie jar for `PINTEREST_BASE_URL` filled with a cookie string of the map; `username`, `crf_token` and `user_agent` are unchanged |
| PinterestClient.Pinterest.Adopt | src/login.rs:16-49 | after the browser login returned a map: a credentials write happens exactly as `Adapt` says; the result is `Adapt`'s; `client` changes only when `Adapt` gives headers, and then holds them with a cookie jar for `PINTEREST_BASE_URL` filled with a cookie string of the map; no other field changes |
| PinterestClient.Pinterest.constructor | src/lib.rs:50-74 | `Pinterest::new` (credentials feature) stores the three values and a client whose default headers are `build_request_headers(crf_token, user_agent)` |
| PinterestClient.LoginSessionHeaders | src/login.rs:17-47 | after a successful login every planned browser step ran, the URL check included; `X-CSRFToken` is the value of the last `csrftoken` cookie the browser returned; `User-Agent` is the client's own or the default |

## Left out

- The async runtime and the drainer task's endless `handler.next()` loop (pinterest_login/src/lib.rs:118-122). These are concurrency. Spawning and cancelling are modelled only as the two log entries `SpawnDrainer` and `CancelDrainer`.
- chromiumoxide's `Browser::launch`, `new_page`, `wait_for_navigation`, `find_element`, `click`, `type_str`, `url` and `get_cookies`. These are foreign calls. Each is an action whose outcome the oracle gives, and the element handle that the calls chain through is not modelled.
- The `config_builder` module is not part of this model. Every login takes the outcome of `build_browser_config` as the parameter `config`. Its `headless` and timeout fields are carried along but not interpreted.
- The `BrowserLoginBot` trait and custom bots. Traits are not used here, so `login` is modelled with the default bot only.
- reqwest's client, its builder, `Jar::add_cookie_str` and `Url::parse`. These are library code. The client is the record of its default headers and its cookie jar (cookie string and URL). Whether building the new client fails is a parameter (`buildFault`). How the jar parses the string is not modelled.
- `serde_json::to_string` and `std::fs::write`. These are serialisation and I/O. Writing the credentials file is logged as the pair (path, cookie map), and its failure comes from the disk's oracle.
- PinterestClient.Pinterest.Adopt: the panic of `HeaderValue::from_str(..).unwrap()` on a `csrftoken` value that is not a valid header value is returned as the extra error `Panic`, which has no counterpart in `PinterestError`. The method does not model unwinding.
- Headers.BuildRequestHeaders: it does not model the panic for an invalid `user_agent` or `crf_token`, because the source's callers must pass valid values. It requires them to be valid instead. The values the program passes to `HeaderValue::from_static` are not checked.
- PinterestClient.Pinterest.constructor: the `expect` on a failing client build in `Pinterest::new` is not modelled, because the builder is library code. Only a successful construction is modelled.
- The `HashMap` iteration order in the cookie-string loop is left open: the model holds for every order.
- The `#[cfg(feature)]` switches are fixed with the login and credentials features enabled. `HashMap::with_capacity` and `HeaderMap::with_capacity` are treated as hints only.
- src/bin/wiki.rs is not part of this model. It is a command-line front end.
- The `Display` texts of the error types.
