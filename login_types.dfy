/** The constant and the error type the login crate shares between the orchestrator and its bots. */
module LoginTypes {
  import Chromium

  /** The page the browser opens, and the URL that a rejected login stays on. */
  const PinterestLoginUrl: string := "https://pinterest.com/login"

  /** `PinterestLoginError`: a driver error, a configuration error, or rejected credentials. */
  datatype PinterestLoginError =
    | CdpError(cause: Chromium.CdpError)
    | BrowserConfigBuildError(message: string)
    | AuthenticationError
}
