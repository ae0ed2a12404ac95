/** The site constants the API client shares between its modules. */
module Site {

  /** The origin every request goes to, and the `Referer` it sends. */
  const PinterestBaseUrl: string := "https://www.pinterest.com"

  /** The `User-Agent` sent when the client was given none. */
  const DefaultUserAgent: string :=
    "Mozilla/5.0 (X11; Linux x86_64) AppleWebKit/537.36 (KHTML, like Gecko) Chrome/91.0.4472.114 Safari/537.36"
}
