/**
 * `build_request_headers`: the default headers of every API request.  A
 * header map is modelled as a map from header name to value; like reqwest's
 * `HeaderMap` it stores names in lower case, so a name is looked up by
 * `HeaderName` of its usual spelling.
 */
module Headers {
  import opened Outcomes
  import opened Site

  /** A header name as `HeaderMap` keeps it: ASCII letters folded to lower case. */
  function HeaderName(name: string): string {
    seq(|name|, i requires 0 <= i < |name| => LowerAscii(name[i]))
  }

  function LowerAscii(c: char): char {
    if 'A' <= c <= 'Z' then (c as int + 32) as char else c
  }

  /** What `HeaderValue::from_str` accepts: tab, and every character from space up except DEL. */
  predicate IsHeaderValue(s: string) {
    forall i :: 0 <= i < |s| ==> s[i] == '\t' || (' ' <= s[i] && s[i] != '\U{7F}')
  }

  /** The keys of the six headers: the names the program inserts, as `HeaderMap` stores them. */
  const UserAgent: string := "user-agent"
  const CsrfToken: string := "x-csrftoken"
  const Referer: string := "referer"
  const RequestedWith: string := "x-requested-with"
  const Accept: string := "accept"
  const ContentType: string := "content-type"

  /** Each key is the stored form of the name the program spells out. */
  lemma KeysAreStoredNames()
    ensures UserAgent == HeaderName("User-Agent")
    ensures CsrfToken == HeaderName("X-CSRFToken")
    ensures Referer == HeaderName("Referer")
    ensures RequestedWith == HeaderName("X-Requested-With")
    ensures Accept == HeaderName("Accept")
    ensures ContentType == HeaderName("Content-Type")
  {
  }

  const XmlHttpRequest: string := "XMLHttpRequest"
  const ApplicationJson: string := "application/json"
  const FormUrlEncoded: string := "application/x-www-form-urlencoded; charset=UTF-8"

  /** The `User-Agent` value: the client's own, or the default. */
  function UserAgentValue(userAgent: Option<string>): (v: string)
    ensures userAgent.Some? ==> v == userAgent.value
    ensures userAgent.None? ==> v == DefaultUserAgent
  {
    userAgent.GetOr(DefaultUserAgent)
  }

  /** The headers `build_request_headers(crf_token, user_agent)` returns. */
  function RequestHeaders(crfToken: string, userAgent: Option<string>): map<string, string> {
    map[UserAgent := UserAgentValue(userAgent), CsrfToken := crfToken, Referer := PinterestBaseUrl,
        RequestedWith := XmlHttpRequest, Accept := ApplicationJson, ContentType := FormUrlEncoded]
  }

  /**
   * The six headers: exactly six keys, none overwritten by a later insert,
   * each with its value.
   */
  lemma RequestHeadersContents(crfToken: string, userAgent: Option<string>)
    ensures var h := RequestHeaders(crfToken, userAgent);
      && h.Keys == {UserAgent, CsrfToken, Referer, RequestedWith, Accept, ContentType}
      && |h| == 6
      && h[UserAgent] == UserAgentValue(userAgent)
      && h[CsrfToken] == crfToken
      && h[Referer] == PinterestBaseUrl
      && h[RequestedWith] == XmlHttpRequest
      && h[Accept] == ApplicationJson
      && h[ContentType] == FormUrlEncoded
  {
    NamesAreDistinct();
  }

  /**
   * The six header names are pairwise distinct, so none of the six inserts of
   * `build_request_headers` overwrites another: no two have the same length.
   */
  lemma NamesAreDistinct()
    ensures |{UserAgent, CsrfToken, Referer, RequestedWith, Accept, ContentType}| == 6
  {
    assert |UserAgent| == 10 && |CsrfToken| == 11 && |Referer| == 7;
    assert |RequestedWith| == 16 && |Accept| == 6 && |ContentType| == 12;
  }

  /**
   * `build_request_headers`: one insert per header into an empty map.  It
   * requires what the two `HeaderValue::from_str(..).unwrap()` calls require.
   */
  method BuildRequestHeaders(crfToken: string, userAgent: Option<string>) returns (headers: map<string, string>)
    requires userAgent.Some? ==> IsHeaderValue(userAgent.value)
    requires IsHeaderValue(crfToken)
    ensures headers == RequestHeaders(crfToken, userAgent)
  {
    headers := map[];
    headers := headers[UserAgent := UserAgentValue(userAgent)];
    headers := headers[CsrfToken := crfToken];
    headers := headers[Referer := PinterestBaseUrl];
    headers := headers[RequestedWith := XmlHttpRequest];
    headers := headers[Accept := ApplicationJson];
    headers := headers[ContentType := FormUrlEncoded];
  }
}
