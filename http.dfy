/**
 * src/lib/api/http.ts: the two axios interceptors. The request interceptor
 * attaches the stored access token as a bearer credential; the response
 * interceptor wipes the session and redirects to the login page on a 401,
 * and passes everything else through.
 */
module Http {
  import opened Wrappers
  import opened Storage
  import opened AuthApi

  const AuthorizationHeader: string := "Authorization"
  const LoginRoute: string := "/auth"

  /** An outgoing request's configuration; the interceptor edits its headers in place. */
  class RequestConfig {
    var headers: map<string, string>

    constructor (headers: map<string, string>)
      ensures this.headers == headers
    {
      this.headers := headers;
    }
  }

  /** The part of `window` the interceptor touches. */
  class Window {
    var location: string

    constructor (location: string)
      ensures this.location == location
    {
      this.location := location;
    }
  }

  /** An axios error; `status` is `error.response?.status` (absent for a network failure). */
  datatype HttpError = HttpError(status: Option<int>, message: string)

  /** A settled request: the response, or the error it was rejected with. */
  datatype Settled<R> = Fulfilled(response: R) | Rejected(error: HttpError)

  /** The token the request interceptor finds: present only when `accessToken` holds a non-empty string. */
  function BearerToken(items: map<string, string>): (t: Option<string>)
    ensures t.Some? <==> AccessTokenKey in items && items[AccessTokenKey] != ""
    ensures t.Some? ==> t.value == items[AccessTokenKey]
  {
    if AccessTokenKey in items && items[AccessTokenKey] != "" then Some(items[AccessTokenKey]) else None
  }

  /** Headers after the request interceptor has run against store `items`. */
  function WithBearer(headers: map<string, string>, items: map<string, string>): map<string, string> {
    match BearerToken(items)
    case Some(token) => headers[AuthorizationHeader := "Bearer " + token]
    case None => headers
  }

  /**
   * Starting from headers without credentials, the request carries an
   * `Authorization` header exactly when a token is stored, and then it is
   * `"Bearer " + token`; the other headers are never touched.
   */
  lemma BearerIffToken(headers: map<string, string>, items: map<string, string>)
    requires AuthorizationHeader !in headers
    ensures AuthorizationHeader in WithBearer(headers, items) <==> BearerToken(items).Some?
    ensures BearerToken(items).Some? ==>
      WithBearer(headers, items)[AuthorizationHeader] == "Bearer " + items[AccessTokenKey]
    ensures forall h :: h in headers ==> h in WithBearer(headers, items) && WithBearer(headers, items)[h] == headers[h]
  {
  }

  /** After `clearSession` (or a 401) no request gains a credential. */
  lemma NoBearerWhenCleared(headers: map<string, string>, items: map<string, string>)
    ensures WithBearer(headers, Cleared(items)) == headers
  {
  }

  /** The request interceptor: reads the token, edits `config.headers` in place and returns the same config. */
  method AttachBearer(storage: LocalStorage, config: RequestConfig) returns (out: RequestConfig)
    modifies config
    ensures out == config
    ensures config.headers == WithBearer(old(config.headers), storage.items)
  {
    var token := storage.GetItem(AccessTokenKey);
    if token.Some? && token.value != "" {
      config.headers := config.headers[AuthorizationHeader := "Bearer " + token.value];
    }
    out := config;
  }

  /** The store after the response interceptor has seen `error`. */
  function AfterError(items: map<string, string>, error: HttpError): (r: map<string, string>)
    ensures error.status == Some(401) ==> r == Cleared(items)
    ensures error.status != Some(401) ==> r == items
  {
    if error.status == Some(401) then Cleared(items) else items
  }

  /**
   * The response interceptor. A response passes through unchanged. An error is
   * rejected again as the same error; on a 401 the three session keys are removed
   * and the location becomes the login route first, on any other error (or a
   * missing response) storage and location are left alone.
   */
  method Intercept<R>(storage: LocalStorage, window: Window, settled: Settled<R>) returns (out: Settled<R>)
    modifies storage, window
    ensures out == settled
    ensures settled.Fulfilled? ==> storage.items == old(storage.items) && window.location == old(window.location)
    ensures settled.Rejected? ==> storage.items == AfterError(old(storage.items), settled.error)
    ensures settled.Rejected? && settled.error.status == Some(401) ==> window.location == LoginRoute
    ensures settled.Rejected? && settled.error.status != Some(401) ==> window.location == old(window.location)
  {
    out := settled;
    if settled.Rejected? && settled.error.status == Some(401) {
      storage.RemoveItem(AccessTokenKey);
      storage.RemoveItem(RefreshTokenKey);
      storage.RemoveItem(UserKey);
      window.location := LoginRoute;
    }
  }
}
