/** The request layer of `apiService.ts`: how the base URL is derived from the
    configured one, the header the request interceptor adds, and what the
    response interceptor does on an error. */
module Api {
  import opened Types
  import Stores

  /** The URL used when none is configured */
  const DefaultApiUrl := "http://localhost:5000"

  const ApiSuffix := "/api"

  /** Storage key of the staff user record, dropped on a 401 */
  const UserKey := "user"

  /** Where a 401 on a restaurant page sends the browser */
  const LoginPath := "/restaurant/login"

  const RestaurantPrefix := "/restaurant"

  /** `s.endsWith(suffix)` */
  predicate EndsWith(s: string, suffix: string)
  {
    |suffix| <= |s| && s[|s| - |suffix|..] == suffix
  }

  /** `s.startsWith(prefix)` */
  predicate StartsWith(s: string, prefix: string)
  {
    |prefix| <= |s| && s[..|prefix|] == prefix
  }

  /** `VITE_API_URL || 'http://localhost:5000'`: an unset or empty setting
      falls back to the default. */
  function ApiUrl(configured: Option<string>): (url: string)
    ensures url != ""
    ensures configured.Some? && configured.value != "" ==> url == configured.value
  {
    if configured.Some? && configured.value != "" then configured.value else DefaultApiUrl
  }

  /** The axios base URL: the configured URL, with "/api" appended unless it
      already ends that way. */
  function BaseUrl(url: string): (base: string)
    ensures EndsWith(base, ApiSuffix)
    ensures EndsWith(url, ApiSuffix) ==> base == url
    ensures !EndsWith(url, ApiSuffix) ==> base == url + ApiSuffix
  {
    if EndsWith(url, ApiSuffix) then url else url + ApiSuffix
  }

  /** Deriving the base URL a second time changes nothing. */
  lemma BaseUrlIdempotent(url: string)
    ensures BaseUrl(BaseUrl(url)) == BaseUrl(url)
  {
  }

  /** The suffix is never doubled: the base URL ends in "/api/api" only when
      the configured URL already did. */
  lemma NoApiApiIntroduced(url: string)
    ensures EndsWith(BaseUrl(url), "/api/api") ==> EndsWith(url, "/api/api")
  {
    var base := BaseUrl(url);
    if EndsWith(base, "/api/api") && !EndsWith(url, ApiSuffix) {
      assert false;
    }
  }

  /** The rule does not strip a trailing slash: a configured URL ending in "/"
      yields a base ending in "//api". */
  lemma TrailingSlashGivesDoubleSlash(url: string)
    requires EndsWith(url, "/")
    ensures EndsWith(BaseUrl(url), "//api")
  {
    assert !EndsWith(url, ApiSuffix);
    var base := url + ApiSuffix;
    assert base[|base| - 5..] == [url[|url| - 1]] + ApiSuffix;
  }

  /** With no configuration the client talks to "http://localhost:5000/api". */
  lemma DefaultBaseUrl()
    ensures BaseUrl(ApiUrl(None)) == "http://localhost:5000/api"
  {
    assert !EndsWith(DefaultApiUrl, ApiSuffix) by {
      assert DefaultApiUrl[|DefaultApiUrl| - 4..] == "5000";
    }
  }

  /** The headers of an outgoing request, as far as the client sets them */
  datatype Headers = Headers(contentType: string, authorization: Option<string>)

  /** The headers every request starts with */
  const DefaultHeaders := Headers("application/json", None)

  /** The request interceptor: when storage holds a non-empty staff token, the
      request carries `Bearer <token>`; otherwise its headers are untouched.
      The customer session token is never attached. */
  function SignRequest(headers: Headers, storage: map<string, string>): (signed: Headers)
    ensures signed.contentType == headers.contentType
    ensures Stores.AuthTokenKey in storage && storage[Stores.AuthTokenKey] != "" ==>
              signed.authorization == Some("Bearer " + storage[Stores.AuthTokenKey])
    ensures !(Stores.AuthTokenKey in storage && storage[Stores.AuthTokenKey] != "") ==> signed == headers
  {
    if Stores.AuthTokenKey in storage && storage[Stores.AuthTokenKey] != ""
    then headers.(authorization := Some("Bearer " + storage[Stores.AuthTokenKey]))
    else headers
  }

  /** Only the stored staff token decides the header: two storages that agree
      on that key sign a request alike. */
  lemma SignDependsOnlyOnToken(headers: Headers, s1: map<string, string>, s2: map<string, string>)
    requires (Stores.AuthTokenKey in s1) == (Stores.AuthTokenKey in s2)
    requires Stores.AuthTokenKey in s1 ==> s1[Stores.AuthTokenKey] == s2[Stores.AuthTokenKey]
    ensures SignRequest(headers, s1) == SignRequest(headers, s2)
  {
  }

  /** After the auth store's `setAuth` with a non-empty token, requests carry that token. */
  lemma SignedAfterSetAuth(headers: Headers, storage: map<string, string>, token: string)
    requires token != ""
    ensures SignRequest(headers, storage[Stores.AuthTokenKey := token]).authorization == Some("Bearer " + token)
  {
  }

  /** After `logout` / `clearAuth`, requests go out with the headers they had. */
  lemma UnsignedAfterLogout(headers: Headers, storage: map<string, string>)
    ensures SignRequest(headers, storage - {Stores.AuthTokenKey}) == headers
  {
  }

  /** The part of a failed request the interceptor looks at:
      `error.response?.status`. */
  datatype ApiError = ApiError(status: Option<int>)

  predicate Unauthorised(err: ApiError)
  {
    err.status == Some(401)
  }

  /** Storage after the response interceptor has seen `err`: a 401 drops the
      staff token and the user record and keeps every other key; any other
      error leaves storage as it was. */
  function StorageAfterError(storage: map<string, string>, err: ApiError): (after: map<string, string>)
    ensures Unauthorised(err) ==> Stores.AuthTokenKey !in after && UserKey !in after
    ensures forall k :: k in after ==> k in storage && after[k] == storage[k]
    ensures forall k :: k in storage && k != Stores.AuthTokenKey && k != UserKey ==> k in after
    ensures !Unauthorised(err) ==> after == storage
  {
    if Unauthorised(err) then storage - {Stores.AuthTokenKey, UserKey} else storage
  }

  /** Whether the interceptor sends the browser to the login page. */
  predicate RedirectsToLogin(err: ApiError, pathname: string)
  {
    Unauthorised(err) && StartsWith(pathname, RestaurantPrefix)
  }

  /** Once a 401 has been handled, no further request is signed. */
  lemma NoBearerAfterUnauthorised(headers: Headers, storage: map<string, string>, err: ApiError)
    requires Unauthorised(err)
    ensures SignRequest(headers, StorageAfterError(storage, err)) == headers
  {
  }

  /** Handling the same error twice leaves storage as handling it once. */
  lemma StorageAfterErrorIdempotent(storage: map<string, string>, err: ApiError)
    ensures StorageAfterError(StorageAfterError(storage, err), err) == StorageAfterError(storage, err)
  {
  }

  /** Customer routes ("/order/...") are never redirected, even on a 401. */
  lemma CustomerPagesNotRedirected(err: ApiError, pathname: string)
    requires StartsWith(pathname, "/order/")
    ensures !RedirectsToLogin(err, pathname)
  {
    assert !StartsWith(pathname, RestaurantPrefix) by {
      if |RestaurantPrefix| <= |pathname| {
        assert pathname[..|RestaurantPrefix|][1] == pathname[..7][1] == 'o';
      }
    }
  }

  /** The browser location the interceptor may change */
  class BrowserWindow {
    var pathname: string
    var href: string

    constructor (pathname: string)
      ensures this.pathname == pathname && href == pathname
    {
      this.pathname := pathname;
      href := pathname;
    }
  }

  /** The response interceptor's error branch: update storage and the location,
      then reject with the same error. */
  method InterceptError(storage: Stores.LocalStorage, window: BrowserWindow, err: ApiError) returns (rejected: ApiError)
    modifies storage, window
    ensures rejected == err
    ensures storage.entries == StorageAfterError(old(storage.entries), err)
    ensures window.pathname == old(window.pathname)
    ensures RedirectsToLogin(err, old(window.pathname)) ==> window.href == LoginPath
    ensures !RedirectsToLogin(err, old(window.pathname)) ==> window.href == old(window.href)
  {
    if Unauthorised(err) {
      storage.entries := storage.entries - {Stores.AuthTokenKey, UserKey};
      if StartsWith(window.pathname, RestaurantPrefix) {
        window.href := LoginPath;
      }
    }
    rejected := err;
  }
}
