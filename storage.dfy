/**
 * The browser state the front-end reads and writes: the cookie jar, used for
 * the bearer token, and `localStorage`, used for the signed-in user.
 * `js-cookie` and `localStorage` are modelled as maps.
 */
module Storage {
  import opened Wrappers

  /** The token cookie's name and lifetime in days. */
  const TokenCookieName: string := "sr_token"
  const TokenLifetimeDays: int := 1

  datatype Cookie = Cookie(value: string, expiresDays: int, secure: bool, sameSite: string)

  class Browser {
    /** `window.location.protocol`, such as `"https:"`. */
    var protocol: string
    var cookies: map<string, Cookie>
    var localStorage: map<string, string>

    constructor(protocol: string, cookies: map<string, Cookie>, localStorage: map<string, string>)
      ensures this.protocol == protocol && this.cookies == cookies && this.localStorage == localStorage
    {
      this.protocol := protocol;
      this.cookies := cookies;
      this.localStorage := localStorage;
    }

    /** `Cookies.get("sr_token")`. */
    function Token(): Option<string>
      reads this
    {
      if TokenCookieName in cookies then Some(cookies[TokenCookieName].value) else None
    }

    /** `setTokenToCookies`: a one-day, same-site `lax` cookie, secure exactly on https. */
    method SetTokenCookie(token: string)
      modifies this
      ensures cookies == old(cookies)[TokenCookieName := Cookie(token, TokenLifetimeDays, protocol == "https:", "lax")]
      ensures Token() == Some(token)
      ensures protocol == old(protocol) && localStorage == old(localStorage)
    {
      cookies := cookies[TokenCookieName := Cookie(token, TokenLifetimeDays, protocol == "https:", "lax")];
    }

    /** `clearTokenCookie`: only the token cookie goes. */
    method ClearTokenCookie()
      modifies this
      ensures cookies == old(cookies) - {TokenCookieName}
      ensures Token() == None
      ensures protocol == old(protocol) && localStorage == old(localStorage)
    {
      cookies := cookies - {TokenCookieName};
    }

    /** `localStorage.setItem(key, value)`. */
    method SetItem(key: string, value: string)
      modifies this
      ensures localStorage == old(localStorage)[key := value]
      ensures protocol == old(protocol) && cookies == old(cookies)
    {
      localStorage := localStorage[key := value];
    }

    /** `localStorage.removeItem(key)`. */
    method RemoveItem(key: string)
      modifies this
      ensures localStorage == old(localStorage) - {key}
      ensures protocol == old(protocol) && cookies == old(cookies)
    {
      localStorage := localStorage - {key};
    }
  }

  /** JavaScript truthiness of an optional string. */
  predicate Present(s: Option<string>)
  {
    s.Some? && s.value != ""
  }
}
