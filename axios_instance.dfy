/** The shared HTTP client's state (frontend/src/api/axiosInstance.jsx):
    the cookie reader with its cache, the CSRF header kept in step with the
    `csrftoken` cookie, and the response rules that retry a CSRF failure
    once and sign the browser out on a 401. `document.cookie` is passed in
    at each call; `decodeURIComponent` is a fixed parameter. */
module AxiosInstance {
  import opened Common

  /** A `;`-segment matches `^\s*name=`. */
  predicate Matches(segment: string, name: string)
  {
    StartsWith(TrimStart(segment), name + "=")
  }

  /** What `\s*(.*)` captures after `name=`: the rest, leading whitespace
      dropped. */
  function ValueText(segment: string, name: string): string
    requires Matches(segment, name)
  {
    TrimStart(TrimStart(segment)[|name| + 1..])
  }

  /** `cookies.find(...)`: the index of the first matching segment. */
  function FirstMatch(segments: seq<string>, name: string): (r: Option<nat>)
    ensures r.Some? ==> r.value < |segments| && Matches(segments[r.value], name)
                        && forall j :: 0 <= j < r.value ==> !Matches(segments[j], name)
    ensures r.None? ==> forall j :: 0 <= j < |segments| ==> !Matches(segments[j], name)
  {
    FirstIndex(segments, (seg: string) => Matches(seg, name), 0)
  }

  /** The first index from `i` on whose element satisfies `p`. */
  function FirstIndex<T>(s: seq<T>, p: T -> bool, i: nat): (r: Option<nat>)
    requires i <= |s|
    ensures r.Some? ==> i <= r.value < |s| && p(s[r.value]) && forall j :: i <= j < r.value ==> !p(s[j])
    ensures r.None? ==> forall j :: i <= j < |s| ==> !p(s[j])
    decreases |s| - i
  {
    if i == |s| then None
    else if p(s[i]) then Some(i)
    else FirstIndex(s, p, i + 1)
  }

  /** The value of the first segment that names the cookie, decoded. */
  function FindCookie(segments: seq<string>, name: string, decode: string -> string): Option<string>
  {
    var found := FirstMatch(segments, name);
    if found.Some? then Some(decode(ValueText(segments[found.value], name))) else None
  }

  /** The cookie is found exactly when some segment names it, and its value
      is then read from the first such segment. */
  lemma FindCookieFirst(segments: seq<string>, name: string, decode: string -> string)
    ensures var r := FindCookie(segments, name, decode);
            && (r.Some? <==> exists i :: 0 <= i < |segments| && Matches(segments[i], name))
            && (r.Some? ==> exists i :: 0 <= i < |segments| && Matches(segments[i], name)
                                        && r.value == decode(ValueText(segments[i], name))
                                        && forall j :: 0 <= j < i ==> !Matches(segments[j], name))
  {
    var found := FirstMatch(segments, name);
    if found.Some? {
      var i := found.value;
      assert 0 <= i < |segments| && Matches(segments[i], name);
    }
  }

  /** A fresh parse of the cookie string: nothing when it is empty,
      otherwise the search over its `;`-segments. */
  function ParseCookie(cookies: string, name: string, decode: string -> string): (r: Option<string>)
    ensures cookies == "" ==> r.None?
    ensures cookies != "" ==> r == FindCookie(Split(cookies, ';'), name, decode)
  {
    if cookies == "" then None else FindCookie(Split(cookies, ';'), name, decode)
  }

  /** What the error handler decides for a failed request. */
  datatype Decision = RetryRequest | Reject

  /** One request's configuration: its address and the `_retry` mark. */
  class Request {
    const url: string
    var retried: bool

    constructor(url: string)
      ensures this.url == url && !retried
    {
      this.url := url;
      retried := false;
    }
  }

  const CsrfCookie := "csrftoken"
  const LogoutEvent := "auth-logout"

  /** The module-level state of the client. */
  class ApiClient {
    const decode: string -> string
    /** The fresh parse of `getCookie`: `ParseCookie` with `decode`. */
    const read: (string, string) -> Option<string>
    var cookieCache: map<string, Option<string>>
    var lastCookieString: string
    var currentCsrfToken: Option<string>
    /** The `X-CSRFToken` default header, None until first set. */
    var csrfHeader: Option<string>
    /** Whether `isAuthenticated` is in local storage. */
    var authenticatedFlag: bool
    /** The window events dispatched, in order. */
    var events: seq<string>

    /** Every cached entry is what a fresh parse of the last cookie string
        gives. */
    predicate CacheValid()
      reads this`cookieCache, this`lastCookieString
    {
      forall k :: k in cookieCache ==> cookieCache[k] == read(lastCookieString, k)
    }

    /** A token once recorded is the header in use. */
    predicate HeaderValid()
      reads this`currentCsrfToken, this`csrfHeader
    {
      currentCsrfToken.Some? ==> csrfHeader == currentCsrfToken
    }

    predicate Valid()
      reads this
    {
      CacheValid() && HeaderValid()
    }

    constructor(decode: string -> string, authenticatedFlag: bool)
      ensures this.decode == decode && this.authenticatedFlag == authenticatedFlag
      ensures forall c, n :: read(c, n) == ParseCookie(c, n, decode)
      ensures cookieCache == map[] && lastCookieString == "" && currentCsrfToken.None? && csrfHeader.None? && events == []
      ensures Valid()
    {
      this.decode := decode;
      read := (c: string, n: string) => ParseCookie(c, n, decode);
      this.authenticatedFlag := authenticatedFlag;
      cookieCache := map[];
      lastCookieString := "";
      currentCsrfToken := None;
      csrfHeader := None;
      events := [];
    }

    /** `getCookie`: the cached value when the cookie string is unchanged
        and the name was read before, otherwise a fresh parse, cached; a
        changed cookie string empties the cache first. The answer is always
        the fresh parse of the current cookies. */
    method GetCookie(name: string, cookies: string) returns (value: Option<string>)
      requires Valid()
      modifies this`cookieCache, this`lastCookieString
      ensures value == read(cookies, name)
      ensures lastCookieString == cookies
      ensures cookieCache == (if cookies == old(lastCookieString) then old(cookieCache) else map[])[name := value]
      ensures currentCsrfToken == old(currentCsrfToken) && csrfHeader == old(csrfHeader)
      ensures authenticatedFlag == old(authenticatedFlag) && events == old(events)
      ensures Valid()
    {
      if cookies == lastCookieString && name in cookieCache {
        value := cookieCache[name];
        return;
      }
      if cookies != lastCookieString {
        cookieCache := map[];
        lastCookieString := cookies;
      }
      value := read(cookies, name);
      cookieCache := cookieCache[name := value];
    }

    /** `setCsrfToken`: when the cookie holds a non-empty token different
        from the one last set, it becomes the header and the answer is
        true; otherwise nothing changes but the cookie cache. */
    method SetCsrfToken(cookies: string) returns (updated: bool)
      requires Valid()
      modifies this`cookieCache, this`lastCookieString, this`csrfHeader, this`currentCsrfToken
      ensures var token := read(cookies, CsrfCookie);
              updated <==> token.Some? && token.value != "" && token != old(currentCsrfToken)
      ensures updated ==> csrfHeader == read(cookies, CsrfCookie) && currentCsrfToken == csrfHeader
      ensures !updated ==> csrfHeader == old(csrfHeader) && currentCsrfToken == old(currentCsrfToken)
      ensures lastCookieString == cookies
      ensures authenticatedFlag == old(authenticatedFlag) && events == old(events)
      ensures Valid()
    {
      var token := GetCookie(CsrfCookie, cookies);
      assert CacheValid();
      if token.Some? && token.value != "" && token != currentCsrfToken {
        csrfHeader := token;
        currentCsrfToken := token;
        assert CacheValid() && HeaderValid();
        updated := true;
      } else {
        updated := false;
      }
    }

    /** The request rule: every request first brings the header in step
        with the cookie. After it, a non-empty token in the cookie is the
        header sent. */
    method OnRequest(cookies: string)
      requires Valid()
      modifies this`cookieCache, this`lastCookieString, this`csrfHeader, this`currentCsrfToken
      ensures var token := read(cookies, CsrfCookie);
              token.Some? && token.value != "" ==> csrfHeader == token
      ensures authenticatedFlag == old(authenticatedFlag) && events == old(events)
      ensures Valid()
    {
      var _ := SetCsrfToken(cookies);
    }

    /** The response error rule. A 403 whose detail mentions CSRF, on a
        request not yet retried, marks it retried, forgets the token and
        the cache, fetches a fresh token (its own request passing through
        the request rule with `cookiesNow`) and, when that succeeds, sets
        the header from `cookiesAfter` and retries. Otherwise, a 401 on any
        address but the login one clears the stored sign-in flag and
        dispatches `auth-logout`; the error is then passed on.
        `refreshed` says whether the token fetch succeeded. */
    method OnResponseError(req: Request, status: Option<int>, detail: string, cookiesNow: string,
                           refreshed: bool, cookiesAfter: string) returns (d: Decision)
      requires Valid()
      modifies this, req
      ensures var csrf := status == Some(403) && Contains(detail, "CSRF");
              && (d == RetryRequest <==> csrf && !old(req.retried) && refreshed)
              && req.retried == (old(req.retried) || csrf)
      ensures d == RetryRequest ==>
                var token := read(cookiesAfter, CsrfCookie);
                token.Some? && token.value != "" ==> csrfHeader == token
      ensures d == Reject && status == Some(401) && !Contains(req.url, "/login/") ==>
                !authenticatedFlag && events == old(events) + [LogoutEvent]
      ensures !(d == Reject && status == Some(401) && !Contains(req.url, "/login/")) ==>
                authenticatedFlag == old(authenticatedFlag) && events == old(events)
      ensures Valid()
    {
      if status == Some(403) && Contains(detail, "CSRF") && !req.retried {
        req.retried := true;
        currentCsrfToken := None;
        cookieCache := map[];
        OnRequest(cookiesNow);
        if refreshed {
          var _ := SetCsrfToken(cookiesAfter);
          return RetryRequest;
        }
      }
      if status == Some(401) && !Contains(req.url, "/login/") {
        authenticatedFlag := false;
        events := events + [LogoutEvent];
      }
      return Reject;
    }
  }

  /** A request is retried at most once: the second CSRF failure of the
      same request is passed on, however the token fetch goes. */
  method RetryOnce(decode: string -> string, url: string, detail: string, cookies: string)
    returns (first: Decision, second: Decision)
    requires Contains(detail, "CSRF")
    ensures first == RetryRequest && second == Reject
  {
    var client := new ApiClient(decode, true);
    var req := new Request(url);
    first := client.OnResponseError(req, Some(403), detail, cookies, true, cookies);
    second := client.OnResponseError(req, Some(403), detail, cookies, true, cookies);
  }
}
