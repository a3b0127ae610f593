/** The login exchange and logout: a response object whose cookie list
    grows with each `set_cookie` call. "Now" is an input, in seconds since
    the epoch. */
module Login {
  import opened Values
  import opened Exceptions
  import opened Api

  const LoginApi := "get-token-for-login"
  const SessionCookie := "tinysess"
  const CsrfCookie := "tinycsrf"
  const LoginPage := "/login"

  /** Both login cookies expire eight hours after issuance. */
  const SessionLifetime := 8 * 60 * 60

  /** The arguments of one `set_cookie` call that this package makes; an
      argument left out takes the framework default (not http-only, not
      secure). */
  datatype Cookie = Cookie(name: string, value: Json, httpOnly: bool, secure: bool, expires: int)

  /** A response under construction. */
  class Response {
    var status: int
    var json: Option<Json>
    var location: Option<string>
    var cookies: seq<Cookie>

    /** `jsonify(body)`: status 200, no cookies yet. */
    constructor FromJson(body: Json)
      ensures status == 200 && json == Some(body) && location == None && cookies == []
    {
      status := 200;
      json := Some(body);
      location := None;
      cookies := [];
    }

    /** `redirect(url)`: status 302 to `url`, no cookies yet. */
    constructor Redirect(url: string)
      ensures status == 302 && json == None && location == Some(url) && cookies == []
    {
      status := 302;
      json := None;
      location := Some(url);
      cookies := [];
    }

    method SetCookie(name: string, value: Json, httpOnly: bool, secure: bool, expires: int)
      modifies this
      ensures cookies == old(cookies) + [Cookie(name, value, httpOnly, secure, expires)]
      ensures status == old(status) && json == old(json) && location == old(location)
    {
      cookies := cookies + [Cookie(name, value, httpOnly, secure, expires)];
    }
  }

  /** The credential request: username, password and the cookie CSRF strategy. */
  function LoginRequest(username: string, password: string): Json
  {
    JObj(map["username" := JStr(username), "password" := JStr(password), "csrf-strategy" := JStr("cookie")])
  }

  /** The cookies a successful login sets, in order. */
  function LoginCookies(tokens: map<string, Json>, now: int): seq<Cookie>
    requires "token" in tokens
  {
    var expires := now + SessionLifetime;
    [Cookie(SessionCookie, tokens["token"], true, true, expires)] +
    (if "csrf" in tokens then [Cookie(CsrfCookie, tokens["csrf"], false, true, expires)] else [])
  }

  /** A cookie reset to the empty value with an expiry at the epoch. */
  function Expired(name: string): Cookie
  {
    Cookie(name, JStr(""), false, false, 0)
  }

  /** The cookies logout clears: only those the request carried. */
  function LogoutCookies(requestCookies: set<string>): seq<Cookie>
  {
    (if SessionCookie in requestCookies then [Expired(SessionCookie)] else []) +
    (if CsrfCookie in requestCookies then [Expired(CsrfCookie)] else [])
  }

  predicate SetsCookie(cookies: seq<Cookie>, name: string)
  {
    exists i :: 0 <= i < |cookies| && cookies[i].name == name
  }

  /** `login_post`: post the credentials, then on a reply carrying a token
      build an empty JSON response and set the session cookie, and the CSRF
      cookie when the reply has a `csrf` key. A raised call and a missing
      token propagate as exceptions. */
  method LoginPost(cfg: Config, username: string, password: string, now: int, reply: Reply)
    returns (post: HttpPost, result: Result<Response, Error>)
    ensures post == BuildCall(cfg, LoginApi, LoginRequest(username, password))
    ensures reply.Raised? ==> result == Err(reply.error)
    ensures reply.Returned? && "token" !in reply.body ==> result == Err(KeyError("token"))
    ensures reply.Returned? && "token" in reply.body ==>
      && result.Ok? && fresh(result.value)
      && result.value.status == 200
      && result.value.json == Some(JObj(map[]))
      && result.value.location == None
      && result.value.cookies == LoginCookies(reply.body, now)
  {
    post := BuildCall(cfg, LoginApi, LoginRequest(username, password));
    if reply.Raised? {
      result := Err(reply.error);
      return;
    }
    var tokens := reply.body;
    var expires := now + SessionLifetime;
    var response := new Response.FromJson(JObj(map[]));
    if "token" !in tokens {
      result := Err(KeyError("token"));
      return;
    }
    response.SetCookie(SessionCookie, tokens["token"], true, true, expires);
    if "csrf" in tokens {
      response.SetCookie(CsrfCookie, tokens["csrf"], false, true, expires);
    }
    result := Ok(response);
  }

  /** `logout`: redirect to the login page, clearing each login cookie the
      request carried. */
  method Logout(requestCookies: set<string>) returns (response: Response)
    ensures fresh(response)
    ensures response.status == 302 && response.location == Some(LoginPage) && response.json == None
    ensures response.cookies == LogoutCookies(requestCookies)
  {
    response := new Response.Redirect(LoginPage);
    if SessionCookie in requestCookies {
      response.SetCookie(SessionCookie, JStr(""), false, false, 0);
    }
    if CsrfCookie in requestCookies {
      response.SetCookie(CsrfCookie, JStr(""), false, false, 0);
    }
  }

  // ----- Properties of the cookie contract -----

  /** Login sets one or two cookies: the session cookie first, holding the
      token, and the CSRF cookie exactly when the reply has a `csrf` key. */
  lemma LoginCookieSet(tokens: map<string, Json>, now: int)
    requires "token" in tokens
    ensures var cs := LoginCookies(tokens, now);
      && |cs| == (if "csrf" in tokens then 2 else 1)
      && cs[0].name == SessionCookie && cs[0].value == tokens["token"]
      && SetsCookie(cs, SessionCookie)
      && (SetsCookie(cs, CsrfCookie) <==> "csrf" in tokens)
      && ("csrf" in tokens ==> cs[1].name == CsrfCookie && cs[1].value == tokens["csrf"])
  {
    var cs := LoginCookies(tokens, now);
    assert cs[0].name == SessionCookie;
    if "csrf" in tokens {
      assert cs[1].name == CsrfCookie;
    }
  }

  /** Every login cookie is secure and expires eight hours after `now`; the
      session cookie is http-only and the CSRF cookie is not. */
  lemma LoginCookieAttributes(tokens: map<string, Json>, now: int)
    requires "token" in tokens
    ensures var cs := LoginCookies(tokens, now);
      forall i :: 0 <= i < |cs| ==>
        && cs[i].secure
        && cs[i].expires == now + 8 * 3600
        && (cs[i].httpOnly <==> cs[i].name == SessionCookie)
  {
  }

  /** Logout clears a cookie exactly when the request carried it, always to
      the empty value at the epoch, and sets nothing else. */
  lemma LogoutClearsOnlyPresent(requestCookies: set<string>)
    ensures var cs := LogoutCookies(requestCookies);
      && (SetsCookie(cs, SessionCookie) <==> SessionCookie in requestCookies)
      && (SetsCookie(cs, CsrfCookie) <==> CsrfCookie in requestCookies)
      && forall i :: 0 <= i < |cs| ==>
           && cs[i].name in requestCookies
           && (cs[i].name == SessionCookie || cs[i].name == CsrfCookie)
           && cs[i] == Expired(cs[i].name)
  {
    var cs := LogoutCookies(requestCookies);
    if SessionCookie in requestCookies {
      assert cs[0].name == SessionCookie;
    }
    if CsrfCookie in requestCookies {
      assert cs[|cs| - 1].name == CsrfCookie;
    }
  }

  /** A request without login cookies gets no `set_cookie` call at all: the
      code does not clear both cookies unconditionally. */
  lemma LogoutWithoutCookiesSetsNothing(requestCookies: set<string>)
    requires SessionCookie !in requestCookies && CsrfCookie !in requestCookies
    ensures LogoutCookies(requestCookies) == []
  {
  }

  // ----- The scenario of the package's login test -----

  /** The test's credential body, and a reply whose `csrf` is the empty
      string still setting both cookies. */
  lemma TestLoginPost(now: int)
    ensures LoginRequest("root", "password") ==
      JObj(map["csrf-strategy" := JStr("cookie"), "username" := JStr("root"), "password" := JStr("password")])
    ensures var cs := LoginCookies(map["token" := JStr(""), "csrf" := JStr("")], now);
      |cs| == 2 && cs[0].name == SessionCookie && cs[1].name == CsrfCookie && cs[1].value == JStr("")
  {
  }
}
