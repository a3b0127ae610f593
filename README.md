# flask_tinyauth authorization core, modelled in Dafny

`flask_tinyauth` is authorization middleware for Flask applications. For
each protected call it builds a resource name (an "ARN") from the
configured partition, service and region. It asks a remote
authorization service whether the caller holds a permission on that
resource, and then enforces the answer in one of three ways: a 401, a
redirect to the login page, or a raised exception. It also runs the login
exchange with the same service and manages the session and CSRF cookies.

This project models that core in five modules:

- `Values` (values.dfy): `Option`, `Result` and a `Json` value type.
- `Exceptions` (exceptions.dfy): the `AuthorizationFailed` family, plus the
  `KeyError` and foreign exceptions that the code does not catch.
- `Api` (api.dfy): the configuration, `get_arn_base`, `format_arn`, and the
  URL, auth pair, headers and body that `call` hands to `requests`.
- `Authorize` (authorize.dfy): `authorize` and the three policies
  `authorize_or_401`, `authorize_or_login` and `authorize_or_raise`. The
  remote service is a `Reply` parameter: either `Raised(error)` or
  `Returned(body)`. `PlanAuthorize` says whether a post is sent at all,
  which is how "bypass makes no call" is stated. Each policy returns an
  `Action`: `Continue(decision)`, `Abort401(body)`, `Redirect(url, 302)` or
  `Raise(error)`.
- `Login` (login.dfy): `login_post` and `logout` as methods. Each creates a
  `Response` object and appends to its `cookies` sequence, one `SetCookie`
  call per `set_cookie` call. Every cookie records the attributes the code
  passes. "Now" is an integer number of seconds.

## Where the code differs from the intended behaviour

The model follows the code in each case below.

- Resource names. The intended resource name has no `arn` prefix. The
  intended separator between the region and the class is written both as
  `::` and as a single colon; the code's `::` matches the first form. The code joins `"arn"`,
  partition, service, region and `""` with colons, and then joins that to
  `class/resource` with one more colon. The result is
  `arn:tinyauth:test:default::res_class/res_key` (see `Api.TestConfigArns`).
- Service URL. `call` builds `endpoint + "v1/services/..."` with no
  `api/` segment. The login test expects
  `http://localhost/api/v1/services/test/get-token-for-login` under endpoint
  `http://localhost/`. For every configuration, the code puts `v1/`
  directly after the configured endpoint, never `api/v1/`
  (see `Api.UrlNeverHasApiSegment`).
- Logout. The intended behaviour is to clear both cookies on every logout.
  The code clears only the cookies present on the incoming request, so a
  request without cookies gets no `set_cookie` call at all
  (see `Login.LogoutWithoutCookiesSetsNothing`).
- Transport failures. The intended client wraps connection failures into
  the package's `ConnectionError`. `call` wraps nothing, and no code in the
  package raises any `AuthorizationFailed` subclass. Only a
  `Raised(AuthorizationFailed(_))` reply is caught by the 401 and login
  policies. Any other exception (`OtherError`, for example one raised by
  `requests`) propagates through all three policies
  (see `Authorize.TransportErrorPropagates`).
- Raise policy. `authorize_or_raise` catches nothing, so a remote
  `AuthorizationFailed` propagates with its own kind. A denial raises the
  base class (`Plain`).
- Missing `Authorized` key. A decision without this key raises a `KeyError`
  under every policy. It is not treated as a denial.

## Model

| member | source | states |
|---|---|---|
| `Api.GetArnBase` | flask_tinyauth/api.py:8-15 | the base is exactly `"arn:" + partition + ":" + service + ":" + region + ":"` |
| `Api.FormatArn` | flask_tinyauth/api.py:18-22 | a resource name is exactly the base, a colon, the class, a slash and the resource |
| `Api.ArnBaseDefaults` | flask_tinyauth/api.py:11-13 | an unset partition is `tinyauth` and an unset region is `default` |
| `Api.ArnBaseEndsInSeparator` | flask_tinyauth/api.py:9-15 | the base ends in a colon, and in exactly one when the region is non-empty and does not end in a colon |
| `Api.FormatArnExtendsBase` | flask_tinyauth/api.py:18-22 | the base is a strict prefix of every name, `::` follows the region, and `class/resource` follows that |
| `Api.FormatArnEmptyResource` | flask_tinyauth/api.py:18-21 | with the default empty resource the name still ends in `class/` |
| `Api.ArnDependsOnIdentityOnly` | flask_tinyauth/api.py:8-22 | names depend only on partition, service and region, not on endpoint, keys or bypass |
| `Api.UrlNeverHasApiSegment` | flask_tinyauth/api.py:26-30 | for every configuration and API name, the URL is not `endpoint + "api/v1/services/<service>/<api>"`: the code has no `api/` segment |
| `Api.CallUrlDeterminesApi` | flask_tinyauth/api.py:26-30 | under one configuration, two API names that reach the same URL are equal |
| `Api.BuildCall` | flask_tinyauth/api.py:25-40 | the post goes to that URL, uses the access key pair as basic auth, sets Accept and Content-Type (and only those) to `application/json`, and sends the request value unchanged |
| `Api.TestConfigArns` | flask_tinyauth/tests/test_login.py:17-31 | under the test configuration the base is `arn:tinyauth:test:default:` and the test resource is `arn:tinyauth:test:default::res_class/res_key` |
| `Api.TestLoginCallUrl` | flask_tinyauth/tests/test_login.py:56 | the login URL the code builds is `http://localhost/v1/services/test/get-token-for-login`, which is not the one the test expects |
| `Authorize.BuildContext` | flask_tinyauth/authorize.py:14-18 | the context holds SourceIp and RequestDateTime, each caller key overrides or adds its value, built-in values stay where the caller gives none, and an absent ctx adds nothing |
| `Authorize.ResourceArn` | flask_tinyauth/authorize.py:20-23 | a non-empty class gives `format_arn(class, resource)`; the name equals the base exactly when the class is absent or empty; the base is always a prefix |
| `Authorize.HeadersRoundTrip` | flask_tinyauth/authorize.py:29 | the forwarded headers read back as exactly the request's name/value pairs, in wire order |
| `Authorize.PermissionRequestShape` | flask_tinyauth/authorize.py:25-31 | the request has exactly `permit`, `headers` and `context`; `permit` maps the one permission to a one-element list holding the resource name |
| `Authorize.PlanAuthorize` | flask_tinyauth/authorize.py:8-31 | bypass answers `{"Authorized": true}` with no post; otherwise exactly one post is sent, the `call` to `authorize-by-token` with the permission request as body (URL, auth pair and headers included) |
| `Authorize.Authorize` | flask_tinyauth/authorize.py:8-31 | with bypass the outcome is `{"Authorized": true}` whatever the service would say; otherwise it is the remote reply unchanged, exception or body |
| `Authorize.AuthorizeOr401` | flask_tinyauth/authorize.py:34-43 | a caught AuthorizationFailed gives 401 with body exactly `{"Authorized": false}`; a value other than exactly true gives 401 with the whole decision; a missing key or an uncaught exception is raised; an allow continues with the decision |
| `Authorize.AuthorizeOrLogin` | flask_tinyauth/authorize.py:46-55 | a caught failure and a value other than exactly true both give a 302 redirect to the login URL; a missing key or an uncaught exception is raised; an allow continues with the decision |
| `Authorize.AuthorizeOrRaise` | flask_tinyauth/authorize.py:58-64 | any remote exception propagates unchanged; a value other than exactly true raises the base AuthorizationFailed; an allow continues with the decision |
| `Authorize.BypassGrantsWithoutCall` | flask_tinyauth/authorize.py:9-12 | with bypass no post is planned, the reply is irrelevant, and all three policies continue with `{"Authorized": true}` |
| `Authorize.PoliciesAgreeOnAllow` | flask_tinyauth/authorize.py:34-64 | the three policies continue on the same inputs, exactly when the decision is exactly true, and they return the same, unchanged decision |
| `Authorize.RemoteFailureHandling` | flask_tinyauth/authorize.py:35-38 | a raised AuthorizationFailed of any kind fails closed: 401 with the synthesized body, or a redirect to login; under the raise policy it propagates with its kind |
| `Authorize.TransportErrorPropagates` | flask_tinyauth/api.py:29-40 | an exception that is not an AuthorizationFailed (what a transport failure raises, since `call` wraps nothing) propagates unchanged under all three policies |
| `Authorize.MissingAuthorizedKey` | flask_tinyauth/authorize.py:40-41 | a decision without `Authorized` raises KeyError under every policy, not AuthorizationFailed |
| `Authorize.OnlyExactTrueAllows` | flask_tinyauth/authorize.py:40-62 | every `Authorized` value other than the boolean true, truthy or not, denies: a 401 carrying the decision, a redirect to login, or the base AuthorizationFailed |
| `Authorize.TestPermit` | flask_tinyauth/tests/test_login.py:24-27 | the test route's request has permit `{"TestPermission": ["arn:tinyauth:test:default::res_class/res_key"]}` |
| `Authorize.TestPolicies` | flask_tinyauth/tests/test_authorize.py:40-76 | an allow lets both routes run; a denial is a 401 with body `{"Authorized": false}`, or, for loginUrl = `http://localhost/login` (an input, since `url_for` is not modelled), a 302 to that URL |
| `Login.Response.FromJson` | flask_tinyauth/login.py:72 | `jsonify` gives status 200 with the JSON body and no cookies |
| `Login.Response.Redirect` | flask_tinyauth/login.py:40 | `redirect` gives status 302 to the URL with no cookies |
| `Login.Response.SetCookie` | flask_tinyauth/login.py:73-75 | each call appends exactly one cookie with the given attributes and changes nothing else |
| `Login.LoginPost` | flask_tinyauth/login.py:59-77 | posts `get-token-for-login` with the credential body; a raised call and a missing `token` propagate; otherwise a fresh 200 response with body `{}` and exactly the login cookies |
| `Login.Logout` | flask_tinyauth/login.py:38-48 | always a fresh 302 to `/login`, whose cookies are exactly the logout clearings for the request's cookies |
| `Login.LoginCookieSet` | flask_tinyauth/login.py:73-75 | one or two cookies: `tinysess` first with the token, then `tinycsrf` with the csrf value exactly when the key `csrf` is present |
| `Login.LoginCookieAttributes` | flask_tinyauth/login.py:70-75 | every login cookie is secure and expires `now + 8h`; only `tinysess` is http-only |
| `Login.LogoutClearsOnlyPresent` | flask_tinyauth/login.py:42-46 | a cookie is cleared exactly when the request carried it, to `""` with expiry 0, and no other cookie is set |
| `Login.LogoutWithoutCookiesSetsNothing` | flask_tinyauth/login.py:42-46 | a request without login cookies gets no cookie at all |
| `Login.TestLoginPost` | flask_tinyauth/tests/test_login.py:40-65 | the credential body equals the test's; a reply whose `csrf` is `""` still sets both cookies |

## Left out

- HTTP transport: the shared `requests.Session`, the post itself and `.json()` decoding are not modelled. The service's answer is the `Reply` parameter.
- Wall clock: `datetime.utcnow()` and `isoformat()` are not modelled. The request timestamp string and "now" in seconds are parameters.
- Flask plumbing: `request.remote_addr`, `request.headers.to_wsgi_list()` and `request.cookies` become fields of `RequestEnv` and a set of cookie names. `url_for('login.login')` becomes the `loginUrl` parameter. `abort`, `make_response`, `jsonify` and the werkzeug `Redirect` exception (flask_tinyauth/redirect.py) become `Action` values.
- Routing, template rendering (`login`) and static file serving (`login_static`): user interface and file I/O, with no decision logic.
- `reqparse` argument parsing: username and password are given strings. The 400 response for missing fields is not modelled.
- Python truthiness of arbitrary values: the bypass setting is a `bool`, the resource class an optional string, and ctx an optional map.
- Missing required settings (`TINYAUTH_SERVICE`, `TINYAUTH_ENDPOINT` and the key pair) would raise `KeyError`. The model makes them required fields of `Config` instead.
- JSON replies that are not objects, and floating-point JSON numbers: the remote body is a map from strings to `Json`, and numbers are integers.
- Cookie attributes the code never passes (path, domain, max-age, same-site) and the cookie header encoding.
- The HTML body of a redirect response (`json` is `None` there).
- Packaging, re-exports and the demo application: they contain no logic.
