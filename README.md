# hydra-bridge in Dafny

hydra-bridge is the login and consent application in front of an Ory Hydra
OAuth2/OIDC server. It does four things:

- It receives Hydra's `login_challenge` and `consent_challenge`.
- It verifies a user's credentials through a pluggable verifier (the
  "internal" plugin posts them to a login API).
- It keeps a single-sign-on session in an HMAC-signed `__bridge_session`
  cookie.
- It accepts the login and the consent through Hydra's admin API, injecting
  the user's claims into the ID and access tokens.

This project models the core of that program and proves properties about it:

- **Session cookie codec.** The signed cookie value is
  `base64url(payload) "." base64url(HMAC-SHA256)`. The model covers how it is
  verified and when a session is valid (`UiLogin`).
- **CSRF token.** The challenge-bound token is `base64url(SHA-256(secret ":" challenge))`.
- **Configuration and cookies.** The SameSite mode, the session TTL, and the
  three cookie builders (`UiServer`).
- **The two HTTP handlers**, `handleLogin` (`UiLogin`) and `handleConsent`
  (`UiConsent`). Each is a method that returns the response and the ordered
  trace of upstream calls it made. The trace lets a contract say that a call
  was *not* made, for example that credentials never reach a verifier without a
  valid CSRF token.
- **The verifier registry**, a class whose map is updated in place (`Plugins`).
- **The internal login plugin**: its request and the mapping of its reply (`Plugins`).
- **The Hydra admin gateway**: URL construction, verbs and reply classification (`Hydra`).

The library behaviour the program relies on is written out and proved rather
than assumed:

- Go's raw URL-safe base64 (`Base64Url`);
- `url.QueryEscape` and its inverse (`UrlEscape`);
- UTF-8 encoding of strings, `strings.Split`, `strings.TrimSpace` and ASCII
  lower-casing (`Text`).

Things the program cannot see into are parameters: HMAC-SHA256 and SHA-256,
the JSON encoders and decoders, the clock and the two HTTP transports.

- The JSON codecs are constrained only by the round-trip laws that the lemmas
  needing them require: `ClaimsRoundTrip` and `SessionRoundTrip`.
- The clock is the `now` argument, in Unix seconds.
- Each transport is a function from an outbound request to a reply.

Modelling decisions that follow the code rather than its description:

- **Lenient base64.** Go's base64 decoder skips CR and LF, and ignores unused
  low bits in the last character. So a cookie value other than the one that
  was signed can verify: `"AB.<tag>"` is accepted for the payload signed as
  `"AA.<tag>"`. The payload itself is still authenticated.
- **Cookies kept on a 500.** When Hydra refuses to accept a login, the cookies
  already written are kept on the 500 response.
- **Panic on a failed refetch.** After rejected credentials the login handler
  fetches the login request again and ignores that call's error
  (`internal/ui/login.go:183`). When that fetch fails, the handler dereferences
  a nil result. The model writes no response then (`Aborted`).
- **TTL overflow.** `SessionTTL` multiplies the configured seconds by one second
  in int64. Settings above 9223372036 seconds wrap around, and
  `SESSION_TTL_SECONDS=10000000000` gives a negative TTL. The login handler's
  seven-day fallback then applies on the POST path. On the single-sign-on GET
  path, Hydra is asked to remember the login for a negative time.
- **Unsigned user-info cookie.** `__bridge_user` carries no signature. Whatever
  claims a client puts in it are injected into both tokens at consent
  (`UiConsent.UserClaimsFromCookie`).

## Model

| member | source | states |
|---|---|---|
| Base64Url.DecodeEncode | internal/ui/login.go:42-51 | decoding the raw URL-safe base64 encoding of any bytes gives back exactly those bytes |
| Base64Url.EncodeAlphabet | internal/ui/login.go:42 | encoded text uses only A-Z a-z 0-9 - _, so it never contains the "." separator or a line break |
| Base64Url.Encode | internal/ui/server.go:96 | the unpadded encoding has four characters per three bytes, plus two or three for a tail of one or two bytes, all from the URL-safe alphabet |
| Base64Url.DecodeSucceeds | internal/ui/login.go:50-51 | decoding succeeds exactly when, once CR and LF are skipped, every character is in the URL-safe alphabet and the length is not 1 more than a multiple of 4 |
| Base64Url.DigestEncodingLength | internal/ui/server.go:94-97 | a 32-byte digest encodes to 43 characters |
| Base64Url.NonCanonicalDecode | internal/ui/login.go:50-51 | "AB" decodes to the same single zero byte as the canonical "AA", so decoding is not injective |
| Text.SplitJoin | internal/ui/login.go:46 | joining the pieces of strings.Split with the separator gives the input back, and no piece contains the separator |
| Text.SplitTwoPieces | internal/ui/login.go:46-49 | two separator-free strings joined by one separator split into exactly those two pieces |
| Text.Utf8Injective | internal/ui/server.go:95 | the string-to-bytes conversion is injective |
| Text.TrimSpacePadding | internal/ui/server.go:43 | TrimSpace ignores any leading and trailing Unicode white space |
| UrlEscape.QueryEscape | internal/hydra/admin.go:72 | an escaped value holds only letters, digits, "-_.~", "+" and "%", so never a '&' or '#', and unescapes to the UTF-8 bytes of the input |
| UrlEscape.UnescapeSucceeds | internal/hydra/admin.go:72 | unescaping succeeds exactly when every '%' is followed by two hex digits |
| UrlEscape.UnescapePlainText | internal/hydra/admin.go:72 | text without '%' or '+' unescapes to its own UTF-8 bytes |
| UrlEscape.QueryEscapeInjective | internal/hydra/admin.go:72 | distinct strings escape to distinct values |
| Json.OmitEmpty | internal/ui/login.go:28 | an `omitempty` claims field survives a round trip unless it is nil or empty, in which case it reads back as nil |
| Hydra.ChallengeUrl | internal/hydra/admin.go:71-105 | each URL is base, path, "?param=" and a value with no '&' or '#' that unescapes to exactly the challenge |
| Hydra.ChallengeUrlInjective | internal/hydra/admin.go:72 | distinct challenges address distinct URLs |
| Hydra.EndpointsDistinct | internal/hydra/admin.go:72-99 | the four endpoints (fetch and accept, login and consent) address four pairwise different URLs for the same challenge |
| Hydra.Classify | internal/hydra/admin.go:107-120 | a transport error is returned as is; a status of 300 or more is an error with that status and body; success exactly when the status is below 300 and the body decodes, giving the decoded value |
| Hydra.GetJson | internal/hydra/admin.go:107-120 | one GET with no body: a transport error passes through, a status of 300 or more is an error with that status and body, otherwise the decoded body or a decode error |
| Hydra.PutJson | internal/hydra/admin.go:122-140 | the same classification for one PUT carrying the encoded body |
| Hydra.GetLoginRequest | internal/hydra/admin.go:71-78 | one GET with no body of the login URL, classified |
| Hydra.AcceptLoginRequest | internal/hydra/admin.go:80-87 | one PUT of the encoded body to the login-accept URL, classified |
| Hydra.GetConsentRequest | internal/hydra/admin.go:89-96 | one GET with no body of the consent URL, classified |
| Hydra.AcceptConsentRequest | internal/hydra/admin.go:98-105 | one PUT of the encoded body to the consent-accept URL, classified |
| Plugins.AuthPlugin.Name | internal/plugins/internal_login.go:27 | the internal plugin is registered as "internal" |
| Plugins.LoginRequestOut | internal/plugins/internal_login.go:42-47 | a POST to loginAPI + "/login" carrying the username and password |
| Plugins.AuthResultOf | internal/plugins/internal_login.go:50-75 | transport error and status of 300 or more are errors; success exactly when the body decodes with `ok` set and a non-empty `user_id`, which becomes the subject, with the reply's claims |
| Plugins.Authenticate | internal/plugins/internal_login.go:41-76 | an accepted login always has a non-empty subject |
| Plugins.Registry.constructor | internal/plugins/registry.go:13-15 | a new registry is empty |
| Plugins.Registry.Register | internal/plugins/registry.go:17-21 | files the plugin under its own name, replacing an earlier one, and leaves every other name as it was |
| Plugins.Registry.Get | internal/plugins/registry.go:23-31 | found exactly when the name is registered, giving the plugin filed under it; otherwise the error "unknown provider: name" |
| UiServer.WrapInt64 | internal/ui/server.go:58 | the int64 result lies in range, equals the exact value when that is in range, and is always congruent to it modulo 2^64 |
| UiServer.DurationSeconds | internal/ui/server.go:131 | whole seconds of a nanosecond duration, truncated toward zero: for a non-negative duration the largest s with s seconds not above it, for a negative one the smallest s with s seconds not below it |
| UiServer.Config.SameSiteMode | internal/ui/server.go:42-52 | Strict exactly when the trimmed, lower-cased setting is "strict", None exactly when it is "none", Lax otherwise |
| UiServer.SameSiteIgnoresPadding | internal/ui/server.go:43 | white space around the setting does not change the mode |
| UiServer.SameSiteDefaultIsLax | internal/ui/server.go:49-50 | "" and "lax" give Lax |
| UiServer.SameSiteStrictIgnoresCase | internal/ui/server.go:43-45 | "Strict" gives Strict |
| UiServer.SameSiteNoneTrimmed | internal/ui/server.go:46-48 | " none " gives None |
| UiServer.Config.SessionTtl | internal/ui/server.go:54-59 | seven days when the setting is not positive; exactly the setting, and positive, when it fits the Duration range |
| UiServer.SessionTtlPositive | internal/ui/server.go:54-59 | for every setting up to 9223372036 seconds the TTL is positive and in whole seconds is the setting or 604800 |
| UiServer.SessionTtlOverflow | internal/ui/server.go:58 | a setting of 10000000000 seconds wraps to a negative TTL |
| UiServer.CsrfToken | internal/ui/server.go:94-97 | the token is 43 characters of the URL-safe alphabet |
| UiServer.CsrfInputInjective | internal/ui/server.go:95 | for one secret, distinct challenges hash distinct inputs |
| UiServer.CsrfTokenDeterminesDigest | internal/ui/server.go:95-96 | equal tokens mean equal SHA-256 digests |
| UiServer.ShortCookie | internal/ui/server.go:99-115 | the bridge attributes (path "/", HttpOnly, configured Domain, Secure and SameSite), the name and value, Max-Age and an expiry that many seconds after now |
| UiServer.SessionCookie | internal/ui/server.go:118-134 | the bridge attributes, with Max-Age and expiry equal to the TTL in whole seconds |
| UiServer.DeleteCookie | internal/ui/server.go:136-148 | the bridge attributes, an empty value, a negative Max-Age and an expiry at the epoch |
| UiServer.UserInfoCookieFor | internal/ui/login.go:89-93 | the `__bridge_user` cookie, living 1800 seconds, whose value decodes to the JSON of the claims |
| UiLogin.Mac | internal/ui/login.go:39-41 | the tag is a 32-byte digest, so its encoding in the cookie is always 43 characters |
| UiLogin.SignCookieValue | internal/ui/login.go:38-43 | the value splits on "." into exactly the encoded payload and the encoded HMAC, which decode back to the payload and to its HMAC |
| UiLogin.VerifyCookieValue | internal/ui/login.go:45-63 | an accepted value is two dot-free segments around one dot, decoding to the payload and to its HMAC under the secret |
| UiLogin.VerifyAccepts | internal/ui/login.go:45-63 | conversely every such value is accepted, with that payload |
| UiLogin.VerifyRejectsShape | internal/ui/login.go:46-49 | a value that does not split into exactly two parts is rejected |
| UiLogin.SignVerifyRoundTrip | internal/ui/login.go:38-63 | a signed payload verifies, giving back the payload, under the same secret |
| UiLogin.VerifyOtherSecret | internal/ui/login.go:56-61 | a value signed under one secret verifies under another exactly when the two HMACs coincide |
| UiLogin.NonCanonicalValueAccepted | internal/ui/login.go:50-51 | a payload segment other than the signed one ("AB" for "AA") is accepted with the same payload |
| UiLogin.ReadSession | internal/ui/login.go:65-86 | a session read has a non-empty subject, an expiry that is 0 or not yet passed, and comes from a verified cookie payload |
| UiLogin.ReadIssuedSession | internal/ui/login.go:65-86 | a cookie holding a signed session reads back as that session up to and including its expiry second, and not after it; expiry 0 never expires |
| UiLogin.IssuedSessionReadBack | internal/ui/login.go:200-216 | the session issued at login is read back by later requests until now + TTL seconds, for the same subject and claims, and refused after that |
| UiLogin.QueryProvider | internal/ui/login.go:104-107 | a non-empty query provider is used as given; an empty one falls back to the default |
| UiLogin.FormProvider | internal/ui/login.go:165-168 | a non-empty form provider is used as given; an empty one falls back to the default |
| UiLogin.EffectiveTtl | internal/ui/login.go:201-204 | the TTL used on login is the configured one when that is positive, and otherwise seven days (604800 whole seconds), so it is always positive |
| UiLogin.IssuedSession | internal/ui/login.go:206-211 | the session carries the authenticated subject and claims and is issued now |
| UiLogin.LoginResume | internal/ui/login.go:119-139 | a valid session accepts the login for its subject and claims, remembered for the configured TTL: 302 to Hydra's redirect or 500 with Hydra's error; the response carries exactly the user-info cookie for the session's claims when it has claims and no cookie otherwise; the form is never rendered and no session cookie is issued |
| UiLogin.LoginGet | internal/ui/login.go:110-153 | the login request is fetched first (failure: 500, nothing else called); with a valid session the single-sign-on path above; otherwise the form with the client and the challenge-bound CSRF token; the single-sign-on response's status, cookies and body are stated exactly as for LoginResume |
| UiLogin.LoginRejected | internal/ui/login.go:182-197 | rejected credentials re-render the form with 401 and "Invalid credentials"; the handler aborts when the refetch fails; nothing is accepted and no session is issued |
| UiLogin.LoginAccepted | internal/ui/login.go:200-233 | accepted credentials set the signed session cookie and the user-info cookie, then accept the login with the same subject, TTL and claims: 302 to Hydra's redirect with no body on success, 500 with Hydra's error otherwise, keeping both cookies |
| UiLogin.LoginPost | internal/ui/login.go:155-233 | a form parse error 400 and foreign CSRF token 403 before any upstream call; unknown provider 400; then rejected or accepted as above; credentials reach a verifier only with a valid CSRF token |
| UiLogin.HandleLogin | internal/ui/login.go:97-238 | missing challenge 400 and other methods 405, with no upstream call; Hydra is never asked to accept an empty subject; a session cookie is issued only after the credentials were accepted |
| UiConsent.ConsentChallenge | internal/ui/consent.go:23-30 | the query's challenge; on a POST, the form's when the query has none |
| UiConsent.UserClaims | internal/ui/consent.go:37-43 | an absent cookie, or one that is not base64 or not JSON, yields an empty claims map; otherwise the claims the JSON decodes to |
| UiConsent.UserClaimsFromCookie | internal/ui/consent.go:37-43 | whatever claims were encoded into the cookie are read back, whoever wrote it |
| UiConsent.UserInfoRoundTrip | internal/ui/consent.go:38-43 | the cookie set at login carries its claims, nil included, to the consent handler |
| UiConsent.Claim | internal/ui/consent.go:58-59 | a claim is present exactly when the map is not nil and holds the key |
| UiConsent.GrantBody | internal/ui/consent.go:81-89 | the consent grants exactly the requested scopes, remembered for 86400 seconds, with the same claims in the ID and access tokens |
| UiConsent.ConsentGet | internal/ui/consent.go:46-66 | one fetch (failure: 500), then the page with the client, requested scopes, name and email claims and the CSRF token |
| UiConsent.ConsentPost | internal/ui/consent.go:68-98 | a foreign CSRF token is 403 before any call; fetch then accept, each failure a 500; on success the user-info cookie is deleted and the browser redirected |
| UiConsent.HandleConsent | internal/ui/consent.go:22-103 | missing challenge 400 and other methods 405 with no upstream call; consent is accepted only on a POST with the challenge-bound CSRF token, for exactly the fetched request's scopes; the user-info cookie is cleared only after Hydra accepted |

## Left out

- Transports, HMAC-SHA256, SHA-256 and the JSON encoders and decoders are parameters. Their behaviour is constrained only by the round-trip laws the lemmas require.
- The clock is the `now` argument, in Unix seconds. Sub-second precision of `time.Now()` in cookie expiries is not modelled.
- HTML templates are not modelled: a page is its data record. A template rendering error is not modelled either. On the rejected-login path the 401 header is already written before the template runs (`internal/ui/login.go:192-195`), and elsewhere a template that has already written output keeps the 200, so such an error does not reliably turn into a 500.
- Error texts built from `err.Error()` are not modelled: an upstream error is carried as a structured value (`Upstream`), not as its formatted message.
- The HTTP headers of outbound requests (`Accept`, `Content-Type`) are not modelled, nor are `http.Redirect`'s body and the `/healthz` route.
- The timeouts (the 15 s login context, the 10 s Hydra admin client at `internal/hydra/admin.go:22`, the 8 s plugin client) are not modelled. A timed-out call is a transport error returned by the transport argument.
- The `Location` header is Hydra's `redirect_to` exactly as returned (`internal/ui/login.go:138,233`, `internal/ui/consent.go:98`). `http.Redirect`'s resolution of a relative target against the request path, its path cleaning and its escaping of non-ASCII characters are not modelled.
- Only the shipped internal plugin is a verifier: the set of verifier kinds is closed. The guarantee that Hydra is never asked to accept an empty subject rests on that plugin's reply mapping (`internal/plugins/internal_login.go:67-69`); `handleLogin` itself (`internal/ui/login.go:200-227`) does not check the subject, so a third-party verifier returning an empty subject is not captured.
- `hmac.Equal` is modelled as plain equality. Its constant running time is a timing property outside the model.
- The registry's mutex: the model is sequential, so the concurrency it guards is not captured.
- The JSON encode-error path of `putJSON` (`internal/hydra/admin.go:124-126`) is not modelled: the encoder oracle always succeeds.
- JSON numbers are integers in the model; floating-point claim values are not represented.
- UiServer.DurationSeconds: `int(ttl.Seconds())` goes through float64. The model truncates the exact quotient toward zero, so rounding for TTLs above 2^53 nanoseconds is not captured.
- Text.ToLowerAscii: `strings.ToLower` also maps non-ASCII letters. Only ASCII is lowered, so a setting that becomes "strict" or "none" only through a non-ASCII mapping is not captured.
- Strings are sequences of Unicode scalar values: Go strings holding invalid UTF-8 are not represented.
- A request's form is the set of well-formed pairs of its body and its query, plus a flag for whether `ParseForm` reported an error (a malformed pair in either, or an unreadable body). `url.ParseQuery` skips malformed pairs, so the pairs stay usable when the flag is set: the login handler answers 400 on the flag (`internal/ui/login.go:156-158`), while the consent handler ignores it and reads `consent_challenge` and `csrf` from the kept pairs (`internal/ui/consent.go:26-28,69`). Repeated keys are reduced to their first value, which is all `Values.Get` returns.
- The `name` and `email` fields of the consent page are the raw claim values; `fmt.Sprint` formatting (for example `<nil>` for a missing claim) is not modelled.
- Int64 overflow of `iat`/`exp` in the session (`now + seconds`) is not modelled: they are unbounded integers.
- That each operation makes exactly one HTTP attempt is not stated: a transport is a function, so repeated attempts are indistinguishable from one.
- `cmd/server/main.go` (environment loading, wiring), the mock login API, the mock relying party and `internal/ui/success.go` are not part of this model.
