/**
 * internal/ui/login.go: the HMAC-signed bridge session cookie and the login
 * handler, which either accepts the login from a valid session (single sign-on),
 * shows the login form, or checks the posted form and credentials, issues a
 * session and accepts the login with Hydra.
 */
module UiLogin {
  import opened Wrappers
  import opened Text
  import opened Json
  import opened Http
  import opened Crypto
  import opened UiServer
  import Base64Url
  import Hydra
  import Plugins

  /** `bridgeSession`: subject, claims, issued-at and expiry (Unix seconds; 0 means no expiry). */
  datatype Session = Session(sub: string, claims: Claims, iat: int, exp: int)

  /** `json.Marshal` and `json.Unmarshal` of a session. */
  datatype SessionCodec = SessionCodec(marshal: Session -> seq<byte>, unmarshal: seq<byte> -> Option<Session>)

  /** The JSON law: a session reads back as itself, its claims through `omitempty`. */
  ghost predicate SessionRoundTrip(codec: SessionCodec) {
    forall s: Session {:trigger codec.marshal(s)} ::
      codec.unmarshal(codec.marshal(s)) == Some(s.(claims := OmitEmpty(s.claims)))
  }

  // ---------------------------------------------------------------------------
  // Signed cookie value
  // ---------------------------------------------------------------------------

  /**
   * The tag: HMAC-SHA256 of the payload under the configured secret's bytes, a
   * 32-byte digest, so the tag segment of a signed value is 43 characters.
   */
  function Mac(crypto: Primitives, secret: string, payload: seq<byte>): (t: Digest)
    ensures |Base64Url.Encode(t)| == 43
  {
    crypto.hmacSha256(Utf8(secret), payload)
  }

  /**
   * `signCookieValue`: base64url(payload) "." base64url(tag). Neither segment
   * holds a '.', so the value splits into exactly those two segments, which
   * decode to the payload and to its tag.
   */
  function SignCookieValue(crypto: Primitives, secret: string, payload: seq<byte>): (v: string)
    ensures Split(v, '.') == [Base64Url.Encode(payload), Base64Url.Encode(Mac(crypto, secret, payload))]
    ensures Base64Url.Decode(Split(v, '.')[0]) == Some(payload)
    ensures Base64Url.Decode(Split(v, '.')[1]) == Some(Mac(crypto, secret, payload))
  {
    var tag := Mac(crypto, secret, payload);
    var a, b := Base64Url.Encode(payload), Base64Url.Encode(tag);
    Base64Url.EncodeAlphabet(payload);
    Base64Url.EncodeAlphabet(tag);
    Base64Url.DecodeEncode(payload);
    Base64Url.DecodeEncode(tag);
    SplitTwoPieces(a, '.', b);
    a + "." + b
  }

  /**
   * `verifyCookieValue`: split on ".", require exactly two parts, decode both, and
   * accept the payload only when the decoded tag equals its HMAC under the secret.
   * An accepted value is a dot-free payload segment, a dot and a dot-free tag
   * segment, decoding to the payload and to its HMAC.
   */
  function VerifyCookieValue(crypto: Primitives, secret: string, v: string): (r: Option<seq<byte>>)
    ensures r.Some? ==>
      exists a, b {:trigger Base64Url.Decode(a), Base64Url.Decode(b)} ::
        && v == a + "." + b && '.' !in a && '.' !in b
        && Base64Url.Decode(a) == Some(r.value)
        && Base64Url.Decode(b) == Some(Mac(crypto, secret, r.value))
  {
    var parts := Split(v, '.');
    if |parts| != 2 then None
    else
      var payload, sig := Base64Url.Decode(parts[0]), Base64Url.Decode(parts[1]);
      if payload.None? || sig.None? then None
      else if sig.value != Mac(crypto, secret, payload.value) then None
      else
        SplitJoin(v, '.');
        assert parts[1..] == [parts[1]];
        assert v == parts[0] + "." + parts[1];
        Some(payload.value)
  }

  /** Any value of two dot-free segments that decode to a payload and its HMAC is accepted. */
  lemma VerifyAccepts(crypto: Primitives, secret: string, a: string, b: string, p: seq<byte>)
    requires '.' !in a && '.' !in b
    requires Base64Url.Decode(a) == Some(p) && Base64Url.Decode(b) == Some(Mac(crypto, secret, p))
    ensures VerifyCookieValue(crypto, secret, a + "." + b) == Some(p)
  {
    SplitTwoPieces(a, '.', b);
  }

  /** A value of other than two dot-separated parts is rejected. */
  lemma VerifyRejectsShape(crypto: Primitives, secret: string, v: string)
    requires |Split(v, '.')| != 2
    ensures VerifyCookieValue(crypto, secret, v).None?
  {
  }

  /** Round trip: a signed payload verifies under the same secret. */
  lemma SignVerifyRoundTrip(crypto: Primitives, secret: string, p: seq<byte>)
    ensures VerifyCookieValue(crypto, secret, SignCookieValue(crypto, secret, p)) == Some(p)
  {
    var tag := Mac(crypto, secret, p);
    Base64Url.EncodeAlphabet(p);
    Base64Url.EncodeAlphabet(tag);
    Base64Url.DecodeEncode(p);
    Base64Url.DecodeEncode(tag);
    VerifyAccepts(crypto, secret, Base64Url.Encode(p), Base64Url.Encode(tag), p);
  }

  /** A value signed under one secret verifies under another exactly when the two tags coincide. */
  lemma VerifyOtherSecret(crypto: Primitives, k1: string, k2: string, p: seq<byte>)
    ensures VerifyCookieValue(crypto, k2, SignCookieValue(crypto, k1, p)).Some?
        <==> Mac(crypto, k2, p) == Mac(crypto, k1, p)
  {
    var tag := Mac(crypto, k1, p);
    Base64Url.EncodeAlphabet(p);
    Base64Url.EncodeAlphabet(tag);
    Base64Url.DecodeEncode(p);
    Base64Url.DecodeEncode(tag);
    SplitTwoPieces(Base64Url.Encode(p), '.', Base64Url.Encode(tag));
  }

  lemma SignedZeroByte(crypto: Primitives, secret: string)
    ensures SignCookieValue(crypto, secret, [0]) == "AA" + "." + Base64Url.Encode(Mac(crypto, secret, [0]))
  {
    Base64Url.EncodeZeroByte();
  }

  lemma NonCanonicalZeroByte(crypto: Primitives, secret: string)
    ensures VerifyCookieValue(crypto, secret, "AB" + "." + Base64Url.Encode(Mac(crypto, secret, [0]))) == Some([0])
  {
    var t := Mac(crypto, secret, [0]);
    Base64Url.DecodeNonCanonicalZeroByte();
    Base64Url.EncodeAlphabet(t);
    Base64Url.DecodeEncode(t);
    VerifyAccepts(crypto, secret, "AB", Base64Url.Encode(t), [0]);
  }

  /**
   * Go's lenient base64 decoding lets a value other than the signed one through:
   * the payload segment "AB" is accepted in place of the canonical "AA", still
   * carrying the same payload.
   */
  lemma NonCanonicalValueAccepted(crypto: Primitives, secret: string)
    ensures var tag := Base64Url.Encode(Mac(crypto, secret, [0]));
      && SignCookieValue(crypto, secret, [0]) == "AA" + "." + tag
      && VerifyCookieValue(crypto, secret, "AB" + "." + tag) == Some([0])
  {
    SignedZeroByte(crypto, secret);
    NonCanonicalZeroByte(crypto, secret);
  }

  // ---------------------------------------------------------------------------
  // Reading the session
  // ---------------------------------------------------------------------------

  /**
   * `readSessionFromRequest`: no session when the cookie is absent or empty, fails
   * verification, is not session JSON, has expired (`exp > 0 && now > exp`) or has
   * an empty subject. A session returned carries a verified payload, a subject and
   * an expiry not yet passed.
   */
  function ReadSession(crypto: Primitives, secret: string, codec: SessionCodec, cookies: map<string, string>, now: int)
    : (r: Option<Session>)
    ensures r.Some? ==> r.value.sub != "" && (r.value.exp <= 0 || now <= r.value.exp)
    ensures r.Some? ==>
      && BridgeSessionCookie in cookies
      && VerifyCookieValue(crypto, secret, cookies[BridgeSessionCookie]).Some?
      && codec.unmarshal(VerifyCookieValue(crypto, secret, cookies[BridgeSessionCookie]).value) == Some(r.value)
  {
    if BridgeSessionCookie !in cookies || cookies[BridgeSessionCookie] == "" then None
    else
      match VerifyCookieValue(crypto, secret, cookies[BridgeSessionCookie])
      case None => None
      case Some(payload) =>
        match codec.unmarshal(payload)
        case None => None
        case Some(sess) =>
          if sess.exp > 0 && now > sess.exp then None
          else if sess.sub == "" then None
          else Some(sess)
  }

  /**
   * A cookie carrying a signed session is read back as that session (claims through
   * `omitempty`) up to and including its expiry second, and not after it; an expiry
   * of 0 never expires.
   */
  lemma ReadIssuedSession(crypto: Primitives, secret: string, codec: SessionCodec, s: Session,
                          cookies: map<string, string>, now: int)
    requires SessionRoundTrip(codec) && s.sub != ""
    requires BridgeSessionCookie in cookies
    requires cookies[BridgeSessionCookie] == SignCookieValue(crypto, secret, codec.marshal(s))
    ensures ReadSession(crypto, secret, codec, cookies, now)
         == if s.exp > 0 && now > s.exp then None else Some(s.(claims := OmitEmpty(s.claims)))
  {
    SignVerifyRoundTrip(crypto, secret, codec.marshal(s));
    assert codec.unmarshal(codec.marshal(s)) == Some(s.(claims := OmitEmpty(s.claims)));
  }

  // ---------------------------------------------------------------------------
  // The login handler
  // ---------------------------------------------------------------------------

  /** `loginPageData`: what the login form is rendered with. */
  datatype LoginPageData = LoginPageData(
    loginChallenge: string, clientId: string, clientName: string, provider: string, csrf: string, error: string)

  function LoginChallenge(r: Request): string {
    Get(r.query, "login_challenge")
  }

  /** The provider from the query, or the default one when it is empty. */
  function QueryProvider(cfg: Config, r: Request): (p: string)
    ensures Get(r.query, "provider") == "" ==> p == cfg.defaultProv
    ensures Get(r.query, "provider") != "" ==> p == Get(r.query, "provider")
  {
    var p := Get(r.query, "provider");
    if p == "" then cfg.defaultProv else p
  }

  /** The provider from the form, or the default one when it is empty. */
  function FormProvider(cfg: Config, r: Request): (p: string)
    ensures FormGet(r, "provider") == "" ==> p == cfg.defaultProv
    ensures FormGet(r, "provider") != "" ==> p == FormGet(r, "provider")
  {
    var p := FormGet(r, "provider");
    if p == "" then cfg.defaultProv else p
  }

  function FormCredentials(r: Request): Plugins.Credentials {
    Plugins.Credentials(FormGet(r, "username"), FormGet(r, "password"))
  }

  /** The TTL the POST path uses: the configured one, or seven days if that is not positive. */
  function EffectiveTtl(cfg: Config): (ttl: int)
    ensures ttl > 0
    ensures cfg.SessionTtl() > 0 ==> ttl == cfg.SessionTtl()
    ensures cfg.SessionTtl() <= 0 ==> DurationSeconds(ttl) == BridgeSessionTtlDays * 24 * 3600
  {
    var ttl := cfg.SessionTtl();
    if ttl <= 0 then BridgeSessionTtlDays * 24 * 3600 * Second else ttl
  }

  /** The session issued after authentication: subject and claims of the result, issued now, expiring after the TTL. */
  function IssuedSession(res: Plugins.AuthResult, now: int, ttl: int): (s: Session)
    ensures s.sub == res.subject && s.claims == res.claims && s.iat == now
  {
    Session(res.subject, res.claims, now, now + DurationSeconds(ttl))
  }

  /**
   * Single sign-on end to end: the session cookie issued after a successful login
   * is read back by a later request, for the same subject and claims, from the
   * second it was issued until its expiry second, and is refused after that.
   */
  lemma IssuedSessionReadBack(crypto: Primitives, secret: string, codec: SessionCodec, res: Plugins.AuthResult,
                              now: int, ttl: int, cookies: map<string, string>, later: int)
    requires SessionRoundTrip(codec) && res.subject != ""
    requires BridgeSessionCookie in cookies
    requires cookies[BridgeSessionCookie] == SignCookieValue(crypto, secret, codec.marshal(IssuedSession(res, now, ttl)))
    ensures var exp := now + DurationSeconds(ttl);
      && (later <= exp ==>
            ReadSession(crypto, secret, codec, cookies, later) == Some(Session(res.subject, OmitEmpty(res.claims), now, exp)))
      && (exp > 0 && later > exp ==> ReadSession(crypto, secret, codec, cookies, later).None?)
  {
    var exp := now + DurationSeconds(ttl);
    var s := IssuedSession(res, now, ttl);
    assert s == Session(res.subject, res.claims, now, exp);
    ReadIssuedSession(crypto, secret, codec, s, cookies, later);
    assert s.(claims := OmitEmpty(s.claims)) == Session(res.subject, OmitEmpty(res.claims), now, exp);
  }

  function FetchLogin(srv: Server, env: Env, ch: string): Result<Hydra.LoginRequest, Hydra.AdminError> {
    Hydra.GetLoginRequest(srv.hyd, ch, env.hydraNet, env.hydraCodec)
  }

  function AcceptLogin(srv: Server, env: Env, ch: string, body: Hydra.AcceptLoginBody)
    : Result<Hydra.RedirectResponse, Hydra.AdminError>
  {
    Hydra.AcceptLoginRequest(srv.hyd, ch, body, env.hydraNet, env.hydraCodec)
  }

  /** The outcome of authenticating the form's credentials with the form's provider, when it is registered. */
  function AuthOutcome(srv: Server, env: Env, r: Request): Result<Plugins.AuthResult, Plugins.AuthError>
    reads srv.reg
    requires FormProvider(srv.cfg, r) in srv.reg.plugins
  {
    Plugins.Authenticate(srv.reg.plugins[FormProvider(srv.cfg, r)], FormCredentials(r), env.loginNet, env.pluginCodec)
  }

  /** The POST passed the form, CSRF and provider checks and the credentials were accepted. */
  predicate Authenticated(srv: Server, env: Env, r: Request)
    reads srv.reg
  {
    && r.verb == POST && !r.formError
    && FormGet(r, "csrf") == ExpectedCsrf(srv, env, LoginChallenge(r))
    && FormProvider(srv.cfg, r) in srv.reg.plugins
    && AuthOutcome(srv, env, r).Ok?
  }

  /**
   * Single sign-on from a valid session: accept the login at once for the
   * session's subject and claims, remembered for the configured TTL, refreshing
   * the user-info cookie when the session has claims; 302 to Hydra's redirect, or
   * 500. The form is never rendered and no session cookie is issued.
   */
  ghost predicate LoginResumeOutcome(srv: Server, r: Request, now: int, env: Env, sess: Session,
                                     resp: Response<LoginPageData>, calls: seq<Call>)
  {
    var ch := LoginChallenge(r);
    var body := Hydra.AcceptLoginBody(sess.sub, true, DurationSeconds(srv.cfg.SessionTtl()), sess.claims);
    var accepted := AcceptLogin(srv, env, ch, body);
    && calls == [FetchLoginRequest(ch), AcceptLoginRequest(ch, body)]
    && resp.Response? && !SetsCookie(resp, BridgeSessionCookie)
    && resp.cookies == (if sess.claims.Some? then [UserInfoCookieFor(srv.cfg, env, sess.claims, now)] else [])
    && resp.body == (if accepted.Ok? then NoBody else Upstream(accepted.error))
    && (accepted.Ok? ==> resp.status == 302 && resp.location == Some(accepted.value.redirectTo))
    && (accepted.Err? ==> resp.status == 500 && resp.location == None)
  }

  /**
   * What a GET with a challenge does: fetch the login request (a failure is a 500);
   * with a valid bridge session, accept the login at once for the session's subject
   * and claims and redirect (a failure is a 500), never rendering the form;
   * otherwise render the form with the challenge-bound CSRF token.
   */
  ghost predicate LoginGetOutcome(srv: Server, r: Request, now: int, env: Env, sj: SessionCodec,
                                  resp: Response<LoginPageData>, calls: seq<Call>)
  {
    var ch := LoginChallenge(r);
    var fetched := FetchLogin(srv, env, ch);
    var sess := ReadSession(env.crypto, srv.cfg.cookieAuth, sj, r.cookies, now);
    && |calls| >= 1 && calls[0] == FetchLoginRequest(ch)
    && (fetched.Err? ==>
          resp == Response(500, [], None, Upstream(fetched.error)) && calls == [FetchLoginRequest(ch)])
    && (fetched.Ok? && sess.Some? ==> LoginResumeOutcome(srv, r, now, env, sess.value, resp, calls))
    && (fetched.Ok? && sess.None? ==>
          var client := fetched.value.client;
          && calls == [FetchLoginRequest(ch)]
          && resp == Response(200, [], None, Page(LoginPageData(ch, client.clientId, client.clientName,
                                                                QueryProvider(srv.cfg, r), ExpectedCsrf(srv, env, ch), ""))))
  }

  /**
   * Rejected credentials re-render the form with 401 and the error "Invalid
   * credentials"; the login request is fetched again for it, and a failure of
   * that fetch aborts the handler (the Go code dereferences the nil result).
   */
  ghost predicate LoginRejectedOutcome(srv: Server, r: Request, env: Env, resp: Response<LoginPageData>, calls: seq<Call>)
  {
    var ch := LoginChallenge(r);
    var name := FormProvider(srv.cfg, r);
    var fetched := FetchLogin(srv, env, ch);
    && calls == [LookupProvider(name), Authenticate(name, FormCredentials(r)), FetchLoginRequest(ch)]
    && (resp.Aborted? <==> fetched.Err?)
    && (fetched.Ok? ==>
          resp == Response(401, [], None, Page(LoginPageData(ch, fetched.value.client.clientId, fetched.value.client.clientName,
                                                             name, ExpectedCsrf(srv, env, ch), "Invalid credentials"))))
  }

  /**
   * Accepted credentials issue a signed session cookie, for the authenticated
   * subject and claims, and a user-info cookie, then accept the login with the same
   * TTL and claims: 302 to Hydra's redirect, or 500 keeping the cookies.
   */
  ghost predicate LoginAcceptedOutcome(srv: Server, r: Request, now: int, env: Env, sj: SessionCodec,
                                       res: Plugins.AuthResult, resp: Response<LoginPageData>, calls: seq<Call>)
  {
    var ch := LoginChallenge(r);
    var name := FormProvider(srv.cfg, r);
    var ttl := EffectiveTtl(srv.cfg);
    var body := Hydra.AcceptLoginBody(res.subject, true, DurationSeconds(ttl), res.claims);
    var accepted := AcceptLogin(srv, env, ch, body);
    var signed := SignCookieValue(env.crypto, srv.cfg.cookieAuth, sj.marshal(IssuedSession(res, now, ttl)));
    && calls == [LookupProvider(name), Authenticate(name, FormCredentials(r)), AcceptLoginRequest(ch, body)]
    && resp.Response?
    && resp.cookies == [SessionCookie(srv.cfg, BridgeSessionCookie, signed, ttl, now),
                        UserInfoCookieFor(srv.cfg, env, res.claims, now)]
    && (accepted.Ok? ==> resp.status == 302 && resp.location == Some(accepted.value.redirectTo))
    && (accepted.Err? ==> resp.status == 500 && resp.location == None)
    && resp.body == (if accepted.Ok? then NoBody else Upstream(accepted.error))
  }

  /**
   * What a POST with a challenge does: an unparsable form is a 400 and a CSRF token
   * not bound to the challenge a 403, both before any upstream call; an unknown
   * provider is a 400; then the credentials are checked by the provider.
   */
  ghost predicate LoginPostOutcome(srv: Server, r: Request, now: int, env: Env, sj: SessionCodec,
                                   resp: Response<LoginPageData>, calls: seq<Call>)
    reads srv.reg
  {
    var ch := LoginChallenge(r);
    var name := FormProvider(srv.cfg, r);
    var csrfOk := FormGet(r, "csrf") == ExpectedCsrf(srv, env, ch);
    && (r.formError ==> resp == Response(400, [], None, Text("bad form")) && calls == [])
    && (!r.formError && !csrfOk ==> resp == Response(403, [], None, Text("csrf invalid")) && calls == [])
    && (!r.formError && csrfOk && name !in srv.reg.plugins ==>
          resp == Response(400, [], None, Text("unknown provider: " + name)) && calls == [LookupProvider(name)])
    && (!r.formError && csrfOk && name in srv.reg.plugins && AuthOutcome(srv, env, r).Err? ==>
          LoginRejectedOutcome(srv, r, env, resp, calls))
    && (Authenticated(srv, env, r) ==>
          LoginAcceptedOutcome(srv, r, now, env, sj, AuthOutcome(srv, env, r).value, resp, calls))
  }

  /**
   * The rules that hold on every path: Hydra is never asked to accept an empty
   * subject and always with `remember` set; credentials reach a verifier only on a
   * POST whose CSRF token matches the challenge; and a bridge session cookie is
   * issued only after the credentials were accepted.
   */
  ghost predicate LoginRules(srv: Server, r: Request, env: Env, resp: Response<LoginPageData>, calls: seq<Call>)
    reads srv.reg
  {
    && (forall c :: c in calls && c.AcceptLoginRequest? ==> c.login.subject != "" && c.login.remember)
    && ((exists c :: c in calls && c.Authenticate?) ==>
          r.verb == POST && FormGet(r, "csrf") == ExpectedCsrf(srv, env, LoginChallenge(r)))
    && (SetsCookie(resp, BridgeSessionCookie) ==> Authenticated(srv, env, r))
  }

  /** The single-sign-on path of the GET branch. */
  method LoginResume(srv: Server, r: Request, now: int, env: Env, sess: Session)
    returns (resp: Response<LoginPageData>, calls: seq<Call>)
    requires sess.sub != ""
    ensures LoginResumeOutcome(srv, r, now, env, sess, resp, calls)
    ensures LoginRules(srv, r, env, resp, calls)
  {
    var cfg := srv.cfg;
    var ch := LoginChallenge(r);
    // keep the short-lived user-info cookie fresh for the consent page
    var cookies: seq<Cookie> := [];
    if sess.claims.Some? {
      cookies := [UserInfoCookieFor(cfg, env, sess.claims, now)];
    }
    var body := Hydra.AcceptLoginBody(sess.sub, true, DurationSeconds(cfg.SessionTtl()), sess.claims);
    calls := [FetchLoginRequest(ch), AcceptLoginRequest(ch, body)];
    var redir := AcceptLogin(srv, env, ch, body);
    if redir.Err? {
      resp := Response(500, cookies, None, Upstream(redir.error));
    } else {
      resp := Response(302, cookies, Some(redir.value.redirectTo), NoBody);
    }
    assert forall i :: 0 <= i < |resp.cookies| ==> resp.cookies[i].name == UserInfoCookie;
  }

  /** The GET branch of `handleLogin`. */
  method LoginGet(srv: Server, r: Request, now: int, env: Env, sj: SessionCodec)
    returns (resp: Response<LoginPageData>, calls: seq<Call>)
    requires LoginChallenge(r) != "" && r.verb == GET
    ensures LoginGetOutcome(srv, r, now, env, sj, resp, calls)
    ensures LoginRules(srv, r, env, resp, calls)
  {
    var cfg := srv.cfg;
    var ch := LoginChallenge(r);
    var req := FetchLogin(srv, env, ch);
    if req.Err? {
      return Response(500, [], None, Upstream(req.error)), [FetchLoginRequest(ch)];
    }
    // single sign-on: a valid bridge session accepts the login directly
    var sess := ReadSession(env.crypto, cfg.cookieAuth, sj, r.cookies, now);
    if sess.Some? {
      resp, calls := LoginResume(srv, r, now, env, sess.value);
      return;
    }
    var client := req.value.client;
    calls := [FetchLoginRequest(ch)];
    resp := Response(200, [], None, Page(LoginPageData(ch, client.clientId, client.clientName, QueryProvider(cfg, r),
                                                       CsrfToken(env.crypto, cfg.cookieAuth, ch), "")));
  }

  /** The rejected-credentials path of the POST branch. */
  method LoginRejected(srv: Server, r: Request, env: Env) returns (resp: Response<LoginPageData>, calls: seq<Call>)
    ensures LoginRejectedOutcome(srv, r, env, resp, calls)
    ensures forall c :: c in calls ==> !c.AcceptLoginRequest?
    ensures !SetsCookie(resp, BridgeSessionCookie)
  {
    var ch := LoginChallenge(r);
    var pluginName := FormProvider(srv.cfg, r);
    calls := [LookupProvider(pluginName), Authenticate(pluginName, FormCredentials(r)), FetchLoginRequest(ch)];
    var req := FetchLogin(srv, env, ch);
    if req.Err? {
      // `req.Client` on the nil result panics
      resp := Aborted;
      return;
    }
    var client := req.value.client;
    resp := Response(401, [], None, Page(LoginPageData(ch, client.clientId, client.clientName, pluginName,
                                                       CsrfToken(env.crypto, srv.cfg.cookieAuth, ch), "Invalid credentials")));
  }

  /** The accepted-credentials path of the POST branch: issue the bridge session and accept the login. */
  method LoginAccepted(srv: Server, r: Request, now: int, env: Env, sj: SessionCodec, res: Plugins.AuthResult)
    returns (resp: Response<LoginPageData>, calls: seq<Call>)
    requires res.subject != ""
    ensures LoginAcceptedOutcome(srv, r, now, env, sj, res, resp, calls)
    ensures forall c :: c in calls && c.AcceptLoginRequest? ==> c.login.subject != "" && c.login.remember
  {
    var cfg := srv.cfg;
    var ch := LoginChallenge(r);
    var pluginName := FormProvider(cfg, r);
    var ttl := cfg.SessionTtl();
    if ttl <= 0 {
      ttl := BridgeSessionTtlDays * 24 * 3600 * Second;
    }
    assert ttl == EffectiveTtl(cfg);
    var session := Session(res.subject, res.claims, now, now + DurationSeconds(ttl));
    assert session == IssuedSession(res, now, ttl);
    var signed := SignCookieValue(env.crypto, cfg.cookieAuth, sj.marshal(session));
    var cookies := [SessionCookie(cfg, BridgeSessionCookie, signed, ttl, now),
                    UserInfoCookieFor(cfg, env, res.claims, now)];

    var body := Hydra.AcceptLoginBody(res.subject, true, DurationSeconds(ttl), res.claims);
    calls := [LookupProvider(pluginName), Authenticate(pluginName, FormCredentials(r)), AcceptLoginRequest(ch, body)];
    var redir := AcceptLogin(srv, env, ch, body);
    if redir.Err? {
      resp := Response(500, cookies, None, Upstream(redir.error));
    } else {
      resp := Response(302, cookies, Some(redir.value.redirectTo), NoBody);
    }
  }

  /** The POST branch of `handleLogin`. */
  method LoginPost(srv: Server, r: Request, now: int, env: Env, sj: SessionCodec)
    returns (resp: Response<LoginPageData>, calls: seq<Call>)
    requires srv.reg.Valid()
    requires LoginChallenge(r) != "" && r.verb == POST
    ensures LoginPostOutcome(srv, r, now, env, sj, resp, calls)
    ensures LoginRules(srv, r, env, resp, calls)
  {
    var ch := LoginChallenge(r);
    if r.formError {
      return Response(400, [], None, Text("bad form")), [];
    }
    if FormGet(r, "csrf") != CsrfToken(env.crypto, srv.cfg.cookieAuth, ch) {
      return Response(403, [], None, Text("csrf invalid")), [];
    }
    var pluginName := FormProvider(srv.cfg, r);
    var p := srv.reg.Get(pluginName);
    if p.Err? {
      return Response(400, [], None, Text(p.error)), [LookupProvider(pluginName)];
    }
    var res := Plugins.Authenticate(p.value, FormCredentials(r), env.loginNet, env.pluginCodec);
    assert res == AuthOutcome(srv, env, r);
    if res.Err? {
      resp, calls := LoginRejected(srv, r, env);
    } else {
      resp, calls := LoginAccepted(srv, r, now, env, sj, res.value);
    }
  }

  /**
   * `handleLogin`: a missing challenge is a 400 before anything else; GET and POST
   * behave as their branches say; any other method is a 405. The trace `calls`
   * lists the upstream calls in order.
   */
  method HandleLogin(srv: Server, r: Request, now: int, env: Env, sj: SessionCodec)
    returns (resp: Response<LoginPageData>, calls: seq<Call>)
    requires srv.reg.Valid()
    ensures LoginChallenge(r) == "" ==>
      resp == Response(400, [], None, Text("missing login_challenge")) && calls == []
    ensures LoginChallenge(r) != "" && r.verb == GET ==> LoginGetOutcome(srv, r, now, env, sj, resp, calls)
    ensures LoginChallenge(r) != "" && r.verb == POST ==> LoginPostOutcome(srv, r, now, env, sj, resp, calls)
    ensures LoginChallenge(r) != "" && r.verb != GET && r.verb != POST ==>
      resp == Response(405, [], None, NoBody) && calls == []
    ensures LoginRules(srv, r, env, resp, calls)
  {
    if LoginChallenge(r) == "" {
      return Response(400, [], None, Text("missing login_challenge")), [];
    }
    match r.verb
    case GET =>
      resp, calls := LoginGet(srv, r, now, env, sj);
    case POST =>
      resp, calls := LoginPost(srv, r, now, env, sj);
    case _ =>
      resp, calls := Response(405, [], None, NoBody), [];
  }
}
