/**
 * internal/ui/consent.go: the consent handler. It shows the consent page for a
 * challenge, or, on a POST carrying the challenge-bound CSRF token, grants every
 * requested scope and injects the claims of the user-info cookie into both tokens.
 */
module UiConsent {
  import opened Wrappers
  import opened Json
  import opened Http
  import opened UiServer
  import Base64Url
  import Hydra

  /** `consentPageData`; `name` and `email` are the raw claim values (None when absent) that the page prints. */
  datatype ConsentPageData = ConsentPageData(
    consentChallenge: string, clientId: string, clientName: string, requestedScope: seq<string>,
    name: Option<Value>, email: Option<Value>, csrf: string)

  /** Seconds for which Hydra remembers the consent. */
  const ConsentRememberFor := 86400

  /** The challenge: from the query, and on a POST from the form when the query has none. */
  function ConsentChallenge(r: Request): (ch: string)
    ensures Get(r.query, "consent_challenge") != "" ==> ch == Get(r.query, "consent_challenge")
    ensures r.verb != POST ==> ch == Get(r.query, "consent_challenge")
    ensures r.verb == POST && Get(r.query, "consent_challenge") == "" ==> ch == FormGet(r, "consent_challenge")
  {
    var q := Get(r.query, "consent_challenge");
    if r.verb == POST && q == "" then FormGet(r, "consent_challenge") else q
  }

  /**
   * The claims read from the user-info cookie into a fresh empty map: unchanged
   * (empty) when the cookie is absent, not base64url, or not JSON; nil for `null`.
   */
  function UserClaims(cookies: map<string, string>, codec: ClaimsCodec): (c: Claims)
    ensures UserInfoCookie !in cookies ==> c == Some(map[])
    ensures UserInfoCookie in cookies && Base64Url.Decode(cookies[UserInfoCookie]).None? ==> c == Some(map[])
    ensures UserInfoCookie in cookies && Base64Url.Decode(cookies[UserInfoCookie]).Some? ==>
      var raw := Base64Url.Decode(cookies[UserInfoCookie]).value;
      && (codec.unmarshal(raw).None? ==> c == Some(map[]))
      && (codec.unmarshal(raw).Some? ==> c == codec.unmarshal(raw).value)
  {
    if UserInfoCookie !in cookies then Some(map[])
    else
      match Base64Url.Decode(cookies[UserInfoCookie])
      case None => Some(map[])
      case Some(raw) =>
        match codec.unmarshal(raw)
        case None => Some(map[])
        case Some(c) => c
  }

  /**
   * Whatever claims were encoded into the cookie are read back: those written by
   * `setUserInfoCookie` after login, but equally any a client chooses, since the
   * cookie carries no signature.
   */
  lemma UserClaimsFromCookie(codec: ClaimsCodec, claims: Claims, cookies: map<string, string>)
    requires ClaimsRoundTrip(codec)
    requires UserInfoCookie in cookies && cookies[UserInfoCookie] == Base64Url.Encode(codec.marshal(claims))
    ensures UserClaims(cookies, codec) == claims
  {
    Base64Url.DecodeEncode(codec.marshal(claims));
    assert codec.unmarshal(codec.marshal(claims)) == Some(claims);
  }

  /** The cookie the login handler issues carries its claims to the consent handler. */
  lemma UserInfoRoundTrip(cfg: Config, env: Env, claims: Claims, now: int, cookies: map<string, string>)
    requires ClaimsRoundTrip(env.claimsJson)
    requires UserInfoCookie in cookies && cookies[UserInfoCookie] == UserInfoCookieFor(cfg, env, claims, now).value
    ensures UserClaims(cookies, env.claimsJson) == claims
  {
    var raw := env.claimsJson.marshal(claims);
    assert Base64Url.Decode(cookies[UserInfoCookie]) == Some(raw);
    assert env.claimsJson.unmarshal(raw) == Some(claims);
  }

  /** `userClaims[key]`: absent for a missing key and for a nil map. */
  function Claim(c: Claims, key: string): (v: Option<Value>)
    ensures v.Some? <==> c.Some? && key in c.value
    ensures v.Some? ==> v.value == c.value[key]
  {
    if c.Some? && key in c.value then Some(c.value[key]) else None
  }

  function FetchConsent(srv: Server, env: Env, ch: string): Result<Hydra.ConsentRequest, Hydra.AdminError> {
    Hydra.GetConsentRequest(srv.hyd, ch, env.hydraNet, env.hydraCodec)
  }

  function AcceptConsent(srv: Server, env: Env, ch: string, body: Hydra.AcceptConsentBody)
    : Result<Hydra.RedirectResponse, Hydra.AdminError>
  {
    Hydra.AcceptConsentRequest(srv.hyd, ch, body, env.hydraNet, env.hydraCodec)
  }

  /** The consent granted on a POST: every requested scope, remembered for a day, the user's claims in both tokens. */
  function GrantBody(req: Hydra.ConsentRequest, uc: Claims): (b: Hydra.AcceptConsentBody)
    ensures b.grantScope == req.requestedScope && b.remember && b.rememberFor == ConsentRememberFor
    ensures b.session.idToken == uc && b.session.accessToken == uc
  {
    Hydra.AcceptConsentBody(req.requestedScope, true, ConsentRememberFor, Hydra.ConsentSession(uc, uc))
  }

  /**
   * What a GET with a challenge does: fetch the consent request (a failure is a
   * 500) and render the page with the client, the requested scopes, the user's
   * name and email claims and the challenge-bound CSRF token.
   */
  ghost predicate ConsentGetOutcome(srv: Server, r: Request, env: Env, resp: Response<ConsentPageData>, calls: seq<Call>)
  {
    var ch := ConsentChallenge(r);
    var fetched := FetchConsent(srv, env, ch);
    var uc := UserClaims(r.cookies, env.claimsJson);
    && calls == [FetchConsentRequest(ch)]
    && (fetched.Err? ==> resp == Response(500, [], None, Upstream(fetched.error)))
    && (fetched.Ok? ==>
          var req := fetched.value;
          resp == Response(200, [], None, Page(ConsentPageData(ch, req.client.clientId, req.client.clientName, req.requestedScope,
                                                               Claim(uc, "name"), Claim(uc, "email"), ExpectedCsrf(srv, env, ch)))))
  }

  /**
   * What a POST with a challenge does: a CSRF token not bound to the challenge is
   * a 403 before any upstream call; otherwise the consent request is fetched and
   * accepted with `GrantBody`, each failure a 500; on success the user-info
   * cookie is deleted and the browser redirected.
   */
  ghost predicate ConsentPostOutcome(srv: Server, r: Request, env: Env, resp: Response<ConsentPageData>, calls: seq<Call>)
  {
    var ch := ConsentChallenge(r);
    var fetched := FetchConsent(srv, env, ch);
    var uc := UserClaims(r.cookies, env.claimsJson);
    && (FormGet(r, "csrf") != ExpectedCsrf(srv, env, ch) ==>
          resp == Response(403, [], None, Text("csrf invalid")) && calls == [])
    && (FormGet(r, "csrf") == ExpectedCsrf(srv, env, ch) && fetched.Err? ==>
          resp == Response(500, [], None, Upstream(fetched.error)) && calls == [FetchConsentRequest(ch)])
    && (FormGet(r, "csrf") == ExpectedCsrf(srv, env, ch) && fetched.Ok? ==>
          var body := GrantBody(fetched.value, uc);
          var accepted := AcceptConsent(srv, env, ch, body);
          && calls == [FetchConsentRequest(ch), AcceptConsentRequest(ch, body)]
          && (accepted.Err? ==> resp == Response(500, [], None, Upstream(accepted.error)))
          && (accepted.Ok? ==>
                resp == Response(302, [DeleteCookie(srv.cfg, UserInfoCookie)], Some(accepted.value.redirectTo), NoBody)))
  }

  /**
   * The rules that hold on every path: consent is accepted only on a POST whose
   * CSRF token matches the challenge, only after fetching that challenge's
   * request, granting exactly its requested scopes with the same claims in both
   * tokens; and the user-info cookie is cleared only once Hydra accepted.
   */
  ghost predicate ConsentRules(srv: Server, r: Request, env: Env, resp: Response<ConsentPageData>, calls: seq<Call>)
  {
    var ch := ConsentChallenge(r);
    && (forall c :: c in calls && c.AcceptConsentRequest? ==>
          && r.verb == POST && FormGet(r, "csrf") == ExpectedCsrf(srv, env, ch)
          && c.challenge == ch && FetchConsentRequest(ch) in calls && FetchConsent(srv, env, ch).Ok?
          && c.consent.grantScope == FetchConsent(srv, env, ch).value.requestedScope
          && c.consent.session.idToken == c.consent.session.accessToken)
    && (SetsCookie(resp, UserInfoCookie) ==>
          exists c :: c in calls && c.AcceptConsentRequest? && AcceptConsent(srv, env, ch, c.consent).Ok?)
  }

  /** The GET branch of `handleConsent`. */
  method ConsentGet(srv: Server, r: Request, env: Env) returns (resp: Response<ConsentPageData>, calls: seq<Call>)
    requires ConsentChallenge(r) != "" && r.verb == GET
    ensures ConsentGetOutcome(srv, r, env, resp, calls)
    ensures ConsentRules(srv, r, env, resp, calls)
  {
    var ch := ConsentChallenge(r);
    var userClaims := UserClaims(r.cookies, env.claimsJson);
    calls := [FetchConsentRequest(ch)];
    var req := FetchConsent(srv, env, ch);
    if req.Err? {
      resp := Response(500, [], None, Upstream(req.error));
      return;
    }
    var data := ConsentPageData(ch, req.value.client.clientId, req.value.client.clientName, req.value.requestedScope,
                                Claim(userClaims, "name"), Claim(userClaims, "email"),
                                CsrfToken(env.crypto, srv.cfg.cookieAuth, ch));
    resp := Response(200, [], None, Page(data));
  }

  /** The POST branch of `handleConsent`. */
  method ConsentPost(srv: Server, r: Request, env: Env) returns (resp: Response<ConsentPageData>, calls: seq<Call>)
    requires ConsentChallenge(r) != "" && r.verb == POST
    ensures ConsentPostOutcome(srv, r, env, resp, calls)
    ensures ConsentRules(srv, r, env, resp, calls)
  {
    var ch := ConsentChallenge(r);
    var userClaims := UserClaims(r.cookies, env.claimsJson);
    if FormGet(r, "csrf") != CsrfToken(env.crypto, srv.cfg.cookieAuth, ch) {
      return Response(403, [], None, Text("csrf invalid")), [];
    }
    calls := [FetchConsentRequest(ch)];
    var req := FetchConsent(srv, env, ch);
    if req.Err? {
      resp := Response(500, [], None, Upstream(req.error));
      return;
    }
    // inject the claims into the ID token and the access token
    var body := GrantBody(req.value, userClaims);
    calls := calls + [AcceptConsentRequest(ch, body)];
    var redir := AcceptConsent(srv, env, ch, body);
    if redir.Err? {
      resp := Response(500, [], None, Upstream(redir.error));
      return;
    }
    // clean up the user-info cookie once consent is done
    resp := Response(302, [DeleteCookie(srv.cfg, UserInfoCookie)], Some(redir.value.redirectTo), NoBody);
    assert resp.cookies[0].name == UserInfoCookie;
    assert calls[1] in calls;
  }

  /**
   * `handleConsent`: a missing challenge is a 400 before anything else; GET and
   * POST behave as their branches say; any other method is a 405.
   */
  method HandleConsent(srv: Server, r: Request, env: Env) returns (resp: Response<ConsentPageData>, calls: seq<Call>)
    ensures ConsentChallenge(r) == "" ==>
      resp == Response(400, [], None, Text("missing consent_challenge")) && calls == []
    ensures ConsentChallenge(r) != "" && r.verb == GET ==> ConsentGetOutcome(srv, r, env, resp, calls)
    ensures ConsentChallenge(r) != "" && r.verb == POST ==> ConsentPostOutcome(srv, r, env, resp, calls)
    ensures ConsentChallenge(r) != "" && r.verb != GET && r.verb != POST ==>
      resp == Response(405, [], None, NoBody) && calls == []
    ensures ConsentRules(srv, r, env, resp, calls)
  {
    if ConsentChallenge(r) == "" {
      return Response(400, [], None, Text("missing consent_challenge")), [];
    }
    match r.verb
    case GET =>
      resp, calls := ConsentGet(srv, r, env);
    case POST =>
      resp, calls := ConsentPost(srv, r, env);
    case _ =>
      resp, calls := Response(405, [], None, NoBody), [];
  }
}
