/**
 * internal/ui/server.go: the bridge configuration, the session TTL and SameSite
 * rules, the challenge-bound CSRF token, the Set-Cookie builders, and the records
 * the two handlers produce (a response and the trace of upstream calls).
 */
module UiServer {
  import opened Wrappers
  import opened Text
  import opened Json
  import opened Http
  import opened Crypto
  import Base64Url
  import Hydra
  import Plugins

  const UserInfoCookie := "__bridge_user"
  const BridgeSessionCookie := "__bridge_session"
  const BridgeSessionTtlDays := 7

  /** Go's `time.Duration` unit and range: a signed 64-bit count of nanoseconds. */
  const Second := 1_000_000_000
  const Int64Min := -0x8000_0000_0000_0000
  const Int64Max := 0x7FFF_FFFF_FFFF_FFFF

  /** The largest TTL in seconds whose nanosecond count still fits a Duration. */
  const MaxTtlSeconds := Int64Max / Second

  /** Two's-complement wrap-around of a product computed in int64. */
  function WrapInt64(x: int): (r: int)
    ensures Int64Min <= r <= Int64Max
    ensures Int64Min <= x <= Int64Max ==> r == x
    ensures (r - x) % 0x1_0000_0000_0000_0000 == 0
  {
    (x - Int64Min) % 0x1_0000_0000_0000_0000 + Int64Min
  }

  /** `int(d.Seconds())` for a Duration of nanoseconds: whole seconds, truncated toward zero. */
  function DurationSeconds(d: int): (s: int)
    ensures d >= 0 ==> 0 <= s && s * Second <= d < (s + 1) * Second
    ensures d < 0 ==> s <= 0 && (s - 1) * Second < d <= s * Second
  {
    if d >= 0 then d / Second else -((-d) / Second)
  }

  datatype Config = Config(
    addr: string, hydraAdmin: string, hydraPublic: string, loginApiUrl: string,
    cookieAuth: string, cookieEnc: string,
    defaultProv: string, templatesDir: string,
    sessionTtlSeconds: int, cookieDomain: string, cookieSecure: bool, cookieSameSite: string)
  {
    /** `Config.SameSiteMode`: "strict" and "none" (after trimming and lower-casing) select those modes; anything else is Lax. */
    function SameSiteMode(): (m: SameSite)
      ensures m == SameSiteStrict <==> NormalizedSameSite(cookieSameSite) == "strict"
      ensures m == SameSiteNone <==> NormalizedSameSite(cookieSameSite) == "none"
    {
      match NormalizedSameSite(cookieSameSite)
      case "strict" => SameSiteStrict
      case "none" => SameSiteNone
      case _ => SameSiteLax
    }

    /**
     * `Config.SessionTTL` as a Duration in nanoseconds: seven days when the setting is
     * zero or negative, otherwise the setting times one second, computed in int64.
     */
    function SessionTtl(): (ttl: int)
      ensures sessionTtlSeconds <= 0 ==> DurationSeconds(ttl) == 7 * 24 * 3600
      ensures 0 < sessionTtlSeconds <= MaxTtlSeconds ==> ttl > 0 && DurationSeconds(ttl) == sessionTtlSeconds
    {
      if sessionTtlSeconds <= 0 then 7 * 24 * 3600 * Second
      else WrapInt64(sessionTtlSeconds * Second)
    }
  }

  function NormalizedSameSite(s: string): string {
    ToLowerAscii(TrimSpace(s))
  }

  /** White space around the setting does not change the mode. */
  lemma SameSiteIgnoresPadding(c: Config, ws1: string, ws2: string)
    requires AllSpace(ws1) && AllSpace(ws2)
    ensures c.(cookieSameSite := ws1 + c.cookieSameSite + ws2).SameSiteMode() == c.SameSiteMode()
  {
    TrimSpacePadding(ws1, c.cookieSameSite, ws2);
  }

  /** The documented settings: "" and "lax" are Lax, "Strict" and " none " are recognised. */
  lemma SameSiteDefaultIsLax(c: Config)
    ensures c.(cookieSameSite := "").SameSiteMode() == SameSiteLax
    ensures c.(cookieSameSite := "lax").SameSiteMode() == SameSiteLax
  {
    assert TrimLeft("lax") == "lax" && TrimRight("lax") == "lax";
    assert ToLowerAscii("lax") == "lax";
  }

  lemma SameSiteStrictIgnoresCase(c: Config)
    ensures c.(cookieSameSite := "Strict").SameSiteMode() == SameSiteStrict
  {
    assert TrimLeft("Strict") == "Strict" && TrimRight("Strict") == "Strict";
    assert ToLowerAscii("t") == "t";
    assert ToLowerAscii("ct") == "ct";
    assert ToLowerAscii("ict") == "ict";
    assert ToLowerAscii("rict") == "rict";
    assert ToLowerAscii("trict") == "trict";
    assert ToLowerAscii("Strict") == "strict";
  }

  lemma SameSiteNoneTrimmed(c: Config)
    ensures c.(cookieSameSite := " none ").SameSiteMode() == SameSiteNone
  {
    var plain := c.(cookieSameSite := "none");
    NormalizedNone();
    assert AllSpace(" ");
    SameSiteIgnoresPadding(plain, " ", " ");
    assert " " + "none" + " " == " none ";
  }

  lemma NormalizedNone()
    ensures NormalizedSameSite("none") == "none"
  {
    assert TrimLeft("none") == "none";
    assert TrimRight("none") == "none";
    assert ToLowerAscii("e") == "e";
    assert ToLowerAscii("ne") == "ne";
    assert ToLowerAscii("one") == "one";
    assert ToLowerAscii("none") == "none";
  }

  /**
   * With the TTL setting in range the session lifetime is exactly the setting,
   * and it is always positive: the seven-day fallback in the login handler is then
   * unreachable.
   */
  lemma SessionTtlPositive(c: Config)
    requires c.sessionTtlSeconds <= MaxTtlSeconds
    ensures c.SessionTtl() > 0
    ensures DurationSeconds(c.SessionTtl()) == if c.sessionTtlSeconds <= 0 then 604800 else c.sessionTtlSeconds
  {
  }

  /** Beyond that range the int64 multiplication wraps: ten billion seconds give a negative TTL. */
  lemma SessionTtlOverflow(c: Config)
    requires c.sessionTtlSeconds == 10_000_000_000
    ensures c.SessionTtl() < 0
  {
  }

  // ---------------------------------------------------------------------------
  // CSRF token
  // ---------------------------------------------------------------------------

  /** The bytes hashed for the token: `[]byte(secret + ":" + challenge)`. */
  function CsrfInput(secret: string, challenge: string): seq<byte> {
    Utf8(secret + ":" + challenge)
  }

  /**
   * `csrfToken`: base64url(SHA-256(secret ":" challenge)); always 43 characters of
   * the URL-safe alphabet, being a 32-byte digest encoded without padding.
   */
  function CsrfToken(crypto: Primitives, secret: string, challenge: string): (t: string)
    ensures |t| == 43
    ensures forall i :: 0 <= i < |t| ==> Base64Url.InAlphabet(t[i])
  {
    var digest := crypto.sha256(CsrfInput(secret, challenge));
    Base64Url.DigestEncodingLength(digest);
    Base64Url.EncodeAlphabet(digest);
    Base64Url.Encode(digest)
  }

  /** For a fixed secret, distinct challenges give distinct hash inputs. */
  lemma CsrfInputInjective(secret: string, c1: string, c2: string)
    ensures CsrfInput(secret, c1) == CsrfInput(secret, c2) ==> c1 == c2
  {
    if CsrfInput(secret, c1) == CsrfInput(secret, c2) {
      Utf8Injective(secret + ":" + c1, secret + ":" + c2);
      var n := |secret + ":"|;
      assert c1 == (secret + ":" + c1)[n..];
      assert c2 == (secret + ":" + c2)[n..];
    }
  }

  /** The token reveals the digest: equal tokens mean equal SHA-256 outputs. */
  lemma CsrfTokenDeterminesDigest(crypto: Primitives, secret: string, c1: string, c2: string)
    requires CsrfToken(crypto, secret, c1) == CsrfToken(crypto, secret, c2)
    ensures crypto.sha256(CsrfInput(secret, c1)) == crypto.sha256(CsrfInput(secret, c2))
  {
    var d1, d2 := crypto.sha256(CsrfInput(secret, c1)), crypto.sha256(CsrfInput(secret, c2));
    Base64Url.DecodeEncode(d1);
    Base64Url.DecodeEncode(d2);
  }

  // ---------------------------------------------------------------------------
  // Cookies
  // ---------------------------------------------------------------------------

  /** The attributes every bridge cookie shares: path "/", HttpOnly, and Domain, Secure and SameSite from the config. */
  predicate BridgeAttributes(cfg: Config, c: Cookie) {
    c.path == "/" && c.httpOnly && c.domain == cfg.cookieDomain
    && c.secure == cfg.cookieSecure && c.sameSite == cfg.SameSiteMode()
  }

  /** `setShortCookie`: a cookie living `maxAgeSec` seconds from `now`. */
  function ShortCookie(cfg: Config, name: string, value: string, maxAgeSec: int, now: int): (c: Cookie)
    ensures BridgeAttributes(cfg, c) && c.name == name && c.value == value
    ensures c.maxAge == maxAgeSec && c.expires == now + maxAgeSec
  {
    Cookie(name, value, "/", cfg.cookieDomain, true, cfg.cookieSecure, cfg.SameSiteMode(), maxAgeSec, now + maxAgeSec)
  }

  /** `setSessionCookie`: Max-Age is the TTL in whole seconds (RFC 6265 section 5.2.2). */
  function SessionCookie(cfg: Config, name: string, value: string, ttl: int, now: int): (c: Cookie)
    ensures BridgeAttributes(cfg, c) && c.name == name && c.value == value
    ensures c.maxAge == DurationSeconds(ttl) && c.expires == now + DurationSeconds(ttl)
  {
    Cookie(name, value, "/", cfg.cookieDomain, true, cfg.cookieSecure, cfg.SameSiteMode(),
           DurationSeconds(ttl), now + DurationSeconds(ttl))
  }

  /** `deleteCookie`: an empty value, Max-Age -1 and an expiry at the epoch, so the browser drops it at once. */
  function DeleteCookie(cfg: Config, name: string): (c: Cookie)
    ensures BridgeAttributes(cfg, c) && c.name == name
    ensures c.value == "" && c.maxAge < 0 && c.expires == 0
  {
    Cookie(name, "", "/", cfg.cookieDomain, true, cfg.cookieSecure, cfg.SameSiteMode(), -1, 0)
  }

  // ---------------------------------------------------------------------------
  // The server, its collaborators, and what a handler produces
  // ---------------------------------------------------------------------------

  /** `Server`: the configuration, the Hydra admin client and the verifier registry. */
  datatype Server = Server(cfg: Config, hyd: Hydra.AdminClient, reg: Plugins.Registry)

  /**
   * The collaborators a handler reaches through library code: the cryptographic
   * primitives, the JSON codecs, and the two transports (Hydra's admin API and
   * the login API).
   */
  datatype Env = Env(
    crypto: Primitives,
    claimsJson: ClaimsCodec,
    hydraNet: Transport,
    hydraCodec: Hydra.Codec,
    loginNet: Transport,
    pluginCodec: Plugins.Codec)

  /** An upstream call a handler makes, in order; the trace shows what was (not) called. */
  datatype Call =
    | FetchLoginRequest(challenge: string)
    | AcceptLoginRequest(challenge: string, login: Hydra.AcceptLoginBody)
    | FetchConsentRequest(challenge: string)
    | AcceptConsentRequest(challenge: string, consent: Hydra.AcceptConsentBody)
    | LookupProvider(name: string)
    | Authenticate(provider: string, cred: Plugins.Credentials)

  /** What the handler writes after the headers: nothing, an error text, an upstream error, or a rendered page. */
  datatype Body<P> = NoBody | Text(msg: string) | Upstream(error: Hydra.AdminError) | Page(data: P)

  /**
   * The response: status, Set-Cookie headers in order, the redirect target and the
   * body; `Aborted` is a handler that panicked, so no response is written.
   */
  datatype Response<P> =
    | Response(status: int, cookies: seq<Cookie>, location: Option<string>, body: Body<P>)
    | Aborted

  /** The CSRF token a form for the challenge must carry back. */
  function ExpectedCsrf(srv: Server, env: Env, ch: string): string {
    CsrfToken(env.crypto, srv.cfg.cookieAuth, ch)
  }

  /** The response sets a cookie of that name. */
  predicate SetsCookie<P>(resp: Response<P>, name: string) {
    resp.Response? && exists i :: 0 <= i < |resp.cookies| && resp.cookies[i].name == name
  }

  /** The user-info cookie of `setUserInfoCookie`: base64url of the claims' JSON, for 30 minutes. */
  function UserInfoCookieFor(cfg: Config, env: Env, claims: Claims, now: int): (c: Cookie)
    ensures BridgeAttributes(cfg, c) && c.name == UserInfoCookie && c.maxAge == 1800
    ensures Base64Url.Decode(c.value) == Some(env.claimsJson.marshal(claims))
  {
    Base64Url.DecodeEncode(env.claimsJson.marshal(claims));
    ShortCookie(cfg, UserInfoCookie, Base64Url.Encode(env.claimsJson.marshal(claims)), 1800, now)
  }
}
