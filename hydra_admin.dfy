/**
 * The Ory Hydra admin client (internal/hydra/admin.go): four operations, each one
 * HTTP round trip through the client's transport. URL construction, the choice of
 * GET or PUT and the classification of the reply are modelled; the transport and
 * the JSON encoder/decoder are oracles.
 */
module Hydra {
  import opened Wrappers
  import opened Text
  import opened Json
  import opened Http
  import opened UrlEscape

  datatype Client = Client(clientId: string, clientName: string)

  datatype LoginRequest = LoginRequest(
    challenge: string, client: Client, skip: bool, subject: string, requestUrl: string)

  datatype ConsentRequest = ConsentRequest(
    challenge: string, client: Client, requestedScope: seq<string>, skip: bool, subject: string)

  datatype AcceptLoginBody = AcceptLoginBody(
    subject: string, remember: bool, rememberFor: int, context: Claims)

  datatype ConsentSession = ConsentSession(idToken: Claims, accessToken: Claims)

  datatype AcceptConsentBody = AcceptConsentBody(
    grantScope: seq<string>, remember: bool, rememberFor: int, session: ConsentSession)

  datatype RedirectResponse = RedirectResponse(redirectTo: string)

  /** `json.Encoder.Encode` of the two request bodies and `json.Decoder.Decode` into the three reply types. */
  datatype Codec = Codec(
    encodeAcceptLogin: AcceptLoginBody -> seq<byte>,
    encodeAcceptConsent: AcceptConsentBody -> seq<byte>,
    decodeLogin: seq<byte> -> Option<LoginRequest>,
    decodeConsent: seq<byte> -> Option<ConsentRequest>,
    decodeRedirect: seq<byte> -> Option<RedirectResponse>)

  /** The error a call returns: the transport's error, a status of 300 or more with the body, or a body that does not decode. */
  datatype AdminError = TransportFailed(msg: string) | BadStatus(status: int, body: seq<byte>) | Undecodable

  /** `AdminClient`: the admin base URL; its `http.Client` is the transport passed to each call. */
  datatype AdminClient = AdminClient(base: string)

  // ---------------------------------------------------------------------------
  // URLs
  // ---------------------------------------------------------------------------

  const LoginPath := "/oauth2/auth/requests/login"
  const LoginAcceptPath := "/oauth2/auth/requests/login/accept"
  const ConsentPath := "/oauth2/auth/requests/consent"
  const ConsentAcceptPath := "/oauth2/auth/requests/consent/accept"

  /**
   * `base + path + "?" + param + "=" + url.QueryEscape(challenge)`. The value after
   * the parameter's `=` holds no `&` or `#` and unescapes to exactly the challenge,
   * so the admin API receives the challenge intact as the only query parameter.
   */
  function ChallengeUrl(base: string, path: string, param: string, challenge: string): (u: string)
    ensures exists v {:trigger Unescape(v)} ::
      && u == base + path + "?" + param + "=" + v
      && '&' !in v && '#' !in v
      && Unescape(v) == Some(Utf8(challenge))
  {
    var v := QueryEscape(challenge);
    base + path + "?" + param + "=" + v
  }

  function LoginUrl(c: AdminClient, ch: string): string {
    ChallengeUrl(c.base, LoginPath, "login_challenge", ch)
  }

  function LoginAcceptUrl(c: AdminClient, ch: string): string {
    ChallengeUrl(c.base, LoginAcceptPath, "login_challenge", ch)
  }

  function ConsentUrl(c: AdminClient, ch: string): string {
    ChallengeUrl(c.base, ConsentPath, "consent_challenge", ch)
  }

  function ConsentAcceptUrl(c: AdminClient, ch: string): string {
    ChallengeUrl(c.base, ConsentAcceptPath, "consent_challenge", ch)
  }

  /** Distinct challenges address distinct admin URLs, for every one of the four endpoints. */
  lemma ChallengeUrlInjective(base: string, path: string, param: string, ch1: string, ch2: string)
    requires ChallengeUrl(base, path, param, ch1) == ChallengeUrl(base, path, param, ch2)
    ensures ch1 == ch2
  {
    var prefix := base + path + "?" + param + "=";
    var u1, u2 := ChallengeUrl(base, path, param, ch1), ChallengeUrl(base, path, param, ch2);
    assert u1 == prefix + QueryEscape(ch1) && u2 == prefix + QueryEscape(ch2);
    assert QueryEscape(ch1) == u1[|prefix|..] == u2[|prefix|..] == QueryEscape(ch2);
    QueryEscapeInjective(ch1, ch2);
  }

  // ---------------------------------------------------------------------------
  // getJSON / putJSON
  // ---------------------------------------------------------------------------

  /**
   * The reply classification shared by `getJSON` and `putJSON`: the transport
   * error unchanged, a status of 300 or more as an error with that status and
   * body, otherwise the decoded body or a decoding error.
   */
  function Classify<T>(reply: Reply, decode: seq<byte> -> Option<T>): (r: Result<T, AdminError>)
    ensures reply.TransportError? ==> r == Err(TransportFailed(reply.msg))
    ensures reply.Reply? && reply.status >= 300 ==> r == Err(BadStatus(reply.status, reply.body))
    ensures r.Ok? <==> reply.Reply? && reply.status < 300 && decode(reply.body).Some?
    ensures r.Ok? ==> decode(reply.body) == Some(r.value)
  {
    match reply
    case TransportError(msg) => Err(TransportFailed(msg))
    case Reply(status, body) =>
      if status >= 300 then Err(BadStatus(status, body))
      else
        match decode(body)
        case None => Err(Undecodable)
        case Some(v) => Ok(v)
  }

  /**
   * `getJSON`: one GET of the URL with an empty body; the result is the decoded
   * reply exactly when that request gets a status below 300 and a decodable body.
   */
  function GetJson<T>(net: Transport, u: string, decode: seq<byte> -> Option<T>): (r: Result<T, AdminError>)
    ensures var reply := net(OutRequest(GET, u, []));
      && (r.Ok? <==> reply.Reply? && reply.status < 300 && decode(reply.body).Some?)
      && (r.Ok? ==> decode(reply.body) == Some(r.value))
      && (reply.TransportError? ==> r == Err(TransportFailed(reply.msg)))
      && (reply.Reply? && reply.status >= 300 ==> r == Err(BadStatus(reply.status, reply.body)))
  {
    Classify(net(OutRequest(GET, u, [])), decode)
  }

  /**
   * `putJSON`: one PUT of the URL with the encoded body; the result is the decoded
   * reply exactly when that request gets a status below 300 and a decodable body.
   */
  function PutJson<T>(net: Transport, u: string, body: seq<byte>, decode: seq<byte> -> Option<T>): (r: Result<T, AdminError>)
    ensures var reply := net(OutRequest(PUT, u, body));
      && (r.Ok? <==> reply.Reply? && reply.status < 300 && decode(reply.body).Some?)
      && (r.Ok? ==> decode(reply.body) == Some(r.value))
      && (reply.TransportError? ==> r == Err(TransportFailed(reply.msg)))
      && (reply.Reply? && reply.status >= 300 ==> r == Err(BadStatus(reply.status, reply.body)))
  {
    Classify(net(OutRequest(PUT, u, body)), decode)
  }

  // ---------------------------------------------------------------------------
  // The four operations
  // ---------------------------------------------------------------------------

  /** The request each operation sends: fetches are GETs with no body, accepts are PUTs with the JSON body. */
  function FetchLoginRequestOut(c: AdminClient, ch: string): OutRequest {
    OutRequest(GET, LoginUrl(c, ch), [])
  }

  function AcceptLoginRequestOut(c: AdminClient, ch: string, body: AcceptLoginBody, codec: Codec): OutRequest {
    OutRequest(PUT, LoginAcceptUrl(c, ch), codec.encodeAcceptLogin(body))
  }

  function FetchConsentRequestOut(c: AdminClient, ch: string): OutRequest {
    OutRequest(GET, ConsentUrl(c, ch), [])
  }

  function AcceptConsentRequestOut(c: AdminClient, ch: string, body: AcceptConsentBody, codec: Codec): OutRequest {
    OutRequest(PUT, ConsentAcceptUrl(c, ch), codec.encodeAcceptConsent(body))
  }

  function GetLoginRequest(c: AdminClient, ch: string, net: Transport, codec: Codec): (r: Result<LoginRequest, AdminError>)
    ensures r == Classify(net(FetchLoginRequestOut(c, ch)), codec.decodeLogin)
  {
    GetJson(net, LoginUrl(c, ch), codec.decodeLogin)
  }

  function AcceptLoginRequest(c: AdminClient, ch: string, body: AcceptLoginBody, net: Transport, codec: Codec)
    : (r: Result<RedirectResponse, AdminError>)
    ensures r == Classify(net(AcceptLoginRequestOut(c, ch, body, codec)), codec.decodeRedirect)
  {
    PutJson(net, LoginAcceptUrl(c, ch), codec.encodeAcceptLogin(body), codec.decodeRedirect)
  }

  function GetConsentRequest(c: AdminClient, ch: string, net: Transport, codec: Codec): (r: Result<ConsentRequest, AdminError>)
    ensures r == Classify(net(FetchConsentRequestOut(c, ch)), codec.decodeConsent)
  {
    GetJson(net, ConsentUrl(c, ch), codec.decodeConsent)
  }

  function AcceptConsentRequest(c: AdminClient, ch: string, body: AcceptConsentBody, net: Transport, codec: Codec)
    : (r: Result<RedirectResponse, AdminError>)
    ensures r == Classify(net(AcceptConsentRequestOut(c, ch, body, codec)), codec.decodeRedirect)
  {
    PutJson(net, ConsentAcceptUrl(c, ch), codec.encodeAcceptConsent(body), codec.decodeRedirect)
  }

  /** The four endpoints are four distinct URLs for the same challenge and base. */
  lemma EndpointsDistinct(c: AdminClient, ch: string)
    ensures LoginUrl(c, ch) != LoginAcceptUrl(c, ch)
    ensures ConsentUrl(c, ch) != ConsentAcceptUrl(c, ch)
    ensures LoginUrl(c, ch) != ConsentUrl(c, ch)
    ensures LoginAcceptUrl(c, ch) != ConsentAcceptUrl(c, ch)
    ensures LoginUrl(c, ch) != ConsentAcceptUrl(c, ch)
    ensures LoginAcceptUrl(c, ch) != ConsentUrl(c, ch)
  {
    var n := |c.base|;
    var l, la, cs, ca := LoginUrl(c, ch), LoginAcceptUrl(c, ch), ConsentUrl(c, ch), ConsentAcceptUrl(c, ch);
    assert l[n + |LoginPath|] == '?' && la[n + |LoginPath|] == '/';
    assert cs[n + |ConsentPath|] == '?' && ca[n + |ConsentPath|] == '/';
    // the login paths and the consent paths part at the word after "requests/"
    assert l[n + 22] == 'l' && la[n + 22] == 'l' && cs[n + 22] == 'c' && ca[n + 22] == 'c';
  }
}
