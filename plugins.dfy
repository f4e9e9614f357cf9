/**
 * Credential verifiers (internal/plugins): the capability types, the name-keyed
 * registry and the one shipped verifier, which posts the credentials to a login
 * API and maps its reply to an AuthResult.
 */
module Plugins {
  import opened Wrappers
  import opened Text
  import opened Json
  import opened Http

  datatype AuthResult = AuthResult(subject: string, claims: Claims)

  datatype Credentials = Credentials(username: string, password: string)

  /**
   * The `AuthPlugin` capability. The repository has one implementation, the
   * internal login plugin, holding the login API base URL; its `http.Client` is
   * the transport passed to Authenticate.
   */
  datatype AuthPlugin = InternalLogin(loginApi: string) {
    function Name(): (n: string)
      ensures n == "internal"
    {
      match this
      case InternalLogin(_) => "internal"
    }
  }

  /** The login API's request and reply bodies. */
  datatype LoginReq = LoginReq(username: string, password: string)
  datatype LoginResp = LoginResp(ok: bool, userId: string, claims: Claims, error: string)

  datatype Codec = Codec(encodeReq: LoginReq -> seq<byte>, decodeResp: seq<byte> -> Option<LoginResp>)

  /** Why Authenticate failed: transport, a status of 300 or more, a malformed body, or "invalid credentials". */
  datatype AuthError = TransportFailed(msg: string) | BadStatus(status: int, body: seq<byte>) | Malformed | InvalidCredentials

  /** The request the internal plugin sends: a POST of `{username, password}` to `loginApi + "/login"`. */
  function LoginRequestOut(p: AuthPlugin, cred: Credentials, codec: Codec): (req: OutRequest)
    ensures req.verb == POST && req.url == p.loginApi + "/login"
    ensures req.body == codec.encodeReq(LoginReq(cred.username, cred.password))
  {
    OutRequest(POST, p.loginApi + "/login", codec.encodeReq(LoginReq(cred.username, cred.password)))
  }

  /**
   * The reply mapping of `Authenticate`: success exactly when the reply has a
   * status below 300, a body that decodes, `ok` set and a non-empty `user_id`;
   * the subject is then that `user_id` and the claims are the reply's claims.
   */
  function AuthResultOf(reply: Reply, codec: Codec): (r: Result<AuthResult, AuthError>)
    ensures reply.TransportError? ==> r.Err? && r.error.TransportFailed?
    ensures reply.Reply? && reply.status >= 300 ==> r == Err(BadStatus(reply.status, reply.body))
    ensures r.Ok? <==>
      && reply.Reply? && reply.status < 300
      && codec.decodeResp(reply.body).Some?
      && codec.decodeResp(reply.body).value.ok
      && codec.decodeResp(reply.body).value.userId != ""
    ensures r.Ok? ==> r.value.subject != ""
    ensures r.Ok? ==>
      r.value == AuthResult(codec.decodeResp(reply.body).value.userId, codec.decodeResp(reply.body).value.claims)
  {
    match reply
    case TransportError(msg) => Err(TransportFailed(msg))
    case Reply(status, body) =>
      if status >= 300 then Err(BadStatus(status, body))
      else
        match codec.decodeResp(body)
        case None => Err(Malformed)
        case Some(out) =>
          if !out.ok || out.userId == "" then Err(InvalidCredentials)
          else Ok(AuthResult(out.userId, out.claims))
  }

  /** `AuthPlugin.Authenticate`: one round trip through the plugin's transport. */
  function Authenticate(p: AuthPlugin, cred: Credentials, net: Transport, codec: Codec): (r: Result<AuthResult, AuthError>)
    ensures r.Ok? ==> r.value.subject != ""
  {
    AuthResultOf(net(LoginRequestOut(p, cred, codec)), codec)
  }

  /** The name-to-plugin table, updated in place by Register. */
  class Registry {
    var plugins: map<string, AuthPlugin>

    /** Every entry is filed under its plugin's own name. */
    ghost predicate Valid()
      reads this
    {
      forall name :: name in plugins ==> plugins[name].Name() == name
    }

    /** `NewRegistry`: an empty table. */
    constructor ()
      ensures Valid() && plugins == map[]
    {
      plugins := map[];
    }

    /** Files the plugin under its name, replacing any earlier one (last write wins). */
    method Register(p: AuthPlugin)
      requires Valid()
      modifies this
      ensures Valid()
      ensures plugins == old(plugins)[p.Name() := p]
      ensures forall name :: name != p.Name() ==> (name in plugins <==> name in old(plugins))
      ensures forall name :: name != p.Name() && name in plugins ==> plugins[name] == old(plugins)[name]
    {
      plugins := plugins[p.Name() := p];
    }

    /** Looks a name up without changing the table; an absent name is "unknown provider: <name>". */
    method Get(name: string) returns (r: Result<AuthPlugin, string>)
      requires Valid()
      ensures r.Ok? <==> name in plugins
      ensures r.Ok? ==> r.value == plugins[name] && r.value.Name() == name
      ensures r.Err? ==> r.error == "unknown provider: " + name
    {
      if name in plugins {
        r := Ok(plugins[name]);
      } else {
        r := Err("unknown provider: " + name);
      }
    }
  }

  /** How a caller uses the registry: empty at first, then what was registered last under a name. */
  method RegistryUsage(p: AuthPlugin, q: AuthPlugin, other: string)
    requires other != "internal"
  {
    var reg := new Registry();
    var g := reg.Get(p.Name());
    assert g.Err?;
    reg.Register(p);
    g := reg.Get(p.Name());
    assert g == Ok(p);
    reg.Register(q);
    g := reg.Get("internal");
    assert g == Ok(q);
    g := reg.Get(other);
    assert g == Err("unknown provider: " + other);
  }
}
