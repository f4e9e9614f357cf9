/** The parts of net/http that the handlers read and write, as plain records. */
module Http {
  import opened Text

  /** The request method; `OtherMethod` stands for any method other than GET, POST and PUT. */
  datatype Method = GET | POST | PUT | OtherMethod(name: string)

  /** `url.Values` reduced to what `Values.Get` returns: the first value of each key. */
  type Params = map<string, string>

  /** `Values.Get`: the first value, or "" when the key is absent. */
  function Get(p: Params, key: string): (v: string)
    ensures key !in p ==> v == ""
  {
    if key in p then p[key] else ""
  }

  /**
   * An inbound request: method (verb), the well-formed pairs of the URL query,
   * the well-formed pairs of a form body, whether `ParseForm` reports an error,
   * and the cookies (the first value of each name). `url.ParseQuery` skips a
   * malformed pair and goes on, so the pairs are kept even when `formError` is set.
   */
  datatype Request = Request(verb: Method, query: Params, body: Params, formError: bool, cookies: map<string, string>)

  /** `r.Form.Get(key)` after `ParseForm`: body values come before query values. */
  function FormGet(r: Request, key: string): (v: string)
    ensures key in r.body ==> v == r.body[key]
    ensures key !in r.body ==> v == Get(r.query, key)
  {
    if key in r.body then r.body[key] else Get(r.query, key)
  }

  /** An outbound request handed to an `http.Client`. */
  datatype OutRequest = OutRequest(verb: Method, url: string, body: seq<byte>)

  /** What `http.Client.Do` yields: a transport error, or a status code and the body bytes. */
  datatype Reply = TransportError(msg: string) | Reply(status: int, body: seq<byte>)

  /** A transport: one round trip per request, an oracle for the network. */
  type Transport = OutRequest -> Reply

  datatype SameSite = SameSiteLax | SameSiteStrict | SameSiteNone

  /** `http.Cookie` as written to Set-Cookie; times are Unix seconds. */
  datatype Cookie = Cookie(
    name: string, value: string, path: string, domain: string,
    httpOnly: bool, secure: bool, sameSite: SameSite, maxAge: int, expires: int)
}
