/**
 * JSON values as the bridge sees them after `json.Unmarshal` into
 * `map[string]interface{}`; encoding and decoding themselves are oracles
 * (function values) supplied by the caller, constrained only by the laws below.
 */
module Json {
  import opened Wrappers
  import opened Text

  datatype Value =
    | Null
    | Bool(b: bool)
    | Number(n: int)
    | Str(s: string)
    | Array(items: seq<Value>)
    | Object(fields: map<string, Value>)

  type ClaimMap = map<string, Value>

  /** A Go `map[string]interface{}`, which may be nil (None). */
  type Claims = Option<ClaimMap>

  /**
   * What survives a JSON round trip through a field tagged `omitempty`: an empty
   * or nil map is left out of the encoding and decodes as nil.
   */
  function OmitEmpty(c: Claims): (r: Claims)
    ensures r.Some? ==> c == r && |r.value| > 0
    ensures r.None? ==> c.None? || c.value == map[]
  {
    if c.Some? && c.value == map[] then None else c
  }

  /**
   * `json.Marshal` of a claims map, and `json.Unmarshal` of bytes into a
   * `map[string]any`: None when Unmarshal reports an error (the map is then left
   * as it was), Some(None) for the literal `null`, which sets the map to nil.
   */
  datatype ClaimsCodec = ClaimsCodec(marshal: Claims -> seq<byte>, unmarshal: seq<byte> -> Option<Claims>)

  /** The JSON law the user-info cookie relies on: a map, or nil (`null`), reads back as itself. */
  ghost predicate ClaimsRoundTrip(codec: ClaimsCodec) {
    forall c: Claims {:trigger codec.marshal(c)} :: codec.unmarshal(codec.marshal(c)) == Some(c)
  }
}
