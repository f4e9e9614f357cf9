/**
 * The cryptographic primitives, as oracles: SHA-256 (FIPS 180-4) and HMAC-SHA256
 * (RFC 2104). Nothing is assumed about them except their 32-byte output length;
 * the properties proved about the bridge hold for every pair of such functions.
 */
module Crypto {
  import opened Text

  type Digest = s: seq<byte> | |s| == 32 witness seq(32, i => 0)

  datatype Primitives = Primitives(
    /** `hmac.New(sha256.New, key)` written with the message, then `Sum(nil)`. */
    hmacSha256: (seq<byte>, seq<byte>) -> Digest,
    /** `sha256.Sum256(msg)`. */
    sha256: seq<byte> -> Digest)
}
