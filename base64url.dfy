/**
 * `base64.RawURLEncoding` from Go's encoding/base64: the URL-safe alphabet of
 * RFC 4648 section 5, without padding (RFC 4648 section 3.2). Decoding is Go's
 * default, non-strict mode: CR and LF are skipped, a lone trailing character is
 * an error, and unused low bits of the last character are ignored.
 */
module Base64Url {
  import opened Wrappers
  import opened Text

  /** The alphabet character of a 6-bit value. */
  function Sextet(v: int): (c: char)
    requires 0 <= v < 64
  {
    if v < 26 then ('A' as int + v) as char
    else if v < 52 then ('a' as int + v - 26) as char
    else if v < 62 then ('0' as int + v - 52) as char
    else if v == 62 then '-' else '_'
  }

  /** The 6-bit value of an alphabet character; None for any other character. */
  function SextetValue(c: char): (r: Option<int>)
    ensures r.Some? ==> 0 <= r.value < 64
  {
    if 'A' <= c <= 'Z' then Some(c as int - 'A' as int)
    else if 'a' <= c <= 'z' then Some(c as int - 'a' as int + 26)
    else if '0' <= c <= '9' then Some(c as int - '0' as int + 52)
    else if c == '-' then Some(62)
    else if c == '_' then Some(63)
    else None
  }

  predicate InAlphabet(c: char) {
    SextetValue(c).Some?
  }

  lemma SextetRoundTrip(v: int)
    requires 0 <= v < 64
    ensures SextetValue(Sextet(v)) == Some(v)
  {
  }

  /** The values are all 6-bit. */
  predicate IsSextets(g: seq<int>) {
    forall i :: 0 <= i < |g| ==> 0 <= g[i] < 64
  }

  /**
   * The 6-bit groups of the bytes, most significant bits first: four per three
   * bytes, then two or three for a tail of one or two bytes, the last group
   * padded with zero bits.
   */
  function Groups(b: seq<byte>): (g: seq<int>)
    ensures IsSextets(g)
    decreases |b|
  {
    if |b| == 0 then []
    else if |b| == 1 then [b[0] / 4, b[0] % 4 * 16]
    else if |b| == 2 then [b[0] / 4, b[0] % 4 * 16 + b[1] / 16, b[1] % 16 * 4]
    else [b[0] / 4, b[0] % 4 * 16 + b[1] / 16, b[1] % 16 * 4 + b[2] / 64, b[2] % 64] + Groups(b[3..])
  }

  /** The alphabet character of each 6-bit value. */
  function Chars(g: seq<int>): (s: string)
    requires IsSextets(g)
  {
    seq(|g|, i requires 0 <= i < |g| => Sextet(g[i]))
  }

  /**
   * Encode: the alphabet characters of the 6-bit groups, `EncodedLen` of them,
   * so four characters per three bytes plus two or three for a tail.
   */
  function Encode(b: seq<byte>): (s: string)
    ensures |s| == EncodedLen(|b|)
    ensures forall i :: 0 <= i < |s| ==> InAlphabet(s[i])
  {
    GroupsLength(b);
    CharsInAlphabet(Groups(b));
    Chars(Groups(b))
  }

  /** `Encoding.EncodedLen` for the unpadded encoding. */
  function EncodedLen(n: nat): nat {
    n / 3 * 4 + (if n % 3 == 0 then 0 else n % 3 + 1)
  }

  /** Bytes from a quantum of two, three or four 6-bit values (missing ones read as absent). */
  function Byte0(c0: int, c1: int): byte
    requires 0 <= c0 < 64 && 0 <= c1 < 64
  {
    c0 * 4 + c1 / 16
  }

  function Byte1(c1: int, c2: int): byte
    requires 0 <= c1 < 64 && 0 <= c2 < 64
  {
    c1 % 16 * 16 + c2 / 4
  }

  function Byte2(c2: int, c3: int): byte
    requires 0 <= c2 < 64 && 0 <= c3 < 64
  {
    c2 % 4 * 64 + c3
  }

  /** The 6-bit value of every character; None when one is outside the alphabet. */
  function Values(s: string): (r: Option<seq<int>>)
    ensures r.Some? <==> forall i :: 0 <= i < |s| ==> InAlphabet(s[i])
    ensures r.Some? ==> |r.value| == |s| && IsSextets(r.value)
  {
    if forall i :: 0 <= i < |s| ==> InAlphabet(s[i]) then
      Some(seq(|s|, i requires 0 <= i < |s| => match SextetValue(s[i]) case Some(v) => v case None => 0))
    else None
  }

  /**
   * Bytes from 6-bit values, three per quantum of four; a final two or three
   * values give one or two bytes (their unused low bits dropped), and a lone
   * final value is an error.
   */
  function Assemble(g: seq<int>): (r: Option<seq<byte>>)
    requires IsSextets(g)
    ensures r.Some? <==> |g| % 4 != 1
    decreases |g|
  {
    if |g| == 0 then Some([])
    else if |g| == 1 then None
    else if |g| == 2 then Some([Byte0(g[0], g[1])])
    else if |g| == 3 then Some([Byte0(g[0], g[1]), Byte1(g[1], g[2])])
    else
      match Assemble(g[4..])
      case None => None
      case Some(rest) => Some([Byte0(g[0], g[1]), Byte1(g[1], g[2]), Byte2(g[2], g[3])] + rest)
  }

  /** Decoding once CR and LF have been removed: any character outside the alphabet is an error. */
  function DecodeClean(s: string): Option<seq<byte>> {
    match Values(s)
    case None => None
    case Some(g) => Assemble(g)
  }

  function StripNewlines(s: string): (r: string)
    ensures |r| <= |s|
  {
    if s == [] then [] else (if s[0] == '\r' || s[0] == '\n' then [] else [s[0]]) + StripNewlines(s[1..])
  }

  /** `RawURLEncoding.DecodeString`: None is the decoding error. */
  function Decode(s: string): Option<seq<byte>> {
    DecodeClean(StripNewlines(s))
  }

  /**
   * Once CR and LF are dropped, decoding fails exactly when a character is outside
   * the alphabet or a lone character is left over.
   */
  lemma DecodeSucceeds(s: string)
    ensures var t := StripNewlines(s);
      Decode(s).Some? <==> |t| % 4 != 1 && forall i :: 0 <= i < |t| ==> InAlphabet(t[i])
  {
  }

  // ---------------------------------------------------------------------------
  // Properties
  // ---------------------------------------------------------------------------

  /** The groups of some bytes number `EncodedLen` of their count. */
  lemma {:induction false} GroupsLength(b: seq<byte>)
    ensures |Groups(b)| == EncodedLen(|b|)
    decreases |b|
  {
    if |b| >= 3 {
      GroupsLength(b[3..]);
      assert |Groups(b)| == 4 + |Groups(b[3..])|;
    }
  }

  /** The characters of 6-bit values are all in the alphabet. */
  lemma CharsInAlphabet(g: seq<int>)
    requires IsSextets(g)
    ensures forall i :: 0 <= i < |Chars(g)| ==> InAlphabet(Chars(g)[i])
  {
    var s := Chars(g);
    forall i | 0 <= i < |s|
      ensures InAlphabet(s[i])
    {
      SextetRoundTrip(g[i]);
    }
  }

  /** An encoding never holds '.', CR or LF, since none of them is in the alphabet. */
  lemma EncodeAlphabet(b: seq<byte>)
    ensures '.' !in Encode(b) && '\r' !in Encode(b) && '\n' !in Encode(b)
  {
    assert !InAlphabet('.') && !InAlphabet('\r') && !InAlphabet('\n');
  }

  /** A SHA-256 digest (32 bytes) encodes to exactly 43 characters. */
  lemma DigestEncodingLength(b: seq<byte>)
    requires |b| == 32
    ensures |Encode(b)| == 43
  {
  }

  lemma {:induction false} StripNewlinesKeeps(s: string)
    requires '\r' !in s && '\n' !in s
    ensures StripNewlines(s) == s
  {
    if s != [] {
      StripNewlinesKeeps(s[1..]);
      assert s == [s[0]] + s[1..];
    }
  }

  /** Reading the characters of 6-bit values back gives those values. */
  lemma ValuesChars(g: seq<int>)
    requires IsSextets(g)
    ensures Values(Chars(g)) == Some(g)
  {
    var s := Chars(g);
    forall i | 0 <= i < |s|
      ensures SextetValue(s[i]) == Some(g[i])
    {
      SextetRoundTrip(g[i]);
    }
    assert Values(s).value == g;
  }

  lemma QuantumRoundTrip(b0: byte, b1: byte, b2: byte)
    ensures Byte0(b0 / 4, b0 % 4 * 16 + b1 / 16) == b0
    ensures Byte1(b0 % 4 * 16 + b1 / 16, b1 % 16 * 4 + b2 / 64) == b1
    ensures Byte2(b1 % 16 * 4 + b2 / 64, b2 % 64) == b2
  {
  }

  /** A full quantum of four values in front of a rest that assembles. */
  lemma AssembleQuantum(g: seq<int>, rest: seq<byte>)
    requires IsSextets(g) && |g| >= 4 && Assemble(g[4..]) == Some(rest)
    ensures Assemble(g) == Some([Byte0(g[0], g[1]), Byte1(g[1], g[2]), Byte2(g[2], g[3])] + rest)
  {
  }

  lemma AssembleOneByte(b0: byte)
    ensures Assemble(Groups([b0])) == Some([b0])
  {
    var c0, c1 := b0 / 4, b0 % 4 * 16;
    assert Groups([b0]) == [c0, c1];
    assert Byte0(c0, c1) == b0;
  }

  lemma AssembleTwoBytes(b0: byte, b1: byte)
    ensures Assemble(Groups([b0, b1])) == Some([b0, b1])
  {
    var c0, c1, c2 := b0 / 4, b0 % 4 * 16 + b1 / 16, b1 % 16 * 4;
    assert Groups([b0, b1]) == [c0, c1, c2];
    assert Byte0(c0, c1) == b0 && Byte1(c1, c2) == b1;
  }

  /** The groups of three or more bytes: the quantum of the first three, then the groups of the rest. */
  lemma GroupsQuantum(b: seq<byte>)
    requires |b| >= 3
    ensures |Groups(b)| >= 4 && Groups(b)[4..] == Groups(b[3..])
    ensures Groups(b)[0] == b[0] / 4 && Groups(b)[1] == b[0] % 4 * 16 + b[1] / 16
    ensures Groups(b)[2] == b[1] % 16 * 4 + b[2] / 64 && Groups(b)[3] == b[2] % 64
  {
  }

  lemma SplitThree(b: seq<byte>)
    requires |b| >= 3
    ensures [b[0], b[1], b[2]] + b[3..] == b
  {
  }

  /** One step of the round trip: a quantum of three bytes in front of a rest that round-trips. */
  lemma AssembleStep(b: seq<byte>)
    requires |b| >= 3 && Assemble(Groups(b[3..])) == Some(b[3..])
    ensures Assemble(Groups(b)) == Some(b)
  {
    var g := Groups(b);
    GroupsQuantum(b);
    AssembleQuantum(g, b[3..]);
    var x0, x1, x2 := Byte0(g[0], g[1]), Byte1(g[1], g[2]), Byte2(g[2], g[3]);
    assert x0 == b[0] && x1 == b[1] && x2 == b[2] by {
      QuantumRoundTrip(b[0], b[1], b[2]);
    }
    SplitThree(b);
  }

  /** Assembling the 6-bit groups of some bytes gives back those bytes. */
  lemma {:induction false} AssembleGroups(b: seq<byte>)
    ensures Assemble(Groups(b)) == Some(b)
    decreases |b|
  {
    if |b| == 1 {
      AssembleOneByte(b[0]);
      assert b == [b[0]];
    } else if |b| == 2 {
      AssembleTwoBytes(b[0], b[1]);
      assert b == [b[0], b[1]];
    } else if |b| >= 3 {
      AssembleGroups(b[3..]);
      AssembleStep(b);
    }
  }

  /** Decoding undoes encoding. */
  lemma DecodeEncode(b: seq<byte>)
    ensures Decode(Encode(b)) == Some(b)
  {
    EncodeAlphabet(b);
    StripNewlinesKeeps(Encode(b));
    ValuesChars(Groups(b));
    AssembleGroups(b);
  }

  lemma EncodeZeroByte()
    ensures Encode([0]) == "AA"
  {
    assert Groups([0]) == [0, 0];
    assert Encode([0]) == [Sextet(0), Sextet(0)];
  }

  lemma DecodeNonCanonicalZeroByte()
    ensures Decode("AB") == Some([0])
  {
    assert StripNewlines("AB") == "AB";
    assert SextetValue('A') == Some(0) && SextetValue('B') == Some(1);
    var s := "AB";
    assert InAlphabet(s[0]) && InAlphabet(s[1]);
    var v := Values(s).value;
    assert v[0] == 0 && v[1] == 1;
    assert Assemble(v) == Some([Byte0(0, 1)]);
  }

  /**
   * The decoder is not injective: "AB" is not what Encode produces for any input,
   * yet it decodes to the same single zero byte as the canonical "AA".
   */
  lemma NonCanonicalDecode()
    ensures Encode([0]) == "AA"
    ensures Decode("AB") == Some([0])
  {
    EncodeZeroByte();
    DecodeNonCanonicalZeroByte();
  }
}
