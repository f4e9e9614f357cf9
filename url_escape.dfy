/**
 * `url.QueryEscape` from Go's net/url (query-component mode): letters, digits and
 * `-_.~` stay, a space becomes `+`, every other byte of the UTF-8 encoding becomes
 * `%XX` with upper-case hex. `Unescape` is `url.QueryUnescape`, its inverse.
 */
module UrlEscape {
  import opened Wrappers
  import opened Text

  predicate Unreserved(x: byte) {
    ('a' as int <= x <= 'z' as int) || ('A' as int <= x <= 'Z' as int) || ('0' as int <= x <= '9' as int)
    || x == '-' as int || x == '_' as int || x == '.' as int || x == '~' as int
  }

  function HexDigit(v: int): (c: char)
    requires 0 <= v < 16
  {
    if v < 10 then ('0' as int + v) as char else ('A' as int + v - 10) as char
  }

  /** The value of a hexadecimal digit (either case, as `unhex` accepts). */
  function HexValue(c: char): (r: Option<int>)
    ensures r.Some? ==> 0 <= r.value < 16
  {
    if '0' <= c <= '9' then Some(c as int - '0' as int)
    else if 'A' <= c <= 'F' then Some(c as int - 'A' as int + 10)
    else if 'a' <= c <= 'f' then Some(c as int - 'a' as int + 10)
    else None
  }

  function EscapeByte(x: byte): (s: string)
    ensures |s| == 1 || |s| == 3
  {
    if Unreserved(x) then [x as char]
    else if x == ' ' as int then "+"
    else ['%', HexDigit(x / 16), HexDigit(x % 16)]
  }

  function EscapeBytes(b: seq<byte>): string {
    if b == [] then "" else EscapeByte(b[0]) + EscapeBytes(b[1..])
  }

  /**
   * `url.QueryEscape(s)`: only unreserved characters, '+' and '%' appear, so never
   * a '&' or '#', and unescaping gives back the UTF-8 bytes of `s`.
   */
  function QueryEscape(s: string): (e: string)
    ensures forall i :: 0 <= i < |e| ==> EscapedChar(e[i])
    ensures '&' !in e && '#' !in e
    ensures Unescape(e) == Some(Utf8(s))
  {
    EscapeBytesChars(Utf8(s));
    UnescapeEscapeBytes(Utf8(s));
    EscapeBytes(Utf8(s))
  }

  /** Every '%' starts an escape of two hexadecimal digits. */
  predicate WellEscaped(s: string) {
    forall i :: 0 <= i < |s| && s[i] == '%' ==> i + 2 < |s| && HexValue(s[i + 1]).Some? && HexValue(s[i + 2]).Some?
  }

  /** `url.QueryUnescape`: None for a malformed `%` escape; '+' reads as a space. */
  function Unescape(s: string): (r: Option<seq<byte>>)
    decreases |s|
  {
    if s == [] then Some([])
    else if s[0] == '%' then
      if |s| < 3 then None
      else
        var hi, lo := HexValue(s[1]), HexValue(s[2]);
        if hi.None? || lo.None? then None
        else
          var rest := Unescape(s[3..]);
          if rest.None? then None else Some([hi.value * 16 + lo.value] + rest.value)
    else
      var rest := Unescape(s[1..]);
      if rest.None? then None
      else Some((if s[0] == '+' then [' ' as int] else EncodeRune(s[0])) + rest.value)
  }

  /** Unescaping fails exactly when some '%' is not followed by two hexadecimal digits. */
  lemma {:induction false} UnescapeSucceeds(s: string)
    ensures Unescape(s).Some? <==> WellEscaped(s)
    decreases |s|
  {
    if s != [] {
      if s[0] == '%' {
        if |s| >= 3 && HexValue(s[1]).Some? && HexValue(s[2]).Some? {
          UnescapeSucceeds(s[3..]);
          WellEscapedEscape(s);
        }
      } else {
        UnescapeSucceeds(s[1..]);
        WellEscapedPlain(s);
      }
    }
  }

  /** Text without '%' or '+' unescapes to its own UTF-8 bytes. */
  lemma {:induction false} UnescapePlainText(s: string)
    requires '%' !in s && '+' !in s
    ensures Unescape(s) == Some(Utf8(s))
    decreases |s|
  {
    if s != [] {
      assert s[0] in s;
      assert forall c :: c in s[1..] ==> c in s;
      UnescapePlainText(s[1..]);
    }
  }

  /** A leading character other than '%' does not affect well-formedness. */
  lemma WellEscapedPlain(s: string)
    requires s != [] && s[0] != '%'
    ensures WellEscaped(s) <==> WellEscaped(s[1..])
  {
    var t := s[1..];
    if WellEscaped(t) {
      forall i | 0 <= i < |s| && s[i] == '%'
        ensures i + 2 < |s| && HexValue(s[i + 1]).Some? && HexValue(s[i + 2]).Some?
      {
        assert t[i - 1] == '%';
      }
    }
    if WellEscaped(s) {
      forall i | 0 <= i < |t| && t[i] == '%'
        ensures i + 2 < |t| && HexValue(t[i + 1]).Some? && HexValue(t[i + 2]).Some?
      {
        assert s[i + 1] == '%';
      }
    }
  }

  /** A leading well-formed escape does not affect well-formedness. */
  lemma WellEscapedEscape(s: string)
    requires |s| >= 3 && s[0] == '%' && HexValue(s[1]).Some? && HexValue(s[2]).Some?
    ensures WellEscaped(s) <==> WellEscaped(s[3..])
  {
    var t := s[3..];
    if WellEscaped(t) {
      forall i | 0 <= i < |s| && s[i] == '%'
        ensures i + 2 < |s| && HexValue(s[i + 1]).Some? && HexValue(s[i + 2]).Some?
      {
        if i >= 3 {
          assert t[i - 3] == '%';
        }
      }
    }
    if WellEscaped(s) {
      forall i | 0 <= i < |t| && t[i] == '%'
        ensures i + 2 < |t| && HexValue(t[i + 1]).Some? && HexValue(t[i + 2]).Some?
      {
        assert s[i + 3] == '%';
      }
    }
  }

  /** The characters an escaped query component can contain. */
  predicate EscapedChar(c: char) {
    ('a' <= c <= 'z') || ('A' <= c <= 'Z') || ('0' <= c <= '9')
    || c == '-' || c == '_' || c == '.' || c == '~' || c == '+' || c == '%'
  }

  lemma EscapeByteChars(x: byte)
    ensures forall i :: 0 <= i < |EscapeByte(x)| ==> EscapedChar(EscapeByte(x)[i])
  {
  }

  /** Every character of an escaped byte string is an unreserved character, '+', '%' or a hex digit. */
  lemma {:induction false} EscapeBytesEscaped(b: seq<byte>)
    ensures forall i :: 0 <= i < |EscapeBytes(b)| ==> EscapedChar(EscapeBytes(b)[i])
  {
    if b != [] {
      EscapeBytesEscaped(b[1..]);
      EscapeByteChars(b[0]);
      assert EscapeBytes(b) == EscapeByte(b[0]) + EscapeBytes(b[1..]);
    }
  }

  /**
   * An escaped value never contains a query or fragment delimiter, so a challenge
   * placed after `login_challenge=` cannot add parameters or cut the URL short.
   */
  lemma EscapeBytesChars(b: seq<byte>)
    ensures forall i :: 0 <= i < |EscapeBytes(b)| ==> EscapedChar(EscapeBytes(b)[i])
    ensures '&' !in EscapeBytes(b) && '#' !in EscapeBytes(b) && '=' !in EscapeBytes(b) && ' ' !in EscapeBytes(b)
  {
    EscapeBytesEscaped(b);
    assert !EscapedChar('&') && !EscapedChar('#') && !EscapedChar('=') && !EscapedChar(' ');
  }

  lemma UnescapeUnreserved(x: byte, t: string, r: seq<byte>)
    requires Unreserved(x) && Unescape(t) == Some(r)
    ensures Unescape([x as char] + t) == Some([x] + r)
  {
    var s := [x as char] + t;
    assert s[0] == x as char && s[1..] == t;
    assert EncodeRune(x as char) == [x];
  }

  lemma UnescapePlus(t: string, r: seq<byte>)
    requires Unescape(t) == Some(r)
    ensures Unescape("+" + t) == Some([' ' as int] + r)
  {
    var s := "+" + t;
    assert s[0] == '+' && s[1..] == t;
  }

  lemma HexRoundTrip(v: int)
    requires 0 <= v < 16
    ensures HexValue(HexDigit(v)) == Some(v)
  {
  }

  lemma UnescapeHex(x: byte, t: string, r: seq<byte>)
    requires Unescape(t) == Some(r)
    ensures Unescape(['%', HexDigit(x / 16), HexDigit(x % 16)] + t) == Some([x] + r)
  {
    var s := ['%', HexDigit(x / 16), HexDigit(x % 16)] + t;
    assert s[0] == '%' && s[1] == HexDigit(x / 16) && s[2] == HexDigit(x % 16) && s[3..] == t;
    HexRoundTrip(x / 16);
    HexRoundTrip(x % 16);
  }

  lemma UnescapeByte(x: byte, t: string, r: seq<byte>)
    requires Unescape(t) == Some(r)
    ensures Unescape(EscapeByte(x) + t) == Some([x] + r)
  {
    if Unreserved(x) {
      UnescapeUnreserved(x, t, r);
    } else if x == ' ' as int {
      UnescapePlus(t, r);
    } else {
      UnescapeHex(x, t, r);
    }
  }

  lemma {:induction false} UnescapeEscapeBytes(b: seq<byte>)
    ensures Unescape(EscapeBytes(b)) == Some(b)
  {
    if b != [] {
      UnescapeEscapeBytes(b[1..]);
      UnescapeByte(b[0], EscapeBytes(b[1..]), b[1..]);
      assert b == [b[0]] + b[1..];
    }
  }

  /** Distinct challenges are escaped to distinct query values. */
  lemma QueryEscapeInjective(s: string, t: string)
    requires QueryEscape(s) == QueryEscape(t)
    ensures s == t
  {
    Utf8Injective(s, t);
  }
}
