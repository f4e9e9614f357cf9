/**
 * Go string and byte-slice primitives the bridge relies on, written out so that
 * their properties are proved rather than assumed:
 *  - `[]byte(s)`      : UTF-8 encoding of a string (Utf8),
 *  - `strings.Split`  : splitting on a separator character (Split),
 *  - `strings.TrimSpace` and `strings.ToLower` (TrimSpace, ToLowerAscii).
 */
module Text {

  type byte = x: int | 0 <= x < 256

  // ---------------------------------------------------------------------------
  // UTF-8 (a Go string converted to []byte)
  // ---------------------------------------------------------------------------

  /** The UTF-8 encoding of one Unicode scalar value (RFC 3629, section 3). */
  function EncodeRune(c: char): (b: seq<byte>)
    ensures 1 <= |b| <= 4
  {
    var n := c as int;
    if n < 0x80 then [n]
    else if n < 0x800 then [0xC0 + n / 64, 0x80 + n % 64]
    else if n < 0x10000 then [0xE0 + n / 64 / 64, 0x80 + n / 64 % 64, 0x80 + n % 64]
    else [0xF0 + n / 64 / 64 / 64, 0x80 + n / 64 / 64 % 64, 0x80 + n / 64 % 64, 0x80 + n % 64]
  }

  /** Number of bytes of the sequence that a UTF-8 lead byte announces. */
  function LeadLength(lead: byte): nat {
    if lead < 0x80 then 1 else if lead < 0xE0 then 2 else if lead < 0xF0 then 3 else 4
  }

  lemma LeadAnnouncesLength(c: char)
    ensures |EncodeRune(c)| == LeadLength(EncodeRune(c)[0])
  {
  }

  /** Distinct characters have distinct encodings. */
  lemma RuneInjective(a: char, b: char)
    requires EncodeRune(a) == EncodeRune(b)
    ensures a == b
  {
    var n, m := a as int, b as int;
    assert n == 64 * (n / 64) + n % 64 && m == 64 * (m / 64) + m % 64;
    assert n / 64 == 64 * (n / 64 / 64) + n / 64 % 64;
    assert m / 64 == 64 * (m / 64 / 64) + m / 64 % 64;
    assert n / 64 / 64 == 64 * (n / 64 / 64 / 64) + n / 64 / 64 % 64;
    assert m / 64 / 64 == 64 * (m / 64 / 64 / 64) + m / 64 / 64 % 64;
    assert n == m;
  }

  /** `[]byte(s)`: the UTF-8 bytes of a string. */
  function Utf8(s: string): (b: seq<byte>)
    ensures |b| >= |s|
  {
    if s == [] then [] else EncodeRune(s[0]) + Utf8(s[1..])
  }

  /** The conversion to bytes loses nothing: equal bytes mean equal strings. */
  lemma {:induction false} Utf8Injective(a: string, b: string)
    requires Utf8(a) == Utf8(b)
    ensures a == b
  {
    if a != [] && b != [] {
      var ea, eb := EncodeRune(a[0]), EncodeRune(b[0]);
      assert Utf8(a) == ea + Utf8(a[1..]) && Utf8(b) == eb + Utf8(b[1..]);
      assert ea[0] == Utf8(a)[0] == Utf8(b)[0] == eb[0];
      LeadAnnouncesLength(a[0]);
      LeadAnnouncesLength(b[0]);
      assert ea == Utf8(a)[..|ea|] == Utf8(b)[..|eb|] == eb;
      RuneInjective(a[0], b[0]);
      assert Utf8(a[1..]) == Utf8(a)[|ea|..] == Utf8(b)[|eb|..] == Utf8(b[1..]);
      Utf8Injective(a[1..], b[1..]);
      assert a == [a[0]] + a[1..] && b == [b[0]] + b[1..];
    }
  }

  // ---------------------------------------------------------------------------
  // strings.Split with a one-character separator
  // ---------------------------------------------------------------------------

  /**
   * `strings.Split(s, [sep])`: the maximal sep-free pieces between separators,
   * so `Split("", sep) == [""]` and there is always one more piece than separators.
   */
  function Split(s: string, sep: char): (parts: seq<string>)
    ensures |parts| >= 1
  {
    if s == [] then [""]
    else
      var rest := Split(s[1..], sep);
      if s[0] == sep then [""] + rest else [[s[0]] + rest[0]] + rest[1..]
  }

  /** The pieces joined back with the separator, the inverse of Split. */
  function Join(parts: seq<string>, sep: char): string
    requires |parts| >= 1
  {
    if |parts| == 1 then parts[0] else parts[0] + [sep] + Join(parts[1..], sep)
  }

  /** No piece of Split contains the separator. */
  lemma {:induction false} SplitPiecesSepFree(s: string, sep: char)
    ensures forall i :: 0 <= i < |Split(s, sep)| ==> sep !in Split(s, sep)[i]
  {
    if s != [] {
      SplitPiecesSepFree(s[1..], sep);
      var rest, parts := Split(s[1..], sep), Split(s, sep);
      if s[0] != sep {
        assert parts[1..] == rest[1..];
        forall i | 0 < i < |parts|
          ensures sep !in parts[i]
        {
          assert parts[i] == rest[i];
        }
      } else {
        forall i | 0 < i < |parts|
          ensures sep !in parts[i]
        {
          assert parts[i] == rest[i - 1];
        }
      }
    }
  }

  /** Prepending a character to the first piece prepends it to the joined string. */
  lemma JoinPrepend(c: char, parts: seq<string>, sep: char)
    requires |parts| >= 1
    ensures Join([[c] + parts[0]] + parts[1..], sep) == [c] + Join(parts, sep)
  {
    var longer := [[c] + parts[0]] + parts[1..];
    assert longer[0] == [c] + parts[0] && longer[1..] == parts[1..];
    if |parts| > 1 {
      assert Join(longer, sep) == ([c] + parts[0]) + [sep] + Join(parts[1..], sep);
      assert Join(parts, sep) == parts[0] + [sep] + Join(parts[1..], sep);
    }
  }

  /** Joining the pieces of Split gives the input back. */
  lemma {:induction false} JoinSplit(s: string, sep: char)
    ensures Join(Split(s, sep), sep) == s
  {
    if s != [] {
      JoinSplit(s[1..], sep);
      var rest := Split(s[1..], sep);
      if s[0] != sep {
        calc {
          Join(Split(s, sep), sep);
          Join([[s[0]] + rest[0]] + rest[1..], sep);
          == { JoinPrepend(s[0], rest, sep); }
          [s[0]] + Join(rest, sep);
          [s[0]] + s[1..];
          s;
        }
      } else {
        var parts := [""] + rest;
        calc {
          Join(Split(s, sep), sep);
          Join(parts, sep);
          == { assert parts[1..] == rest; }
          "" + [sep] + Join(rest, sep);
          [s[0]] + s[1..];
          s;
        }
      }
    }
  }

  /** Split loses nothing and leaves no separator inside a piece. */
  lemma SplitJoin(s: string, sep: char)
    ensures Join(Split(s, sep), sep) == s
    ensures forall i :: 0 <= i < |Split(s, sep)| ==> sep !in Split(s, sep)[i]
  {
    JoinSplit(s, sep);
    SplitPiecesSepFree(s, sep);
  }

  /** A piece without the separator splits into itself. */
  lemma {:induction false} SplitNoSep(s: string, sep: char)
    requires sep !in s
    ensures Split(s, sep) == [s]
  {
    if s != [] {
      SplitNoSep(s[1..], sep);
      assert s == [s[0]] + s[1..];
    }
  }

  /** Splitting `a + sep + b` with a separator-free `a` yields `a` followed by the pieces of `b`. */
  lemma {:induction false} SplitAfterPiece(a: string, sep: char, b: string)
    requires sep !in a
    ensures Split(a + [sep] + b, sep) == [a] + Split(b, sep)
  {
    if a != [] {
      assert (a + [sep] + b)[1..] == a[1..] + [sep] + b;
      SplitAfterPiece(a[1..], sep, b);
      assert [a[0]] + a[1..] == a;
    } else {
      assert (a + [sep] + b)[1..] == b;
    }
  }

  /** Two separator-free pieces joined by the separator split back into exactly those two. */
  lemma SplitTwoPieces(a: string, sep: char, b: string)
    requires sep !in a && sep !in b
    ensures Split(a + [sep] + b, sep) == [a, b]
  {
    SplitAfterPiece(a, sep, b);
    SplitNoSep(b, sep);
  }

  // ---------------------------------------------------------------------------
  // strings.TrimSpace and strings.ToLower
  // ---------------------------------------------------------------------------

  /** `unicode.IsSpace`: the Latin-1 spaces plus the Unicode White_Space characters of category Z. */
  predicate IsSpace(c: char) {
    c == '\t' || c == '\n' || c == '\U{000B}' || c == '\U{000C}' || c == '\r' || c == ' '
    || c == '\U{0085}' || c == '\U{00A0}' || c == '\U{1680}' || ('\U{2000}' <= c <= '\U{200A}')
    || c == '\U{2028}' || c == '\U{2029}' || c == '\U{202F}' || c == '\U{205F}' || c == '\U{3000}'
  }

  predicate AllSpace(s: string) {
    forall i :: 0 <= i < |s| ==> IsSpace(s[i])
  }

  function TrimLeft(s: string): (r: string)
    ensures |r| <= |s|
  {
    if s != [] && IsSpace(s[0]) then TrimLeft(s[1..]) else s
  }

  function TrimRight(s: string): (r: string)
    ensures |r| <= |s|
  {
    if s != [] && IsSpace(s[|s| - 1]) then TrimRight(s[..|s| - 1]) else s
  }

  /** `strings.TrimSpace`: drop leading and trailing white space. */
  function TrimSpace(s: string): string {
    TrimRight(TrimLeft(s))
  }

  /** `strings.ToLower`, restricted to the ASCII letters. */
  function ToLowerAscii(s: string): (r: string)
    ensures |r| == |s|
  {
    if s == [] then []
    else
      var c := s[0];
      [if 'A' <= c <= 'Z' then (c as int + 32) as char else c] + ToLowerAscii(s[1..])
  }

  lemma {:induction false} TrimLeftSkipsSpace(ws: string, s: string)
    requires AllSpace(ws)
    ensures TrimLeft(ws + s) == TrimLeft(s)
  {
    if ws == [] {
      assert ws + s == s;
    } else {
      assert (ws + s)[0] == ws[0] && (ws + s)[1..] == ws[1..] + s;
      TrimLeftSkipsSpace(ws[1..], s);
    }
  }

  lemma {:induction false} TrimRightSkipsSpace(s: string, ws: string)
    requires AllSpace(ws)
    ensures TrimRight(s + ws) == TrimRight(s)
  {
    if ws == [] {
      assert s + ws == s;
    } else {
      var n := |s + ws|;
      assert (s + ws)[n - 1] == ws[|ws| - 1];
      assert (s + ws)[..n - 1] == s + ws[..|ws| - 1];
      TrimRightSkipsSpace(s, ws[..|ws| - 1]);
    }
  }

  /** Trailing white space survives TrimLeft unless everything was white space. */
  lemma {:induction false} TrimLeftKeepsTail(s: string, ws: string)
    requires AllSpace(ws)
    ensures TrimLeft(s + ws) == TrimLeft(s) + ws || (TrimLeft(s) == [] && TrimLeft(s + ws) == [])
  {
    if s == [] {
      assert s + ws == ws + [];
      TrimLeftSkipsSpace(ws, []);
    } else {
      assert (s + ws)[1..] == s[1..] + ws;
      if IsSpace(s[0]) {
        TrimLeftKeepsTail(s[1..], ws);
      }
    }
  }

  /** TrimSpace ignores any white space added around its argument. */
  lemma TrimSpacePadding(ws1: string, s: string, ws2: string)
    requires AllSpace(ws1) && AllSpace(ws2)
    ensures TrimSpace(ws1 + s + ws2) == TrimSpace(s)
  {
    assert ws1 + s + ws2 == ws1 + (s + ws2);
    TrimLeftSkipsSpace(ws1, s + ws2);
    TrimLeftKeepsTail(s, ws2);
    if TrimLeft(s + ws2) == TrimLeft(s) + ws2 {
      TrimRightSkipsSpace(TrimLeft(s), ws2);
    }
  }
}
