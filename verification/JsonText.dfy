/** The JSON string encoding of a text delta, as Go's encoder writes it: HTML
    characters, line separators and control characters are escaped. */
module JsonText {
  import opened Domain
  import opened Utf8

  const BACKSLASH: byte := 0x5C

  function HexDigit(n: nat): byte
    requires n < 16
  {
    if n < 10 then 0x30 + n else 0x57 + n
  }

  function HexValue(b: byte): nat {
    if 0x30 <= b <= 0x39 then b - 0x30 else if 0x61 <= b <= 0x66 then b - 0x57 else 0
  }

  function Unicode(c: nat): seq<byte>
    requires c < 0x1_0000
  {
    [BACKSLASH, 0x75, HexDigit(c / 16 / 16 / 16), HexDigit(c / 16 / 16 % 16), HexDigit(c / 16 % 16), HexDigit(c % 16)]
  }

  function EscapeAscii(b: byte): seq<byte> {
    if b == 0x22 || b == BACKSLASH then [BACKSLASH, b]
    else if b == 0x08 then [BACKSLASH, 0x62]
    else if b == 0x0C then [BACKSLASH, 0x66]
    else if b == 0x0A then [BACKSLASH, 0x6E]
    else if b == 0x0D then [BACKSLASH, 0x72]
    else if b == 0x09 then [BACKSLASH, 0x74]
    else if b < 0x20 || b == 0x3C || b == 0x3E || b == 0x26 then Unicode(b)
    else [b]
  }

  /** One character. */
  function EscapeRune(r: seq<byte>): seq<byte> {
    if |r| == 1 then EscapeAscii(r[0])
    else if r == [0xE2, 0x80, 0xA8] then Unicode(0x2028)
    else if r == [0xE2, 0x80, 0xA9] then Unicode(0x2029)
    else r
  }

  function Escape(s: seq<byte>): seq<byte>
    requires Valid(s)
    decreases |s|
  {
    if s == [] then [] else EscapeRune(s[..First(s)]) + Escape(s[First(s)..])
  }

  // ----- the decoder ----------------------------------------------------------------------------

  function Short(b: byte): byte {
    if b == 0x62 then 0x08 else if b == 0x66 then 0x0C else if b == 0x6E then 0x0A
    else if b == 0x72 then 0x0D else if b == 0x74 then 0x09 else b
  }

  function Utf8Of(c: nat): seq<byte>
    requires c < 0x1_0000
  {
    if c < 0x80 then [c]
    else if c < 0x800 then [0xC0 + c / 64, 0x80 + c % 64]
    else [0xE0 + c / 4096, 0x80 + c / 64 % 64, 0x80 + c % 64]
  }

  function Code(s: seq<byte>): (c: nat)
    requires |s| == 4
    ensures c < 0x1_0000
  {
    HexValue(s[0]) * 4096 + HexValue(s[1]) * 256 + HexValue(s[2]) * 16 + HexValue(s[3])
  }

  function Unescape(s: seq<byte>): seq<byte>
    decreases |s|
  {
    if s == [] then []
    else if s[0] != BACKSLASH then [s[0]] + Unescape(s[1..])
    else if |s| < 2 then []
    else if s[1] != 0x75 then [Short(s[1])] + Unescape(s[2..])
    else if |s| < 6 then []
    else Utf8Of(Code(s[2..6])) + Unescape(s[6..])
  }

  lemma HexRoundTrip(n: nat)
    requires n < 16
    ensures HexValue(HexDigit(n)) == n
  {}

  lemma CodeOfUnicode(c: nat)
    requires c < 0x1_0000
    ensures Code(Unicode(c)[2..6]) == c
  {
    hide HexValue, HexDigit;
    var a := c / 16;
    var b := a / 16;
    HexRoundTrip(b / 16);
    HexRoundTrip(b % 16);
    HexRoundTrip(a % 16);
    HexRoundTrip(c % 16);
    assert c == 16 * a + c % 16 && a == 16 * b + a % 16 && b == 16 * (b / 16) + b % 16;
  }

  lemma UnescapeUnicode(c: nat, rest: seq<byte>)
    requires c < 0x1_0000
    ensures Unescape(Unicode(c) + rest) == Utf8Of(c) + Unescape(rest)
  {
    hide Utf8Of, Code, HexDigit;
    CodeOfUnicode(c);
    var s := Unicode(c) + rest;
    assert s[2..6] == Unicode(c)[2..6] && s[6..] == rest;
  }

  lemma {:induction false} UnescapePlain(r: seq<byte>, rest: seq<byte>)
    requires forall i :: 0 <= i < |r| ==> r[i] != BACKSLASH
    ensures Unescape(r + rest) == r + Unescape(rest)
  {
    if r == [] {
      assert r + rest == rest;
    } else {
      assert (r + rest)[1..] == r[1..] + rest;
      UnescapePlain(r[1..], rest);
      assert r == [r[0]] + r[1..];
    }
  }

  lemma UnescapeShort(b: byte, rest: seq<byte>)
    requires b != 0x75
    ensures Unescape([BACKSLASH, b] + rest) == [Short(b)] + Unescape(rest)
  {
    var s := [BACKSLASH, b] + rest;
    assert s[2..] == rest;
  }

  lemma UnescapeRune(r: seq<byte>, rest: seq<byte>)
    requires r != [] && First(r) == |r|
    ensures Unescape(EscapeRune(r) + rest) == r + Unescape(rest)
  {
    hide Unescape, Unicode;
    if |r| == 1 {
      var b := r[0];
      assert r == [b];
      if EscapeAscii(b) == [b] && b != BACKSLASH {
        UnescapePlain(r, rest);
      } else if (b < 0x20 && b != 0x08 && b != 0x0C && b != 0x0A && b != 0x0D && b != 0x09) || b == 0x3C || b == 0x3E || b == 0x26 {
        UnescapeUnicode(b, rest);
      } else {
        UnescapeShort(EscapeAscii(b)[1], rest);
      }
    } else if r == [0xE2, 0x80, 0xA8] {
      UnescapeUnicode(0x2028, rest);
    } else if r == [0xE2, 0x80, 0xA9] {
      UnescapeUnicode(0x2029, rest);
    } else {
      UnescapePlain(r, rest);
    }
  }

  lemma FirstOfFirst(s: seq<byte>)
    requires First(s) > 0
    ensures First(s[..First(s)]) == First(s)
  {}

  /** Decoding an encoded delta gives the delta back. */
  lemma {:induction false} EscapeRoundTrip(s: seq<byte>)
    requires Valid(s)
    ensures Unescape(Escape(s)) == s
    decreases |s|
  {
    if s != [] {
      var n := First(s);
      FirstOfFirst(s);
      hide First, EscapeRune;
      UnescapeRune(s[..n], Escape(s[n..]));
      EscapeRoundTrip(s[n..]);
    }
  }

  lemma {:induction false} EscapeConcat(s: seq<byte>, t: seq<byte>)
    requires Valid(s) && Valid(t)
    ensures Valid(s + t) && Escape(s + t) == Escape(s) + Escape(t)
    decreases |s|
  {
    ValidConcat(s, t);
    if s == [] {
      assert s + t == t;
    } else {
      var n := First(s);
      FirstExtends(s, t);
      hide First, EscapeRune;
      assert (s + t)[n..] == s[n..] + t && (s + t)[..n] == s[..n];
      EscapeConcat(s[n..], t);
    }
  }

  // ----- what is escaped, and at what size --------------------------------------------------------------

  /** Characters that never appear raw: the quote, the backslash, control characters, the
      HTML characters and the two line separators. */
  ghost predicate Unsafe(r: seq<byte>) {
    || (|r| == 1 && (r[0] == 0x22 || r[0] == 0x5C || r[0] < 0x20 || r[0] == 0x3C || r[0] == 0x3E || r[0] == 0x26))
    || r == [0xE2, 0x80, 0xA8] || r == [0xE2, 0x80, 0xA9]
  }

  /** Those with a two-byte escape: quote, backslash, \b, \f, \n, \r, \t. */
  ghost predicate HasShort(r: seq<byte>) {
    |r| == 1 && (r[0] == 0x22 || r[0] == 0x5C || r[0] == 0x08 || r[0] == 0x0C || r[0] == 0x0A || r[0] == 0x0D || r[0] == 0x09)
  }

  /** Exactly the unsafe characters are escaped, to two bytes where a short form exists
      and to the six of a code point otherwise. */
  lemma EscapeRuneMeaning(r: seq<byte>)
    ensures EscapeRune(r) == r <==> !Unsafe(r)
    ensures |EscapeRune(r)| == if !Unsafe(r) then |r| else if HasShort(r) then 2 else 6
    ensures Unsafe(r) ==> EscapeRune(r)[0] == BACKSLASH && (HasShort(r) <==> EscapeRune(r)[1] != 0x75)
  {
    hide HexDigit;
    if |r| == 1 {
      assert r == [r[0]];
    }
  }

  ghost function RuneSize(r: seq<byte>): nat { if !Unsafe(r) then |r| else if HasShort(r) then 2 else 6 }

  /** Size of a text's encoding, added up character by character. */
  ghost function EncodedSize(s: seq<byte>): nat
    requires Valid(s)
    decreases |s|
  {
    if s == [] then 0 else RuneSize(s[..First(s)]) + EncodedSize(s[First(s)..])
  }

  lemma {:induction false} EscapeSize(s: seq<byte>)
    requires Valid(s)
    ensures |Escape(s)| == EncodedSize(s)
    decreases |s|
  {
    if s != [] {
      hide First, EscapeRune, Unsafe, HasShort;
      EscapeRuneMeaning(s[..First(s)]);
      EscapeSize(s[First(s)..]);
    }
  }

  ghost predicate Quiet(b: byte) { 0x20 <= b && b != 0x3C && b != 0x3E && b != 0x26 }

  /** Whatever the text, its encoding holds no control character and no HTML character. */
  lemma {:induction false} EscapedIsSafe(s: seq<byte>)
    requires Valid(s)
    ensures forall i :: 0 <= i < |Escape(s)| ==> Quiet(Escape(s)[i])
    decreases |s|
  {
    if s != [] {
      FirstOfFirst(s);
      RuneIsSafe(s[..First(s)]);
      hide First, EscapeRune, Quiet;
      EscapedIsSafe(s[First(s)..]);
    }
  }

  lemma HexIsQuiet(n: nat)
    requires n < 16
    ensures Quiet(HexDigit(n))
  {}

  lemma UnicodeIsSafe(c: nat)
    requires c < 0x1_0000
    ensures forall i :: 0 <= i < |Unicode(c)| ==> Quiet(Unicode(c)[i])
  {
    hide HexDigit;
    HexIsQuiet(c / 16 / 16 / 16);
    HexIsQuiet(c / 16 / 16 % 16);
    HexIsQuiet(c / 16 % 16);
    HexIsQuiet(c % 16);
  }

  lemma RuneIsSafe(r: seq<byte>)
    requires r != [] && First(r) == |r|
    ensures forall i :: 0 <= i < |EscapeRune(r)| ==> Quiet(EscapeRune(r)[i])
  {
    if |r| == 1 {
      AsciiIsSafe(r[0]);
    } else {
      MultibyteIsQuiet(r);
      UnicodeIsSafe(0x2028);
      UnicodeIsSafe(0x2029);
    }
    hide First, Unicode, EscapeAscii, Quiet;
  }

  lemma AsciiIsSafe(b: byte)
    ensures forall i :: 0 <= i < |EscapeAscii(b)| ==> Quiet(EscapeAscii(b)[i])
  {
    hide Unicode;
    UnicodeIsSafe(b);
  }

  lemma MultibyteIsQuiet(r: seq<byte>)
    requires |r| > 1 && First(r) == |r|
    ensures forall i :: 0 <= i < |r| ==> Quiet(r[i])
  {
    assert forall i :: 0 < i < |r| ==> Continuation(r[i]);
  }
}
