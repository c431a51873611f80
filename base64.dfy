/** `base64.b64encode(s.encode())`: the UTF-8 bytes of a string in the
    base64 alphabet of section 4 of RFC 4648, padded with `=`. */
module Base64 {

  import opened Base
  import opened PyStr

  type byte = x: int | 0 <= x < 256

  /** `c.encode()` for one code point (Dafny characters exclude surrogates). */
  function Utf8Char(c: char): (bs: seq<byte>)
    ensures 1 <= |bs| <= 4
    ensures (c as int < 0x80) <==> |bs| == 1
    ensures |bs| == 1 ==> bs[0] == c as int
  {
    var n := c as int;
    if n < 0x80 then [n]
    else if n < 0x800 then [0xC0 + n / 64, 0x80 + n % 64]
    else if n < 0x10000 then [0xE0 + n / 4096, 0x80 + (n / 64) % 64, 0x80 + n % 64]
    else [0xF0 + n / 262144, 0x80 + (n / 4096) % 64, 0x80 + (n / 64) % 64, 0x80 + n % 64]
  }

  /** `s.encode()`, UTF-8. */
  function Utf8(s: string): (bs: seq<byte>)
    ensures |bs| >= |s|
    ensures s != [] ==> bs != []
  {
    if s == [] then [] else Utf8Char(s[0]) + Utf8(s[1..])
  }

  /** The character for a 6-bit value in the alphabet of RFC 4648, section 4:
      `A`-`Z`, `a`-`z`, `0`-`9`, `+` and `/`. */
  function Symbol(v: int): char
    requires 0 <= v < 64
  {
    if v < 26 then ('A' as int + v) as char
    else if v < 52 then ('a' as int + (v - 26)) as char
    else if v < 62 then ('0' as int + (v - 52)) as char
    else if v == 62 then '+' else '/'
  }

  /** The 6-bit value of an alphabet character, if it is one. */
  function SymbolValue(c: char): (r: Option<int>)
    ensures r.Some? ==> 0 <= r.value < 64 && Symbol(r.value) == c
  {
    if 'A' <= c <= 'Z' then Some(c as int - 'A' as int)
    else if 'a' <= c <= 'z' then Some(c as int - 'a' as int + 26)
    else if '0' <= c <= '9' then Some(c as int - '0' as int + 52)
    else if c == '+' then Some(62)
    else if c == '/' then Some(63)
    else None
  }

  lemma SymbolValueOfSymbol(v: int)
    requires 0 <= v < 64
    ensures SymbolValue(Symbol(v)) == Some(v)
  {
  }

  predicate InAlphabet(c: char) {
    SymbolValue(c).Some? || c == '='
  }

  /** The four characters for three bytes. */
  function Quad(b0: byte, b1: byte, b2: byte): string {
    [Symbol(b0 / 4), Symbol((b0 % 4) * 16 + b1 / 16), Symbol((b1 % 16) * 4 + b2 / 64), Symbol(b2 % 64)]
  }

  /** Encoding, three bytes at a time; a final group of one or two bytes is
      padded with zero bits and completed with `=`. */
  function Encode(bs: seq<byte>): string
    decreases |bs|
  {
    if |bs| >= 3 then Quad(bs[0], bs[1], bs[2]) + Encode(bs[3..])
    else if |bs| == 2 then Quad(bs[0], bs[1], 0)[..3] + "="
    else if |bs| == 1 then Quad(bs[0], 0, 0)[..2] + "=="
    else ""
  }

  /** The three bytes four symbol values stand for. */
  function Unquad(v0: int, v1: int, v2: int, v3: int): seq<byte>
    requires 0 <= v0 < 64 && 0 <= v1 < 64 && 0 <= v2 < 64 && 0 <= v3 < 64
  {
    [v0 * 4 + v1 / 16, (v1 % 16) * 16 + v2 / 4, (v2 % 4) * 64 + v3]
  }

  /** The inverse of `Encode` on well-formed input. */
  function Decode(s: string): Option<seq<byte>>
    decreases |s|
  {
    if s == [] then Some([])
    else if |s| < 4 then None
    else
      var v0, v1 := SymbolValue(s[0]), SymbolValue(s[1]);
      if v0.None? || v1.None? then None
      else if s[2..4] == "==" && |s| == 4 then Some(Unquad(v0.value, v1.value, 0, 0)[..1])
      else
        var v2 := SymbolValue(s[2]);
        if v2.None? then None
        else if s[3] == '=' && |s| == 4 then Some(Unquad(v0.value, v1.value, v2.value, 0)[..2])
        else
          var v3 := SymbolValue(s[3]);
          if v3.None? then None
          else
            match Decode(s[4..])
            case None => None
            case Some(rest) => Some(Unquad(v0.value, v1.value, v2.value, v3.value) + rest)
  }

  lemma QuadRoundTrip(b0: byte, b1: byte, b2: byte)
    ensures var v0, v1, v2, v3 := b0 / 4, (b0 % 4) * 16 + b1 / 16, (b1 % 16) * 4 + b2 / 64, b2 % 64;
      0 <= v0 < 64 && 0 <= v1 < 64 && 0 <= v2 < 64 && 0 <= v3 < 64 &&
      Unquad(v0, v1, v2, v3) == [b0, b1, b2]
  {
    var v1, v2 := (b0 % 4) * 16 + b1 / 16, (b1 % 16) * 4 + b2 / 64;
    assert v1 / 16 == b0 % 4 && v1 % 16 == b1 / 16;
    assert v2 / 4 == b1 % 16 && v2 % 4 == b2 / 64;
  }

  lemma QuadValues(b0: byte, b1: byte, b2: byte)
    ensures var q := Quad(b0, b1, b2);
      SymbolValue(q[0]) == Some(b0 / 4) && SymbolValue(q[1]) == Some((b0 % 4) * 16 + b1 / 16) &&
      SymbolValue(q[2]) == Some((b1 % 16) * 4 + b2 / 64) && SymbolValue(q[3]) == Some(b2 % 64)
  {
    SymbolValueOfSymbol(b0 / 4);
    SymbolValueOfSymbol((b0 % 4) * 16 + b1 / 16);
    SymbolValueOfSymbol((b1 % 16) * 4 + b2 / 64);
    SymbolValueOfSymbol(b2 % 64);
  }

  /** Decoding an encoding gives the bytes back. */
  lemma {:induction false} DecodeEncode(bs: seq<byte>)
    ensures Decode(Encode(bs)) == Some(bs)
    decreases |bs|
  {
    if |bs| >= 3 {
      DecodeEncode(bs[3..]);
      DecodeQuadPrefix(bs[0], bs[1], bs[2], Encode(bs[3..]), bs[3..]);
      assert bs == [bs[0], bs[1], bs[2]] + bs[3..];
    } else if |bs| == 2 {
      DecodeTwo(bs);
    } else if |bs| == 1 {
      DecodeOne(bs);
    }
  }

  /** Three bytes in front of an encoding decode in front of its bytes. */
  lemma DecodeQuadPrefix(b0: byte, b1: byte, b2: byte, t: string, rest: seq<byte>)
    requires Decode(t) == Some(rest)
    ensures Decode(Quad(b0, b1, b2) + t) == Some([b0, b1, b2] + rest)
  {
    QuadValues(b0, b1, b2);
    QuadRoundTrip(b0, b1, b2);
    DecodeCons(Quad(b0, b1, b2), t, b0 / 4, (b0 % 4) * 16 + b1 / 16, (b1 % 16) * 4 + b2 / 64, b2 % 64);
  }

  lemma DecodeTwo(bs: seq<byte>)
    requires |bs| == 2
    ensures Decode(Encode(bs)) == Some(bs)
  {
    QuadValues(bs[0], bs[1], 0);
    DecodePaddedThree(Quad(bs[0], bs[1], 0), Encode(bs), bs[0], bs[1]);
    assert [bs[0], bs[1]] == bs;
  }

  /** A group of two bytes, with its four symbols given abstractly. */
  lemma DecodePaddedThree(q: string, s: string, b0: byte, b1: byte)
    requires |q| == 4 && s == q[..3] + "="
    requires SymbolValue(q[0]) == Some(b0 / 4) && SymbolValue(q[1]) == Some((b0 % 4) * 16 + b1 / 16)
    requires SymbolValue(q[2]) == Some((b1 % 16) * 4 + 0 / 64)
    ensures Decode(s) == Some([b0, b1])
  {
    QuadRoundTrip(b0, b1, 0);
    var v0, v1, v2 := b0 / 4, (b0 % 4) * 16 + b1 / 16, (b1 % 16) * 4 + 0 / 64;
    assert s[0] == q[0] && s[1] == q[1] && s[2] == q[2] && s[3] == '=';
    DecodeThree(s, v0, v1, v2);
    assert Unquad(v0, v1, v2, 0)[..2] == [b0, b1];
  }

  lemma DecodeOne(bs: seq<byte>)
    requires |bs| == 1
    ensures Decode(Encode(bs)) == Some(bs)
  {
    QuadValues(bs[0], 0, 0);
    DecodePaddedTwo(Quad(bs[0], 0, 0), Encode(bs), bs[0]);
    assert [bs[0]] == bs;
  }

  /** A group of one byte, with its four symbols given abstractly. */
  lemma DecodePaddedTwo(q: string, s: string, b0: byte)
    requires |q| == 4 && s == q[..2] + "=="
    requires SymbolValue(q[0]) == Some(b0 / 4) && SymbolValue(q[1]) == Some((b0 % 4) * 16 + 0 / 16)
    ensures Decode(s) == Some([b0])
  {
    QuadRoundTrip(b0, 0, 0);
    var v0, v1 := b0 / 4, (b0 % 4) * 16 + 0 / 16;
    assert s[0] == q[0] && s[1] == q[1] && s[2] == '=' && s[3] == '=';
    DecodeTwoSymbols(s, v0, v1);
    assert Unquad(v0, v1, 0, 0)[..1] == [b0];
  }

  lemma DecodeCons(q: string, t: string, v0: int, v1: int, v2: int, v3: int)
    requires |q| == 4 && 0 <= v0 < 64 && 0 <= v1 < 64 && 0 <= v2 < 64 && 0 <= v3 < 64
    requires SymbolValue(q[0]) == Some(v0) && SymbolValue(q[1]) == Some(v1)
    requires SymbolValue(q[2]) == Some(v2) && SymbolValue(q[3]) == Some(v3)
    ensures Decode(q + t) == match Decode(t) case None => None case Some(rest) => Some(Unquad(v0, v1, v2, v3) + rest)
  {
    var s := q + t;
    assert s[0] == q[0] && s[1] == q[1] && s[2] == q[2] && s[3] == q[3] && s[4..] == t;
    assert s[2] != '=' && s[3] != '=';
  }

  lemma DecodeThree(s: string, v0: int, v1: int, v2: int)
    requires |s| == 4 && 0 <= v0 < 64 && 0 <= v1 < 64 && 0 <= v2 < 64
    requires SymbolValue(s[0]) == Some(v0) && SymbolValue(s[1]) == Some(v1)
    requires SymbolValue(s[2]) == Some(v2) && s[3] == '='
    ensures Decode(s) == Some(Unquad(v0, v1, v2, 0)[..2])
  {
    assert s[2] != '=';
  }

  lemma DecodeTwoSymbols(s: string, v0: int, v1: int)
    requires |s| == 4 && 0 <= v0 < 64 && 0 <= v1 < 64
    requires SymbolValue(s[0]) == Some(v0) && SymbolValue(s[1]) == Some(v1)
    requires s[2] == '=' && s[3] == '='
    ensures Decode(s) == Some(Unquad(v0, v1, 0, 0)[..1])
  {
    assert s[2..4] == "==";
  }

  /** Four characters for every started group of three bytes. */
  lemma {:induction false} EncodeLength(bs: seq<byte>)
    ensures |Encode(bs)| == 4 * ((|bs| + 2) / 3)
    decreases |bs|
  {
    if |bs| >= 3 {
      EncodeLength(bs[3..]);
    }
  }

  /** Every character of an encoding is an alphabet symbol or `=`. */
  lemma {:induction false} EncodeAlphabet(bs: seq<byte>)
    ensures forall i :: 0 <= i < |Encode(bs)| ==> InAlphabet(Encode(bs)[i])
    decreases |bs|
  {
    var s := Encode(bs);
    if |bs| >= 3 {
      EncodeAlphabet(bs[3..]);
      QuadValues(bs[0], bs[1], bs[2]);
      forall i | 0 <= i < |s| ensures InAlphabet(s[i]) {
        if i >= 4 {
          assert s[i] == Encode(bs[3..])[i - 4];
        }
      }
    } else if |bs| == 2 {
      QuadValues(bs[0], bs[1], 0);
    } else if |bs| == 1 {
      QuadValues(bs[0], 0, 0);
    }
  }

  /** The encoded form of a token. */
  function EncodeToken(token: string): string {
    Encode(Utf8(token))
  }

  /** An encoded token holds none of `$`, `{` and `}`, so it cannot hold a
      `${...}` placeholder. */
  lemma NoPlaceholderChars(token: string)
    ensures '$' !in EncodeToken(token) && '{' !in EncodeToken(token) && '}' !in EncodeToken(token)
    ensures forall name :: !Contains(EncodeToken(token), "${" + name + "}")
  {
    var s := EncodeToken(token);
    EncodeAlphabet(Utf8(token));
    forall name ensures !Contains(s, "${" + name + "}") {
      var p := "${" + name + "}";
      forall i | 0 <= i <= |s| - |p| ensures !OccursAt(s, p, i) {
        assert InAlphabet(s[i]);
        assert s[i] != p[0];
      }
    }
  }

  /** A non-empty token has a non-empty encoding whose length is a multiple of four. */
  lemma EncodeTokenShape(token: string)
    requires token != []
    ensures |EncodeToken(token)| > 0 && |EncodeToken(token)| % 4 == 0
  {
    EncodeLength(Utf8(token));
  }

  /** An ASCII-only example: `"hf"` encodes as `"aGY="`. */
  lemma EncodeExample()
    ensures EncodeToken("hf") == "aGY="
  {
    assert Utf8("hf") == [104, 102] by {
      assert Utf8("f") == [102];
    }
  }
}
