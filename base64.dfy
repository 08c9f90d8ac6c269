/** The base64 encoding of section 4 of RFC 4648 (standard alphabet, `=`
    padding), as computed by Python's `base64.b64encode(...).decode()`, and a
    decoder that inverts it.

    Both directions go through a sequence of codes: 0 to 63 for the symbols
    of the alphabet and 64 for the pad character. The arithmetic on bytes
    works on codes only; the characters are a pointwise renaming. */
module Base64 {
  import opened Python

  /** A byte of a Python `bytes` value. */
  type Byte = b: int | 0 <= b < 256
  type Bytes = seq<Byte>

  /** A symbol value (0 to 63) or the pad (`Pad`). */
  type Code = v: int | 0 <= v <= 64

  const Pad: Code := 64

  /** The character for a code: Table 1 of RFC 4648, and `=` for the pad. */
  function Symbol(v: Code): (c: char) {
    if v < 26 then ('A' as int + v) as char
    else if v < 52 then ('a' as int + (v - 26)) as char
    else if v < 62 then ('0' as int + (v - 52)) as char
    else if v == 62 then '+'
    else if v == 63 then '/'
    else '='
  }

  /** The code of a character; `None` for a character that is neither in
      the alphabet nor the pad. */
  function CodeOf(c: char): Option<Code> {
    if 'A' <= c <= 'Z' then Some(c as int - 'A' as int)
    else if 'a' <= c <= 'z' then Some(c as int - 'a' as int + 26)
    else if '0' <= c <= '9' then Some(c as int - '0' as int + 52)
    else if c == '+' then Some(62)
    else if c == '/' then Some(63)
    else if c == '=' then Some(Pad)
    else None
  }

  lemma CodeOfSymbol(v: Code)
    ensures CodeOf(Symbol(v)) == Some(v)
  {
  }

  /** A character that can occur in an encoding: an alphabet symbol or the pad. */
  predicate IsEncodingChar(c: char) {
    CodeOf(c).Some?
  }

  /** The four 6-bit values of three bytes, most significant first. */
  function TripleCodes(a: Byte, b: Byte, c: Byte): (g: seq<Code>)
    ensures |g| == 4 && Pad !in g
  {
    [a / 4, (a % 4) * 16 + b / 16, (b % 16) * 4 + c / 64, c % 64]
  }

  /** The codes of an encoding: every group of three bytes becomes its four
      6-bit values; a final group of one or two bytes is filled with zero
      bits and completed with pads. */
  function EncodeCodes(data: Bytes): (vs: seq<Code>)
    ensures |vs| == 4 * ((|data| + 2) / 3)
    decreases |data|
  {
    if |data| == 0 then []
    else if |data| == 1 then
      var g := TripleCodes(data[0], 0, 0);
      [g[0], g[1], Pad, Pad]
    else if |data| == 2 then
      var g := TripleCodes(data[0], data[1], 0);
      [g[0], g[1], g[2], Pad]
    else
      assert (|data| + 2) / 3 == (|data| - 1) / 3 + 1;
      TripleCodes(data[0], data[1], data[2]) + EncodeCodes(data[3..])
  }

  /** The bytes that a sequence of codes encodes; `None` when the codes are
      not an encoding (a length that is not a multiple of four, a pad out of
      place, or a last symbol whose bits below the decoded bytes are not
      zero). Only the canonical encoding of section 3.5 of RFC 4648 is
      accepted, so every byte string has exactly one decodable text. */
  function DecodeCodes(vs: seq<Code>): Option<Bytes>
    decreases |vs|
  {
    if |vs| == 0 then Some([])
    else if |vs| < 4 then None
    else
      var w, x, y, z: int := vs[0], vs[1], vs[2], vs[3];
      var last := |vs| == 4;
      if w == Pad || x == Pad then None
      else if y == Pad then
        if z == Pad && last && x % 16 == 0 then Some([w * 4 + x / 16]) else None
      else if z == Pad then
        if last && y % 4 == 0 then Some([w * 4 + x / 16, (x % 16) * 16 + y / 4]) else None
      else
        match DecodeCodes(vs[4..])
        case None => None
        case Some(tail) => Some([w * 4 + x / 16, (x % 16) * 16 + y / 4, (y % 4) * 64 + z] + tail)
  }

  /** The characters for a sequence of codes. */
  function Render(vs: seq<Code>): (s: string)
    ensures |s| == |vs|
  {
    seq(|vs|, i requires 0 <= i < |vs| => Symbol(vs[i]))
  }

  /** The codes of a string, if every character has one. */
  function Codes(s: string): Option<seq<Code>> {
    if forall i :: 0 <= i < |s| ==> CodeOf(s[i]).Some? then
      Some(seq(|s|, i requires 0 <= i < |s| && CodeOf(s[i]).Some? => CodeOf(s[i]).value))
    else None
  }

  /** `base64.b64encode(data).decode()`: four characters for every started
      group of three bytes, all of them from the alphabet or the pad. */
  function Encode(data: Bytes): (s: string)
    ensures |s| == 4 * ((|data| + 2) / 3)
    ensures forall i :: 0 <= i < |s| ==> IsEncodingChar(s[i])
  {
    var vs := EncodeCodes(data);
    var s := Render(vs);
    assert forall i :: 0 <= i < |s| ==> IsEncodingChar(s[i]) by {
      forall i | 0 <= i < |s| ensures IsEncodingChar(s[i]) {
        CodeOfSymbol(vs[i]);
      }
    }
    s
  }

  /** The inverse of `Encode`: `None` when the text is not an encoding. */
  function Decode(s: string): Option<Bytes> {
    match Codes(s)
    case None => None
    case Some(vs) => DecodeCodes(vs)
  }

  /** Reading the codes of rendered codes gives them back. */
  lemma CodesOfRender(vs: seq<Code>)
    ensures Codes(Render(vs)) == Some(vs)
  {
    var s := Render(vs);
    forall i | 0 <= i < |s| ensures CodeOf(s[i]) == Some(vs[i]) {
      CodeOfSymbol(vs[i]);
    }
    assert Codes(s).Some?;
    assert Codes(s).value == vs;
  }

  /** The 6-bit values of three bytes put back together give the bytes. */
  lemma Regroup(a: Byte, b: Byte, c: Byte)
    ensures var g := TripleCodes(a, b, c); var w, x, y, z: int := g[0], g[1], g[2], g[3];
      w * 4 + x / 16 == a && (x % 16) * 16 + y / 4 == b && (y % 4) * 64 + z == c
  {
    assert ((a % 4) * 16 + b / 16) / 16 == a % 4;
    assert ((a % 4) * 16 + b / 16) % 16 == b / 16;
    assert ((b % 16) * 4 + c / 64) / 4 == b % 16;
    assert ((b % 16) * 4 + c / 64) % 4 == c / 64;
  }

  /** Decoding the codes of three bytes in front of more codes. */
  lemma DecodeTriple(a: Byte, b: Byte, c: Byte, rest: seq<Code>, tail: Bytes)
    requires DecodeCodes(rest) == Some(tail)
    ensures DecodeCodes(TripleCodes(a, b, c) + rest) == Some([a, b, c] + tail)
  {
    var g := TripleCodes(a, b, c);
    var vs := g + rest;
    assert vs[4..] == rest;
    assert vs[0] == g[0] && vs[1] == g[1] && vs[2] == g[2] && vs[3] == g[3];
    Regroup(a, b, c);
  }

  lemma DecodeLastOne(a: Byte)
    ensures DecodeCodes(EncodeCodes([a])) == Some([a])
  {
    Regroup(a, 0, 0);
  }

  lemma DecodeLastTwo(a: Byte, b: Byte)
    ensures DecodeCodes(EncodeCodes([a, b])) == Some([a, b])
  {
    Regroup(a, b, 0);
  }

  /** One step of the induction over the groups of three bytes. */
  lemma DecodeLonger(data: Bytes, vs: seq<Code>)
    requires |data| >= 3 && vs == EncodeCodes(data)
    requires DecodeCodes(EncodeCodes(data[3..])) == Some(data[3..])
    ensures DecodeCodes(vs) == Some(data)
  {
    assert vs == TripleCodes(data[0], data[1], data[2]) + EncodeCodes(data[3..]);
    DecodeTriple(data[0], data[1], data[2], EncodeCodes(data[3..]), data[3..]);
    assert data == [data[0], data[1], data[2]] + data[3..];
  }

  /** Decoding the codes of an encoding gives back the bytes. */
  lemma {:induction false} DecodeEncodeCodes(data: Bytes)
    ensures DecodeCodes(EncodeCodes(data)) == Some(data)
    decreases |data|
  {
    if |data| == 1 {
      DecodeLastOne(data[0]);
      assert data == [data[0]];
    } else if |data| == 2 {
      DecodeLastTwo(data[0], data[1]);
      assert data == [data[0], data[1]];
    } else if |data| >= 3 {
      DecodeEncodeCodes(data[3..]);
      DecodeLonger(data, EncodeCodes(data));
    }
  }

  /** Decoding an encoding gives back the original bytes. */
  lemma DecodeEncode(data: Bytes)
    ensures Decode(Encode(data)) == Some(data)
  {
    CodesOfRender(EncodeCodes(data));
    DecodeEncodeCodes(data);
  }

  /** The code of a character of an encoding is the code of a symbol
      rendered as that character. */
  lemma SymbolOfCode(c: char)
    requires IsEncodingChar(c)
    ensures Symbol(CodeOf(c).value) == c
  {
  }

  /** Rendering the codes of a string gives the string back. */
  lemma RenderOfCodes(s: string)
    requires Codes(s).Some?
    ensures Render(Codes(s).value) == s
  {
    var vs := Codes(s).value;
    forall i | 0 <= i < |s| ensures Render(vs)[i] == s[i] {
      SymbolOfCode(s[i]);
    }
  }

  /** Four symbols put together into bytes and split up again give the
      symbols back. */
  lemma Ungroup(w: Code, x: Code, y: Code, z: Code)
    requires w < Pad && x < Pad && y < Pad && z < Pad
    ensures TripleCodes(w * 4 + x / 16, (x % 16) * 16 + y / 4, (y % 4) * 64 + z) == [w, x, y, z]
  {
    var a, b, c := w * 4 + x / 16, (x % 16) * 16 + y / 4, (y % 4) * 64 + z;
    assert a / 4 == w && a % 4 == x / 16;
    assert b / 16 == x % 16 && b % 16 == y / 4;
    assert c / 64 == y % 4 && c % 64 == z;
  }

  /** The encoding of one byte decoded from two symbols and two pads. */
  lemma EncodeLastOne(w: Code, x: Code)
    requires w < Pad && x < Pad && x % 16 == 0
    ensures EncodeCodes([w * 4 + x / 16]) == [w, x, Pad, Pad]
  {
    Ungroup(w, x, 0, 0);
  }

  /** The encoding of two bytes decoded from three symbols and a pad. */
  lemma EncodeLastTwo(w: Code, x: Code, y: Code)
    requires w < Pad && x < Pad && y < Pad && y % 4 == 0
    ensures EncodeCodes([w * 4 + x / 16, (x % 16) * 16 + y / 4]) == [w, x, y, Pad]
  {
    Ungroup(w, x, y, 0);
  }

  /** A full group in front of more codes: the bytes decoded from the
      group, in front of bytes that encode to the rest, encode to the group
      followed by the rest. */
  lemma EncodeLonger(w: Code, x: Code, y: Code, z: Code, rest: seq<Code>, tail: Bytes)
    requires w < Pad && x < Pad && y < Pad && z < Pad
    requires EncodeCodes(tail) == rest
    ensures EncodeCodes([w * 4 + x / 16, (x % 16) * 16 + y / 4, (y % 4) * 64 + z] + tail) == [w, x, y, z] + rest
  {
    var data := [w * 4 + x / 16, (x % 16) * 16 + y / 4, (y % 4) * 64 + z] + tail;
    Ungroup(w, x, y, z);
    assert data[3..] == tail;
  }

  /** What a successful decoding says about the first group of codes. */
  lemma DecodedGroup(vs: seq<Code>, data: Bytes)
    requires |vs| > 0 && DecodeCodes(vs) == Some(data)
    ensures |vs| >= 4 && vs[0] < Pad && vs[1] < Pad
    ensures var w: int, x: int, y: int := vs[0], vs[1], vs[2];
      y == Pad ==> vs == [w, x, Pad, Pad] && x % 16 == 0 && data == [w * 4 + x / 16]
    ensures var w: int, x: int, y: int, z: int := vs[0], vs[1], vs[2], vs[3];
      y < Pad && z == Pad ==>
        vs == [w, x, y, Pad] && y % 4 == 0 && data == [w * 4 + x / 16, (x % 16) * 16 + y / 4]
    ensures var w: int, x: int, y: int, z: int := vs[0], vs[1], vs[2], vs[3];
      y < Pad && z < Pad ==>
        DecodeCodes(vs[4..]).Some? &&
        data == [w * 4 + x / 16, (x % 16) * 16 + y / 4, (y % 4) * 64 + z] + DecodeCodes(vs[4..]).value
  {
  }

  /** Codes that decode are the codes of the encoding of what they decode to. */
  lemma {:induction false} EncodeDecodeCodes(vs: seq<Code>, data: Bytes)
    requires DecodeCodes(vs) == Some(data)
    ensures EncodeCodes(data) == vs
    decreases |vs|
  {
    if |vs| > 0 {
      DecodedGroup(vs, data);
      var w, x, y, z: int := vs[0], vs[1], vs[2], vs[3];
      if y == Pad {
        EncodeLastOne(w, x);
      } else if z == Pad {
        EncodeLastTwo(w, x, y);
      } else {
        var tail := DecodeCodes(vs[4..]).value;
        EncodeDecodeCodes(vs[4..], tail);
        EncodeLonger(w, x, y, z, vs[4..], tail);
        assert vs == [w, x, y, z] + vs[4..];
      }
    }
  }

  /** A text decodes to some bytes exactly when it is their encoding. */
  lemma DecodeIsCanonical(s: string, data: Bytes)
    ensures Decode(s) == Some(data) <==> s == Encode(data)
  {
    if Decode(s) == Some(data) {
      RenderOfCodes(s);
      EncodeDecodeCodes(Codes(s).value, data);
    }
    if s == Encode(data) {
      DecodeEncode(data);
    }
  }

  /** Different byte strings have different encodings. */
  lemma EncodeInjective(x: Bytes, y: Bytes)
    requires Encode(x) == Encode(y)
    ensures x == y
  {
    DecodeEncode(x);
    DecodeEncode(y);
  }
}
