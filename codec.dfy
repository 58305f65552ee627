/** Byte encodings the client relies on: Go's `[]byte(s)` conversion (UTF-8) and
    `base64.StdEncoding` (the padded alphabet of section 4 of RFC 4648), each with the
    decoder that undoes it. */
module Codec {
  import opened Wrappers

  type Byte = b: int | 0 <= b < 256
  type Bytes = seq<Byte>

  // ---------------------------------------------------------------- UTF-8

  /** The UTF-8 bytes of one Unicode scalar value. */
  function EncodeChar(c: char): (r: Bytes)
    ensures 1 <= |r| <= 4
    ensures (c as int < 0x80) == (|r| == 1)
    ensures c as int < 0x80 ==> r == [c as int]
  {
    var v := c as int;
    if v < 0x80 then [v]
    else if v < 0x800 then [0xC0 + v / 64, 0x80 + v % 64]
    else if v < 0x10000 then [0xE0 + v / 4096, 0x80 + (v / 64) % 64, 0x80 + v % 64]
    else [0xF0 + v / 262144, 0x80 + (v / 4096) % 64, 0x80 + (v / 64) % 64, 0x80 + v % 64]
  }

  /** Go's `[]byte(s)`: the UTF-8 encoding of a string. */
  function Utf8(s: string): Bytes {
    if s == [] then [] else EncodeChar(s[0]) + Utf8(s[1..])
  }

  /** Text whose characters all lie below 0x80. */
  predicate IsAscii(s: string) {
    forall i :: 0 <= i < |s| ==> s[i] as int < 0x80
  }

  /** One byte per character: how a literal of plain ASCII text becomes bytes. */
  function AsciiBytes(s: string): Bytes {
    seq(|s|, i requires 0 <= i < |s| => s[i] as int % 256)
  }

  /** On ASCII text the one-byte-per-character encoding is the UTF-8 encoding. */
  lemma {:induction false} AsciiIsUtf8(s: string)
    requires IsAscii(s)
    ensures AsciiBytes(s) == Utf8(s)
  {
    if s != [] {
      AsciiIsUtf8(s[1..]);
      assert AsciiBytes(s) == [s[0] as int] + AsciiBytes(s[1..]);
    }
  }

  /** Decodes one scalar value from the front of `b`: the value and the number of bytes used. */
  function DecodeChar(b: Bytes): Option<(char, nat)>
    requires b != []
  {
    var b0: int := b[0];
    if b0 < 0x80 then Some((b0 as char, 1))
    else if 0xC0 <= b0 < 0xE0 && |b| >= 2 && 0x80 <= b[1] < 0xC0 then
      var v := (b0 - 0xC0) * 64 + (b[1] as int - 0x80);
      Some((v as char, 2))
    else if 0xE0 <= b0 < 0xF0 && |b| >= 3 && 0x80 <= b[1] < 0xC0 && 0x80 <= b[2] < 0xC0 then
      var v := (b0 - 0xE0) * 4096 + (b[1] as int - 0x80) * 64 + (b[2] as int - 0x80);
      if 0xD800 <= v < 0xE000 then None else Some((v as char, 3))
    else if 0xF0 <= b0 < 0xF8 && |b| >= 4 && 0x80 <= b[1] < 0xC0 && 0x80 <= b[2] < 0xC0
            && 0x80 <= b[3] < 0xC0 then
      var v := (b0 - 0xF0) * 262144 + (b[1] as int - 0x80) * 4096 + (b[2] as int - 0x80) * 64
               + (b[3] as int - 0x80);
      if 0x110000 <= v || 0xD800 <= v < 0xE000 then None else Some((v as char, 4))
    else None
  }

  /** Decodes a whole byte string; `None` when it is not well-formed. */
  function Utf8Decode(b: Bytes): Option<string>
    decreases |b|
  {
    if b == [] then Some([])
    else match DecodeChar(b)
      case None => None
      case Some((c, n)) =>
        if n == 0 || n > |b| then None
        else match Utf8Decode(b[n..])
          case None => None
          case Some(rest) => Some([c] + rest)
  }

  /** The digits of a value in base 64, as the multi-byte forms store them. */
  lemma Base64Digits(v: int)
    requires 0 <= v
    ensures v == (v / 64) * 64 + v % 64
    ensures v / 64 == ((v / 64) / 64) * 64 + (v / 64) % 64
    ensures (v / 64) / 64 == v / 4096
    ensures ((v / 64) / 64) / 64 == v / 262144
    ensures v / 4096 == ((v / 4096) / 64) * 64 + (v / 4096) % 64
  {
  }

  /** Decoding the encoding of one character gives it back, with its length. */
  lemma DecodeEncodeChar(c: char, tail: Bytes)
    ensures DecodeChar(EncodeChar(c) + tail) == Some((c, |EncodeChar(c)|))
  {
    var v := c as int;
    var b := EncodeChar(c) + tail;
    if v < 0x80 {
    } else if v < 0x800 {
      Base64Digits(v);
      assert b[0] == 0xC0 + v / 64 && b[1] == 0x80 + v % 64;
    } else if v < 0x10000 {
      Base64Digits(v);
      assert b[0] == 0xE0 + v / 4096 && b[1] == 0x80 + (v / 64) % 64 && b[2] == 0x80 + v % 64;
      assert (v / 4096) * 4096 + ((v / 64) % 64) * 64 + v % 64 == v;
    } else {
      Base64Digits(v);
      assert b[0] == 0xF0 + v / 262144 && b[1] == 0x80 + (v / 4096) % 64;
      assert b[2] == 0x80 + (v / 64) % 64 && b[3] == 0x80 + v % 64;
      assert (v / 262144) * 262144 + ((v / 4096) % 64) * 4096 + ((v / 64) % 64) * 64 + v % 64 == v;
    }
  }

  /** The UTF-8 encoding of a concatenation is the concatenation of the encodings. */
  lemma {:induction false} Utf8Append(a: string, b: string)
    ensures Utf8(a + b) == Utf8(a) + Utf8(b)
  {
    if a != [] {
      assert (a + b)[0] == a[0];
      assert (a + b)[1..] == a[1..] + b;
      Utf8Append(a[1..], b);
    } else {
      assert a + b == b;
    }
  }

  /** Decoding undoes `[]byte(s)`. */
  lemma {:induction false} Utf8RoundTrip(s: string)
    ensures Utf8Decode(Utf8(s)) == Some(s)
  {
    if s != [] {
      var e := EncodeChar(s[0]);
      var rest := Utf8(s[1..]);
      assert Utf8(s) == e + rest;
      DecodeEncodeChar(s[0], rest);
      assert (e + rest)[|e|..] == rest;
      Utf8RoundTrip(s[1..]);
      assert s == [s[0]] + s[1..];
    }
  }

  // ---------------------------------------------------------------- base64

  /** The character of a 6-bit value in the standard alphabet. */
  function SextetChar(v: int): (c: char)
    requires 0 <= v < 64
    ensures c != '='
  {
    if v < 26 then ('A' as int + v) as char
    else if v < 52 then ('a' as int + v - 26) as char
    else if v < 62 then ('0' as int + v - 52) as char
    else if v == 62 then '+'
    else '/'
  }

  /** The 6-bit value of a character of the standard alphabet, -1 for any other character. */
  function CharSextet(c: char): (v: int)
    ensures -1 <= v < 64
  {
    if 'A' <= c <= 'Z' then c as int - 'A' as int
    else if 'a' <= c <= 'z' then c as int - 'a' as int + 26
    else if '0' <= c <= '9' then c as int - '0' as int + 52
    else if c == '+' then 62
    else if c == '/' then 63
    else -1
  }

  lemma SextetRoundTrip(v: int)
    requires 0 <= v < 64
    ensures CharSextet(SextetChar(v)) == v
  {
  }

  /** `base64.StdEncoding.EncodeToString`: three bytes to four characters, `=` padding. */
  function Base64(b: Bytes): (r: string)
    ensures |r| == 4 * ((|b| + 2) / 3)
  {
    if |b| == 0 then []
    else if |b| == 1 then
      [SextetChar(b[0] / 4), SextetChar((b[0] % 4) * 16), '=', '=']
    else if |b| == 2 then
      [SextetChar(b[0] / 4), SextetChar((b[0] % 4) * 16 + b[1] / 16), SextetChar((b[1] % 16) * 4), '=']
    else
      [SextetChar(b[0] / 4), SextetChar((b[0] % 4) * 16 + b[1] / 16),
       SextetChar((b[1] % 16) * 4 + b[2] / 64), SextetChar(b[2] % 64)] + Base64(b[3..])
  }

  /** The inverse of `Base64`; `None` for a length that is not a multiple of four or a
      character outside the alphabet. */
  function Base64Decode(s: string): Option<Bytes>
    decreases |s|
  {
    if |s| == 0 then Some([])
    else if |s| < 4 then None
    else
      var c0, c1, c2, c3 := CharSextet(s[0]), CharSextet(s[1]), CharSextet(s[2]), CharSextet(s[3]);
      if c0 < 0 || c1 < 0 then None
      else if |s| == 4 && s[2] == '=' && s[3] == '=' then
        Some([c0 * 4 + c1 / 16])
      else if c2 < 0 then None
      else if |s| == 4 && s[3] == '=' then
        Some([c0 * 4 + c1 / 16, (c1 % 16) * 16 + c2 / 4])
      else if c3 < 0 then None
      else match Base64Decode(s[4..])
        case None => None
        case Some(rest) => Some([c0 * 4 + c1 / 16, (c1 % 16) * 16 + c2 / 4, (c2 % 4) * 64 + c3] + rest)
  }

  /** The four sextets of three bytes give the bytes back. */
  lemma Base64Block(x: Byte, y: Byte, z: Byte)
    ensures var v0, v1, v2, v3 := x / 4, (x % 4) * 16 + y / 16, (y % 16) * 4 + z / 64, z % 64;
            v0 * 4 + v1 / 16 == x && (v1 % 16) * 16 + v2 / 4 == y && (v2 % 4) * 64 + v3 == z
  {
  }

  /** Decoding one full block in front of `tail`. */
  lemma DecodeFullBlock(x: Byte, y: Byte, z: Byte, tail: string)
    ensures var block := [SextetChar(x / 4), SextetChar((x % 4) * 16 + y / 16),
                          SextetChar((y % 16) * 4 + z / 64), SextetChar(z % 64)];
            Base64Decode(block + tail) ==
              match Base64Decode(tail)
              case None => None
              case Some(rest) => Some([x, y, z] + rest)
  {
    var block := [SextetChar(x / 4), SextetChar((x % 4) * 16 + y / 16),
                  SextetChar((y % 16) * 4 + z / 64), SextetChar(z % 64)];
    var s := block + tail;
    SextetRoundTrip(x / 4);
    SextetRoundTrip((x % 4) * 16 + y / 16);
    SextetRoundTrip((y % 16) * 4 + z / 64);
    SextetRoundTrip(z % 64);
    Base64Block(x, y, z);
    assert s[..4] == block && s[4..] == tail;
  }

  /** Decoding the padded block of a single byte. */
  lemma DecodeOneByte(x: Byte)
    ensures Base64Decode([SextetChar(x / 4), SextetChar((x % 4) * 16), '=', '=']) == Some([x])
  {
    SextetRoundTrip(x / 4);
    SextetRoundTrip((x % 4) * 16);
  }

  /** Decoding the padded block of two bytes. */
  lemma DecodeTwoBytes(x: Byte, y: Byte)
    ensures Base64Decode([SextetChar(x / 4), SextetChar((x % 4) * 16 + y / 16),
                          SextetChar((y % 16) * 4), '=']) == Some([x, y])
  {
    var v0, v1, v2 := x / 4, (x % 4) * 16 + y / 16, (y % 16) * 4;
    var e := [SextetChar(v0), SextetChar(v1), SextetChar(v2), '='];
    SextetRoundTrip(v0);
    SextetRoundTrip(v1);
    SextetRoundTrip(v2);
    Base64Block(x, y, 0);
    assert CharSextet(e[0]) == v0 && CharSextet(e[1]) == v1 && CharSextet(e[2]) == v2;
    assert e[2] != '=' && e[3] == '=' && |e| == 4;
    assert Base64Decode(e) == Some([v0 * 4 + v1 / 16, (v1 % 16) * 16 + v2 / 4]);
  }

  lemma RoundTripOne(b: Bytes)
    requires |b| == 1
    ensures Base64Decode(Base64(b)) == Some(b)
  {
    assert Base64(b) == [SextetChar(b[0] / 4), SextetChar((b[0] % 4) * 16), '=', '='];
    DecodeOneByte(b[0]);
    assert b == [b[0]];
  }

  lemma RoundTripTwo(b: Bytes)
    requires |b| == 2
    ensures Base64Decode(Base64(b)) == Some(b)
  {
    assert Base64(b) == [SextetChar(b[0] / 4), SextetChar((b[0] % 4) * 16 + b[1] / 16),
                         SextetChar((b[1] % 16) * 4), '='];
    DecodeTwoBytes(b[0], b[1]);
    assert b == [b[0], b[1]];
  }

  /** Decoding undoes the encoding. */
  lemma {:induction false} Base64RoundTrip(b: Bytes)
    ensures Base64Decode(Base64(b)) == Some(b)
  {
    if |b| == 1 {
      RoundTripOne(b);
    } else if |b| == 2 {
      RoundTripTwo(b);
    } else if |b| >= 3 {
      var tail := Base64(b[3..]);
      var block := [SextetChar(b[0] / 4), SextetChar((b[0] % 4) * 16 + b[1] / 16),
                    SextetChar((b[1] % 16) * 4 + b[2] / 64), SextetChar(b[2] % 64)];
      assert Base64(b) == block + tail;
      calc {
        Base64Decode(Base64(b));
        Base64Decode(block + tail);
        { DecodeFullBlock(b[0], b[1], b[2], tail); Base64RoundTrip(b[3..]); }
        Some([b[0], b[1], b[2]] + b[3..]);
        { assert b == [b[0], b[1], b[2]] + b[3..]; }
        Some(b);
      }
    }
  }
}
