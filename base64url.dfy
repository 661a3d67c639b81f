/**
  Base 64 encoding with the URL- and filename-safe alphabet of section 5 of
  RFC 4648, without the trailing padding (section 3.2 of RFC 4648 allows
  leaving it out). This is what Go's `base64.RawURLEncoding.EncodeToString`
  computes; the handler uses it to turn 32 random bytes into the middle part
  of an object key.

  `Decode` is not used by the handler: it is the inverse that pins `Encode`
  down (`DecodeEncode`) and makes it injective (`EncodeInjective`).
 */
module Base64Url {
  import opened Wrappers

  type byte = b: int | 0 <= b < 256

  /** A 6-bit value, the unit one character encodes. */
  type sextet = v: int | 0 <= v < 64

  /** The characters of the URL-safe alphabet: `[A-Za-z0-9_-]`. */
  predicate IsUrlSafe(ch: char) {
    ('A' <= ch <= 'Z') || ('a' <= ch <= 'z') || ('0' <= ch <= '9') || ch == '-' || ch == '_'
  }

  /** Table 2 of RFC 4648 with 62 and 63 as `-` and `_`: the character that encodes `v`. */
  function Symbol(v: sextet): (ch: char)
    ensures IsUrlSafe(ch)
  {
    if v < 26 then ('A' as int + v) as char
    else if v < 52 then ('a' as int + (v - 26)) as char
    else if v < 62 then ('0' as int + (v - 52)) as char
    else if v == 62 then '-'
    else '_'
  }

  /** The 6-bit value a character stands for, if it belongs to the alphabet. */
  function Value(ch: char): (r: Option<sextet>)
    ensures r.Some? <==> IsUrlSafe(ch)
    ensures r.Some? ==> Symbol(r.value) == ch
  {
    if 'A' <= ch <= 'Z' then Some(ch as int - 'A' as int)
    else if 'a' <= ch <= 'z' then Some(ch as int - 'a' as int + 26)
    else if '0' <= ch <= '9' then Some(ch as int - '0' as int + 52)
    else if ch == '-' then Some(62)
    else if ch == '_' then Some(63)
    else None
  }

  lemma ValueOfSymbol(v: sextet)
    ensures Value(Symbol(v)) == Some(v)
  {
  }

  // The 24 bits of three bytes, cut into four sextets from the most
  // significant bit down (section 4 of RFC 4648).

  function Sextet0(b0: byte): sextet { b0 / 4 }
  function Sextet1(b0: byte, b1: byte): sextet { b0 % 4 * 16 + b1 / 16 }
  function Sextet2(b1: byte, b2: byte): sextet { b1 % 16 * 4 + b2 / 64 }
  function Sextet3(b2: byte): sextet { b2 % 64 }

  // And the three bytes glued back from four sextets.

  function Octet0(v0: sextet, v1: sextet): byte { v0 * 4 + v1 / 16 }
  function Octet1(v1: sextet, v2: sextet): byte { v1 % 16 * 16 + v2 / 4 }
  function Octet2(v2: sextet, v3: sextet): byte { v2 % 4 * 64 + v3 }

  /** Reassembling the sextets of three bytes gives the bytes back. */
  lemma QuantumRoundTrip(b0: byte, b1: byte, b2: byte)
    ensures Octet0(Sextet0(b0), Sextet1(b0, b1)) == b0
    ensures Octet1(Sextet1(b0, b1), Sextet2(b1, b2)) == b1
    ensures Octet2(Sextet2(b1, b2), Sextet3(b2)) == b2
  {
    assert (b0 % 4 * 16 + b1 / 16) / 16 == b0 % 4;
    assert (b0 % 4 * 16 + b1 / 16) % 16 == b1 / 16;
    assert (b1 % 16 * 4 + b2 / 64) / 4 == b1 % 16;
    assert (b1 % 16 * 4 + b2 / 64) % 4 == b2 / 64;
  }

  /**
    Encodes whole 3-byte groups from the front as 4 characters each; a final
    group of 2 bytes gives 3 characters and one of 1 byte gives 2, the unused
    low bits being zero and no `=` being appended.
   */
  function Encode(b: seq<byte>): (s: string)
    ensures forall i :: 0 <= i < |s| ==> IsUrlSafe(s[i])
    decreases |b|
  {
    if |b| == 0 then ""
    else if |b| == 1 then
      [Symbol(Sextet0(b[0])), Symbol(Sextet1(b[0], 0))]
    else if |b| == 2 then
      [Symbol(Sextet0(b[0])), Symbol(Sextet1(b[0], b[1])), Symbol(Sextet2(b[1], 0))]
    else
      [Symbol(Sextet0(b[0])), Symbol(Sextet1(b[0], b[1])), Symbol(Sextet2(b[1], b[2])), Symbol(Sextet3(b[2]))]
      + Encode(b[3..])
  }

  /** Decodes unpadded URL-safe base 64; a length of 1 modulo 4 or a character outside the alphabet is an error. */
  function Decode(s: string): (r: Option<seq<byte>>)
    decreases |s|
  {
    if |s| == 0 then Some([])
    else if |s| == 1 then None
    else if Value(s[0]).None? || Value(s[1]).None? then None
    else
      var v0, v1 := Value(s[0]).value, Value(s[1]).value;
      if |s| == 2 then Some([Octet0(v0, v1)])
      else if Value(s[2]).None? then None
      else
        var v2 := Value(s[2]).value;
        if |s| == 3 then Some([Octet0(v0, v1), Octet1(v1, v2)])
        else if Value(s[3]).None? then None
        else
          var v3 := Value(s[3]).value;
          match Decode(s[4..])
          case None => None
          case Some(rest) => Some([Octet0(v0, v1), Octet1(v1, v2), Octet2(v2, v3)] + rest)
  }

  lemma DecodeOneByte(b0: byte)
    ensures Decode(Encode([b0])) == Some([b0])
  {
    var v0, v1 := Sextet0(b0), Sextet1(b0, 0);
    var s := [Symbol(v0), Symbol(v1)];
    assert Encode([b0]) == s;
    ValueOfSymbol(v0);
    ValueOfSymbol(v1);
    assert Value(s[0]) == Some(v0) && Value(s[1]) == Some(v1);
    assert Decode(s) == Some([Octet0(v0, v1)]);
    QuantumRoundTrip(b0, 0, 0);
    assert Octet0(v0, v1) == b0;
  }

  lemma DecodeTwoBytes(b0: byte, b1: byte)
    ensures Decode(Encode([b0, b1])) == Some([b0, b1])
  {
    var v0, v1, v2 := Sextet0(b0), Sextet1(b0, b1), Sextet2(b1, 0);
    assert Encode([b0, b1]) == [Symbol(v0), Symbol(v1), Symbol(v2)];
    ValueOfSymbol(v0);
    ValueOfSymbol(v1);
    ValueOfSymbol(v2);
    QuantumRoundTrip(b0, b1, 0);
  }

  /** Decoding a leading group of four characters and the rest separately. */
  lemma DecodeGroup(v0: sextet, v1: sextet, v2: sextet, v3: sextet, tail: string)
    ensures Decode([Symbol(v0), Symbol(v1), Symbol(v2), Symbol(v3)] + tail) ==
      match Decode(tail)
      case None => None
      case Some(rest) => Some([Octet0(v0, v1), Octet1(v1, v2), Octet2(v2, v3)] + rest)
  {
    var s := [Symbol(v0), Symbol(v1), Symbol(v2), Symbol(v3)] + tail;
    ValueOfSymbol(v0);
    ValueOfSymbol(v1);
    ValueOfSymbol(v2);
    ValueOfSymbol(v3);
    assert s[4..] == tail;
  }

  /** One step of the round trip: a leading 3-byte group decodes back, given that the rest does. */
  lemma DecodeQuantum(b0: byte, b1: byte, b2: byte, rest: seq<byte>)
    requires Decode(Encode(rest)) == Some(rest)
    ensures Decode(Encode([b0, b1, b2] + rest)) == Some([b0, b1, b2] + rest)
  {
    var b := [b0, b1, b2] + rest;
    var v0, v1 := Sextet0(b0), Sextet1(b0, b1);
    var v2, v3 := Sextet2(b1, b2), Sextet3(b2);
    assert b[3..] == rest;
    assert Encode(b) == [Symbol(v0), Symbol(v1), Symbol(v2), Symbol(v3)] + Encode(rest);
    DecodeGroup(v0, v1, v2, v3, Encode(rest));
    QuantumRoundTrip(b0, b1, b2);
    assert Octet0(v0, v1) == b0 && Octet1(v1, v2) == b1 && Octet2(v2, v3) == b2;
  }

  /** Decoding inverts encoding, for every byte string. */
  lemma {:induction false} DecodeEncode(b: seq<byte>)
    ensures Decode(Encode(b)) == Some(b)
    decreases |b|
  {
    if |b| == 0 {
    } else if |b| == 1 {
      assert [b[0]] == b;
      DecodeOneByte(b[0]);
    } else if |b| == 2 {
      assert [b[0], b[1]] == b;
      DecodeTwoBytes(b[0], b[1]);
    } else {
      var rest := b[3..];
      assert [b[0], b[1], b[2]] + rest == b;
      DecodeEncode(rest);
      DecodeQuantum(b[0], b[1], b[2], rest);
    }
  }

  /** Distinct byte strings never share an encoding. */
  lemma EncodeInjective(a: seq<byte>, b: seq<byte>)
    requires Encode(a) == Encode(b)
    ensures a == b
  {
    DecodeEncode(a);
    DecodeEncode(b);
  }

  /**
    The length of an unpadded encoding, as Go's `EncodedLen` computes it for
    an encoding without padding: four characters per whole group of three
    bytes, plus two or three for a final group of one or two.
   */
  lemma {:induction false} EncodedLength(b: seq<byte>)
    ensures |Encode(b)| == |b| / 3 * 4 + (|b| % 3 * 8 + 5) / 6
    decreases |b|
  {
    if |b| >= 3 {
      EncodedLength(b[3..]);
    }
  }

  /** The handler encodes 32 random bytes: that always takes 43 characters. */
  lemma EncodedLength32(b: seq<byte>)
    requires |b| == 32
    ensures |Encode(b)| == 43
  {
    EncodedLength(b);
  }
}
