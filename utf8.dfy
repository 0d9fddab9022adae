/**
 * Foundation's UTF-8 conversion between `String` and `Data`, as used by
 * `value.data(using: .utf8)` and `String(data:encoding: .utf8)`.
 *
 * A Dafny `char` is a Unicode scalar value, as is each element of a Swift string's
 * unicode-scalar view, so encoding never fails; decoding fails on any byte sequence that
 * is not well-formed UTF-8 (stray continuation bytes, truncated sequences, overlong
 * forms, surrogates, values above U+10FFFF).
 */
module Utf8 {
  import opened Foundation

  /** The UTF-8 encoding of one scalar value: one to four bytes. */
  function EncodeScalar(c: char): (r: Bytes)
    ensures 1 <= |r| <= 4
  {
    var v := c as int;
    if v < 0x80 then [v]
    else if v < 0x800 then [0xC0 + v / 0x40, 0x80 + v % 0x40]
    else if v < 0x1_0000 then [0xE0 + v / 0x40 / 0x40, 0x80 + v / 0x40 % 0x40, 0x80 + v % 0x40]
    else [0xF0 + v / 0x40 / 0x40 / 0x40, 0x80 + v / 0x40 / 0x40 % 0x40, 0x80 + v / 0x40 % 0x40, 0x80 + v % 0x40]
  }

  /** The UTF-8 encoding of a string: the encodings of its scalars, in order. */
  function Encode(s: string): (r: Bytes)
    ensures |s| <= |r|
  {
    if s == [] then [] else EncodeScalar(s[0]) + Encode(s[1..])
  }

  /** UTF-8 needs at most four bytes per scalar. */
  lemma {:induction false} EncodedLengthBound(s: string)
    ensures |Encode(s)| <= 4 * |s|
  {
    if s != [] {
      EncodedLengthBound(s[1..]);
    }
  }

  predicate IsContinuation(b: Byte) {
    0x80 <= b < 0xC0
  }

  /** The six payload bits of a continuation byte. */
  function Payload(b: Byte): int {
    b as int - 0x80
  }

  /**
   * The scalar value encoded at the front of `b` and the number of bytes it takes, or
   * None when `b` does not start with a well-formed UTF-8 sequence.
   */
  function DecodeScalar(b: Bytes): (r: Option<(char, nat)>)
    requires |b| > 0
    ensures r.Some? ==> 1 <= r.value.1 <= |b|
  {
    var b0 := b[0] as int;
    if b0 < 0x80 then
      Some((b0 as char, 1))
    else if 0xC2 <= b0 < 0xE0 then
      if |b| >= 2 && IsContinuation(b[1]) then
        Some((((b0 - 0xC0) * 0x40 + Payload(b[1])) as char, 2))
      else None
    else if 0xE0 <= b0 < 0xF0 then
      if |b| >= 3 && IsContinuation(b[1]) && IsContinuation(b[2]) then
        var v := ((b0 - 0xE0) * 0x40 + Payload(b[1])) * 0x40 + Payload(b[2]);
        if 0x800 <= v && !(0xD800 <= v < 0xE000) then Some((v as char, 3)) else None
      else None
    else if 0xF0 <= b0 < 0xF5 then
      if |b| >= 4 && IsContinuation(b[1]) && IsContinuation(b[2]) && IsContinuation(b[3]) then
        var v := (((b0 - 0xF0) * 0x40 + Payload(b[1])) * 0x40 + Payload(b[2])) * 0x40 + Payload(b[3]);
        if 0x1_0000 <= v < 0x11_0000 then Some((v as char, 4)) else None
      else None
    else
      None
  }

  /** The string whose UTF-8 encoding is `b`, or None when `b` is not well-formed UTF-8. */
  function Decode(b: Bytes): (r: Option<string>)
    ensures r.Some? ==> |r.value| <= |b|
    decreases |b|
  {
    if b == [] then Some([])
    else match DecodeScalar(b)
      case None => None
      case Some((c, n)) =>
        match Decode(b[n..])
        case None => None
        case Some(s) => Some([c] + s)
  }

  /** Splitting off the low six bits of a non-negative number and putting them back is the identity. */
  lemma SplitLowBits(v: int, q: int, r: int)
    requires 0 <= v
    ensures v == (v / 0x40) * 0x40 + v % 0x40 && 0 <= v % 0x40 < 0x40
    ensures 0 <= r < 0x40 ==> (q * 0x40 + r) / 0x40 == q && (q * 0x40 + r) % 0x40 == r
  {
  }

  /** Decoding the front of an encoded scalar gives the scalar back, whatever follows it. */
  lemma DecodeScalarOfEncoded(c: char, rest: Bytes)
    ensures DecodeScalar(EncodeScalar(c) + rest) == Some((c, |EncodeScalar(c)|))
  {
    var v := c as int;
    var b := EncodeScalar(c) + rest;
    SplitLowBits(v, 0, 0);
    SplitLowBits(v / 0x40, 0, 0);
    SplitLowBits(v / 0x40 / 0x40, 0, 0);
    if v < 0x80 {
    } else if v < 0x800 {
      assert (b[0] as int - 0xC0) * 0x40 + Payload(b[1]) == v;
    } else if v < 0x1_0000 {
      assert ((b[0] as int - 0xE0) * 0x40 + Payload(b[1])) * 0x40 + Payload(b[2]) == v;
    } else {
      assert (((b[0] as int - 0xF0) * 0x40 + Payload(b[1])) * 0x40 + Payload(b[2])) * 0x40 + Payload(b[3]) == v;
    }
  }

  /** Round trip: decoding the encoding of any string gives the string back. */
  lemma {:induction false} DecodeEncode(s: string)
    ensures Decode(Encode(s)) == Some(s)
  {
    if s != [] {
      var head, tail := EncodeScalar(s[0]), Encode(s[1..]);
      DecodeScalarOfEncoded(s[0], tail);
      assert Encode(s)[|head|..] == tail;
      DecodeEncode(s[1..]);
      assert Decode(Encode(s)) == Some([s[0]] + s[1..]);
      assert [s[0]] + s[1..] == s;
    }
  }

  /** A well-formed sequence at the front of `b` is exactly the encoding of the scalar it decodes to. */
  lemma EncodeOfDecodedScalar(b: Bytes)
    requires |b| > 0 && DecodeScalar(b).Some?
    ensures EncodeScalar(DecodeScalar(b).value.0) == b[..DecodeScalar(b).value.1]
  {
    var (c, n) := DecodeScalar(b).value;
    var v := c as int;
    var b0 := b[0] as int;
    if n == 2 {
      SplitLowBits(v, b0 - 0xC0, Payload(b[1]));
    } else if n == 3 {
      var w := (b0 - 0xE0) * 0x40 + Payload(b[1]);
      SplitLowBits(v, w, Payload(b[2]));
      SplitLowBits(w, b0 - 0xE0, Payload(b[1]));
    } else if n == 4 {
      var x := (b0 - 0xF0) * 0x40 + Payload(b[1]);
      var w := x * 0x40 + Payload(b[2]);
      SplitLowBits(v, w, Payload(b[3]));
      SplitLowBits(w, x, Payload(b[2]));
      SplitLowBits(x, b0 - 0xF0, Payload(b[1]));
    }
  }

  /** Decoding takes the front scalar and then decodes the rest. */
  lemma DecodeStep(b: Bytes)
    requires b != [] && Decode(b).Some?
    ensures DecodeScalar(b).Some?
    ensures var n := DecodeScalar(b).value.1;
            Decode(b[n..]).Some? && Decode(b).value == [DecodeScalar(b).value.0] + Decode(b[n..]).value
  {
  }

  /** Encoding a string takes its first scalar and then encodes the rest. */
  lemma EncodeStep(c: char, rest: string)
    ensures Encode([c] + rest) == EncodeScalar(c) + Encode(rest)
  {
    assert ([c] + rest)[0] == c && ([c] + rest)[1..] == rest;
  }

  /** Converse round trip: a decodable byte sequence is the encoding of what it decodes to. */
  lemma {:induction false} EncodeDecode(b: Bytes)
    requires Decode(b).Some?
    ensures Encode(Decode(b).value) == b
  {
    if b != [] {
      DecodeStep(b);
      var (c, n) := DecodeScalar(b).value;
      EncodeOfDecodedScalar(b);
      EncodeDecode(b[n..]);
      EncodeStep(c, Decode(b[n..]).value);
      assert b == b[..n] + b[n..];
    }
  }

  predicate IsAscii(b: Bytes) {
    forall i :: 0 <= i < |b| ==> b[i] < 0x80
  }

  /** Every ASCII byte sequence is well-formed UTF-8. */
  lemma {:induction false} AsciiDecodes(b: Bytes)
    requires IsAscii(b)
    ensures Decode(b).Some?
  {
    if b != [] {
      assert DecodeScalar(b) == Some((b[0] as char, 1));
      AsciiDecodes(b[1..]);
    }
  }

  /** A lone byte 0xFF is not UTF-8: decoding can fail. */
  lemma NotEveryByteSequenceDecodes()
    ensures Decode([0xFF]) == None
  {
  }
}
