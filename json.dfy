/**
 * The JSON layer behind the typed `get` and `set`: `JSONEncoder().encode(value)` and
 * `JSONDecoder().decode(type, from: data)`.
 *
 * A type's `Codable` conformance together with the JSON coders is a pair of partial
 * functions between values and bytes. The coders' internals are not part of this model;
 * what the key-chain properties rely on is that a value the encoder accepts decodes back
 * to itself (`RoundTrips`). `IntCodec` is one concrete instance, Swift's 64-bit `Int` as a
 * JSON number, proved to round-trip.
 */
module Json {
  import opened Foundation
  import Utf8

  /** Encoding fails with None for a value that cannot be represented; decoding fails for bytes that are not a well-formed encoding. */
  datatype Codec<!T> = Codec(encode: T -> Option<Bytes>, decode: Bytes -> Option<T>)

  /** The encoder and decoder agree: whatever the encoder produces, the decoder turns back into the same value. */
  ghost predicate RoundTrips<T(!new)>(codec: Codec<T>) {
    forall v: T :: codec.encode(v).Some? ==> codec.decode(codec.encode(v).value) == Some(v)
  }

  /** The encoder produces UTF-8 text, as JSON text exchanged between systems must be (section 8.1 of RFC 8259). */
  ghost predicate EmitsUtf8<T(!new)>(codec: Codec<T>) {
    forall v: T :: codec.encode(v).Some? ==> Utf8.Decode(codec.encode(v).value).Some?
  }

  const Minus: Byte := 0x2D
  const Zero: Byte := 0x30

  predicate IsDigit(b: Byte) {
    Zero <= b <= Zero + 9
  }

  predicate AllDigits(b: Bytes) {
    forall i :: 0 <= i < |b| ==> IsDigit(b[i])
  }

  /** A JSON integer without sign: one or more digits, no leading zero. */
  predicate IsNumeral(b: Bytes) {
    |b| >= 1 && AllDigits(b) && (|b| > 1 ==> b[0] != Zero)
  }

  /** The decimal digits of `n`, most significant first. */
  function Digits(n: nat): (r: Bytes)
    ensures IsNumeral(r)
    ensures Utf8.IsAscii(r)
  {
    if n < 10 then [Zero + n] else Digits(n / 10) + [Zero + n % 10]
  }

  /** The number a string of decimal digits denotes. */
  function DigitsValue(b: Bytes): nat
    requires AllDigits(b)
  {
    if b == [] then 0 else DigitsValue(b[..|b| - 1]) * 10 + (b[|b| - 1] - Zero)
  }

  /** Swift's `Int`: a 64-bit two's-complement integer. */
  type Int64 = x: int | -0x8000_0000_0000_0000 <= x < 0x8000_0000_0000_0000

  /** A numeral whose first digit is not zero denotes a positive number. */
  lemma {:induction false} LeadingDigitPositive(b: Bytes)
    requires |b| >= 1 && AllDigits(b) && b[0] != Zero
    ensures DigitsValue(b) >= 1
  {
    if |b| > 1 {
      LeadingDigitPositive(b[..|b| - 1]);
    }
  }

  lemma {:induction false} DigitsValueOfDigits(n: nat)
    ensures DigitsValue(Digits(n)) == n
  {
    if n >= 10 {
      var d := Digits(n);
      assert d[..|d| - 1] == Digits(n / 10);
      DigitsValueOfDigits(n / 10);
    }
  }

  /** A numeral is the one way of writing the number it denotes. */
  lemma {:induction false} DigitsOfDigitsValue(b: Bytes)
    requires IsNumeral(b)
    ensures Digits(DigitsValue(b)) == b
  {
    if |b| > 1 {
      var init := b[..|b| - 1];
      LeadingDigitPositive(init);
      DigitsOfDigitsValue(init);
      assert b == init + [b[|b| - 1]];
    }
  }

  /** `JSONEncoder` on an `Int`: its decimal numeral, with a minus sign when negative; it never fails. */
  function EncodeInt(n: Int64): (r: Option<Bytes>)
    ensures r.Some? && |r.value| >= 1 && Utf8.IsAscii(r.value)
    ensures r.value[0] == Minus <==> n < 0
  {
    Some(if n < 0 then [Minus] + Digits(-(n as int)) else Digits(n))
  }

  /**
   * `JSONDecoder` for `Int`: accepts an optional minus sign and a numeral without leading
   * zeros, and rejects a number outside the 64-bit range. What it accepts is exactly the
   * encoder's output for the value, except that "-0" is also read as 0.
   */
  function DecodeInt(b: Bytes): (r: Option<Int64>)
    ensures r.Some? ==> EncodeInt(r.value) == Some(b) || b == [Minus, Zero]
  {
    if |b| >= 2 && b[0] == Minus && IsNumeral(b[1..]) then
      var n := DigitsValue(b[1..]);
      if n <= 0x8000_0000_0000_0000 then
        DigitsOfDigitsValue(b[1..]);
        assert b == [Minus] + b[1..];
        Some(0 - n as int)
      else None
    else if IsNumeral(b) then
      var n := DigitsValue(b);
      if n < 0x8000_0000_0000_0000 then
        DigitsOfDigitsValue(b);
        Some(n)
      else None
    else None
  }

  /** `Int` encoded as a JSON number. */
  function IntCodec(): Codec<Int64> {
    Codec(EncodeInt, DecodeInt)
  }

  lemma DecodeEncodeInt(v: Int64)
    ensures DecodeInt(EncodeInt(v).value) == Some(v)
  {
    var b := EncodeInt(v).value;
    if v < 0 {
      assert b[1..] == Digits(-(v as int));
      DigitsValueOfDigits(-(v as int));
    } else {
      assert IsDigit(b[0]);
      DigitsValueOfDigits(v);
    }
  }

  /** A numeral beyond the 64-bit range does not decode as an `Int`. */
  lemma DecodeIntRejectsOverflow()
    ensures DecodeInt(Digits(0x8000_0000_0000_0000)) == None
    ensures DecodeInt([Minus] + Digits(0x8000_0000_0000_0001)) == None
  {
    DigitsValueOfDigits(0x8000_0000_0000_0000);
    DigitsValueOfDigits(0x8000_0000_0000_0001);
    assert ([Minus] + Digits(0x8000_0000_0000_0001))[1..] == Digits(0x8000_0000_0000_0001);
  }

  /** `Int` survives a JSON encode and decode unchanged. */
  lemma IntCodecRoundTrips()
    ensures RoundTrips(IntCodec())
  {
    forall v: Int64 | IntCodec().encode(v).Some?
      ensures IntCodec().decode(IntCodec().encode(v).value) == Some(v)
    {
      DecodeEncodeInt(v);
    }
  }

  /** `Int` is encoded as ASCII, hence as UTF-8 text. */
  lemma IntCodecEmitsUtf8()
    ensures EmitsUtf8(IntCodec())
  {
    forall v: Int64 | IntCodec().encode(v).Some?
      ensures Utf8.Decode(IntCodec().encode(v).value).Some?
    {
      Utf8.AsciiDecodes(IntCodec().encode(v).value);
    }
  }
}
