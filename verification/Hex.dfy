/** Lowercase hexadecimal (src/hex.rs). */
module Hex {
  import opened Wrappers
  import opened Model

  const DIGITS: string := "0123456789abcdef"

  /** Two digits for every byte, the high one first. */
  function Encoded(bytes: seq<Byte>): (text: string)
    ensures |text| == 2 * |bytes|
  {
    if bytes == [] then ""
    else
      var last := bytes[|bytes| - 1];
      Encoded(bytes[..|bytes| - 1]) + [DIGITS[last / 16], DIGITS[last % 16]]
  }

  method EncodeLower(bytes: seq<Byte>) returns (encoded: string)
    ensures encoded == Encoded(bytes) && |encoded| == 2 * |bytes|
    ensures Decoded(encoded) == Some(bytes)
  {
    encoded := "";
    for i := 0 to |bytes|
      invariant encoded == Encoded(bytes[..i])
    {
      assert bytes[..i + 1][..i] == bytes[..i];
      var high := DIGITS[bytes[i] / 16];
      encoded := encoded + [high];
      var low := DIGITS[bytes[i] % 16];
      encoded := encoded + [low];
      assert encoded == Encoded(bytes[..i]) + [high, low];
    }
    assert bytes[..|bytes|] == bytes;
    DecodingInvertsEncoding(bytes);
  }

  function DigitValue(c: char): Option<nat> {
    if '0' <= c <= '9' then Some(c as nat - '0' as nat)
    else if 'a' <= c <= 'f' then Some(c as nat - 'a' as nat + 10)
    else None
  }

  function Decoded(text: string): Option<seq<Byte>> {
    if text == "" then Some([])
    else if |text| == 1 then None
    else
      var n := |text| - 2;
      var front, high, low := Decoded(text[..n]), DigitValue(text[n]), DigitValue(text[n + 1]);
      if front.None? || high.None? || low.None? then None
      else Some(front.value + [16 * high.value + low.value])
  }

  lemma DigitsHaveTheirValues(v: nat)
    requires v < 16
    ensures DigitValue(DIGITS[v]) == Some(v)
  {
  }

  lemma ValuesHaveTheirDigits(c: char)
    requires DigitValue(c).Some?
    ensures DigitValue(c).value < 16 && DIGITS[DigitValue(c).value] == c
  {
  }

  /** A byte is the value of its two digits, and only of those. */
  lemma BytesAndDigits(byte: Byte)
    ensures DigitValue(DIGITS[byte / 16]) == Some(byte / 16) && DigitValue(DIGITS[byte % 16]) == Some(byte % 16)
    ensures 16 * (byte / 16) + byte % 16 == byte
  {
    DigitsHaveTheirValues(byte / 16);
    DigitsHaveTheirValues(byte % 16);
  }

  lemma DigitsAndBytes(high: char, low: char)
    requires DigitValue(high).Some? && DigitValue(low).Some?
    ensures var byte := 16 * DigitValue(high).value + DigitValue(low).value;
      byte < 0x100 && DIGITS[byte / 16] == high && DIGITS[byte % 16] == low
  {
    ValuesHaveTheirDigits(high);
    ValuesHaveTheirDigits(low);
    Nibbles(DigitValue(high).value, DigitValue(low).value);
    hide DigitValue;
  }

  lemma Nibbles(high: nat, low: nat)
    requires high < 16 && low < 16
    ensures (16 * high + low) / 16 == high && (16 * high + low) % 16 == low
  {
  }

  lemma DecodedStep(front: string, high: char, low: char)
    ensures Decoded(front + [high, low]) ==
      if Decoded(front).None? || DigitValue(high).None? || DigitValue(low).None? then None
      else Some(Decoded(front).value + [16 * DigitValue(high).value + DigitValue(low).value])
  {
    assert (front + [high, low])[..|front|] == front;
  }

  lemma DecodedByte(front: string, byte: Byte)
    ensures Decoded(front + [DIGITS[byte / 16], DIGITS[byte % 16]]) ==
      if Decoded(front).None? then None else Some(Decoded(front).value + [byte])
  {
    hide Decoded, DigitValue;
    var high, low := DIGITS[byte / 16], DIGITS[byte % 16];
    BytesAndDigits(byte);
    DecodedStep(front, high, low);
  }

  lemma EncodedStep(front: seq<Byte>, byte: Byte)
    ensures Encoded(front + [byte]) == Encoded(front) + [DIGITS[byte / 16], DIGITS[byte % 16]]
  {
    assert (front + [byte])[..|front|] == front;
  }

  lemma {:induction false} DecodingInvertsEncoding(bytes: seq<Byte>)
    ensures Decoded(Encoded(bytes)) == Some(bytes)
  {
    if bytes != [] {
      hide Decoded, Encoded, DigitValue, DIGITS;
      var front, last := bytes[..|bytes| - 1], bytes[|bytes| - 1];
      assert bytes == front + [last];
      DecodingInvertsEncoding(front);
      EncodedStep(front, last);
      DecodedByte(Encoded(front), last);
    }
  }

  /** Only the encoding of some bytes decodes, and it decodes to them. */
  lemma {:induction false} EncodingInvertsDecoding(text: string)
    requires Decoded(text).Some?
    ensures Encoded(Decoded(text).value) == text
  {
    if text != "" {
      var n := |text| - 2;
      var front, high, low := text[..n], text[n], text[n + 1];
      hide Decoded, Encoded, DigitValue, DIGITS;
      assert text == front + [high, low];
      DecodedStep(front, high, low);
      EncodingInvertsDecoding(front);
      DigitsAndBytes(high, low);
      EncodedStep(Decoded(front).value, 16 * DigitValue(high).value + DigitValue(low).value);
    }
  }
}
