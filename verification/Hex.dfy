/**
 Lower-case hexadecimal text of digests (src/hex.rs).

 `LowerHex` is the loop of the source; `Encode` is its specification and `Decode` is an
 independent reader of the same text. The two are proved inverse to each other, so the
 texts `LowerHex` can produce are exactly the even-length lower-case hexadecimal strings.
 */
module Hex {
  import opened Results

  newtype byte = b: int | 0 <= b < 256

  const LOWER_HEX_DIGITS: string := "0123456789abcdef"

  /** `byte >> 4` and `byte & 0x0f` of an unsigned 8-bit value. */
  function HighDigit(b: byte): char {
    LOWER_HEX_DIGITS[b as int / 16]
  }

  function LowDigit(b: byte): char {
    LOWER_HEX_DIGITS[b as int % 16]
  }

  function Encode(bytes: seq<byte>): (text: string)
    ensures |text| == 2 * |bytes|
  {
    if bytes == [] then "" else [HighDigit(bytes[0]), LowDigit(bytes[0])] + Encode(bytes[1..])
  }

  /** The value of a lower-case hexadecimal digit; upper-case letters are not digits here. */
  function DigitValue(c: char): Option<int> {
    if '0' <= c <= '9' then Some(c as int - '0' as int)
    else if 'a' <= c <= 'f' then Some(c as int - 'a' as int + 10)
    else None
  }

  predicate IsLowerHexDigit(c: char) {
    DigitValue(c).Some?
  }

  /** The format both `SubmissionContext::new` and `verify_upload` demand of a digest. */
  predicate IsDigestText(text: string) {
    |text| == 64 && forall i :: 0 <= i < |text| ==> IsLowerHexDigit(text[i])
  }

  function Decode(text: string): Option<seq<byte>> {
    if text == "" then Some([])
    else if |text| == 1 then None
    else
      match (DigitValue(text[0]), DigitValue(text[1]), Decode(text[2..]))
      case (Some(high), Some(low), Some(rest)) => Some([(16 * high + low) as byte] + rest)
      case _ => None
  }

  method LowerHex(bytes: seq<byte>) returns (encoded: string)
    ensures encoded == Encode(bytes)
  {
    encoded := "";
    for i := 0 to |bytes|
      invariant encoded == Encode(bytes[..i])
    {
      EncodeAppend(bytes[..i], bytes[i]);
      assert bytes[..i] + [bytes[i]] == bytes[..i + 1];
      encoded := encoded + [HighDigit(bytes[i])];
      encoded := encoded + [LowDigit(bytes[i])];
    }
    assert bytes[..|bytes|] == bytes;
  }

  lemma {:induction false} EncodeAppend(bytes: seq<byte>, b: byte)
    ensures Encode(bytes + [b]) == Encode(bytes) + [HighDigit(b)] + [LowDigit(b)]
  {
    if bytes != [] {
      assert (bytes + [b])[1..] == bytes[1..] + [b];
      EncodeAppend(bytes[1..], b);
    }
  }

  lemma DigitsReadBack(b: byte)
    ensures DigitValue(HighDigit(b)) == Some(b as int / 16)
    ensures DigitValue(LowDigit(b)) == Some(b as int % 16)
  {
    DigitReadBack(b as int / 16);
    DigitReadBack(b as int % 16);
  }

  lemma DigitReadBack(d: int)
    requires 0 <= d < 16
    ensures DigitValue(LOWER_HEX_DIGITS[d]) == Some(d)
  {
  }

  lemma DigitWritesBack(c: char)
    requires IsLowerHexDigit(c)
    ensures 0 <= DigitValue(c).value < 16 && LOWER_HEX_DIGITS[DigitValue(c).value] == c
  {
  }

  /** Two digits a byte, the high one first. */
  lemma {:induction false} EncodeExactly(bytes: seq<byte>, i: nat)
    requires i < |bytes|
    ensures Encode(bytes)[2 * i] == "0123456789abcdef"[bytes[i] as int / 16]
    ensures Encode(bytes)[2 * i + 1] == "0123456789abcdef"[bytes[i] as int % 16]
  {
    if i > 0 {
      EncodeExactly(bytes[1..], i - 1);
    }
  }

  /** Reading what the encoder wrote gives the bytes back. */
  lemma {:induction false} RoundTrip(bytes: seq<byte>)
    ensures Decode(Encode(bytes)) == Some(bytes)
  {
    hide HighDigit, LowDigit, DigitValue;
    if bytes != [] {
      var text := Encode(bytes);
      assert text[2..] == Encode(bytes[1..]);
      DigitsReadBack(bytes[0]);
      RoundTrip(bytes[1..]);
      assert bytes == [bytes[0]] + bytes[1..];
    }
  }

  lemma NibblesOf(high: int, low: int)
    requires 0 <= high < 16 && 0 <= low < 16
    ensures 0 <= 16 * high + low < 256
    ensures (16 * high + low) / 16 == high && (16 * high + low) % 16 == low
  {
  }

  lemma PairWritesBack(first: char, second: char, b: byte)
    requires IsLowerHexDigit(first) && IsLowerHexDigit(second)
    requires b as int == 16 * DigitValue(first).value + DigitValue(second).value
    ensures HighDigit(b) == first && LowDigit(b) == second
  {
    var high, low := DigitValue(first).value, DigitValue(second).value;
    assert LOWER_HEX_DIGITS[high] == first by { DigitWritesBack(first); }
    assert LOWER_HEX_DIGITS[low] == second by { DigitWritesBack(second); }
    NibblesOf(high, low);
  }

  /** Encoding what the decoder read gives the text back: no second spelling of any digest. */
  lemma {:induction false} DecodedTextIsCanonical(text: string)
    requires Decode(text).Some?
    ensures Encode(Decode(text).value) == text
  {
    if text != "" {
      var rest := Decode(text[2..]).value;
      var b := (16 * DigitValue(text[0]).value + DigitValue(text[1]).value) as byte;
      assert Decode(text).value == [b] + rest;
      DecodedTextIsCanonical(text[2..]);
      PairWritesBack(text[0], text[1], b);
      assert ([b] + rest)[1..] == rest;
      assert text == [text[0], text[1]] + text[2..];
    }
  }

  lemma EncodeInjective(left: seq<byte>, right: seq<byte>)
    requires Encode(left) == Encode(right)
    ensures left == right
  {
    RoundTrip(left);
    RoundTrip(right);
  }

  lemma {:induction false} EncodeIsLowerHex(bytes: seq<byte>)
    ensures forall i :: 0 <= i < |Encode(bytes)| ==> IsLowerHexDigit(Encode(bytes)[i])
  {
    if bytes != [] {
      DigitsReadBack(bytes[0]);
      EncodeIsLowerHex(bytes[1..]);
      var text := Encode(bytes);
      forall i | 0 <= i < |text| ensures IsLowerHexDigit(text[i]) {
        if i >= 2 {
          assert text[i] == Encode(bytes[1..])[i - 2];
        }
      }
    }
  }

  /** Every 32-byte digest is printed in the format the persistence layer accepts. */
  lemma DigestTextAccepted(digest: seq<byte>)
    requires |digest| == 32
    ensures IsDigestText(Encode(digest))
  {
    EncodeIsLowerHex(digest);
  }
}
