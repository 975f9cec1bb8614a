// Base16 (section 8 of RFC 4648) as Go's encoding/hex implements it:
// DecodeString, which accepts upper- and lower-case digits and reports the
// first invalid byte before an odd length, and Encode, which writes
// lower-case digits.

module Hex {
  import opened Base

  predicate IsHexDigit(b: byte) {
    '0' as byte <= b <= '9' as byte || 'a' as byte <= b <= 'f' as byte || 'A' as byte <= b <= 'F' as byte
  }

  /** The value of one hexadecimal digit. */
  function DigitValue(b: byte): (v: nat)
    requires IsHexDigit(b)
    ensures v < 16
  {
    if b <= '9' as byte then b - '0' as byte
    else if b >= 'a' as byte then b - 'a' as byte + 10
    else b - 'A' as byte + 10
  }

  /**
   * hex.DecodeString: each pair of digits becomes one byte. It yields one
   * byte per two digits, and fails only with the odd-length error or by
   * naming a byte that is not a hexadecimal digit.
   */
  function HexDecode(s: Bytes): (r: Result<Bytes, Error>)
    ensures r.Success? ==> 2 * |r.value| == |s|
    ensures r.Failure? ==> r.error == OddLength || (r.error.InvalidByte? && !IsHexDigit(r.error.b))
    decreases |s|
  {
    if |s| == 0 then Success([])
    else if !IsHexDigit(s[0]) then Failure(InvalidByte(s[0]))
    else if |s| == 1 then Failure(OddLength)
    else if !IsHexDigit(s[1]) then Failure(InvalidByte(s[1]))
    else match HexDecode(s[2..])
      case Success(rest) => Success([DigitValue(s[0]) * 16 + DigitValue(s[1])] + rest)
      case Failure(e) => Failure(e)
  }

  /** The digits hex.Encode writes, indexed by value. */
  const LowerDigits: Bytes := [
    '0' as byte, '1' as byte, '2' as byte, '3' as byte, '4' as byte, '5' as byte, '6' as byte, '7' as byte,
    '8' as byte, '9' as byte, 'a' as byte, 'b' as byte, 'c' as byte, 'd' as byte, 'e' as byte, 'f' as byte]

  /** Each digit hex.Encode writes decodes back to its value. */
  lemma LowerDigitValue(k: nat)
    requires k < 16
    ensures IsHexDigit(LowerDigits[k]) && DigitValue(LowerDigits[k]) == k
  {
  }

  /** The two lower-case digits hex.Encode writes for one byte, high nibble first. */
  function ByteDigits(x: byte): (d: Bytes)
    ensures |d| == 2 && IsHexDigit(d[0]) && IsHexDigit(d[1])
    ensures DigitValue(d[0]) * 16 + DigitValue(d[1]) == x
  {
    LowerDigitValue(x / 16);
    LowerDigitValue(x % 16);
    [LowerDigits[x / 16], LowerDigits[x % 16]]
  }

  /** hex.Encode: every byte becomes two lower-case digits. */
  function HexEncode(b: Bytes): (s: Bytes)
    ensures |s| == 2 * |b|
    ensures forall i :: 0 <= i < |s| ==> IsHexDigit(s[i])
  {
    if |b| == 0 then [] else ByteDigits(b[0]) + HexEncode(b[1..])
  }

  /** Decoding two leading digits in front of a decodable rest. */
  lemma PairDecode(hi: byte, lo: byte, rest: Bytes)
    requires IsHexDigit(hi) && IsHexDigit(lo) && HexDecode(rest).Success?
    ensures HexDecode([hi, lo] + rest) == Success([DigitValue(hi) * 16 + DigitValue(lo)] + HexDecode(rest).value)
  {
    var s := [hi, lo] + rest;
    assert s[0] == hi && s[1] == lo && s[2..] == rest;
  }

  /** Decoding inverts encoding (the tests build their headers with hex.Encode). */
  lemma {:induction false} HexRoundTrip(b: Bytes)
    ensures HexDecode(HexEncode(b)) == Success(b)
  {
    if |b| > 0 {
      var d := ByteDigits(b[0]);
      HexRoundTrip(b[1..]);
      assert d == [d[0], d[1]];
      PairDecode(d[0], d[1], HexEncode(b[1..]));
      assert [b[0]] + b[1..] == b;
    }
  }

  /**
   * Decoding succeeds exactly on an even number of hexadecimal digits, and
   * then byte k of the result is made of digits 2k and 2k+1.
   */
  lemma {:induction false} HexDecodeSucceeds(s: Bytes)
    ensures HexDecode(s).Success? <==> |s| % 2 == 0 && forall i :: 0 <= i < |s| ==> IsHexDigit(s[i])
    ensures HexDecode(s).Success? ==>
      var r := HexDecode(s).value;
      && 2 * |r| == |s|
      && forall k :: 0 <= k < |r| ==> r[k] == DigitValue(s[2 * k]) * 16 + DigitValue(s[2 * k + 1])
    decreases |s|
  {
    if |s| >= 2 && IsHexDigit(s[0]) && IsHexDigit(s[1]) {
      HexDecodeSucceeds(s[2..]);
      assert forall i :: 2 <= i < |s| ==> s[i] == s[2..][i - 2];
      if HexDecode(s).Success? {
        var r := HexDecode(s).value;
        var rest := HexDecode(s[2..]).value;
        assert r == [DigitValue(s[0]) * 16 + DigitValue(s[1])] + rest;
        forall k | 1 <= k < |r|
          ensures r[k] == DigitValue(s[2 * k]) * 16 + DigitValue(s[2 * k + 1])
        {
          assert r[k] == rest[k - 1];
          assert s[2 * k] == s[2..][2 * (k - 1)];
          assert s[2 * k + 1] == s[2..][2 * (k - 1) + 1];
        }
      }
    }
  }

  /**
   * When decoding fails, the error names the first byte that is not a
   * hexadecimal digit; only a string of digits of odd length gives OddLength.
   */
  lemma {:induction false} HexDecodeError(s: Bytes, i: int)
    requires 0 <= i < |s| && !IsHexDigit(s[i])
    requires forall j :: 0 <= j < i ==> IsHexDigit(s[j])
    ensures HexDecode(s) == Failure(InvalidByte(s[i]))
    decreases |s|
  {
    if i >= 2 {
      HexDecodeError(s[2..], i - 2);
    }
  }

  /** Some byte is not a digit, so a first such byte exists. */
  lemma {:induction false} FirstNonDigit(s: Bytes, i: int)
    requires 0 <= i < |s| && !IsHexDigit(s[i])
    ensures exists first :: 0 <= first <= i && !IsHexDigit(s[first]) && forall j :: 0 <= j < first ==> IsHexDigit(s[j])
    decreases i
  {
    if exists j :: 0 <= j < i && !IsHexDigit(s[j]) {
      var j :| 0 <= j < i && !IsHexDigit(s[j]);
      FirstNonDigit(s, j);
    }
  }

  /**
   * Decoding fails with OddLength exactly on a string of hexadecimal digits
   * of odd length: a non-digit anywhere is reported first, and an even
   * number of digits decodes.
   */
  lemma {:induction false} HexDecodeOddLength(s: Bytes)
    ensures HexDecode(s) == Failure(OddLength) <==>
      |s| % 2 == 1 && forall j :: 0 <= j < |s| ==> IsHexDigit(s[j])
    decreases |s|
  {
    if exists i :: 0 <= i < |s| && !IsHexDigit(s[i]) {
      var i :| 0 <= i < |s| && !IsHexDigit(s[i]);
      FirstNonDigit(s, i);
      var first :| 0 <= first <= i && !IsHexDigit(s[first]) && forall j :: 0 <= j < first ==> IsHexDigit(s[j]);
      HexDecodeError(s, first);
    } else if |s| % 2 == 0 {
      HexDecodeSucceeds(s);
    } else if |s| > 1 {
      assert forall j :: 0 <= j < |s[2..]| ==> s[2..][j] == s[j + 2];
      HexDecodeOddLength(s[2..]);
    }
  }
}
