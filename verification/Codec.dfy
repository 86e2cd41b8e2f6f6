/** The three text encodings of binary keys: hex (section 8 of RFC 4648), z-base-32, and base64
    (section 4 of RFC 4648), as regroupings of bits, most significant bit first. */
module Codec {

  type byte = x: int | 0 <= x < 256

  type Bits = seq<bool>

  // ----- bits -----

  function Pow2(k: nat): (p: nat)
    ensures p >= 1
  {
    if k == 0 then 1 else 2 * Pow2(k - 1)
  }

  function Value(bits: Bits): (v: nat)
    ensures v < Pow2(|bits|)
  {
    if bits == [] then 0 else 2 * Value(bits[..|bits| - 1]) + (if bits[|bits| - 1] then 1 else 0)
  }

  function ToBits(v: nat, k: nat): (bits: Bits)
    requires v < Pow2(k)
    ensures |bits| == k
  {
    if k == 0 then [] else ToBits(v / 2, k - 1) + [v % 2 == 1]
  }

  lemma {:induction false} BitsOfValue(bits: Bits)
    ensures ToBits(Value(bits), |bits|) == bits
  {
    if bits != [] {
      var init := bits[..|bits| - 1];
      BitsOfValue(init);
      assert Value(bits) / 2 == Value(init);
      assert bits == init + [bits[|bits| - 1]];
    }
  }

  lemma {:induction false} ValueOfBits(v: nat, k: nat)
    requires v < Pow2(k)
    ensures Value(ToBits(v, k)) == v
  {
    if k > 0 {
      var bits := ToBits(v, k);
      assert bits[..k - 1] == ToBits(v / 2, k - 1);
      ValueOfBits(v / 2, k - 1);
    }
  }

  function Zeros(n: nat): Bits { seq(n, _ => false) }

  // ----- regrouping -----

  /** Groups of `k` bits as numbers, the last one filled up with zeros. */
  function Digits(bits: Bits, k: nat): (ds: seq<nat>)
    requires k > 0
    ensures forall i | 0 <= i < |ds| :: ds[i] < Pow2(k)
    decreases |bits|
  {
    if bits == [] then []
    else if |bits| < k then [Value(bits + Zeros(k - |bits|))]
    else [Value(bits[..k])] + Digits(bits[k..], k)
  }

  function Undigits(ds: seq<nat>, k: nat): (bits: Bits)
    requires forall i | 0 <= i < |ds| :: ds[i] < Pow2(k)
    ensures |bits| == |ds| * k
  {
    if ds == [] then [] else ToBits(ds[0], k) + Undigits(ds[1..], k)
  }

  /** Whole bytes only: what is left over is dropped. */
  function Bytes(bits: Bits): (bs: seq<byte>)
    ensures |bs| == |bits| / 8
    decreases |bits|
  {
    if |bits| < 8 then [] else assert Pow2(8) == 256; [Value(bits[..8])] + Bytes(bits[8..])
  }

  function Unbytes(bs: seq<byte>): (bits: Bits)
    ensures |bits| == 8 * |bs|
  {
    if bs == [] then [] else assert Pow2(8) == 256; ToBits(bs[0], 8) + Unbytes(bs[1..])
  }

  /** Regrouping loses nothing: the bits come back, followed by less than one group of zeros. */
  lemma {:induction false} UndigitsDigits(bits: Bits, k: nat) returns (pad: nat)
    requires k > 0
    ensures pad < k && Undigits(Digits(bits, k), k) == bits + Zeros(pad)
    decreases |bits|
  {
    if bits == [] {
      pad := 0;
    } else if |bits| < k {
      pad := k - |bits|;
      BitsOfValue(bits + Zeros(pad));
      assert Undigits(Digits(bits, k), k) == ToBits(Value(bits + Zeros(pad)), k) + [];
    } else {
      pad := UndigitsDigits(bits[k..], k);
      BitsOfValue(bits[..k]);
      assert Digits(bits, k)[1..] == Digits(bits[k..], k);
      assert bits == bits[..k] + bits[k..];
    }
  }

  lemma {:induction false} BytesUnbytes(bs: seq<byte>, extra: Bits)
    requires |extra| < 8
    ensures Bytes(Unbytes(bs) + extra) == bs
    decreases |bs|
  {
    if bs == [] {
      assert Unbytes(bs) + extra == extra;
    } else {
      var bits := Unbytes(bs) + extra;
      assert Pow2(8) == 256;
      ValueOfBits(bs[0], 8);
      assert bits[..8] == ToBits(bs[0], 8) && bits[8..] == Unbytes(bs[1..]) + extra;
      BytesUnbytes(bs[1..], extra);
    }
  }

  lemma {:induction false} DigitsLength(bits: Bits, k: nat)
    requires k == 4 || k == 5 || k == 6
    ensures |Digits(bits, k)| == (|bits| + k - 1) / k
    decreases |bits|
  {
    if |bits| >= k { DigitsLength(bits[k..], k); }
  }

  // ----- alphabets -----

  datatype Radix = Hex | Base32z | Base64

  function Width(r: Radix): (k: nat)
    ensures 4 <= k <= 6
  {
    match r case Hex => 4 case Base32z => 5 case Base64 => 6
  }

  function Upper(c: char): char {
    if 'a' <= c <= 'z' then ((c as int - 'a' as int) + 'A' as int) as char else c
  }

  function Lower(c: char): char {
    if 'A' <= c <= 'Z' then ((c as int - 'A' as int) + 'a' as int) as char else c
  }

  function Letter(first: char, n: nat): char
    requires n < 26 && first as int < 128
  {
    (first as int + n) as char
  }

  const Z_BASE_32: string := "ybndrfg8ejkmcpqxot1uwisza345h769"

  function CharOf(r: Radix, d: nat): char
    requires d < Pow2(Width(r))
  {
    match r
    case Hex => assert Pow2(4) == 16; if d < 10 then Letter('0', d) else Letter('a', d - 10)
    case Base32z => assert Pow2(5) == 32; Z_BASE_32[d]
    case Base64 =>
      assert Pow2(6) == 64;
      if d < 26 then Letter('A', d) else if d < 52 then Letter('a', d - 26)
      else if d < 62 then Letter('0', d - 52) else if d == 62 then '+' else '/'
  }

  /** The digit a character stands for, in either case for hex and z-base-32; -1 if none. */
  function DigitOf(r: Radix, c: char): (d: int)
    ensures -1 <= d < Pow2(Width(r))
  {
    match r
    case Hex =>
      assert Pow2(4) == 16;
      if '0' <= c <= '9' then c as int - '0' as int
      else if 'a' <= Lower(c) <= 'f' then Lower(c) as int - 'a' as int + 10
      else -1
    case Base32z => assert Pow2(5) == 32; ZDigit(Lower(c))
    case Base64 =>
      assert Pow2(6) == 64;
      if 'A' <= c <= 'Z' then c as int - 'A' as int
      else if 'a' <= c <= 'z' then c as int - 'a' as int + 26
      else if '0' <= c <= '9' then c as int - '0' as int + 52
      else if c == '+' then 62 else if c == '/' then 63 else -1
  }

  function ZDigit(c: char): (d: int)
    ensures -1 <= d < 32
  {
    match c
    case 'y' => 0 case 'b' => 1 case 'n' => 2 case 'd' => 3
    case 'r' => 4 case 'f' => 5 case 'g' => 6 case '8' => 7
    case 'e' => 8 case 'j' => 9 case 'k' => 10 case 'm' => 11
    case 'c' => 12 case 'p' => 13 case 'q' => 14 case 'x' => 15
    case 'o' => 16 case 't' => 17 case '1' => 18 case 'u' => 19
    case 'w' => 20 case 'i' => 21 case 's' => 22 case 'z' => 23
    case 'a' => 24 case '3' => 25 case '4' => 26 case '5' => 27
    case 'h' => 28 case '7' => 29 case '6' => 30 case '9' => 31
    case _ => -1
  }

  lemma ZDigitInverse(d: nat)
    requires d < 32
    ensures ZDigit(Z_BASE_32[d]) == d && Lower(Z_BASE_32[d]) == Z_BASE_32[d]
  {
    if d < 16 {
      if d < 8 {
        assert d == 0 || d == 1 || d == 2 || d == 3 || d == 4 || d == 5 || d == 6 || d == 7;
      } else {
        assert d == 8 || d == 9 || d == 10 || d == 11 || d == 12 || d == 13 || d == 14 || d == 15;
      }
    } else if d < 24 {
      assert d == 16 || d == 17 || d == 18 || d == 19 || d == 20 || d == 21 || d == 22 || d == 23;
    } else {
      assert d == 24 || d == 25 || d == 26 || d == 27 || d == 28 || d == 29 || d == 30 || d == 31;
    }
  }

  /** Every digit can be read back, also from the upper-case form of a hex or z-base-32 digit. */
  lemma DigitInverse(r: Radix, d: nat)
    requires d < Pow2(Width(r))
    ensures DigitOf(r, CharOf(r, d)) == d
    ensures r != Base64 ==> DigitOf(r, Upper(CharOf(r, d))) == d
  {
    match r
    case Hex => HexInverse(d);
    case Base32z => assert Pow2(5) == 32; ZDigitInverse(d);
    case Base64 => Base64Inverse(d);
  }

  lemma HexInverse(d: nat)
    requires d < Pow2(4)
    ensures DigitOf(Hex, CharOf(Hex, d)) == d && DigitOf(Hex, Upper(CharOf(Hex, d))) == d
  {
    assert Pow2(4) == 16;
  }

  lemma Base64Inverse(d: nat)
    requires d < Pow2(6)
    ensures DigitOf(Base64, CharOf(Base64, d)) == d
  {
    assert Pow2(6) == 64;
  }

  // ----- encodings -----

  predicate IsEncoded(r: Radix, s: string) {
    forall i | 0 <= i < |s| :: DigitOf(r, s[i]) >= 0
  }

  function Encode(r: Radix, bs: seq<byte>): (s: string) {
    var ds := Digits(Unbytes(bs), Width(r));
    seq(|ds|, i requires 0 <= i < |ds| => CharOf(r, ds[i]))
  }

  function DigitsOf(r: Radix, s: string): (ds: seq<nat>)
    requires IsEncoded(r, s)
    ensures forall i | 0 <= i < |ds| :: ds[i] < Pow2(Width(r))
  {
    seq(|s|, i requires 0 <= i < |s| => DigitOf(r, s[i]) as nat)
  }

  function Decode(r: Radix, s: string): (bs: seq<byte>)
    requires IsEncoded(r, s)
    ensures |bs| == |s| * Width(r) / 8
  {
    Bytes(Undigits(DigitsOf(r, s), Width(r)))
  }

  function UpperCase(s: string): (t: string)
    ensures |t| == |s|
  {
    seq(|s|, i requires 0 <= i < |s| => Upper(s[i]))
  }

  function LowerCase(s: string): (t: string)
    ensures |t| == |s|
  {
    seq(|s|, i requires 0 <= i < |s| => Lower(s[i]))
  }

  /** Decoding undoes encoding, also when the text was put in upper case where case does not matter. */
  lemma DecodeEncode(r: Radix, bs: seq<byte>, s: string)
    requires s == Encode(r, bs) || (r != Base64 && s == UpperCase(Encode(r, bs)))
    ensures IsEncoded(r, s) && Decode(r, s) == bs
  {
    var ds := Digits(Unbytes(bs), Width(r));
    forall i | 0 <= i < |ds| ensures DigitOf(r, s[i]) == ds[i] { DigitInverse(r, ds[i]); }
    assert DigitsOf(r, s) == ds;
    var pad := UndigitsDigits(Unbytes(bs), Width(r));
    BytesUnbytes(bs, Zeros(pad));
  }

  /** The lengths of an encoded 32-byte key. */
  lemma KeyLength(r: Radix, bs: seq<byte>)
    requires |bs| == 32
    ensures |Encode(r, bs)| == match r case Hex => 64 case Base32z => 52 case Base64 => 43
  {
    DigitsLength(Unbytes(bs), Width(r));
  }

  /** Base64 text of any length, with up to two padding characters if they make its length a multiple
      of four. */
  function Unpadded(s: string): (t: string)
    ensures |s| - 2 <= |t| <= |s| && t <= s
  {
    if |s| % 4 != 0 || s == [] || s[|s| - 1] != '=' then s
    else if |s| > 1 && s[|s| - 2] == '=' then s[..|s| - 2]
    else s[..|s| - 1]
  }

  predicate IsBase64(s: string) {
    |s| % 4 != 1 && IsEncoded(Base64, Unpadded(s))
  }

  function FromBase64(s: string): seq<byte>
    requires IsBase64(s)
  {
    Decode(Base64, Unpadded(s))
  }

  /** Base64 with padding. */
  function ToBase64(bs: seq<byte>): string {
    var s := Encode(Base64, bs);
    s + seq((4 - |s| % 4) % 4, _ => '=')
  }
}
