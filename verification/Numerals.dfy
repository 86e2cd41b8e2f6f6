/** What an encoded key says: read as a number in the published alphabet of its encoding, the text is
    the number that the bytes are, shifted up to a whole number of digits. */
module Numerals {
  import opened Codec

  // ----- alphabets -----

  /** Hex and base64 as in sections 8 and 4 of RFC 4648, and z-base-32. */
  function Alphabet(r: Radix): string {
    match r
    case Hex => "0123456789abcdef"
    case Base32z => "ybndrfg8ejkmcpqxot1uwisza345h769"
    case Base64 => CAPITALS + SMALLS + OTHERS
  }

  const CAPITALS: string := "ABCDEFGHIJKLMNOPQRSTUVWXYZ"
  const SMALLS: string := "abcdefghijklmnopqrstuvwxyz"
  const OTHERS: string := "0123456789+/"

  lemma AlphabetSize(r: Radix)
    ensures |Alphabet(r)| == Pow2(Width(r))
  {
    assert Pow2(4) == 16 && Pow2(5) == 32 && Pow2(6) == 64;
  }

  lemma HexLetter(d: nat)
    requires d < 16
    ensures CharOf(Hex, d) == Alphabet(Hex)[d]
  {
    assert Pow2(4) == 16;
    if d < 8 {
      assert d == 0 || d == 1 || d == 2 || d == 3 || d == 4 || d == 5 || d == 6 || d == 7;
    } else {
      assert d == 8 || d == 9 || d == 10 || d == 11 || d == 12 || d == 13 || d == 14 || d == 15;
    }
  }

  lemma CapitalLetter(d: nat)
    requires d < 26
    ensures Letter('A', d) == CAPITALS[d]
  {
    if d < 8 {
      assert d == 0 || d == 1 || d == 2 || d == 3 || d == 4 || d == 5 || d == 6 || d == 7;
    } else if d < 16 {
      assert d == 8 || d == 9 || d == 10 || d == 11 || d == 12 || d == 13 || d == 14 || d == 15;
    } else {
      assert d == 16 || d == 17 || d == 18 || d == 19 || d == 20 || d == 21 || d == 22 || d == 23 || d == 24 || d == 25;
    }
  }

  lemma SmallLetter(d: nat)
    requires d < 26
    ensures Letter('a', d) == SMALLS[d]
  {
    if d < 8 {
      assert d == 0 || d == 1 || d == 2 || d == 3 || d == 4 || d == 5 || d == 6 || d == 7;
    } else if d < 16 {
      assert d == 8 || d == 9 || d == 10 || d == 11 || d == 12 || d == 13 || d == 14 || d == 15;
    } else {
      assert d == 16 || d == 17 || d == 18 || d == 19 || d == 20 || d == 21 || d == 22 || d == 23 || d == 24 || d == 25;
    }
  }

  lemma OtherLetter(d: nat)
    requires d < 12
    ensures CharOf(Base64, 52 + d) == OTHERS[d]
  {
    assert Pow2(6) == 64;
    if d < 6 {
      assert d == 0 || d == 1 || d == 2 || d == 3 || d == 4 || d == 5;
    } else {
      assert d == 6 || d == 7 || d == 8 || d == 9 || d == 10 || d == 11;
    }
  }

  /** A digit is written as the character at its place in the alphabet. */
  lemma WrittenAs(r: Radix, d: nat)
    requires d < Pow2(Width(r))
    ensures d < |Alphabet(r)| && CharOf(r, d) == Alphabet(r)[d]
  {
    AlphabetSize(r);
    match r
    case Hex => HexLetter(d);
    case Base32z =>
    case Base64 =>
      if d < 26 { CapitalLetter(d); } else if d < 52 { SmallLetter(d - 26); } else { OtherLetter(d - 52); }
  }

  // ----- numbers -----

  /** Bytes as a number, the most significant one first. */
  function BytesNumber(bs: seq<byte>): nat {
    if bs == [] then 0 else 256 * BytesNumber(bs[..|bs| - 1]) + bs[|bs| - 1]
  }

  /** Digits as a number in a base. */
  function DigitsNumber(ds: seq<nat>, base: nat): nat {
    if ds == [] then 0 else base * DigitsNumber(ds[..|ds| - 1], base) + ds[|ds| - 1]
  }

  lemma {:induction false} ValueConcat(a: Bits, b: Bits)
    ensures Value(a + b) == Value(a) * Pow2(|b|) + Value(b)
    decreases |b|
  {
    if b == [] {
      assert a + b == a;
    } else {
      var n, x := |b| - 1, if b[|b| - 1] then 1 else 0;
      assert (a + b)[..|a| + n] == a + b[..n] && (a + b)[|a| + n] == b[n];
      assert Value(a + b) == 2 * Value(a + b[..n]) + x && Value(b) == 2 * Value(b[..n]) + x;
      ValueConcat(a, b[..n]);
      OneBitMore(Value(a), Pow2(n), Value(b[..n]), x);
    }
  }

  lemma OneBitMore(a: int, p: int, b: int, x: int)
    ensures 2 * (a * p + b) + x == a * (2 * p) + (2 * b + x)
  {
  }

  lemma {:induction false} ValueOfZeros(n: nat)
    ensures Value(Zeros(n)) == 0
  {
    if n > 0 {
      assert Zeros(n)[..n - 1] == Zeros(n - 1);
      ValueOfZeros(n - 1);
    }
  }

  lemma {:induction false} UndigitsLast(ds: seq<nat>, d: nat, k: nat)
    requires d < Pow2(k) && forall i | 0 <= i < |ds| :: ds[i] < Pow2(k)
    ensures Undigits(ds + [d], k) == Undigits(ds, k) + ToBits(d, k)
    decreases |ds|
  {
    if ds == [] {
      assert ds + [d] == [d] && [d][1..] == [];
    } else {
      assert (ds + [d])[1..] == ds[1..] + [d] && (ds + [d])[0] == ds[0];
      UndigitsLast(ds[1..], d, k);
    }
  }

  lemma {:induction false} DigitsAreValue(ds: seq<nat>, k: nat)
    requires forall i | 0 <= i < |ds| :: ds[i] < Pow2(k)
    ensures DigitsNumber(ds, Pow2(k)) == Value(Undigits(ds, k))
  {
    if ds != [] {
      var init, d := ds[..|ds| - 1], ds[|ds| - 1];
      assert ds == init + [d];
      DigitsAreValue(init, k);
      UndigitsLast(init, d, k);
      ValueConcat(Undigits(init, k), ToBits(d, k));
      ValueOfBits(d, k);
      Commutes(Value(Undigits(init, k)), Pow2(k));
    }
  }

  lemma Commutes(x: int, y: int)
    ensures x * y == y * x
  {
  }

  lemma {:induction false} UnbytesLast(bs: seq<byte>, b: byte)
    requires b < Pow2(8)
    ensures Unbytes(bs + [b]) == Unbytes(bs) + ToBits(b, 8)
    decreases |bs|
  {
    assert Pow2(8) == 256;
    if bs == [] {
      assert bs + [b] == [b] && [b][1..] == [];
    } else {
      assert (bs + [b])[1..] == bs[1..] + [b] && (bs + [b])[0] == bs[0];
      UnbytesLast(bs[1..], b);
    }
  }

  lemma {:induction false} BytesAreValue(bs: seq<byte>)
    ensures BytesNumber(bs) == Value(Unbytes(bs))
  {
    if bs != [] {
      assert Pow2(8) == 256;
      var init, b := bs[..|bs| - 1], bs[|bs| - 1];
      assert bs == init + [b];
      BytesAreValue(init);
      UnbytesLast(init, b);
      ValueConcat(Unbytes(init), ToBits(b, 8));
      ValueOfBits(b, 8);
    }
  }

  // ----- theorems -----

  /** `s` writes down `ds` in the alphabet. */
  predicate Writes(r: Radix, s: string, ds: seq<nat>) {
    |s| == |ds| && forall i | 0 <= i < |s| :: ds[i] < |Alphabet(r)| && s[i] == Alphabet(r)[ds[i]]
  }

  /** The text of some bytes has as many digits as are needed to hold their bits, and written in the
      alphabet it is the number that the bytes are, followed by zero bits up to a whole digit. */
  lemma EncodesTheNumber(r: Radix, bs: seq<byte>) returns (ds: seq<nat>, pad: nat)
    ensures Writes(r, Encode(r, bs), ds) && pad < Width(r) && |ds| * Width(r) == 8 * |bs| + pad
    ensures DigitsNumber(ds, Pow2(Width(r))) == BytesNumber(bs) * Pow2(pad)
  {
    var k, bits := Width(r), Unbytes(bs);
    ds := Digits(bits, k);
    pad := UndigitsDigits(bits, k);
    DigitsAreValue(ds, k);
    BytesAreValue(bs);
    ValueConcat(bits, Zeros(pad));
    ValueOfZeros(pad);
    forall i | 0 <= i < |ds| ensures ds[i] < |Alphabet(r)| && Encode(r, bs)[i] == Alphabet(r)[ds[i]] {
      WrittenAs(r, ds[i]);
    }
  }

  /** Text that is longer than the bytes need is cut: decoding gives the number, less the bits that do
      not fill a byte. */
  lemma DecodesTheNumber(r: Radix, s: string) returns (left: nat, rest: nat)
    requires IsEncoded(r, s)
    ensures left < 8 && |s| * Width(r) == 8 * |Decode(r, s)| + left && rest < Pow2(left)
    ensures DigitsNumber(DigitsOf(r, s), Pow2(Width(r))) == BytesNumber(Decode(r, s)) * Pow2(left) + rest
  {
    var bits := Undigits(DigitsOf(r, s), Width(r));
    DigitsAreValue(DigitsOf(r, s), Width(r));
    var extra := WholeBytes(bits);
    left, rest := |extra|, Value(extra);
    BytesAreValue(Bytes(bits));
    ValueConcat(Unbytes(Bytes(bits)), extra);
  }

  lemma {:induction false} WholeBytes(bits: Bits) returns (extra: Bits)
    ensures |extra| < 8 && bits == Unbytes(Bytes(bits)) + extra
    decreases |bits|
  {
    if |bits| < 8 {
      extra := bits;
      assert Unbytes([]) + bits == bits;
    } else {
      assert Pow2(8) == 256;
      extra := WholeBytes(bits[8..]);
      BitsOfValue(bits[..8]);
      assert Bytes(bits)[0] == Value(bits[..8]) && Bytes(bits)[1..] == Bytes(bits[8..]);
      assert bits == bits[..8] + bits[8..];
    }
  }

  /** The digit of a character is its place in the alphabet, in either case for hex and z-base-32; other
      characters have none. */
  lemma ReadAs(r: Radix, c: char)
    ensures var d := DigitOf(r, c);
      var x := if r == Base64 then c else Lower(c);
      (d >= 0 <==> x in Alphabet(r)) && (d >= 0 ==> d < |Alphabet(r)| && Alphabet(r)[d] == x)
  {
    var d, x := DigitOf(r, c), if r == Base64 then c else Lower(c);
    if d >= 0 {
      ReadsBack(r, c);
      WrittenAs(r, d);
    } else if x in Alphabet(r) {
      var i :| 0 <= i < |Alphabet(r)| && Alphabet(r)[i] == x;
      AlphabetSize(r);
      WrittenAs(r, i);
      DigitInverse(r, i);
      LowerTwice(c);
      assert false;
    }
  }

  lemma LowerTwice(c: char)
    ensures Lower(Lower(c)) == Lower(c)
  {
  }

  lemma ReadsBack(r: Radix, c: char)
    requires DigitOf(r, c) >= 0
    ensures CharOf(r, DigitOf(r, c)) == if r == Base64 then c else Lower(c)
  {
    match r
    case Hex => assert Pow2(4) == 16;
    case Base32z => assert Pow2(5) == 32;
    case Base64 => assert Pow2(6) == 64;
  }
}
