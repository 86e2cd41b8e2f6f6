/** What printed addresses look like, and which characters and schemes the parser knows. */
module Printing {
  import opened Codec
  import opened Numerals
  import opened Addresses
  import opened AddressProofs

  // ----- characters -----

  /** Capitals of the small letters, and nothing else, change in upper case; and the other way round. */
  lemma CaseIs(c: char)
    ensures if c in SMALLS then exists i | 0 <= i < 26 :: SMALLS[i] == c && Upper(c) == CAPITALS[i] else Upper(c) == c
    ensures if c in CAPITALS then exists i | 0 <= i < 26 :: CAPITALS[i] == c && Lower(c) == SMALLS[i] else Lower(c) == c
  {
    LettersOf(c);
    if 'a' <= c <= 'z' {
      var i := c as int - 'a' as int;
      SmallLetter(i);
      CapitalLetter(i);
    }
    if 'A' <= c <= 'Z' {
      var i := c as int - 'A' as int;
      SmallLetter(i);
      CapitalLetter(i);
    }
  }

  lemma LettersOf(c: char)
    ensures c in SMALLS <==> 'a' <= c <= 'z'
    ensures c in CAPITALS <==> 'A' <= c <= 'Z'
  {
    if 'a' <= c <= 'z' { SmallLetter(c as int - 'a' as int); }
    if 'A' <= c <= 'Z' { CapitalLetter(c as int - 'A' as int); }
    if c in SMALLS {
      var i :| 0 <= i < |SMALLS| && SMALLS[i] == c;
      SmallLetter(i);
    }
    if c in CAPITALS {
      var i :| 0 <= i < |CAPITALS| && CAPITALS[i] == c;
      CapitalLetter(i);
    }
  }

  const NUMERALS: string := "0123456789"

  lemma NumeralsOf(c: char)
    ensures c in NUMERALS <==> IsDigit(c)
  {
    if IsDigit(c) {
      var d := c as int - '0' as int;
      assert d == 0 || d == 1 || d == 2 || d == 3 || d == 4 || d == 5 || d == 6 || d == 7 || d == 8 || d == 9;
      assert NUMERALS[d] == c;
    }
  }

  const LOW_SIX: string := "abcdef"
  const HIGH_SIX: string := "ABCDEF"
  const COLON_DOT: string := ":."
  const QR_SIGNS: string := "$:/.-"

  lemma SixLetters(c: char)
    ensures c in LOW_SIX <==> 'a' <= c <= 'f'
    ensures c in HIGH_SIX <==> 'A' <= c <= 'F'
  {
    if 'a' <= c <= 'f' { assert LOW_SIX[c as int - 'a' as int] == c; }
    if 'A' <= c <= 'F' { assert HIGH_SIX[c as int - 'A' as int] == c; }
  }

  lemma Signs(c: char)
    ensures c in COLON_DOT <==> c == ':' || c == '.'
    ensures c in QR_SIGNS <==> c == '$' || c == ':' || c == '/' || c == '.' || c == '-'
  {
    var s, q := COLON_DOT, QR_SIGNS;
    assert s[0] == ':' && s[1] == '.';
    assert q[0] == '$' && q[1] == ':' && q[2] == '/' && q[3] == '.' && q[4] == '-';
  }

  /** The characters of an IPv6 address, and those of the QR form. */
  lemma CharacterSets(c: char)
    ensures InIPv6(c) <==> c in NUMERALS || c in LOW_SIX || c in HIGH_SIX || c in COLON_DOT
    ensures InQr(c) <==> c in NUMERALS || c in CAPITALS || c in QR_SIGNS
  {
    NumeralsOf(c);
    LettersOf(c);
    SixLetters(c);
    Signs(c);
  }

  // ----- keys -----

  /** A 32-byte key, printed: the number it is, in the alphabet of the encoding, without padding
      characters, and in capitals where that is asked for. */
  lemma KeyPrinted(pubkey: seq<byte>, enc: Encoding) returns (ds: seq<nat>, pad: nat)
    requires |pubkey| == 32
    ensures var r, s := RadixOf(enc), EncodePubkey(pubkey, enc);
      && |s| == |ds| == KeyText(r) && pad < Width(r)
      && DigitsNumber(ds, Pow2(Width(r))) == BytesNumber(pubkey) * Pow2(pad)
      && (forall i | 0 <= i < |s| ::
            && ds[i] < |Alphabet(r)|
            && s[i] == if enc == UPPER_BASE32Z then Upper(Alphabet(r)[ds[i]]) else Alphabet(r)[ds[i]])
  {
    ds, pad := EncodesTheNumber(RadixOf(enc), pubkey);
    KeyCharacters(pubkey, enc);
  }

  lemma KeyCharacters(pubkey: seq<byte>, enc: Encoding)
    requires |pubkey| == 32
    ensures var text, s := Encode(RadixOf(enc), pubkey), EncodePubkey(pubkey, enc);
      && |s| == |text| == KeyText(RadixOf(enc))
      && (forall i | 0 <= i < |s| :: s[i] == if enc == UPPER_BASE32Z then Upper(text[i]) else text[i])
  {
    KeyLength(RadixOf(enc), pubkey);
    if enc == BASE64 { Base64Text(pubkey); }
  }

  // ----- schemes -----

  /** `tcp+curve` is another name of `curve`. */
  lemma Synonyms(rest: string)
    ensures Parse("tcp+curve" + "://" + rest) == Parse("curve" + "://" + rest)
  {
    var long, short: string := "tcp+curve", "curve";
    assert forall i | 0 <= i < |long| :: long[i] != ':';
    assert forall i | 0 <= i < |short| :: short[i] != ':';
    SameScheme(long, short, rest);
  }

  lemma SameScheme(a: string, b: string, rest: string)
    requires a != [] && b != [] && ParseScheme(a) == ParseScheme(b)
    requires (forall i | 0 <= i < |a| :: a[i] != ':') && (forall i | 0 <= i < |b| :: b[i] != ':')
    ensures Parse(a + "://" + rest) == Parse(b + "://" + rest)
  {
    if rest == [] {
      SchemeFound(a, rest);
      SchemeFound(b, rest);
    } else {
      SchemeRoundTrip(a, rest);
      SchemeRoundTrip(b, rest);
    }
  }

  /** Exactly these schemes are known. */
  lemma KnownSchemes(scheme: string)
    ensures ParseScheme(scheme).Ok? <==> scheme in {"tcp", "tcp+curve", "curve", "ipc", "ipc+curve", "TCP", "CURVE"}
  {
  }

  // ----- ports -----

  const TEN: string := "0123456789"

  /** `text` is written with the digits `ds`, and they are the number `n`. */
  predicate IsDecimal(text: string, ds: seq<nat>, n: nat) {
    && |ds| == |text| && (forall i | 0 <= i < |ds| :: ds[i] < 10 && text[i] == TEN[ds[i]])
    && DigitsNumber(ds, 10) == n
  }

  lemma DigitIs(c: char) returns (d: nat)
    requires IsDigit(c)
    ensures d < 10 && c == TEN[d] && d == c as int - '0' as int
  {
    d := c as int - '0' as int;
    assert TEN[0] == '0' && TEN[1] == '1' && TEN[2] == '2' && TEN[3] == '3' && TEN[4] == '4';
    assert TEN[5] == '5' && TEN[6] == '6' && TEN[7] == '7' && TEN[8] == '8' && TEN[9] == '9';
  }

  /** The value of a string of digits is the decimal number that it is. */
  lemma {:induction false} DecimalValue(s: string) returns (ds: seq<nat>)
    requires forall i | 0 <= i < |s| :: IsDigit(s[i])
    ensures IsDecimal(s, ds, DecValue(s))
  {
    ds := [];
    if s != [] {
      var n := |s| - 1;
      ds := DecimalValue(s[..n]);
      var d := DigitIs(s[n]);
      assert (ds + [d])[..n] == ds;
      ds := ds + [d];
    }
  }

  lemma {:induction false} NoLeadingZero(n: nat)
    ensures ToDec(n)[0] == '0' ==> n == 0
  {
    if n >= 10 { NoLeadingZero(n / 10); }
  }

  /** A port is printed as the decimal number that it is, without leading zeros. */
  lemma PortPrinted(n: nat) returns (ds: seq<nat>)
    ensures IsDecimal(ToDec(n), ds, n) && (ToDec(n)[0] == '0' ==> n == 0)
  {
    ds := DecimalValue(ToDec(n));
    DecInverse(n);
    NoLeadingZero(n);
  }

  /** The parts of a printed address, in order: scheme, then host and port or path, then the key. */
  lemma PrintedAs(a: Address, enc: Encoding)
    ensures a.protocol == Tcp ==> FullAddress(a, enc) == "tcp" + "://" + (a.host + (":" + ToDec(a.port) + []))
    ensures a.protocol == TcpCurve ==>
      FullAddress(a, enc) == "curve" + "://" + (a.host + (":" + ToDec(a.port) + ("/" + EncodePubkey(a.pubkey, enc))))
    ensures a.protocol == Ipc ==> FullAddress(a, enc) == "ipc" + "://" + (a.socket + [])
    ensures a.protocol == IpcCurve ==>
      FullAddress(a, enc) == "ipc+curve" + "://" + (a.socket + ("/" + EncodePubkey(a.pubkey, enc)))
  {
  }

  /** Likewise for the QR form: capitals, dollar signs for brackets, and the key in capitals. */
  lemma QrPrintedAs(a: Address)
    ensures QrAddress(a).Ok? <==> (a.protocol == Tcp || a.protocol == TcpCurve) && a.host != []
    ensures a.protocol == Tcp && a.host != [] ==>
      QrAddress(a) == Ok("TCP" + "://" + (QrHost(a.host) + (":" + ToDec(a.port) + [])))
    ensures a.protocol == TcpCurve && a.host != [] ==>
      QrAddress(a)
      == Ok("CURVE" + "://" + (QrHost(a.host) + (":" + ToDec(a.port) + ("/" + EncodePubkey(a.pubkey, UPPER_BASE32Z)))))
    ensures IsBracketed(a.host) ==> QrHost(a.host) == "$" + UpperCase(a.host[1..|a.host| - 1]) + "$"
    ensures IsPlain(a.host) ==> QrHost(a.host) == UpperCase(a.host)
  {
    if IsBracketed(a.host) { BracketsToDollars(a.host); }
  }

  // ----- accepted text -----

  /** `key` is the text of a key in one of the encodings, base64 with or without its padding. */
  predicate Reads(key: string, pubkey: seq<byte>) {
    || (|key| == 64 && IsEncoded(Hex, key) && pubkey == Decode(Hex, key))
    || (|key| == 52 && IsEncoded(Base32z, key) && pubkey == Decode(Base32z, key))
    || (&& |key| >= 43 && IsEncoded(Base64, key[..43]) && pubkey == Decode(Base64, key[..43])
        && (|key| == 43 || (|key| == 44 && key[43] == '=')))
  }

  predicate IsNumber(digits: string, n: nat) {
    digits != [] && (forall i | 0 <= i < |digits| :: IsDigit(digits[i])) && DecValue(digits) == n
  }

  lemma HostText(s: string)
    requires s != [] && ParseHost(s, false).Ok?
    ensures s == ParseHost(s, false).value.item + ParseHost(s, false).value.rest
  {
  }

  lemma PortText(s: string) returns (digits: string)
    requires ParsePort(s).Ok?
    ensures s == ":" + digits + ParsePort(s).value.rest && IsNumber(digits, ParsePort(s).value.item)
  {
    var i := Span(s[1..], IsDigit);
    digits := s[1..][..i];
    assert s == ":" + s[1..] && s[1..] == digits + s[1..][i..];
  }

  lemma KeyTextOf(s: string) returns (key: string)
    requires ParseKey(s, false).Ok?
    ensures s == "/" + key && Reads(key, ParseKey(s, false).value)
  {
    key := s[1..];
    assert s == "/" + key;
    if |key| >= 64 && IsEncoded(Hex, key[..64]) {
      assert key[..64] == key;
    } else if |key| >= 52 && IsEncoded(Base32z, key[..52]) {
      assert key[..52] == key;
    }
  }

  /** The text of an accepted TCP address is its host, a colon, its port in decimal, and for curve a slash
      and its key: nothing in between and nothing after. */
  lemma TcpText(s: string, protocol: Proto) returns (digits: string, key: string)
    requires s != [] && IsTcp(protocol) && ParseTcp(s, false, protocol).Ok?
    ensures var a := ParseTcp(s, false, protocol).value;
      && s == a.host + (":" + digits + (if IsCurve(protocol) then "/" + key else [])) && IsNumber(digits, a.port)
      && (IsCurve(protocol) ==> Reads(key, a.pubkey))
  {
    var host := ParseHost(s, false).value;
    var port := ParsePort(host.rest).value;
    HostText(s);
    digits := PortText(host.rest);
    key := [];
    if IsCurve(protocol) { key := KeyTextOf(port.rest); }
  }

  /** A base64 key with two padding characters is cut short. */
  predicate ReadsShort(key: string, pubkey: seq<byte>) {
    |key| == 44 && EndsInTwo(key) && IsEncoded(Base64, key[..42]) && pubkey == Decode(Base64, key[..42])
  }

  lemma AtSlash(s: string, n: nat)
    requires AfterSlash(s, n)
    ensures s == s[..|s| - n - 1] + ("/" + Last(s, n))
  {
  }

  /** The text of an accepted local address is its path, and for curve a slash and its key. */
  lemma UnixText(s: string, protocol: Proto) returns (key: string)
    requires !IsTcp(protocol) && ParseUnix(s, protocol).Ok?
    ensures var a := ParseUnix(s, protocol).value;
      && s == a.socket + (if IsCurve(protocol) then "/" + key else [])
      && (IsCurve(protocol) ==> Reads(key, a.pubkey) || ReadsShort(key, a.pubkey))
  {
    key := [];
    if IsCurve(protocol) { key := UnixKey(s, protocol); } else { assert s + [] == s; }
  }

  lemma UnixKey(s: string, protocol: Proto) returns (key: string)
    requires IsCurve(protocol) && ParseUnix(s, protocol).Ok?
    ensures var a := ParseUnix(s, protocol).value;
      s == a.socket + ("/" + key) && (Reads(key, a.pubkey) || ReadsShort(key, a.pubkey))
  {
    var b64 := if |s| > 0 && s[|s| - 1] == '=' then 44 else 43;
    var hex := AfterSlash(s, 64) && IsEncoded(Hex, Last(s, 64));
    var z32 := !hex && AfterSlash(s, 52) && IsEncoded(Base32z, Last(s, 52));
    var n := if hex then 64 else if z32 then 52 else b64;
    key := Last(s, n);
    AtSlash(s, n);
    if !hex && !z32 { Base64Key(key); }
  }

  lemma Base64Key(key: string)
    requires IsBase64(key) && (|key| == 43 || |key| == 44) && (|key| == 44 <==> key[|key| - 1] == '=')
    ensures Reads(key, FromBase64(key)) || ReadsShort(key, FromBase64(key))
  {
    if |key| == 43 { assert key[..43] == key; }
  }

  /** An accepted string is a known scheme, "://", and text that is accepted for that scheme. */
  lemma SchemeText(s: string) returns (name: string, rest: string)
    requires Parse(s).Ok?
    ensures s == name + "://" + rest && rest != [] && ParseScheme(name).Ok?
    ensures Parse(s) == ParseRest(rest, ParseScheme(name).value)
  {
    var i := FindScheme(s);
    name, rest := s[..i], s[i + 3..];
    SplitAtScheme(s, i);
  }

  lemma SplitAtScheme(s: string, i: nat)
    requires SchemeEnds(s, i)
    ensures s == s[..i] + "://" + s[i + 3..]
  {
    assert s[i..i + 3] == "://";
    assert s == s[..i] + s[i..i + 3] + s[i + 3..];
  }

  /** The host of a QR address is the text before the colon in small letters, with square brackets for
      dollar signs. */
  lemma QrHostText(s: string)
    requires s != [] && ParseHost(s, true).Ok?
    ensures var host, rest := ParseHost(s, true).value.item, ParseHost(s, true).value.rest;
      var text := s[..|s| - |rest|];
      && |rest| <= |s| && s == text + rest && |text| == |host|
      && if host[0] == '['
         then && |text| >= 2 && text[0] in "[$" && text[|text| - 1] in "]$"
              && host == "[" + LowerCase(text[1..|text| - 1]) + "]"
         else host == LowerCase(text)
  {
    if s[0] == '[' || s[0] == '$' {
      var i := 1 + Span(s[1..], InIPv6);
      assert "[$"[0] == '[' && "[$"[1] == '$' && "]$"[0] == ']' && "]$"[1] == '$';
    } else {
      assert LowerCase(s[..1])[0] == Lower(s[0]);
    }
  }
}
