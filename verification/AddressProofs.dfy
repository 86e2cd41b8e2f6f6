/** Parsing undoes printing, and what parsing accepts. */
module AddressProofs {
  import opened Codec
  import opened Addresses

  // ----- pieces -----

  lemma SpanIs(s: string, p: char -> bool, i: nat)
    requires i <= |s| && (forall k | 0 <= k < i :: p(s[k])) && (i < |s| ==> !p(s[i]))
    ensures Span(s, p) == i
  {
    var j := Span(s, p);
    if j < |s| { var c := s[j]; }
    if i < |s| { var c := s[i]; }
  }

  lemma {:induction false} DecInverse(n: nat)
    ensures DecValue(ToDec(n)) == n
  {
    if n >= 10 {
      DecInverse(n / 10);
      assert ToDec(n)[..|ToDec(n)| - 1] == ToDec(n / 10);
    }
  }

  lemma PortRoundTrip(port: nat, rest: string)
    requires 1 <= port <= 65535 && (rest == [] || !IsDigit(rest[0]))
    ensures ParsePort(":" + ToDec(port) + rest) == Ok(Taken(port, rest))
  {
    var s := ":" + ToDec(port) + rest;
    assert s[1..] == ToDec(port) + rest;
    SpanIs(s[1..], IsDigit, |ToDec(port)|);
    assert s[1..][..|ToDec(port)|] == ToDec(port) && s[1..][|ToDec(port)|..] == rest;
    DecInverse(port);
  }

  lemma HostRoundTrip(host: string, rest: string)
    requires (IsBracketed(host) || IsPlain(host)) && rest != [] && rest[0] == ':'
    ensures ParseHost(host + rest, false) == Ok(Taken(host, rest))
  {
    var s := host + rest;
    assert s[..|host|] == host && s[|host|..] == rest;
    if IsBracketed(host) {
      var n, tail := |host| - 2, s[1..];
      forall k | 0 <= k < n ensures InIPv6(tail[k]) { assert tail[k] == host[k + 1]; }
      assert tail[n] == ']';
      SpanIs(tail, InIPv6, n);
    } else {
      SpanIs(s, NotColon, |host|);
    }
  }

  function RadixOf(enc: Encoding): Radix {
    match enc case HEX => Hex case LOWER_BASE32Z => Base32z case UPPER_BASE32Z => Base32z case BASE64 => Base64
  }

  function KeyText(r: Radix): nat { match r case Hex => 64 case Base32z => 52 case Base64 => 43 }

  /** The padding of a 32-byte key is one character, and it is cut off. */
  lemma Base64Text(pubkey: seq<byte>)
    requires |pubkey| == 32
    ensures EncodePubkey(pubkey, BASE64) == Encode(Base64, pubkey)
  {
    KeyLength(Base64, pubkey);
    var s, padded := Encode(Base64, pubkey), ToBase64(pubkey);
    assert padded == s + ['='] && padded[..43] == s;
  }

  /** The printed key has its fixed length and can be decoded; only base64 uses the slash. */
  lemma PubkeyText(pubkey: seq<byte>, enc: Encoding)
    requires |pubkey| == 32
    ensures var s, r := EncodePubkey(pubkey, enc), RadixOf(enc);
      && |s| == KeyText(r) && IsEncoded(r, s) && Decode(r, s) == pubkey
  {
    KeyLength(RadixOf(enc), pubkey);
    if enc == BASE64 { Base64Text(pubkey); }
    DecodeEncode(RadixOf(enc), pubkey, EncodePubkey(pubkey, enc));
  }

  lemma NotInShorter(r: Radix, s: string, i: nat)
    requires r != Base64 && i < |s| && (s[i] == '/' || s[i] == '=')
    ensures !IsEncoded(r, s)
  {
    assert DigitOf(r, s[i]) == -1;
  }

  lemma PaddingIsNotADigit(s: string)
    requires IsEncoded(Base64, s) && s != []
    ensures s[|s| - 1] != '='
  {
    assert DigitOf(Base64, s[|s| - 1]) >= 0;
  }

  lemma KeyRoundTrip(pubkey: seq<byte>, enc: Encoding, qr: bool)
    requires |pubkey| == 32 && (qr ==> enc == UPPER_BASE32Z)
    ensures ParseKey("/" + EncodePubkey(pubkey, enc), qr) == Ok(pubkey)
  {
    var key := EncodePubkey(pubkey, enc);
    PubkeyText(pubkey, enc);
    assert ("/" + key)[1..] == key && key[..|key|] == key;
  }

  lemma UnixRoundTrip(socket: string, pubkey: seq<byte>, enc: Encoding)
    requires |pubkey| == 32
    ensures ParseUnix(socket + "/" + EncodePubkey(pubkey, enc), IpcCurve) ==
      Ok(Address(IpcCurve, "", 0, socket, pubkey))
  {
    var key := EncodePubkey(pubkey, enc);
    var s, r := socket + "/" + key, RadixOf(enc);
    PubkeyText(pubkey, enc);
    assert Last(s, KeyText(r)) == key && AfterSlash(s, KeyText(r));
    assert s[..|s| - KeyText(r) - 1] == socket;
    if r != Hex && |s| > 64 {
      NotInShorter(Hex, Last(s, 64), 63 - KeyText(r));
    }
    if r == Base64 {
      PaddingIsNotADigit(key);
      if |s| > 52 { NotInShorter(Base32z, Last(s, 52), 51 - KeyText(r)); }
    }
  }

  lemma SchemeRoundTrip(scheme: string, rest: string)
    requires scheme != [] && rest != [] && forall i | 0 <= i < |scheme| :: scheme[i] != ':'
    ensures Parse(scheme + "://" + rest) ==
      match ParseScheme(scheme) { case Err => Err case Ok(v) => ParseRest(rest, v) }
  {
    var s := scheme + "://" + rest;
    assert SchemeEnds(s, |scheme|);
    var i := FindScheme(s);
    assert s[i] == ':';
    assert i == |scheme|;
    assert s[..i] == scheme && s[i + 3..] == rest;
  }

  lemma ParseWith(scheme: string, v: Scheme, rest: string)
    requires scheme != [] && rest != [] && forall i | 0 <= i < |scheme| :: scheme[i] != ':'
    requires ParseScheme(scheme) == Ok(v)
    ensures Parse(scheme + "://" + rest) == ParseRest(rest, v)
  {
    SchemeRoundTrip(scheme, rest);
  }

  // ----- main results -----

  lemma TcpRoundTrip(a: Address, enc: Encoding)
    requires WellFormed(a) && IsTcp(a.protocol)
    ensures ParseTcp(Body(a, enc), false, a.protocol) == Ok(Canonical(a))
  {
    HostRoundTrip(a.host, ":" + ToDec(a.port) + KeySuffix(a, enc));
    PortRoundTrip(a.port, KeySuffix(a, enc));
    if IsCurve(a.protocol) { KeyRoundTrip(a.pubkey, enc, false); }
  }

  lemma IpcRoundTrip(a: Address, enc: Encoding)
    requires WellFormed(a) && !IsTcp(a.protocol)
    ensures ParseUnix(Body(a, enc), a.protocol) == Ok(Canonical(a))
  {
    if IsCurve(a.protocol) {
      assert Body(a, enc) == a.socket + "/" + EncodePubkey(a.pubkey, enc);
      UnixRoundTrip(a.socket, a.pubkey, enc);
    } else {
      assert Body(a, enc) == a.socket;
    }
  }

  lemma SchemeNames(p: Proto)
    ensures SchemeName(p) != [] && forall i | 0 <= i < |SchemeName(p)| :: SchemeName(p)[i] != ':'
    ensures ParseScheme(SchemeName(p)) == Ok(Scheme(p, false))
  {
  }

  /** Printing a well-formed address, with its key in any of the four encodings, and parsing the
      result gives the address back. */
  lemma RoundTrip(a: Address, enc: Encoding)
    requires WellFormed(a)
    ensures Parse(FullAddress(a, enc)) == Ok(Canonical(a)) && Same(Canonical(a), a)
  {
    SchemeNames(a.protocol);
    ParseWith(SchemeName(a.protocol), Scheme(a.protocol, false), Body(a, enc));
    if IsTcp(a.protocol) { TcpRoundTrip(a, enc); } else { IpcRoundTrip(a, enc); }
  }

  /** Well-formed addresses are equal exactly if they print the same, in any encoding of the key. */
  lemma PrintsAgree(a: Address, b: Address, enc: Encoding)
    requires WellFormed(a) && WellFormed(b)
    ensures Same(a, b) <==> FullAddress(a, enc) == FullAddress(b, enc)
  {
    RoundTrip(a, enc);
    RoundTrip(b, enc);
  }

  // ----- keys of any length -----

  predicate NoSlash(s: string) { forall i | 0 <= i < |s| :: s[i] != '/' }

  lemma HexHasNoSlash(bs: seq<byte>)
    ensures NoSlash(Encode(Hex, bs))
  {
    DecodeEncode(Hex, bs, Encode(Hex, bs));
    forall i | 0 <= i < |Encode(Hex, bs)| ensures Encode(Hex, bs)[i] != '/' {
      assert DigitOf(Hex, Encode(Hex, bs)[i]) >= 0;
    }
  }

  function LastSlash(s: string): int {
    if s == [] then -1 else if s[|s| - 1] == '/' then |s| - 1 else LastSlash(s[..|s| - 1])
  }

  lemma {:induction false} LastSlashIs(a: string, x: string)
    requires NoSlash(x)
    ensures LastSlash(a + "/" + x) == |a|
    decreases |x|
  {
    var s := a + "/" + x;
    if x != [] {
      assert s[..|s| - 1] == a + "/" + x[..|x| - 1] && s[|s| - 1] == x[|x| - 1];
      LastSlashIs(a, x[..|x| - 1]);
    }
  }

  /** A string splits at its last slash in one way only. */
  lemma SplitsOnce(a: string, x: string, b: string, y: string)
    requires NoSlash(x) && NoSlash(y) && a + "/" + x == b + "/" + y
    ensures a == b && x == y
  {
    var s, t := a + "/" + x, b + "/" + y;
    LastSlashIs(a, x);
    LastSlashIs(b, y);
    assert s[..|a|] == a && t[..|b|] == b && s[|a| + 1..] == x && t[|b| + 1..] == y;
  }

  lemma SocketAndKey(a: Address, b: Address)
    requires a.protocol == IpcCurve && b.protocol == IpcCurve && Body(a, HEX) == Body(b, HEX)
    ensures a.socket == b.socket && a.pubkey == b.pubkey
  {
    var x, y := Encode(Hex, a.pubkey), Encode(Hex, b.pubkey);
    HexHasNoSlash(a.pubkey);
    HexHasNoSlash(b.pubkey);
    assert Body(a, HEX) == a.socket + "/" + x && Body(b, HEX) == b.socket + "/" + y;
    SplitsOnce(a.socket, x, b.socket, y);
    DecodeEncode(Hex, a.pubkey, x);
    DecodeEncode(Hex, b.pubkey, y);
  }

  lemma SchemeFound(scheme: string, rest: string)
    requires forall i | 0 <= i < |scheme| :: scheme[i] != ':'
    ensures FindScheme(scheme + "://" + rest) == |scheme|
  {
    var s := scheme + "://" + rest;
    assert SchemeEnds(s, |scheme|);
    var i := FindScheme(s);
    assert s[i] == ':';
  }

  lemma SamePrintedScheme(a: Address, b: Address, enc: Encoding)
    requires FullAddress(a, enc) == FullAddress(b, enc)
    ensures a.protocol == b.protocol && Body(a, enc) == Body(b, enc)
  {
    var s, n, m := FullAddress(a, enc), SchemeName(a.protocol), SchemeName(b.protocol);
    SchemeNames(a.protocol);
    SchemeNames(b.protocol);
    SchemeFound(n, Body(a, enc));
    SchemeFound(m, Body(b, enc));
    assert s[..|n|] == n && s[..|m|] == m;
    assert s[|n| + 3..] == Body(a, enc) && s[|m| + 3..] == Body(b, enc);
  }

  /** Addresses that the parser yields: well-formed, or with a key of whatever length behind a socket. */
  predicate Hashable(a: Address) { WellFormed(a) || a.protocol == IpcCurve }

  /** Addresses are equal exactly when the strings that are hashed are. */
  lemma HashAgrees(a: Address, b: Address)
    requires Hashable(a) && Hashable(b)
    ensures Same(a, b) <==> FullAddress(a, HEX) == FullAddress(b, HEX)
  {
    if FullAddress(a, HEX) == FullAddress(b, HEX) {
      SamePrintedScheme(a, b, HEX);
      if a.protocol == IpcCurve { SocketAndKey(a, b); } else { PrintsAgree(a, b, HEX); }
    }
  }

  // ----- what is accepted -----

  /** The one kind of text that yields a malformed key: base64 with two padding characters. */
  predicate TwicePadded(s: string) {
    FindScheme(s) < |s| && ParseScheme(s[..FindScheme(s)]) == Ok(Scheme(IpcCurve, false)) && EndsInTwo(s)
  }

  predicate EndsInTwo(s: string) { |s| >= 2 && s[|s| - 1] == '=' && s[|s| - 2] == '=' }

  lemma HostAccepted(s: string, qr: bool)
    requires s != [] && ParseHost(s, qr).Ok?
    requires qr ==> forall i | 0 <= i < |s| :: InQr(s[i])
    ensures var host := ParseHost(s, qr).value.item; IsBracketed(host) || IsPlain(host)
  {
    var host := ParseHost(s, qr).value.item;
    if s[0] == '[' || (qr && s[0] == '$') {
      var i := 1 + Span(s[1..], InIPv6);
      forall k | 1 <= k < i ensures InIPv6(s[k]) { assert s[k] == s[1..][k - 1]; }
      assert host[0] == '[' && |host| == i + 1;
    } else {
      var i := Span(s, NotColon);
      assert |host| == i;
    }
  }

  lemma KeyAccepted(s: string, qr: bool)
    requires ParseKey(s, qr).Ok?
    ensures |ParseKey(s, qr).value| == 32
  {
  }

  lemma PaddedKey(s: string)
    requires |s| == 43 || |s| == 44
    requires IsBase64(s) && (|s| == 44 <==> s[|s| - 1] == '=')
    ensures |FromBase64(s)| == 32 <==> !EndsInTwo(s)
  {
  }

  lemma UnixAccepted(s: string)
    requires ParseUnix(s, IpcCurve).Ok?
    ensures |ParseUnix(s, IpcCurve).value.pubkey| == 32 <==> !EndsInTwo(s)
  {
    var padded := |s| > 0 && s[|s| - 1] == '=';
    if AfterSlash(s, 64) && IsEncoded(Hex, Last(s, 64)) {
      if padded { NotInShorter(Hex, Last(s, 64), 63); }
    } else if AfterSlash(s, 52) && IsEncoded(Base32z, Last(s, 52)) {
      if padded { NotInShorter(Base32z, Last(s, 52), 51); }
    } else {
      var t := Last(s, if padded then 44 else 43);
      assert t[|t| - 1] == s[|s| - 1] && t[|t| - 2] == s[|s| - 2];
      PaddedKey(t);
    }
  }

  lemma TcpAccepted(s: string, scheme: Scheme)
    requires s != [] && ParseRest(s, scheme).Ok? && IsTcp(scheme.protocol)
    ensures var a := ParseRest(s, scheme).value; WellFormed(a) && Canonical(a) == a && a.protocol == scheme.protocol
  {
    assert scheme.qr ==> Span(s, InQr) == |s|;
    HostAccepted(s, scheme.qr);
    var port := ParsePort(ParseHost(s, scheme.qr).value.rest).value;
    if IsCurve(scheme.protocol) { KeyAccepted(port.rest, scheme.qr); }
  }

  /** Everything that is accepted is a well-formed address in canonical form, except that a key in
      base64 with two padding characters is accepted with 31 bytes. */
  lemma AcceptedIsWellFormedIff(s: string)
    requires Parse(s).Ok?
    ensures WellFormed(Parse(s).value) <==> !TwicePadded(s)
    ensures Canonical(Parse(s).value) == Parse(s).value
  {
    var i := FindScheme(s);
    var scheme, rest := ParseScheme(s[..i]).value, s[i + 3..];
    if IsTcp(scheme.protocol) { TcpAccepted(rest, scheme); } else { IpcAccepted(rest, scheme); }
    if scheme.protocol == IpcCurve { SameEnd(s, i + 3); }
    IpcIsNotQr(s[..i]);
  }

  lemma IpcIsNotQr(scheme: string)
    ensures ParseScheme(scheme).Ok? && !IsTcp(ParseScheme(scheme).value.protocol) ==> !ParseScheme(scheme).value.qr
  {
  }

  lemma SameEnd(s: string, n: nat)
    requires n + 2 <= |s|
    ensures EndsInTwo(s[n..]) == EndsInTwo(s)
  {
  }

  lemma IpcAccepted(s: string, scheme: Scheme)
    requires s != [] && ParseRest(s, scheme).Ok? && !IsTcp(scheme.protocol)
    ensures var a := ParseRest(s, scheme).value;
      && a.protocol == scheme.protocol && Canonical(a) == a && (a.protocol == IpcCurve ==> |s| >= 2)
      && (WellFormed(a) <==> !(a.protocol == IpcCurve && EndsInTwo(s)))
  {
    if scheme.protocol == IpcCurve { UnixAccepted(s); }
  }

  lemma UnixTwicePadded(socket: string, digits: string)
    requires |digits| == 42 && IsEncoded(Base64, digits)
    ensures var r := ParseUnix(socket + "/" + (digits + "=="), IpcCurve); r.Ok? && |r.value.pubkey| == 31
  {
    var key := digits + "==";
    var rest := socket + "/" + key;
    assert Last(rest, 44) == key && AfterSlash(rest, 44) && rest[|rest| - 1] == '=';
    if |rest| > 64 { NotInShorter(Hex, Last(rest, 64), 63); }
    if |rest| > 52 { NotInShorter(Base32z, Last(rest, 52), 51); }
    assert Unpadded(key) == digits;
  }

  /** Such text is accepted, with a key of 31 bytes. */
  lemma TwicePaddedIsAccepted(socket: string, digits: string)
    requires |digits| == 42 && IsEncoded(Base64, digits)
    ensures var s := SchemeName(IpcCurve) + "://" + (socket + "/" + (digits + "=="));
      Parse(s).Ok? && |Parse(s).value.pubkey| == 31
  {
    SchemeNames(IpcCurve);
    ParseWith(SchemeName(IpcCurve), Scheme(IpcCurve, false), socket + "/" + (digits + "=="));
    UnixTwicePadded(socket, digits);
  }

  /** Concretely, a key of 42 letters A and two padding characters. */
  lemma TwicePaddedExample()
    ensures var s := SchemeName(IpcCurve) + "://" + ("" + "/" + (seq(42, _ => 'A') + "=="));
      Parse(s).Ok? && |Parse(s).value.pubkey| == 31
  {
    var digits: string := seq(42, _ => 'A');
    assert IsEncoded(Base64, digits) by {
      forall i | 0 <= i < |digits| ensures DigitOf(Base64, digits[i]) >= 0 { assert digits[i] == 'A'; }
    }
    TwicePaddedIsAccepted("", digits);
  }

  /** So for any two accepted strings, equality of the addresses and of what is hashed agree. */
  lemma AcceptedHashAgrees(s: string, t: string)
    requires Parse(s).Ok? && Parse(t).Ok?
    ensures Same(Parse(s).value, Parse(t).value)
       <==> FullAddress(Parse(s).value, HEX) == FullAddress(Parse(t).value, HEX)
  {
    AcceptedIsHashable(s);
    AcceptedIsHashable(t);
    HashAgrees(Parse(s).value, Parse(t).value);
  }

  lemma AcceptedIsHashable(s: string)
    requires Parse(s).Ok?
    ensures Hashable(Parse(s).value)
  {
    AcceptedIsWellFormedIff(s);
  }

  // ----- QR form -----

  predicate IsUpper(c: char) { 'A' <= c <= 'Z' }

  /** Lower-case hosts that the QR form can carry. */
  predicate QrSafe(host: string) {
    && (forall i | 0 <= i < |host| :: !IsUpper(host[i]))
    && (IsBracketed(host) || (IsPlain(host) && host[0] != '$' && forall i | 0 <= i < |host| :: InQr(Upper(host[i]))))
  }

  lemma LowerUpper(s: string)
    requires forall i | 0 <= i < |s| :: !IsUpper(s[i])
    ensures LowerCase(UpperCase(s)) == s
  {
  }

  /** The part between the brackets, in upper case. */
  function UpperMiddle(host: string): string
    requires IsBracketed(host)
  {
    UpperCase(host[1..|host| - 1])
  }

  lemma BracketsToDollars(host: string)
    requires IsBracketed(host)
    ensures QrHost(host) == "$" + UpperMiddle(host) + "$"
  {
    var upper, n := UpperCase(host), |host| - 1;
    assert upper[0] == '[' && upper[n] == ']';
    var q := (upper[0 := '$'])[n := '$'];
    assert q[0] == '$' && q[n] == '$';
    forall i | 1 <= i < n ensures q[i] == UpperMiddle(host)[i - 1] {
      assert q[i] == Upper(host[i]) && host[1..n][i - 1] == host[i];
    }
  }

  lemma BracketedMiddle(host: string)
    requires QrSafe(host) && IsBracketed(host)
    ensures var upper := UpperMiddle(host);
      host == "[" + LowerCase(upper) + "]" && forall i | 0 <= i < |upper| :: InIPv6(upper[i]) && InQr(upper[i])
  {
    var mid := host[1..|host| - 1];
    forall i | 0 <= i < |mid| ensures InIPv6(mid[i]) && !IsUpper(mid[i]) { assert mid[i] == host[i + 1]; }
    LowerUpper(mid);
    assert host == "[" + mid + "]";
  }

  lemma ParseDollars(upper: string, rest: string)
    requires forall i | 0 <= i < |upper| :: InIPv6(upper[i])
    ensures ParseHost("$" + upper + "$" + rest, true) == Ok(Taken("[" + LowerCase(upper) + "]", rest))
  {
    var s := "$" + upper + "$" + rest;
    assert s[1..] == upper + "$" + rest;
    SpanIs(s[1..], InIPv6, |upper|);
    assert s[1..|upper| + 1] == upper && s[|upper| + 2..] == rest;
  }

  lemma QrBracketed(host: string, rest: string)
    requires QrSafe(host) && IsBracketed(host)
    ensures ParseHost(QrHost(host) + rest, true) == Ok(Taken(host, rest))
    ensures forall i | 0 <= i < |QrHost(host)| :: InQr(QrHost(host)[i])
  {
    BracketedMiddle(host);
    BracketsToDollars(host);
    ParseDollars(UpperMiddle(host), rest);
  }

  lemma QrPlain(host: string, rest: string)
    requires QrSafe(host) && IsPlain(host) && rest != [] && rest[0] == ':'
    ensures ParseHost(QrHost(host) + rest, true) == Ok(Taken(host, rest))
    ensures forall i | 0 <= i < |QrHost(host)| :: InQr(QrHost(host)[i])
  {
    var q := QrHost(host);
    var s := q + rest;
    assert q == UpperCase(host);
    SpanIs(s, NotColon, |host|);
    assert s[..|host|] == q && s[|host|..] == rest;
    LowerUpper(host);
  }

  lemma QrHostNeedsSafe(host: string, rest: string)
    requires IsBracketed(host) || IsPlain(host)
    requires forall i | 0 <= i < |QrHost(host)| :: InQr(QrHost(host)[i])
    requires ParseHost(QrHost(host) + rest, true).Ok? && ParseHost(QrHost(host) + rest, true).value.item == host
    ensures QrSafe(host)
  {
    var q := QrHost(host);
    var s := q + rest;
    assert s[0] == q[0];
    forall i | 0 <= i < |host| ensures !IsUpper(host[i]) {}
    if !IsBracketed(host) {
      assert q == UpperCase(host);
      assert s[0] == Upper(host[0]);
      forall i | 0 <= i < |host| ensures InQr(Upper(host[i])) { assert InQr(q[i]); }
    }
  }

  lemma QrText(s: string)
    ensures Span(s, InQr) == |s| <==> forall i | 0 <= i < |s| :: InQr(s[i])
  {
  }

  lemma ZLetters(d: nat)
    requires d < 32
    ensures 'a' <= Z_BASE_32[d] <= 'z' || IsDigit(Z_BASE_32[d])
  {
  }

  lemma KeyIsQr(pubkey: seq<byte>)
    ensures forall i | 0 <= i < |EncodePubkey(pubkey, UPPER_BASE32Z)| :: InQr(EncodePubkey(pubkey, UPPER_BASE32Z)[i])
  {
    var ds := Digits(Unbytes(pubkey), 5);
    forall i | 0 <= i < |ds| ensures InQr(Upper(CharOf(Base32z, ds[i]))) {
      assert Pow2(5) == 32;
      ZLetters(ds[i]);
    }
  }

  lemma QrTailLetters(a: Address)
    ensures forall i | 0 <= i < |QrTail(a)| :: InQr(QrTail(a)[i])
  {
    KeyIsQr(a.pubkey);
    assert forall i | 0 <= i < |KeySuffix(a, UPPER_BASE32Z)| :: InQr(KeySuffix(a, UPPER_BASE32Z)[i]);
  }

  /** After the host, the QR form parses back. */
  lemma QrTailRoundTrip(a: Address, text: string)
    requires WellFormed(a) && IsTcp(a.protocol) && text != []
    requires ParseHost(text, true) == Ok(Taken(a.host, QrTail(a)))
    ensures ParseTcp(text, true, a.protocol) == Ok(Canonical(a))
  {
    PortRoundTrip(a.port, KeySuffix(a, UPPER_BASE32Z));
    if IsCurve(a.protocol) { KeyRoundTrip(a.pubkey, UPPER_BASE32Z, true); }
  }

  lemma ParsedHost(a: Address, text: string)
    requires IsTcp(a.protocol) && text != [] && ParseTcp(text, true, a.protocol) == Ok(Canonical(a))
    ensures ParseHost(text, true).Ok? && ParseHost(text, true).value.item == a.host
  {
  }

  lemma QrScheme(a: Address)
    requires IsTcp(a.protocol)
    ensures QrName(a) != [] && forall i | 0 <= i < |QrName(a)| :: QrName(a)[i] != ':'
    ensures ParseScheme(QrName(a)) == Ok(Scheme(a.protocol, true))
  {
  }

  lemma QrParse(a: Address)
    requires IsTcp(a.protocol) && a.host != []
    ensures QrAddress(a).Ok?
    ensures Parse(QrAddress(a).value) == ParseRest(QrHost(a.host) + QrTail(a), Scheme(a.protocol, true))
  {
    QrScheme(a);
    ParseWith(QrName(a), Scheme(a.protocol, true), QrHost(a.host) + QrTail(a));
  }

  lemma QrLetters(a: Address, text: string)
    requires forall i | 0 <= i < |text| :: InQr(text[i])
    ensures var s := QrName(a) + "://" + text; forall i | 0 <= i < |s| :: InQr(s[i])
  {
  }

  /** For a well-formed TCP address the QR form exists, and it parses back to the same address
      exactly if the host is one the QR form can carry; then it only uses the permitted characters. */
  lemma QrRoundTripIff(a: Address)
    requires WellFormed(a) && IsTcp(a.protocol)
    ensures QrAddress(a).Ok?
    ensures Parse(QrAddress(a).value) == Ok(Canonical(a)) <==> QrSafe(a.host)
    ensures QrSafe(a.host) ==> forall i | 0 <= i < |QrAddress(a).value| :: InQr(QrAddress(a).value[i])
  {
    var q, tail := QrHost(a.host), QrTail(a);
    QrParse(a);
    QrText(q + tail);
    QrTailLetters(a);
    if QrSafe(a.host) {
      if IsBracketed(a.host) { QrBracketed(a.host, tail); } else { QrPlain(a.host, tail); }
      QrTailRoundTrip(a, q + tail);
      QrLetters(a, q + tail);
    } else if Parse(QrAddress(a).value) == Ok(Canonical(a)) {
      assert forall i | 0 <= i < |q| :: q[i] == (q + tail)[i];
      ParsedHost(a, q + tail);
      QrHostNeedsSafe(a.host, tail);
    }
  }
}
