/** The parser as it runs: a view of the text that is advanced step by step. */
module AddressParser {
  import opened Codec
  import opened Addresses
  import opened AddressProofs

  /** The loop behind `find_first_not_of` and behind the check of the QR characters. */
  method FirstNot(s: string, p: char -> bool) returns (i: nat)
    ensures i == Span(s, p)
  {
    i := 0;
    while i < |s| && p(s[i])
      invariant i <= |s| && forall k | 0 <= k < i :: p(s[k])
    {
      i := i + 1;
    }
    SpanIs(s, p, i);
  }

  /** Rewrite every character of a buffer. */
  method Rewrite(buffer: array<char>, f: char -> char)
    modifies buffer
    ensures forall i | 0 <= i < buffer.Length :: buffer[i] == f(old(buffer[i]))
  {
    for i := 0 to buffer.Length
      invariant forall k | 0 <= k < i :: buffer[k] == f(old(buffer[k]))
      invariant forall k | i <= k < buffer.Length :: buffer[k] == old(buffer[k])
    {
      buffer[i] := f(buffer[i]);
    }
  }

  method ToLower(s: string) returns (t: string)
    ensures t == LowerCase(s)
  {
    var buffer := new char[|s|](i requires 0 <= i < |s| => s[i]);
    Rewrite(buffer, Lower);
    t := buffer[..];
  }

  method ToUpper(s: string) returns (t: string)
    ensures t == UpperCase(s)
  {
    var buffer := new char[|s|](i requires 0 <= i < |s| => s[i]);
    Rewrite(buffer, Upper);
    t := buffer[..];
  }

  /** What a step of the parser yields, and where it leaves the view. */
  predicate Advances<T(==)>(expected: Result<Taken<T>>, r: Result<T>, rest: string) {
    match expected
    case Err => r == Err
    case Ok(t) => r == Ok(t.item) && rest == t.rest
  }

  class View {
    var rest: string

    constructor (s: string)
      ensures rest == s
    {
      rest := s;
    }

    /** `decode_pubkey`. */
    method TakePubkey(qr: bool) returns (r: Result<seq<byte>>)
      modifies this
      ensures Advances(DecodePubkey(old(rest), qr), r, rest)
    {
      if |rest| >= 64 && IsEncoded(Hex, rest[..64]) {
        r := Ok(Decode(Hex, rest[..64]));
        rest := rest[64..];
      } else if |rest| >= 52 && IsEncoded(Base32z, rest[..52]) {
        r := Ok(Decode(Base32z, rest[..52]));
        rest := rest[52..];
      } else if !qr && |rest| >= 43 && IsBase64(rest[..43]) {
        r := Ok(FromBase64(rest[..43]));
        rest := rest[43..];
        if rest != [] && rest[0] == '=' { rest := rest[1..]; }
      } else {
        r := Err;
      }
    }

    method TakeBracketed(qr: bool) returns (r: Result<string>)
      requires rest != [] && (rest[0] == '[' || (qr && rest[0] == '$'))
      requires qr ==> rest[0] == '$'
      modifies this
      ensures Advances(ParseHost(old(rest), qr), r, rest)
    {
      var i := FirstNot(rest[1..], InIPv6);
      i := i + 1;
      if i == |rest| || !(rest[i] == ']' || (qr && rest[i] == '$')) { return Err; }
      var host := rest[..i + 1];
      rest := rest[i + 1..];
      if qr {
        host := host[0 := '['];
        host := host[i := ']'];
        host := ToLower(host);
        assert host == "[" + LowerCase(old(rest)[1..i]) + "]";
      }
      return Ok(host);
    }

    /** The host part of `parse_tcp`. */
    method TakeHost(qr: bool) returns (r: Result<string>)
      requires rest != [] && (qr ==> rest[0] != '[')
      modifies this
      ensures Advances(ParseHost(old(rest), qr), r, rest)
    {
      if rest[0] == '[' || (qr && rest[0] == '$') {
        r := TakeBracketed(qr);
        return;
      }
      var i := FirstNot(rest, NotColon);
      if i == |rest| || i == 0 { return Err; }
      var host := rest[..i];
      rest := rest[i..];
      if qr { host := ToLower(host); }
      return Ok(host);
    }

    /** The port part of `parse_tcp`. */
    method TakePort() returns (r: Result<nat>)
      modifies this
      ensures Advances(ParsePort(old(rest)), r, rest)
    {
      if |rest| < 2 || rest[0] != ':' { return Err; }
      rest := rest[1..];
      var i := FirstNot(rest, IsDigit);
      if i == 0 { return Err; }
      var port := ReadNumber(rest[..i]);
      if port == 0 || port > 65535 { return Err; }
      rest := rest[i..];
      return Ok(port);
    }

    /** `parse_tcp`. */
    method TakeTcp(qr: bool, protocol: Proto) returns (r: Result<Address>)
      requires rest != [] && (qr ==> rest[0] != '[')
      modifies this
      ensures r == ParseTcp(old(rest), qr, protocol)
    {
      var host := TakeHost(qr);
      if host.Err? { return Err; }
      var port := TakePort();
      if port.Err? { return Err; }
      if !IsCurve(protocol) {
        return if rest == [] then Ok(Address(protocol, host.value, port.value, "", [])) else Err;
      }
      if |rest| < 1 + (if qr then 52 else 43) || rest[0] != '/' { return Err; }
      rest := rest[1..];
      var pubkey := TakePubkey(qr);
      if pubkey.Err? || rest != [] { return Err; }
      return Ok(Address(protocol, host.value, port.value, "", pubkey.value));
    }
  }

  method ReadNumber(s: string) returns (n: nat)
    requires forall i | 0 <= i < |s| :: IsDigit(s[i])
    ensures n == DecValue(s)
  {
    n := 0;
    var i := 0;
    while i < |s|
      invariant i <= |s| && n == DecValue(s[..i])
    {
      assert s[..i + 1][..i] == s[..i] && IsDigit(s[i]);
      n := 10 * n + (s[i] as int - '0' as int);
      i := i + 1;
    }
    assert s[..i] == s;
  }

  /** The loop behind `find("://")`. */
  method FindSchemeEnd(s: string) returns (i: nat)
    ensures i == FindScheme(s)
  {
    i := 0;
    while i < |s| && !SchemeEnds(s, i)
      invariant i <= |s| && forall k: nat | k < i :: !SchemeEnds(s, k)
    {
      i := i + 1;
    }
  }

  /** The constructor of `address`. */
  method ParseAddress(s: string) returns (r: Result<Address>)
    ensures r == Parse(s)
  {
    var i := FindSchemeEnd(s);
    if i == |s| || i == 0 { return Err; }
    var pro, text := s[..i], s[i + 3..];
    if text == [] { return Err; }
    var scheme := ParseScheme(pro);
    if scheme.Err? { return Err; }
    if scheme.value.qr {
      var bad := FirstNot(text, InQr);
      if bad < |text| { return Err; }
      QrText(text);
    }
    if !IsTcp(scheme.value.protocol) { return ParseUnix(text, scheme.value.protocol); }
    var view := new View(text);
    r := view.TakeTcp(scheme.value.qr, scheme.value.protocol);
  }

  /** `encode_pubkey`. */
  method EncodeKey(pubkey: seq<byte>, enc: Encoding) returns (s: string)
    ensures s == EncodePubkey(pubkey, enc)
  {
    match enc {
      case HEX => s := Encode(Hex, pubkey);
      case LOWER_BASE32Z => s := Encode(Base32z, pubkey);
      case UPPER_BASE32Z => s := ToUpper(Encode(Base32z, pubkey));
      case BASE64 =>
        s := ToBase64(pubkey);
        if |s| == 44 && s[|s| - 1] == '=' { s := s[..43]; }
    }
  }

  /** `qr_address`. */
  method WriteQr(a: Address) returns (r: Result<string>)
    ensures r == QrAddress(a)
  {
    if !IsTcp(a.protocol) || a.host == [] { return Err; }
    var host := ToUpper(a.host);
    if host[0] == '[' && host[|host| - 1] == ']' {
      host := host[0 := '$'];
      host := host[|host| - 1 := '$'];
    }
    var key := "";
    if IsCurve(a.protocol) {
      key := EncodeKey(a.pubkey, UPPER_BASE32Z);
      key := "/" + key;
    }
    return Ok((if IsCurve(a.protocol) then "CURVE" else "TCP") + "://" + (host + (":" + ToDec(a.port) + key)));
  }
}
