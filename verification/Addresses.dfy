/** Addresses of remotes: parsing, printing and comparing them. */
module Addresses {
  import opened Codec

  datatype Proto = Tcp | TcpCurve | Ipc | IpcCurve

  datatype Address = Address(protocol: Proto, host: string, port: nat, socket: string, pubkey: seq<byte>)

  datatype Encoding = HEX | LOWER_BASE32Z | BASE64 | UPPER_BASE32Z

  datatype Result<T> = Ok(value: T) | Err

  predicate IsTcp(p: Proto) { p == Tcp || p == TcpCurve }

  predicate IsCurve(p: Proto) { p == TcpCurve || p == IpcCurve }

  // ----- searching -----

  predicate SchemeEnds(s: string, i: nat) { i + 3 <= |s| && s[i] == ':' && s[i + 1] == '/' && s[i + 2] == '/' }

  /** Index of the first "://", or the length of the string. */
  function FindScheme(s: string): (i: nat)
    ensures i <= |s|
    ensures forall k: nat | k < i :: !SchemeEnds(s, k)
    ensures i < |s| ==> SchemeEnds(s, i)
  {
    if s == [] || SchemeEnds(s, 0) then 0
    else
      assert forall k: nat | k > 0 :: SchemeEnds(s, k) == SchemeEnds(s[1..], k - 1);
      1 + FindScheme(s[1..])
  }

  /** Index of the first character for which `p` fails, or the length of the string. */
  function Span(s: string, p: char -> bool): (i: nat)
    ensures i <= |s|
    ensures forall k | 0 <= k < i :: p(s[k])
    ensures i < |s| ==> !p(s[i])
  {
    if s == [] || !p(s[0]) then 0 else 1 + Span(s[1..], p)
  }

  predicate InIPv6(c: char) { c == ':' || c == '.' || '0' <= c <= '9' || 'a' <= c <= 'f' || 'A' <= c <= 'F' }

  predicate IsDigit(c: char) { '0' <= c <= '9' }

  predicate NotColon(c: char) { c != ':' }

  /** The characters of the QR-friendly forms. */
  predicate InQr(c: char) {
    'A' <= c <= 'Z' || '0' <= c <= '9' || c == '$' || c == ':' || c == '/' || c == '.' || c == '-'
  }

  // ----- numbers -----

  function DecValue(s: string): nat
    requires forall i | 0 <= i < |s| :: IsDigit(s[i])
  {
    if s == [] then 0 else assert IsDigit(s[|s| - 1]); 10 * DecValue(s[..|s| - 1]) + (s[|s| - 1] as int - '0' as int)
  }

  function DecDigit(n: nat): char
    requires n < 10
  {
    (n + '0' as int) as char
  }

  function ToDec(n: nat): (s: string)
    ensures s != [] && forall i | 0 <= i < |s| :: IsDigit(s[i])
  {
    if n < 10 then [DecDigit(n)] else ToDec(n / 10) + [DecDigit(n % 10)]
  }

  // ----- parsing -----

  datatype Taken<T> = Taken(item: T, rest: string)

  /** `decode_pubkey`: a key at the start of the string, in the first encoding that fits. */
  function DecodePubkey(s: string, qr: bool): Result<Taken<seq<byte>>> {
    if |s| >= 64 && IsEncoded(Hex, s[..64]) then Ok(Taken(Decode(Hex, s[..64]), s[64..]))
    else if |s| >= 52 && IsEncoded(Base32z, s[..52]) then Ok(Taken(Decode(Base32z, s[..52]), s[52..]))
    else if !qr && |s| >= 43 && IsBase64(s[..43]) then
      Ok(Taken(FromBase64(s[..43]), if |s| > 43 && s[43] == '=' then s[44..] else s[43..]))
    else Err
  }

  /** The host of a TCP address: in brackets (or, for QR, dollar signs), or up to the colon. */
  function ParseHost(s: string, qr: bool): Result<Taken<string>>
    requires s != []
  {
    if s[0] == '[' || (qr && s[0] == '$') then
      var i := 1 + Span(s[1..], InIPv6);
      if i == |s| || !(s[i] == ']' || (qr && s[i] == '$')) then Err
      else Ok(Taken(if qr then "[" + LowerCase(s[1..i]) + "]" else s[..i + 1], s[i + 1..]))
    else
      var i := Span(s, NotColon);
      if i == |s| || i == 0 then Err
      else Ok(Taken(if qr then LowerCase(s[..i]) else s[..i], s[i..]))
  }

  function ParsePort(s: string): Result<Taken<nat>> {
    if |s| < 2 || s[0] != ':' then Err
    else
      var i := Span(s[1..], IsDigit);
      if i == 0 then Err
      else
        var port := DecValue(s[1..][..i]);
        if port == 0 || port > 65535 then Err else Ok(Taken(port, s[1..][i..]))
  }

  /** The pubkey after the port of a curve address. */
  function ParseKey(s: string, qr: bool): Result<seq<byte>> {
    if |s| < 1 + (if qr then 52 else 43) || s[0] != '/' then Err
    else
      match DecodePubkey(s[1..], qr)
      case Err => Err
      case Ok(t) => if t.rest == [] then Ok(t.item) else Err
  }

  /** `parse_tcp`. */
  function ParseTcp(s: string, qr: bool, protocol: Proto): Result<Address>
    requires s != []
  {
    match ParseHost(s, qr)
    case Err => Err
    case Ok(host) =>
      match ParsePort(host.rest)
      case Err => Err
      case Ok(port) =>
        if IsCurve(protocol) then
          match ParseKey(port.rest, qr)
          case Err => Err
          case Ok(pubkey) => Ok(Address(protocol, host.item, port.item, "", pubkey))
        else if port.rest == [] then Ok(Address(protocol, host.item, port.item, "", []))
        else Err
  }

  /** Whether the last `n` characters follow a slash. */
  predicate AfterSlash(s: string, n: nat) { |s| > n && s[|s| - n - 1] == '/' }

  function Last(s: string, n: nat): string
    requires n <= |s|
  {
    s[|s| - n..]
  }

  /** `parse_unix`. */
  function ParseUnix(s: string, protocol: Proto): Result<Address> {
    if !IsCurve(protocol) then Ok(Address(protocol, "", 0, s, []))
    else
      var b64 := if |s| > 0 && s[|s| - 1] == '=' then 44 else 43;
      if AfterSlash(s, 64) && IsEncoded(Hex, Last(s, 64)) then
        Ok(Address(protocol, "", 0, s[..|s| - 65], Decode(Hex, Last(s, 64))))
      else if AfterSlash(s, 52) && IsEncoded(Base32z, Last(s, 52)) then
        Ok(Address(protocol, "", 0, s[..|s| - 53], Decode(Base32z, Last(s, 52))))
      else if AfterSlash(s, b64) && IsBase64(Last(s, b64)) then
        Ok(Address(protocol, "", 0, s[..|s| - b64 - 1], FromBase64(Last(s, b64))))
      else Err
  }

  datatype Scheme = Scheme(protocol: Proto, qr: bool)

  function ParseScheme(s: string): Result<Scheme> {
    if s == "tcp" then Ok(Scheme(Tcp, false))
    else if s == "tcp+curve" || s == "curve" then Ok(Scheme(TcpCurve, false))
    else if s == "ipc" then Ok(Scheme(Ipc, false))
    else if s == "ipc+curve" then Ok(Scheme(IpcCurve, false))
    else if s == "TCP" then Ok(Scheme(Tcp, true))
    else if s == "CURVE" then Ok(Scheme(TcpCurve, true))
    else Err
  }

  /** The constructor of `address`. */
  function Parse(s: string): Result<Address> {
    var i := FindScheme(s);
    if i == |s| || i == 0 || i + 3 == |s| then Err
    else
      match ParseScheme(s[..i])
      case Err => Err
      case Ok(scheme) => ParseRest(s[i + 3..], scheme)
  }

  function ParseRest(s: string, scheme: Scheme): Result<Address>
    requires s != []
  {
    if scheme.qr && Span(s, InQr) < |s| then Err
    else if IsTcp(scheme.protocol) then ParseTcp(s, scheme.qr, scheme.protocol)
    else ParseUnix(s, scheme.protocol)
  }

  // ----- printing -----

  function EncodePubkey(pubkey: seq<byte>, enc: Encoding): string {
    match enc
    case HEX => Encode(Hex, pubkey)
    case LOWER_BASE32Z => Encode(Base32z, pubkey)
    case UPPER_BASE32Z => UpperCase(Encode(Base32z, pubkey))
    case BASE64 =>
      var s := ToBase64(pubkey);
      if |s| == 44 && s[43] == '=' then s[..43] else s
  }

  function SchemeName(p: Proto): string {
    match p case Tcp => "tcp" case TcpCurve => "curve" case Ipc => "ipc" case IpcCurve => "ipc+curve"
  }

  function KeySuffix(a: Address, enc: Encoding): string {
    if IsCurve(a.protocol) then "/" + EncodePubkey(a.pubkey, enc) else ""
  }

  /** `full_address`. */
  function FullAddress(a: Address, enc: Encoding): string {
    SchemeName(a.protocol) + "://" + Body(a, enc)
  }

  function Body(a: Address, enc: Encoding): string {
    if IsTcp(a.protocol) then a.host + (":" + ToDec(a.port) + KeySuffix(a, enc)) else a.socket + KeySuffix(a, enc)
  }

  function QrHost(host: string): string
    requires host != []
  {
    var upper := UpperCase(host);
    if upper[0] == '[' && upper[|upper| - 1] == ']' then (upper[0 := '$'])[|upper| - 1 := '$'] else upper
  }

  function QrName(a: Address): string { if IsCurve(a.protocol) then "CURVE" else "TCP" }

  function QrTail(a: Address): string { ":" + ToDec(a.port) + KeySuffix(a, UPPER_BASE32Z) }

  /** `qr_address`. */
  function QrAddress(a: Address): Result<string> {
    if !IsTcp(a.protocol) || a.host == [] then Err else Ok(QrName(a) + "://" + (QrHost(a.host) + QrTail(a)))
  }

  /** `operator==`: fields that the protocol does not use are ignored. */
  predicate Same(a: Address, b: Address) {
    && a.protocol == b.protocol
    && (IsTcp(a.protocol) ==> a.host == b.host && a.port == b.port)
    && (!IsTcp(a.protocol) ==> a.socket == b.socket)
    && (IsCurve(a.protocol) ==> a.pubkey == b.pubkey)
  }

  // ----- well-formed addresses -----

  predicate IsBracketed(host: string) {
    |host| >= 2 && host[0] == '[' && host[|host| - 1] == ']' && forall i | 1 <= i < |host| - 1 :: InIPv6(host[i])
  }

  predicate IsPlain(host: string) {
    host != [] && host[0] != '[' && forall i | 0 <= i < |host| :: NotColon(host[i])
  }

  predicate WellFormed(a: Address) {
    && (IsTcp(a.protocol) ==> (IsBracketed(a.host) || IsPlain(a.host)) && 1 <= a.port <= 65535)
    && (a.protocol == Ipc ==> a.socket != [])
    && (IsCurve(a.protocol) ==> |a.pubkey| == 32)
  }

  /** The same address with unused fields at their defaults. */
  function Canonical(a: Address): Address {
    Address(a.protocol, if IsTcp(a.protocol) then a.host else "", if IsTcp(a.protocol) then a.port else 0,
            if IsTcp(a.protocol) then "" else a.socket, if IsCurve(a.protocol) then a.pubkey else [])
  }
}
