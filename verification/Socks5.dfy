/** SOCKS5 UDP datagrams (section 7 of RFC 1928), read and written as `src/socks5.rs` does. */
module Socks5 {
  import opened Wrappers
  import opened Text
  import opened Utf8

  const ATYP_IPV4: byte := 1
  const ATYP_DOMAIN: byte := 3
  const ATYP_IPV6: byte := 4
  const MAX_DOMAIN_BYTES: nat := 255

  /** IP addresses as text, by the standard library. */
  datatype IpText = IpText(
    print4: seq<byte> -> string,
    parse4: string -> Option<seq<byte>>,
    print6: seq<byte> -> string,
    parse6: string -> Option<seq<byte>>)

  /** The facts relied on: parsing gives octets, and those of a printed address; an IPv4 address is
      not written in brackets. */
  ghost predicate Faithful(ip: IpText) {
    && (forall s | ip.parse4(s).Some? :: |ip.parse4(s).value| == 4 && (s != "" ==> s[0] != '['))
    && (forall s | ip.parse6(s).Some? :: |ip.parse6(s).value| == 16)
    && (forall octets | |octets| == 4 :: ip.parse4(ip.print4(octets)) == Some(octets))
    && (forall octets | |octets| == 16 :: ip.parse6(ip.print6(octets)) == Some(octets))
  }

  datatype Datagram = Datagram(host: string, port: nat, payload: seq<byte>)

  // ---- The format ----

  /** The three forms of an address. */
  datatype Address = V4(octets: seq<byte>) | Name(bytes: seq<byte>) | V6(octets: seq<byte>)

  predicate AddressOk(address: Address) {
    match address
    case V4(octets) => |octets| == 4
    case Name(bytes) => |bytes| <= MAX_DOMAIN_BYTES
    case V6(octets) => |octets| == 16
  }

  /** ATYP and DST.ADDR. */
  function Wire(address: Address): seq<byte>
    requires AddressOk(address)
  {
    match address
    case V4(octets) => [ATYP_IPV4] + octets
    case Name(bytes) => [ATYP_DOMAIN, |bytes| as byte] + bytes
    case V6(octets) => [ATYP_IPV6] + octets
  }

  function HostOf(address: Address, ip: IpText): Option<string> {
    match address
    case V4(octets) => Some(ip.print4(octets))
    case Name(bytes) => Decode(bytes)
    case V6(octets) => Some(Bracketed(ip.print6(octets)))
  }

  function BigEndian(port: nat): seq<byte>
    requires port < 0x1_0000
  {
    [(port / 256) as byte, (port % 256) as byte]
  }

  function FromBigEndian(high: byte, low: byte): (port: nat)
    ensures port < 0x1_0000
  {
    high as nat * 256 + low as nat
  }

  lemma PortBytes(port: nat)
    requires port < 0x1_0000
    ensures FromBigEndian(BigEndian(port)[0], BigEndian(port)[1]) == port
  {
  }

  lemma PortBytesBack(high: byte, low: byte)
    ensures BigEndian(FromBigEndian(high, low)) == [high, low]
  {
  }

  /** RSV(2) FRAG(1) ATYP DST.ADDR DST.PORT DATA, with FRAG zero. */
  function Layout(reserved: seq<byte>, address: Address, port: nat, payload: seq<byte>): seq<byte>
    requires |reserved| == 2 && AddressOk(address) && port < 0x1_0000
  {
    (reserved + [0]) + Wire(address) + BigEndian(port) + payload
  }

  /** Byte by byte, as section 7 of RFC 1928 has it. */
  lemma LayoutByByte(reserved: seq<byte>, address: Address, port: nat, payload: seq<byte>)
    requires |reserved| == 2 && AddressOk(address) && port < 0x1_0000
    ensures var data := Layout(reserved, address, port, payload);
            && |data| >= 4 && data[0] == reserved[0] && data[1] == reserved[1] && data[2] == 0
            && var rest :=
                 match address {
                   case V4(_) => 4
                   case V6(_) => 4
                   case Name(_) => 5
                 };
               && data[3] == (if address.V4? then 1 else if address.Name? then 3 else 4)
               && |data| == rest + Length(address) + 2 + |payload|
               && (address.Name? ==> data[4] as int == |address.bytes|)
               && data[rest + Length(address)] as int * 256 + data[rest + Length(address) + 1] as int == port
  {
    PortBytes(port);
  }

  function Length(address: Address): nat {
    match address
    case V4(octets) => |octets|
    case Name(bytes) => |bytes|
    case V6(octets) => |octets|
  }

  // ---- Reading ----

  /** The address `data` holds from its fourth byte on. */
  function ReadAddress(data: seq<byte>): (address: Option<Address>)
    requires |data| >= 4
    ensures address.Some? ==>
              AddressOk(address.value) && 3 + |Wire(address.value)| <= |data|
              && data[3..3 + |Wire(address.value)|] == Wire(address.value)
  {
    if data[3] == ATYP_IPV4 then
      if |data| < 8 then None else Some(V4(data[4..8]))
    else if data[3] == ATYP_DOMAIN then
      if |data| < 5 || |data| < 5 + data[4] as nat then None else Some(Name(data[5..5 + data[4] as nat]))
    else if data[3] == ATYP_IPV6 then
      if |data| < 20 then None else Some(V6(data[4..20]))
    else
      None
  }

  function Parse(data: seq<byte>, ip: IpText): Result<Datagram> {
    if |data| < 4 || data[2] != 0 || ReadAddress(data).None? then
      Err
    else
      var address := ReadAddress(data).value;
      var end := 3 + |Wire(address)|;
      if HostOf(address, ip).None? || |data| < end + 2 then Err
      else Ok(Datagram(HostOf(address, ip).value, FromBigEndian(data[end], data[end + 1]), data[end + 2..]))
  }

  /** `parse_udp_datagram`. */
  method ParseUdpDatagram(data: seq<byte>, ip: IpText) returns (datagram: Result<Datagram>)
    ensures datagram == Parse(data, ip)
  {
    if |data| < 4 {
      return Err;
    }
    if data[2] != 0 {
      return Err;
    }
    var addressType := data[3];
    var offset := 4;
    var host: string;
    if addressType == ATYP_IPV4 {
      var end := offset + 4;
      if |data| < end {
        return Err;
      }
      host := ip.print4(data[offset..end]);
      offset := end;
    } else if addressType == ATYP_DOMAIN {
      if |data| <= offset {
        return Err;
      }
      var length := data[offset] as nat;
      offset := offset + 1;
      var end := offset + length;
      if |data| < end {
        return Err;
      }
      var text := Decode(data[offset..end]);
      offset := end;
      if text.None? {
        return Err;
      }
      host := text.value;
    } else if addressType == ATYP_IPV6 {
      var end := offset + 16;
      if |data| < end {
        return Err;
      }
      host := Bracketed(ip.print6(data[offset..end]));
      offset := end;
    } else {
      return Err;
    }
    if |data| < offset + 2 {
      return Err;
    }
    datagram := Ok(Datagram(host, FromBigEndian(data[offset], data[offset + 1]), data[offset + 2..]));
  }

  // ---- Writing ----

  /** How a host is written; `None` where the source asserts that it is short enough. */
  function AddressFor(host: string, ip: IpText): Option<Address> {
    if ip.parse4(host).Some? then Some(V4(ip.parse4(host).value))
    else if ip.parse6(Unbracketed(host)).Some? then Some(V6(ip.parse6(Unbracketed(host)).value))
    else if |Encode(host)| <= MAX_DOMAIN_BYTES then Some(Name(Encode(host)))
    else None
  }

  /** The part of `build_udp_datagram` that appends the address; `Err` is its assertion failing. */
  method AppendAddress(datagram: seq<byte>, host: string, ip: IpText) returns (longer: Result<seq<byte>>)
    requires Faithful(ip)
    ensures longer.Err? <==> AddressFor(host, ip).None?
    ensures longer.Ok? ==>
              AddressOk(AddressFor(host, ip).value) && longer.value == datagram + Wire(AddressFor(host, ip).value)
  {
    AddressForIsOk(host, ip);
    var v4, v6 := ip.parse4(host), ip.parse6(Unbracketed(host));
    var bytes := datagram;
    if v4.Some? {
      bytes := bytes + [ATYP_IPV4];
      bytes := bytes + v4.value;
      WireGrows(datagram, V4(v4.value));
    } else if v6.Some? {
      bytes := bytes + [ATYP_IPV6];
      bytes := bytes + v6.value;
      WireGrows(datagram, V6(v6.value));
    } else {
      var text := Encode(host);
      if |text| > MAX_DOMAIN_BYTES {
        return Err;
      }
      bytes := bytes + [ATYP_DOMAIN];
      bytes := bytes + [|text| as byte];
      bytes := bytes + text;
      WireGrows(datagram, Name(text));
    }
    longer := Ok(bytes);
  }

  lemma WireGrows(datagram: seq<byte>, address: Address)
    requires AddressOk(address)
    ensures match address
            case V4(octets) => datagram + [ATYP_IPV4] + octets == datagram + Wire(address)
            case V6(octets) => datagram + [ATYP_IPV6] + octets == datagram + Wire(address)
            case Name(bytes) => datagram + [ATYP_DOMAIN] + [|bytes| as byte] + bytes == datagram + Wire(address)
  {
  }

  lemma AddressForIsOk(host: string, ip: IpText)
    requires Faithful(ip)
    ensures AddressFor(host, ip).Some? ==> AddressOk(AddressFor(host, ip).value)
  {
  }

  /** `build_udp_datagram`. */
  method BuildUdpDatagram(host: string, port: nat, payload: seq<byte>, ip: IpText) returns (datagram: Result<seq<byte>>)
    requires Faithful(ip) && port < 0x1_0000
    ensures datagram.Err? <==> AddressFor(host, ip).None?
    ensures datagram.Ok? ==>
              AddressOk(AddressFor(host, ip).value)
              && datagram.value == Layout([0, 0], AddressFor(host, ip).value, port, payload)
  {
    datagram := AppendAddress([0, 0, 0], host, ip);
    if datagram.Err? {
      return;
    }
    LayoutGrows(datagram.value, AddressFor(host, ip).value, port, payload);
    var bytes := datagram.value + BigEndian(port);
    bytes := bytes + payload;
    datagram := Ok(bytes);
  }

  lemma LayoutGrows(bytes: seq<byte>, address: Address, port: nat, payload: seq<byte>)
    requires AddressOk(address) && port < 0x1_0000 && bytes == [0, 0, 0] + Wire(address)
    ensures bytes + BigEndian(port) + payload == Layout([0, 0], address, port, payload)
  {
    assert [0, 0] + [0] == [0 as byte, 0, 0];
  }

  // ---- Round trips ----

  lemma WireIsRead(data: seq<byte>, address: Address)
    requires AddressOk(address) && |data| >= 3 + |Wire(address)| && data[3..3 + |Wire(address)|] == Wire(address)
    ensures ReadAddress(data) == Some(address)
  {
    assert data[3] == Wire(address)[0];
    if address.Name? {
      assert data[4] == Wire(address)[1];
      assert data[5..5 + |address.bytes|] == Wire(address)[2..];
    } else {
      assert data[4..4 + |address.octets|] == Wire(address)[1..];
    }
  }

  /** Parsing is total and exact: it succeeds on the layouts of the format whose name is well-formed
      text, and on nothing else, and the payload is what follows the header. */
  lemma ParseOfLayout(reserved: seq<byte>, address: Address, port: nat, payload: seq<byte>, ip: IpText)
    requires |reserved| == 2 && AddressOk(address) && port < 0x1_0000
    ensures Parse(Layout(reserved, address, port, payload), ip)
         == match HostOf(address, ip) case Some(host) => Ok(Datagram(host, port, payload)) case None => Err
  {
    var data := Layout(reserved, address, port, payload);
    var end := 3 + |Wire(address)|;
    assert data[3..end] == Wire(address);
    WireIsRead(data, address);
    PortBytes(port);
    assert data[end..end + 2] == BigEndian(port);
    assert data[end + 2..] == payload;
  }

  lemma LayoutOfParsed(data: seq<byte>, ip: IpText)
    requires Parse(data, ip).Ok?
    ensures var datagram := Parse(data, ip).value;
            var address := ReadAddress(data).value;
            && data == Layout(data[..2], address, datagram.port, datagram.payload)
            && HostOf(address, ip) == Some(datagram.host)
  {
    var address := ReadAddress(data).value;
    var end := 3 + |Wire(address)|;
    PortBytesBack(data[end], data[end + 1]);
    InParts(data, end);
  }

  lemma InParts(data: seq<byte>, end: nat)
    requires 3 <= end && end + 2 <= |data| && data[2] == 0
    ensures data == data[..2] + [0] + data[3..end] + [data[end], data[end + 1]] + data[end + 2..]
  {
  }

  /** A host that is printed as it is written here: the standard form of an IP address, IPv6 in
      brackets, or a name of at most 255 bytes that is not an IP address. */
  predicate Canonical(host: string, ip: IpText) {
    if ip.parse4(host).Some? then host == ip.print4(ip.parse4(host).value)
    else if ip.parse6(Unbracketed(host)).Some? then host == Bracketed(ip.print6(ip.parse6(Unbracketed(host)).value))
    else |Encode(host)| <= MAX_DOMAIN_BYTES
  }

  lemma HostBack(host: string, ip: IpText)
    ensures Canonical(host, ip) <==> AddressFor(host, ip).Some? && HostOf(AddressFor(host, ip).value, ip) == Some(host)
  {
    NameHost(Encode(host), host, ip);
  }

  lemma NameHost(bytes: seq<byte>, host: string, ip: IpText)
    requires bytes == Encode(host)
    ensures HostOf(Name(bytes), ip) == Some(host)
  {
    DecodeOfEncoded(host);
  }

  /** What is built parses to the same host, port and payload exactly for those hosts. */
  lemma RoundTrip(host: string, port: nat, payload: seq<byte>, ip: IpText)
    requires Faithful(ip) && port < 0x1_0000
    ensures Canonical(host, ip) <==>
              && AddressFor(host, ip).Some? && AddressOk(AddressFor(host, ip).value)
              && Parse(Layout([0, 0], AddressFor(host, ip).value, port, payload), ip)
                == Ok(Datagram(host, port, payload))
  {
    HostBack(host, ip);
    AddressForIsOk(host, ip);
    if AddressFor(host, ip).Some? {
      ParseOfLayout([0, 0], AddressFor(host, ip).value, port, payload, ip);
    }
  }

  /** The assertion holds of every host that parsing yields; what is built for it is the datagram
      that was parsed, but for its reserved bytes, exactly when the address was not an IP literal sent
      as a name. */
  lemma ParsedHostsAreBuilt(data: seq<byte>, ip: IpText)
    requires Faithful(ip) && Parse(data, ip).Ok?
    ensures var datagram := Parse(data, ip).value;
            var built := AddressFor(datagram.host, ip);
            && built.Some? && AddressOk(built.value)
            && (Layout(data[..2], built.value, datagram.port, datagram.payload) == data <==>
                  !(ReadAddress(data).value.Name? && !built.value.Name?))
  {
    var datagram := Parse(data, ip).value;
    var address := ReadAddress(data).value;
    LayoutOfParsed(data, ip);
    AddressBack(address, datagram.host, ip);
    var built := AddressFor(datagram.host, ip).value;
    if Layout(data[..2], built, datagram.port, datagram.payload) == data {
      assert data[3] == Wire(built)[0] == Wire(address)[0];
    }
  }

  /** It happens: an IPv6 address sent as a name comes back as an address, written in brackets. */
  lemma LiteralSentAsName(ip: IpText, port: nat, payload: seq<byte>)
    requires Faithful(ip) && port < 0x1_0000 && ip.parse4("::1").None? && ip.parse6("::1").Some?
    ensures var data := Layout([0, 0], Name(Encode("::1")), port, payload);
            var address := V6(ip.parse6("::1").value);
            && Parse(data, ip) == Ok(Datagram("::1", port, payload))
            && AddressFor("::1", ip) == Some(address)
            && Layout([0, 0], address, port, payload) != data
            && Parse(Layout([0, 0], address, port, payload), ip) != Ok(Datagram("::1", port, payload))
  {
    NameOnTheWire("::1", port, payload, ip);
  }

  lemma NameOnTheWire(host: string, port: nat, payload: seq<byte>, ip: IpText)
    requires Faithful(ip) && port < 0x1_0000 && host != "" && host[0] != '[' && |Encode(host)| <= MAX_DOMAIN_BYTES
    requires ip.parse4(host).None? && ip.parse6(Unbracketed(host)).Some?
    ensures var data := Layout([0, 0], Name(Encode(host)), port, payload);
            var address := V6(ip.parse6(Unbracketed(host)).value);
            && Parse(data, ip) == Ok(Datagram(host, port, payload))
            && AddressFor(host, ip) == Some(address)
            && Layout([0, 0], address, port, payload) != data
            && Parse(Layout([0, 0], address, port, payload), ip) != Ok(Datagram(host, port, payload))
  {
    var name, address := Name(Encode(host)), V6(ip.parse6(Unbracketed(host)).value);
    DecodeOfEncoded(host);
    ParseOfLayout([0, 0], name, port, payload, ip);
    ParseOfLayout([0, 0], address, port, payload, ip);
    assert Layout([0, 0], address, port, payload)[3] == Wire(address)[0];
    assert Layout([0, 0], name, port, payload)[3] == Wire(name)[0];
    assert Bracketed(ip.print6(address.octets))[0] == '[';
  }

  lemma OctetsBack(octets: seq<byte>, ip: IpText)
    requires Faithful(ip)
    ensures |octets| == 4 ==> AddressFor(ip.print4(octets), ip) == Some(V4(octets))
    ensures |octets| == 16 ==> AddressFor(Bracketed(ip.print6(octets)), ip) == Some(V6(octets))
  {
    UnbracketedOfBracketed(ip.print6(octets));
    assert Bracketed(ip.print6(octets))[0] == '[';
  }

  lemma NameBack(bytes: seq<byte>, host: string, ip: IpText)
    requires Encode(host) == bytes && |bytes| <= MAX_DOMAIN_BYTES
    ensures AddressFor(host, ip).Some?
    ensures AddressFor(host, ip).value == Name(bytes) || !AddressFor(host, ip).value.Name?
  {
  }

  lemma AddressBack(address: Address, host: string, ip: IpText)
    requires Faithful(ip) && AddressOk(address) && HostOf(address, ip) == Some(host)
    ensures AddressFor(host, ip).Some? && AddressOk(AddressFor(host, ip).value)
    ensures AddressFor(host, ip).value == address || (address.Name? && !AddressFor(host, ip).value.Name?)
  {
    AddressForIsOk(host, ip);
    match address
    case V4(octets) => OctetsBack(octets, ip);
    case V6(octets) => OctetsBack(octets, ip);
    case Name(bytes) => NameBack(bytes, host, ip);
  }
}
