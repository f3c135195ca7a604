/** The PROXY protocol header written as the first bytes of a backend connection, and a
    reference decoder following sections 2.1 and 2.2 of the PROXY protocol specification. */
module ProxyHeader {
  import opened Common
  import opened Text

  // ----- addresses

  /** A net.Addr: a *net.TCPAddr, or anything else through its string form. */
  datatype Addr = TCPAddr(ip: Bytes, port: int) | OtherAddr(text: string)

  /** The library functions the encoder relies on: net.SplitHostPort, net.ParseIP,
      fmt.Sscanf with %d, and net.IP.String for addresses that are not IPv4. */
  datatype Library = Library(
    splitHostPort: string -> Option<(string, string)>,
    parseIP: string -> Option<Bytes>,
    scanPort: string -> Option<int>,
    printIP: Bytes -> Bytes)

  datatype Endpoint = Endpoint(ip: Bytes, port: int)

  /** The IP and port of a TCP-like address. */
  function TcpAddr(lib: Library, a: Addr): Option<Endpoint> {
    match a
    case TCPAddr(ip, port) => Some(Endpoint(ip, port))
    case OtherAddr(text) =>
      match lib.splitHostPort(text)
      case None => None
      case Some(pair) =>
        match lib.parseIP(pair.0)
        case None => None
        case Some(ip) =>
          match lib.scanPort(pair.1)
          case None => None
          case Some(port) => Some(Endpoint(ip, port))
  }

  const MAPPED_PREFIX: Bytes := [0, 0, 0, 0, 0, 0, 0, 0, 0, 0, 0xff, 0xff]

  /** net.IP.To4: a 4-byte address, or the end of a v4-mapped 16-byte one. */
  function To4(ip: Bytes): (r: Option<Bytes>)
    ensures r.Some? ==> |r.value| == 4
  {
    if |ip| == 4 then Some(ip)
    else if |ip| == 16 && ip[..12] == MAPPED_PREFIX then Some(ip[12..])
    else None
  }

  /** net.IP.To16, with nil as the empty sequence. */
  function To16(ip: Bytes): (r: Bytes)
    ensures |r| == 16 || r == []
  {
    if |ip| == 4 then MAPPED_PREFIX + ip else if |ip| == 16 then ip else []
  }

  // ----- what a header says

  datatype Decoded =
    | Unspecified
    | Inet(src: Bytes, dst: Bytes, srcPort: int, dstPort: int)
    | Inet6(src: Bytes, dst: Bytes, srcPort: int, dstPort: int)

  /** What a header for this pair of addresses is meant to say: v4-mapped addresses
      collapse to IPv4; unparsed addresses and mixed families cannot be represented. */
  function Canonical(lib: Library, src: Addr, dst: Addr): Decoded {
    match (TcpAddr(lib, src), TcpAddr(lib, dst))
    case (Some(s), Some(d)) =>
      (match (To4(s.ip), To4(d.ip))
       case (Some(s4), Some(d4)) => Inet(s4, d4, s.port, d.port)
       case (None, None) => Inet6(s.ip, d.ip, s.port, d.port)
       case _ => Unspecified)
    case _ => Unspecified
  }

  // ----- version 1, encoded

  function DottedQuad(ip: Bytes): Bytes
    requires |ip| == 4
  {
    Join([Decimal(ip[0]), Decimal(ip[1]), Decimal(ip[2]), Decimal(ip[3])], DOT)
  }

  function LineV1(family: string, src: Bytes, dst: Bytes, srcPort: int, dstPort: int): Bytes {
    Join([Ascii("PROXY"), Ascii(family), src, dst, PrintInt(srcPort), PrintInt(dstPort)], SPACE)
  }

  const UNKNOWN_LINE: Bytes := Join([Ascii("PROXY"), Ascii("UNKNOWN")], SPACE)

  function HeaderV1(lib: Library, src: Addr, dst: Addr): Bytes {
    var line :=
      match (TcpAddr(lib, src), TcpAddr(lib, dst))
      case (Some(s), Some(d)) =>
        (match (To4(s.ip), To4(d.ip))
         case (Some(s4), Some(d4)) => LineV1("TCP4", DottedQuad(s4), DottedQuad(d4), s.port, d.port)
         case (None, None) => LineV1("TCP6", lib.printIP(s.ip), lib.printIP(d.ip), s.port, d.port)
         case _ => UNKNOWN_LINE)
      case _ => UNKNOWN_LINE;
    line + [CR, LF]
  }

  // ----- version 2, encoded

  const SIGNATURE: Bytes := [0x0D, 0x0A, 0x0D, 0x0A, 0x00, 0x0D, 0x0A, 0x51, 0x55, 0x49, 0x54, 0x0A]

  /** binary.BigEndian.AppendUint16 of uint16(port): the port modulo 2^16. */
  function BigEndian16(port: int): (r: Bytes)
    ensures |r| == 2
  {
    var p := port % 0x10000;
    [p / 256, p % 256]
  }

  /** Signature, version and command, family and length, addresses, ports. */
  function FullV2(family: byte, length: byte, src: Bytes, dst: Bytes, srcPort: int, dstPort: int): Bytes {
    SIGNATURE + [0x21] + [family] + [0x00, length] + src + dst + BigEndian16(srcPort) + BigEndian16(dstPort)
  }

  const UNSPEC_V2: Bytes := SIGNATURE + [0x21] + [0x00] + [0x00, 0x00]

  function HeaderV2(lib: Library, src: Addr, dst: Addr): Bytes {
    match (TcpAddr(lib, src), TcpAddr(lib, dst))
    case (Some(s), Some(d)) =>
      (match (To4(s.ip), To4(d.ip))
       case (Some(s4), Some(d4)) => FullV2(0x11, 0x0C, s4, d4, s.port, d.port)
       case (None, None) => FullV2(0x21, 0x24, To16(s.ip), To16(d.ip), s.port, d.port)
       case _ => UNSPEC_V2)
    case _ => UNSPEC_V2
  }

  /** proxyHeaderV2: the header grown by successive appends. */
  method BuildHeaderV2(lib: Library, src: Addr, dst: Addr) returns (hdr: Bytes)
    ensures hdr == HeaderV2(lib, src, dst)
  {
    var s, d := TcpAddr(lib, src), TcpAddr(lib, dst);
    hdr := SIGNATURE + [0x21];
    if s == None || d == None {
      hdr := hdr + [0x00];
      hdr := hdr + [0x00, 0x00];
      return;
    }
    var s4, d4 := To4(s.value.ip), To4(d.value.ip);
    if s4 != None && d4 != None {
      hdr := hdr + [0x11];
      hdr := hdr + [0x00, 0x0C];
      hdr := hdr + s4.value;
      hdr := hdr + d4.value;
      hdr := hdr + BigEndian16(s.value.port);
      hdr := hdr + BigEndian16(d.value.port);
      return;
    }
    if s4 == None && d4 == None {
      hdr := hdr + [0x21];
      hdr := hdr + [0x00, 0x24];
      hdr := hdr + To16(s.value.ip);
      hdr := hdr + To16(d.value.ip);
      hdr := hdr + BigEndian16(s.value.port);
      hdr := hdr + BigEndian16(d.value.port);
      return;
    }
    hdr := hdr + [0x00];
    hdr := hdr + [0x00, 0x00];
  }

  // ----- ProxyHeader

  datatype Result = Built(header: Bytes) | Disabled | UnknownVersion

  function Encode(version: string, lib: Library, src: Addr, dst: Addr): Result {
    if version == "v1" then Built(HeaderV1(lib, src, dst))
    else if version == "v2" then Built(HeaderV2(lib, src, dst))
    else if version == "" then Disabled
    else UnknownVersion
  }

  // ----- the reference decoder

  /** A decoded header and the bytes that follow it. */
  datatype Parse = Parse(what: Decoded, rest: Bytes)

  function ParseQuad(s: Bytes): Option<Bytes> {
    var f := Split(s, DOT);
    if |f| != 4 then None
    else match (ParseDecimal(f[0], 255), ParseDecimal(f[1], 255), ParseDecimal(f[2], 255), ParseDecimal(f[3], 255))
         case (Some(a), Some(b), Some(c), Some(d)) => Some([a, b, c, d])
         case _ => None
  }

  /** The address that a printer of IPv6 addresses prints as `s`, if there is one. */
  ghost function Unprint(printIP: Bytes -> Bytes, s: Bytes): Option<Bytes> {
    if exists ip :: Native6(ip) && printIP(ip) == s
    then (var ip :| Native6(ip) && printIP(ip) == s; Some(ip))
    else None
  }

  /** A 16-byte address that is not v4-mapped. */
  predicate Native6(ip: Bytes) {
    |ip| == 16 && To4(ip) == None
  }

  ghost function ParseFields(printIP: Bytes -> Bytes, f: seq<Bytes>): Option<Decoded> {
    if |f| >= 2 && f[0] == Ascii("PROXY") && f[1] == Ascii("UNKNOWN") then Some(Unspecified)
    else if |f| == 6 && f[0] == Ascii("PROXY") then
      match (ParseDecimal(f[4], 65535), ParseDecimal(f[5], 65535))
      case (Some(sp), Some(dp)) =>
        if f[1] == Ascii("TCP4") then
          (match (ParseQuad(f[2]), ParseQuad(f[3]))
           case (Some(s), Some(d)) => Some(Inet(s, d, sp, dp))
           case _ => None)
        else if f[1] == Ascii("TCP6") then
          (match (Unprint(printIP, f[2]), Unprint(printIP, f[3]))
           case (Some(s), Some(d)) => Some(Inet6(s, d, sp, dp))
           case _ => None)
        else None
      case _ => None
    else None
  }

  /** Section 2.1: one CR LF terminated line of at most 107 bytes. */
  ghost function DecodeV1(printIP: Bytes -> Bytes, stream: Bytes): Option<Parse> {
    match FindLine(stream)
    case None => None
    case Some(k) =>
      if k + 2 > 107 || k + 2 > |stream| then None
      else match ParseFields(printIP, Split(stream[..k], SPACE))
           case Some(d) => Some(Parse(d, stream[k + 2..]))
           case None => None
  }

  function Word16(s: Bytes): nat
    requires |s| == 2
  {
    256 * (s[0] as int) + (s[1] as int)
  }

  function ParseBlock(family: byte, block: Bytes): Option<Decoded> {
    if family == 0x00 then Some(Unspecified)
    else if family == 0x11 && |block| >= 12 then
      Some(Inet(block[..4], block[4..8], Word16(block[8..10]), Word16(block[10..12])))
    else if family == 0x21 && |block| >= 36 then
      Some(Inet6(block[..16], block[16..32], Word16(block[32..34]), Word16(block[34..36])))
    else None
  }

  /** Section 2.2: signature, version and command, family, big-endian length, address block. */
  function DecodeV2(stream: Bytes): Option<Parse> {
    if |stream| < 16 || stream[..12] != SIGNATURE || stream[12] != 0x21 then None
    else
      var length := Word16(stream[14..16]);
      if |stream| < 16 + length then None
      else match ParseBlock(stream[13], stream[16..16 + length])
           case Some(d) => Some(Parse(d, stream[16 + length..]))
           case None => None
  }

  /** A receiver that accepts both versions. */
  ghost function Decode(printIP: Bytes -> Bytes, stream: Bytes): Option<Parse> {
    if |stream| >= 12 && stream[..12] == SIGNATURE then DecodeV2(stream) else DecodeV1(printIP, stream)
  }
}
