/** The reference decoder recovers what the encoder was given, for both versions, and the
    conditions under which it does are exact. */
module ProxyRoundTrip {
  import opened Common
  import opened Text
  import opened ProxyHeader

  /** The address parses to an IP that Go considers valid (4 or 16 bytes), or not at all. */
  predicate Sized(lib: Library, a: Addr) {
    match TcpAddr(lib, a)
    case None => true
    case Some(e) => |e.ip| == 4 || |e.ip| == 16
  }

  predicate PortInRange(lib: Library, a: Addr) {
    match TcpAddr(lib, a)
    case None => true
    case Some(e) => 0 <= e.port < 0x10000
  }

  /** The header names no ports, or ports that fit 16 bits. */
  predicate PortsCarried(lib: Library, src: Addr, dst: Addr) {
    Canonical(lib, src, dst).Unspecified? || (PortInRange(lib, src) && PortInRange(lib, dst))
  }

  /** What is assumed of net.IP.String on addresses that are not IPv4: at most 39
      characters, none of them a space or CR, and no two addresses printed alike. */
  ghost predicate GoodPrinter(printIP: Bytes -> Bytes) {
    && (forall ip :: Native6(ip) ==> |printIP(ip)| <= 39 && SPACE !in printIP(ip) && CR !in printIP(ip))
    && (forall a, b :: Native6(a) && Native6(b) && printIP(a) == printIP(b) ==> a == b)
  }

  /** The ports as a 16-bit field carries them. */
  function WrapPorts(d: Decoded): Decoded {
    match d
    case Unspecified => d
    case Inet(s, t, sp, dp) => Inet(s, t, sp % 0x10000, dp % 0x10000)
    case Inet6(s, t, sp, dp) => Inet6(s, t, sp % 0x10000, dp % 0x10000)
  }

  // ----- version 2

  lemma PortField(port: int)
    ensures Word16(BigEndian16(port)) == port % 0x10000
  {
  }

  /** The parts of a version 2 header, where the decoder looks for them. */
  lemma FullV2Layout(family: byte, length: byte, src: Bytes, dst: Bytes, sp: int, dp: int, payload: Bytes)
    requires |src| == |dst| && 2 * |src| + 4 == length as int
    ensures var stream := FullV2(family, length, src, dst, sp, dp) + payload;
            var n := |src|;
            && |stream| == 20 + 2 * n + |payload|
            && stream[..12] == SIGNATURE && stream[12] == 0x21 && stream[13] == family
            && stream[14..16] == [0x00, length]
            && stream[16..16 + length] == src + dst + BigEndian16(sp) + BigEndian16(dp)
            && stream[16 + length..] == payload
  {
  }

  lemma BlockParts(src: Bytes, dst: Bytes, sp: Bytes, dp: Bytes)
    requires |src| == |dst| && |sp| == |dp| == 2
    ensures var b := src + dst + sp + dp; var n := |src|;
            b[..n] == src && b[n..2 * n] == dst && b[2 * n..2 * n + 2] == sp && b[2 * n + 2..2 * n + 4] == dp
  {
  }

  lemma FullV2Decodes(family: byte, src: Bytes, dst: Bytes, sp: int, dp: int, payload: Bytes)
    requires (family == 0x11 && |src| == |dst| == 4) || (family == 0x21 && |src| == |dst| == 16)
    ensures var length: byte := if family == 0x11 then 0x0C else 0x24;
            var said := if family == 0x11 then Inet(src, dst, sp, dp) else Inet6(src, dst, sp, dp);
            DecodeV2(FullV2(family, length, src, dst, sp, dp) + payload) == Some(Parse(WrapPorts(said), payload))
  {
    var length: byte := if family == 0x11 then 0x0C else 0x24;
    FullV2Layout(family, length, src, dst, sp, dp, payload);
    BlockParts(src, dst, BigEndian16(sp), BigEndian16(dp));
    PortField(sp);
    PortField(dp);
  }

  lemma UnspecV2Decodes(payload: Bytes)
    ensures DecodeV2(UNSPEC_V2 + payload) == Some(Parse(Unspecified, payload))
  {
    var stream := UNSPEC_V2 + payload;
    assert stream[..12] == SIGNATURE;
    assert stream[14..16] == [0x00, 0x00];
    assert stream[16..] == payload;
  }

  /** Version 2 round trip: for all 4- and 16-byte addresses, all ports and any payload,
      decoding header and payload gives back the canonical addresses (ports modulo 2^16)
      and exactly the payload. */
  lemma V2RoundTrip(lib: Library, src: Addr, dst: Addr, payload: Bytes)
    requires Sized(lib, src) && Sized(lib, dst)
    ensures DecodeV2(HeaderV2(lib, src, dst) + payload) == Some(Parse(WrapPorts(Canonical(lib, src, dst)), payload))
  {
    match (TcpAddr(lib, src), TcpAddr(lib, dst))
    case (Some(s), Some(d)) =>
      match (To4(s.ip), To4(d.ip)) {
        case (Some(s4), Some(d4)) => FullV2Decodes(0x11, s4, d4, s.port, d.port, payload);
        case (None, None) => FullV2Decodes(0x21, s.ip, d.ip, s.port, d.port, payload);
        case _ => UnspecV2Decodes(payload);
      }
    case _ => UnspecV2Decodes(payload);
  }

  lemma PortsFit(lib: Library, src: Addr, dst: Addr)
    ensures PortsCarried(lib, src, dst) <==> WrapPorts(Canonical(lib, src, dst)) == Canonical(lib, src, dst)
  {
  }

  /** The addresses survive exactly when every port in the header fits 16 bits. */
  lemma V2ExactIff(lib: Library, src: Addr, dst: Addr, payload: Bytes)
    requires Sized(lib, src) && Sized(lib, dst)
    ensures DecodeV2(HeaderV2(lib, src, dst) + payload) == Some(Parse(Canonical(lib, src, dst), payload))
       <==> PortsCarried(lib, src, dst)
  {
    V2RoundTrip(lib, src, dst, payload);
    PortsFit(lib, src, dst);
  }

  /** The length field of a version 2 header. */
  function LengthField(header: Bytes): nat
    requires |header| >= 16
  {
    Word16(header[14..16])
  }

  lemma FullV2Length(family: byte, length: byte, src: Bytes, dst: Bytes, sp: int, dp: int)
    ensures var h := FullV2(family, length, src, dst, sp, dp);
            |h| == 20 + |src| + |dst| && LengthField(h) == length as int
  {
    var h := FullV2(family, length, src, dst, sp, dp);
    assert h[14] == 0x00 && h[15] == length;
  }

  /** The length field equals the address bytes emitted unless the header claims TCP over
      IPv6 for an address that is neither 4 nor 16 bytes long. */
  lemma V2LengthIff(lib: Library, src: Addr, dst: Addr)
    ensures var h := HeaderV2(lib, src, dst);
            |h| >= 16 && (LengthField(h) == |h| - 16 <==>
              !Canonical(lib, src, dst).Inet6? || (Sized(lib, src) && Sized(lib, dst)))
  {
    match (TcpAddr(lib, src), TcpAddr(lib, dst))
    case (Some(s), Some(d)) =>
      match (To4(s.ip), To4(d.ip)) {
        case (Some(s4), Some(d4)) => FullV2Length(0x11, 0x0C, s4, d4, s.port, d.port);
        case (None, None) =>
          FullV2Length(0x21, 0x24, To16(s.ip), To16(d.ip), s.port, d.port);
          assert |To16(s.ip)| == (if Sized(lib, src) then 16 else 0);
          assert |To16(d.ip)| == (if Sized(lib, dst) then 16 else 0);
        case _ => UnspecV2Length();
      }
    case _ => UnspecV2Length();
  }

  lemma UnspecV2Length()
    ensures |UNSPEC_V2| == 16 && LengthField(UNSPEC_V2) == 0
  {
    assert UNSPEC_V2[14..16] == [0x00, 0x00];
  }

  /** The witness: two 3-byte addresses give a header that announces 36 bytes and has 4. */
  lemma OddAddressLength(lib: Library)
    ensures var h := HeaderV2(lib, TCPAddr([1, 2, 3], 80), TCPAddr([1, 2, 4], 81));
            |h| == 20 && LengthField(h) == 36
  {
    FullV2Length(0x21, 0x24, [], [], 80, 81);
  }

  // ----- version 1

  lemma QuadParses(ip: Bytes)
    requires |ip| == 4
    ensures ParseQuad(DottedQuad(ip)) == Some(ip)
  {
    var f: seq<Bytes> := [Decimal(ip[0]), Decimal(ip[1]), Decimal(ip[2]), Decimal(ip[3])];
    SplitJoin(f, DOT);
    PrintedIntParses(ip[0], 255);
    PrintedIntParses(ip[1], 255);
    PrintedIntParses(ip[2], 255);
    PrintedIntParses(ip[3], 255);
    assert ip == [ip[0], ip[1], ip[2], ip[3]];
  }

  lemma QuadText(ip: Bytes)
    requires |ip| == 4
    ensures |DottedQuad(ip)| <= 15 && SPACE !in DottedQuad(ip) && CR !in DottedQuad(ip)
  {
    var f: seq<Bytes> := [Decimal(ip[0]), Decimal(ip[1]), Decimal(ip[2]), Decimal(ip[3])];
    JoinBytes(f, DOT, SPACE);
    JoinBytes(f, DOT, CR);
    JoinLength(f, DOT);
    assert f[1..][1..] == f[2..] && f[2..][1..] == f[3..] && f[3..][1..] == [];
    assert TotalLength(f) == |f[0]| + |f[1]| + TotalLength(f[2..]);
    assert TotalLength(f[2..]) == |f[2]| + TotalLength(f[3..]) && TotalLength(f[3..]) == |f[3]| + 0;
    ByteLength(ip[0]);
    ByteLength(ip[1]);
    ByteLength(ip[2]);
    ByteLength(ip[3]);
  }

  lemma PortText(port: int)
    ensures SPACE !in PrintInt(port) && CR !in PrintInt(port)
    ensures 0 <= port < 0x10000 ==> |PrintInt(port)| <= 5
  {
    if 0 <= port < 0x10000 { PortLength(port); }
  }

  lemma Keywords()
    ensures |Ascii("PROXY")| == 5 && |Ascii("TCP4")| == 4 && |Ascii("TCP6")| == 4 && |Ascii("UNKNOWN")| == 7
    ensures SPACE !in Ascii("PROXY") && SPACE !in Ascii("TCP4") && SPACE !in Ascii("TCP6") && SPACE !in Ascii("UNKNOWN")
    ensures CR !in Ascii("PROXY") && CR !in Ascii("TCP4") && CR !in Ascii("TCP6") && CR !in Ascii("UNKNOWN")
    ensures Ascii("TCP4") != Ascii("TCP6")
    ensures Ascii("PROXY")[0] == 80
  {
    assert Ascii("PROXY") == [80, 82, 79, 88, 89];
    assert Ascii("TCP4") == [84, 67, 80, 52];
    assert Ascii("TCP6") == [84, 67, 80, 54];
    assert Ascii("UNKNOWN") == [85, 78, 75, 78, 79, 87, 78];
  }

  /** A line built from separator-free fields comes apart into those fields, unless it is
      longer than a receiver accepts. */
  lemma LineDecodes(printIP: Bytes -> Bytes, fields: seq<Bytes>, payload: Bytes)
    requires fields != [] && forall f :: f in fields ==> SPACE !in f && CR !in f
    ensures DecodeV1(printIP, Join(fields, SPACE) + [CR, LF] + payload)
         == if |Join(fields, SPACE)| > 105 then None
            else match ParseFields(printIP, fields)
                 case Some(d) => Some(Parse(d, payload))
                 case None => None
  {
    var line := Join(fields, SPACE);
    var stream := line + [CR, LF] + payload;
    JoinBytes(fields, SPACE, CR);
    FindLineEnd(line, payload);
    SplitJoin(fields, SPACE);
    assert stream[..|line|] == line && stream[|line| + 2..] == payload;
  }

  lemma SixFields(f: seq<Bytes>)
    requires |f| == 6
    ensures |Join(f, SPACE)| == |f[0]| + |f[1]| + |f[2]| + |f[3]| + |f[4]| + |f[5]| + 5
  {
    JoinLength(f, SPACE);
    assert f[1..][1..] == f[2..] && f[2..][1..] == f[3..];
    assert f[3..][1..] == f[4..] && f[4..][1..] == f[5..] && f[5..][1..] == [];
    assert TotalLength(f) == |f[0]| + |f[1]| + TotalLength(f[2..]);
    assert TotalLength(f[2..]) == |f[2]| + |f[3]| + TotalLength(f[4..]);
    assert TotalLength(f[4..]) == |f[4]| + TotalLength(f[5..]) && TotalLength(f[5..]) == |f[5]| + 0;
  }

  /** The fields of a TCP4 line parse if both ports are in range, and not otherwise. */
  lemma Fields4(printIP: Bytes -> Bytes, src: Bytes, dst: Bytes, sp: int, dp: int)
    requires ParseQuad(src).Some? && ParseQuad(dst).Some?
    ensures ParseFields(printIP, [Ascii("PROXY"), Ascii("TCP4"), src, dst, PrintInt(sp), PrintInt(dp)])
         == if 0 <= sp < 0x10000 && 0 <= dp < 0x10000
            then Some(Inet(ParseQuad(src).value, ParseQuad(dst).value, sp, dp)) else None
  {
    Keywords();
    PrintedIntParses(sp, 65535);
    PrintedIntParses(dp, 65535);
  }

  lemma Fields6(printIP: Bytes -> Bytes, src: Bytes, dst: Bytes, sp: int, dp: int)
    requires Unprint(printIP, src).Some? && Unprint(printIP, dst).Some?
    ensures ParseFields(printIP, [Ascii("PROXY"), Ascii("TCP6"), src, dst, PrintInt(sp), PrintInt(dp)])
         == if 0 <= sp < 0x10000 && 0 <= dp < 0x10000
            then Some(Inet6(Unprint(printIP, src).value, Unprint(printIP, dst).value, sp, dp)) else None
  {
    Keywords();
    PrintedIntParses(sp, 65535);
    PrintedIntParses(dp, 65535);
  }

  lemma UnprintInverts(printIP: Bytes -> Bytes, ip: Bytes)
    requires GoodPrinter(printIP) && Native6(ip)
    ensures Unprint(printIP, printIP(ip)) == Some(ip)
  {
  }

  /** The text of one side of a version 1 header. */
  function AddressText(lib: Library, ip: Bytes): Bytes {
    match To4(ip)
    case Some(q) => DottedQuad(q)
    case None => lib.printIP(ip)
  }

  lemma AddressTextFits(lib: Library, ip: Bytes)
    requires GoodPrinter(lib.printIP) && (|ip| == 4 || |ip| == 16)
    ensures var t := AddressText(lib, ip); |t| <= 39 && SPACE !in t && CR !in t
  {
    match To4(ip)
    case Some(q) => QuadText(q);
    case None => assert Native6(ip);
  }

  lemma V1TcpRoundTrip(lib: Library, s: Endpoint, d: Endpoint, payload: Bytes)
    requires GoodPrinter(lib.printIP)
    requires (|s.ip| == 4 || |s.ip| == 16) && (|d.ip| == 4 || |d.ip| == 16)
    requires To4(s.ip).Some? == To4(d.ip).Some?
    ensures var family := if To4(s.ip).Some? then "TCP4" else "TCP6";
            var line := LineV1(family, AddressText(lib, s.ip), AddressText(lib, d.ip), s.port, d.port);
            var said := if To4(s.ip).Some? then Inet(To4(s.ip).value, To4(d.ip).value, s.port, d.port)
                        else Inet6(s.ip, d.ip, s.port, d.port);
            var inRange := 0 <= s.port < 0x10000 && 0 <= d.port < 0x10000;
            && (inRange ==> |line| <= 105)
            && DecodeV1(lib.printIP, line + [CR, LF] + payload) == if inRange then Some(Parse(said, payload)) else None
  {
    var family := if To4(s.ip).Some? then "TCP4" else "TCP6";
    var f: seq<Bytes> := [Ascii("PROXY"), Ascii(family), AddressText(lib, s.ip), AddressText(lib, d.ip),
                          PrintInt(s.port), PrintInt(d.port)];
    Keywords();
    AddressTextFits(lib, s.ip);
    AddressTextFits(lib, d.ip);
    PortText(s.port);
    PortText(d.port);
    SixFields(f);
    LineDecodes(lib.printIP, f, payload);
    if To4(s.ip).Some? {
      QuadParses(To4(s.ip).value);
      QuadParses(To4(d.ip).value);
      Fields4(lib.printIP, f[2], f[3], s.port, d.port);
    } else {
      UnprintInverts(lib.printIP, s.ip);
      UnprintInverts(lib.printIP, d.ip);
      Fields6(lib.printIP, f[2], f[3], s.port, d.port);
    }
  }

  lemma UnknownLineDecodes(printIP: Bytes -> Bytes, payload: Bytes)
    ensures |UNKNOWN_LINE| == 13
    ensures DecodeV1(printIP, UNKNOWN_LINE + [CR, LF] + payload) == Some(Parse(Unspecified, payload))
  {
    var f: seq<Bytes> := [Ascii("PROXY"), Ascii("UNKNOWN")];
    Keywords();
    JoinLength(f, SPACE);
    assert f[1..][1..] == [];
    assert TotalLength(f) == |f[0]| + |f[1]|;
    LineDecodes(printIP, f, payload);
  }

  /** Version 1 round trip, and the length bound of section 2.1: for ports that fit 16
      bits the addresses and the payload come back; any other port, which the encoder
      prints unchecked, makes the line invalid. */
  lemma V1RoundTrip(lib: Library, src: Addr, dst: Addr, payload: Bytes)
    requires GoodPrinter(lib.printIP) && Sized(lib, src) && Sized(lib, dst)
    ensures DecodeV1(lib.printIP, HeaderV1(lib, src, dst) + payload)
         == if PortsCarried(lib, src, dst) then Some(Parse(Canonical(lib, src, dst), payload)) else None
    ensures PortsCarried(lib, src, dst) ==> |HeaderV1(lib, src, dst)| <= 107
  {
    match (TcpAddr(lib, src), TcpAddr(lib, dst))
    case (Some(s), Some(d)) =>
      if To4(s.ip).Some? == To4(d.ip).Some? {
        V1TcpRoundTrip(lib, s, d, payload);
      } else {
        UnknownLineDecodes(lib.printIP, payload);
      }
    case _ => UnknownLineDecodes(lib.printIP, payload);
  }

  /** The two versions tell a receiver the same thing exactly when the ports fit 16 bits;
      whatever the ports, version 1 says UNKNOWN exactly when version 2 says UNSPEC. */
  lemma VersionsAgreeIff(lib: Library, src: Addr, dst: Addr, payload: Bytes)
    requires GoodPrinter(lib.printIP) && Sized(lib, src) && Sized(lib, dst)
    ensures var v1 := DecodeV1(lib.printIP, HeaderV1(lib, src, dst) + payload);
            var v2 := DecodeV2(HeaderV2(lib, src, dst) + payload);
            && (v1 == v2 <==> PortsCarried(lib, src, dst))
            && (v1 == Some(Parse(Unspecified, payload)) <==> v2 == Some(Parse(Unspecified, payload)))
  {
    V1RoundTrip(lib, src, dst, payload);
    V2RoundTrip(lib, src, dst, payload);
    PortsFit(lib, src, dst);
  }

  /** The witness: port 65536 reads as 0 in version 2 and not at all in version 1. */
  lemma PortOutOfRange(lib: Library, payload: Bytes)
    requires GoodPrinter(lib.printIP)
    ensures var src, dst := TCPAddr([10, 0, 0, 1], 65536), TCPAddr([10, 0, 0, 2], 443);
            && DecodeV2(HeaderV2(lib, src, dst) + payload)
               == Some(Parse(Inet([10, 0, 0, 1], [10, 0, 0, 2], 0, 443), payload))
            && DecodeV1(lib.printIP, HeaderV1(lib, src, dst) + payload) == None
  {
    var src, dst := TCPAddr([10, 0, 0, 1], 65536), TCPAddr([10, 0, 0, 2], 443);
    Addresses4(lib, [10, 0, 0, 1], [10, 0, 0, 2], 65536, 443);
    V2RoundTrip(lib, src, dst, payload);
    V1RoundTrip(lib, src, dst, payload);
  }

  lemma Addresses4(lib: Library, src: Bytes, dst: Bytes, sp: int, dp: int)
    requires |src| == |dst| == 4
    ensures var s, d := TCPAddr(src, sp), TCPAddr(dst, dp);
            && Sized(lib, s) && Sized(lib, d) && Canonical(lib, s, d) == Inet(src, dst, sp, dp)
            && (PortsCarried(lib, s, d) <==> 0 <= sp < 0x10000 && 0 <= dp < 0x10000)
  {
  }

  lemma StartsLikeV1(lib: Library, src: Addr, dst: Addr)
    ensures var h := HeaderV1(lib, src, dst); |h| > 0 && h[0] == 80
  {
    Keywords();
  }

  /** The named version is what is sent, and a receiver that accepts either version
      recovers the addresses and the payload exactly when the ports fit 16 bits. */
  lemma EncodeRoundTrip(version: string, lib: Library, src: Addr, dst: Addr, payload: Bytes)
    requires version == "v1" || version == "v2"
    requires GoodPrinter(lib.printIP) && Sized(lib, src) && Sized(lib, dst)
    ensures Encode(version, lib, src, dst).Built?
    ensures var stream := Encode(version, lib, src, dst).header + payload;
            && Decode(lib.printIP, stream)
               == (if version == "v1" then DecodeV1(lib.printIP, stream) else DecodeV2(stream))
            && (Decode(lib.printIP, stream) == Some(Parse(Canonical(lib, src, dst), payload))
                <==> PortsCarried(lib, src, dst))
  {
    var h := Encode(version, lib, src, dst).header;
    if version == "v1" {
      V1RoundTrip(lib, src, dst, payload);
      V1IsNotV2(lib, src, dst, payload);
    } else {
      V2ExactIff(lib, src, dst, payload);
      V2IsV2(lib, src, dst, payload);
    }
  }

  lemma V1IsNotV2(lib: Library, src: Addr, dst: Addr, payload: Bytes)
    ensures var s := HeaderV1(lib, src, dst) + payload; |s| >= 12 ==> s[..12] != SIGNATURE
  {
    StartsLikeV1(lib, src, dst);
    var s := HeaderV1(lib, src, dst) + payload;
    assert s[0] == 80 && SIGNATURE[0] == 0x0D;
  }

  lemma V2IsV2(lib: Library, src: Addr, dst: Addr, payload: Bytes)
    requires Sized(lib, src) && Sized(lib, dst)
    ensures var s := HeaderV2(lib, src, dst) + payload; |s| >= 12 && s[..12] == SIGNATURE
  {
    V2RoundTrip(lib, src, dst, payload);
  }

  // ----- the assumption on the printer can be met

  /** Two hexadecimal digits per byte: a printer that qualifies. */
  function PlainHex(ip: Bytes): Bytes {
    seq(2 * |ip|, i requires 0 <= i < 2 * |ip| =>
      var nibble := if i % 2 == 0 then ip[i / 2] / 16 else ip[i / 2] % 16;
      if nibble < 10 then 48 + nibble else 87 + nibble)
  }

  lemma PrinterExists()
    ensures GoodPrinter(PlainHex)
  {
    forall a, b | Native6(a) && Native6(b) && PlainHex(a) == PlainHex(b) ensures a == b {
      forall i | 0 <= i < 16 ensures a[i] == b[i] {
        assert PlainHex(a)[2 * i] == PlainHex(b)[2 * i];
        assert PlainHex(a)[2 * i + 1] == PlainHex(b)[2 * i + 1];
      }
    }
  }
}
