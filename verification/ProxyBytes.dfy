/** The PROXY header in plain bytes: what is sent for which client, without reference to
    the functions that the encoder and the decoder share. */
module ProxyBytes {
  import opened Common
  import opened Text
  import opened ProxyHeader
  import opened ProxyRoundTrip

  // ----- which addresses are announced

  /** An IPv4 address as Go may hold it: its four bytes, or those behind ten zero bytes and
      two bytes 0xff (what a dual-stack listener reports). */
  predicate Holds4(ip: Bytes, a: Bytes) {
    |a| == 4 && (ip == a || ip == [0, 0, 0, 0, 0, 0, 0, 0, 0, 0, 0xff, 0xff] + a)
  }

  /** Any other 16-byte address. */
  predicate Holds6(ip: Bytes) {
    |ip| == 16 && ip[..12] != [0, 0, 0, 0, 0, 0, 0, 0, 0, 0, 0xff, 0xff]
  }

  lemma ToFour(ip: Bytes, a: Bytes)
    requires Holds4(ip, a)
    ensures To4(ip) == Some(a) && (|ip| == 4 || |ip| == 16)
  {
  }

  lemma NotFour(ip: Bytes)
    requires Holds6(ip)
    ensures To4(ip) == None
  {
  }

  predicate Port(p: int) { 0 <= p <= 65535 }

  /** Both versions tell the receiver this, and leave it the payload. */
  ghost predicate BothSay(lib: Library, src: Addr, dst: Addr, payload: Bytes, what: Decoded) {
    && DecodeV1(lib.printIP, HeaderV1(lib, src, dst) + payload) == Some(Parse(what, payload))
    && DecodeV2(HeaderV2(lib, src, dst) + payload) == Some(Parse(what, payload))
  }

  lemma SayCanonical(lib: Library, src: Addr, dst: Addr, payload: Bytes, what: Decoded)
    requires GoodPrinter(lib.printIP) && Sized(lib, src) && Sized(lib, dst)
    requires PortInRange(lib, src) && PortInRange(lib, dst) && what == Canonical(lib, src, dst)
    ensures BothSay(lib, src, dst, payload, what)
  {
    V1RoundTrip(lib, src, dst, payload);
    V2ExactIff(lib, src, dst, payload);
  }

  /** Two IPv4 clients, plain or v4-mapped, are announced by their four bytes. */
  lemma Announces4(lib: Library, src: Bytes, dst: Bytes, a: Bytes, b: Bytes, sp: int, dp: int, payload: Bytes)
    requires GoodPrinter(lib.printIP) && Holds4(src, a) && Holds4(dst, b) && Port(sp) && Port(dp)
    ensures BothSay(lib, TCPAddr(src, sp), TCPAddr(dst, dp), payload, Inet(a, b, sp, dp))
  {
    ToFour(src, a);
    ToFour(dst, b);
    SayCanonical(lib, TCPAddr(src, sp), TCPAddr(dst, dp), payload, Inet(a, b, sp, dp));
  }

  /** Two other 16-byte addresses are announced as they are. */
  lemma Announces6(lib: Library, src: Bytes, dst: Bytes, sp: int, dp: int, payload: Bytes)
    requires GoodPrinter(lib.printIP) && Holds6(src) && Holds6(dst) && Port(sp) && Port(dp)
    ensures BothSay(lib, TCPAddr(src, sp), TCPAddr(dst, dp), payload, Inet6(src, dst, sp, dp))
  {
    NotFour(src);
    NotFour(dst);
    SayCanonical(lib, TCPAddr(src, sp), TCPAddr(dst, dp), payload, Inet6(src, dst, sp, dp));
  }

  /** One of each kind cannot be announced. */
  lemma AnnouncesMixed(lib: Library, src: Bytes, dst: Bytes, a: Bytes, sp: int, dp: int, payload: Bytes)
    requires GoodPrinter(lib.printIP) && Holds4(src, a) && Holds6(dst) && Port(sp) && Port(dp)
    ensures BothSay(lib, TCPAddr(src, sp), TCPAddr(dst, dp), payload, Unspecified)
    ensures BothSay(lib, TCPAddr(dst, dp), TCPAddr(src, sp), payload, Unspecified)
  {
    ToFour(src, a);
    NotFour(dst);
    SayCanonical(lib, TCPAddr(src, sp), TCPAddr(dst, dp), payload, Unspecified);
    SayCanonical(lib, TCPAddr(dst, dp), TCPAddr(src, sp), payload, Unspecified);
  }

  /** An address that is not a *net.TCPAddr counts as the address its string form parses to:
      host and port of SplitHostPort, through ParseIP and Sscanf. */
  lemma TextAddress(lib: Library, text: string, host: string, portText: string, ip: Bytes, port: int, other: Addr)
    requires lib.splitHostPort(text) == Some((host, portText))
    requires lib.parseIP(host) == Some(ip) && lib.scanPort(portText) == Some(port)
    ensures HeaderV1(lib, OtherAddr(text), other) == HeaderV1(lib, TCPAddr(ip, port), other)
    ensures HeaderV1(lib, other, OtherAddr(text)) == HeaderV1(lib, other, TCPAddr(ip, port))
    ensures HeaderV2(lib, OtherAddr(text), other) == HeaderV2(lib, TCPAddr(ip, port), other)
    ensures HeaderV2(lib, other, OtherAddr(text)) == HeaderV2(lib, other, TCPAddr(ip, port))
  {
    assert TcpAddr(lib, OtherAddr(text)) == TcpAddr(lib, TCPAddr(ip, port));
  }

  /** One that does not parse makes the header say nothing, whatever the other side is. */
  lemma UnparsedAddress(lib: Library, text: string, other: Addr)
    requires match lib.splitHostPort(text)
             case None => true
             case Some(pair) => lib.parseIP(pair.0) == None || lib.scanPort(pair.1) == None
    ensures HeaderV1(lib, OtherAddr(text), other) == HeaderV1(lib, other, OtherAddr(text))
         == [80, 82, 79, 88, 89, 32, 85, 78, 75, 78, 79, 87, 78, 13, 10]
    ensures HeaderV2(lib, OtherAddr(text), other) == HeaderV2(lib, other, OtherAddr(text))
         == [0x0D, 0x0A, 0x0D, 0x0A, 0x00, 0x0D, 0x0A, 0x51, 0x55, 0x49, 0x54, 0x0A, 0x21, 0x00, 0x00, 0x00]
  {
    UnknownBytes();
  }

  lemma UnknownBytes()
    ensures UNKNOWN_LINE + [CR, LF] == [80, 82, 79, 88, 89, 32, 85, 78, 75, 78, 79, 87, 78, 13, 10]
  {
    var f: seq<Bytes> := [Ascii("PROXY"), Ascii("UNKNOWN")];
    assert Ascii("PROXY") == [80, 82, 79, 88, 89];
    assert Ascii("UNKNOWN") == [85, 78, 75, 78, 79, 87, 78];
    assert f[1..] == [Ascii("UNKNOWN")];
    assert Join(f[1..], SPACE) == Ascii("UNKNOWN");
  }

  // ----- the bytes on the wire

  lemma WireStart(family: byte, length: byte)
    ensures SIGNATURE + [0x21] + [family] + [0x00, length]
         == [0x0D, 0x0A, 0x0D, 0x0A, 0x00, 0x0D, 0x0A, 0x51, 0x55, 0x49, 0x54, 0x0A, 0x21, family, 0x00, length]
  {
  }

  lemma WirePorts(s: Bytes, sp: int, dp: int)
    requires Port(sp) && Port(dp)
    ensures s + BigEndian16(sp) + BigEndian16(dp) == s + [sp / 256, sp % 256, dp / 256, dp % 256]
  {
    PortBytes(sp, dp);
    Regroup(s, BigEndian16(sp), BigEndian16(dp));
  }

  lemma PortBytes(sp: int, dp: int)
    requires Port(sp) && Port(dp)
    ensures BigEndian16(sp) + BigEndian16(dp) == [sp / 256, sp % 256, dp / 256, dp % 256]
  {
    OnePort(sp);
    OnePort(dp);
  }

  lemma OnePort(p: int)
    requires Port(p)
    ensures BigEndian16(p) == [p / 256, p % 256]
  {
    assert p % 0x10000 == p;
  }

  lemma Regroup(a: Bytes, b: Bytes, c: Bytes)
    ensures (a + b) + c == a + (b + c)
  {
  }

  lemma Wire(family: byte, length: byte, src: Bytes, dst: Bytes, sp: int, dp: int)
    requires Port(sp) && Port(dp)
    ensures FullV2(family, length, src, dst, sp, dp)
         == [0x0D, 0x0A, 0x0D, 0x0A, 0x00, 0x0D, 0x0A, 0x51, 0x55, 0x49, 0x54, 0x0A, 0x21, family, 0x00, length]
            + src + dst + [sp / 256, sp % 256, dp / 256, dp % 256]
  {
    WireStart(family, length);
    WirePorts(SIGNATURE + [0x21] + [family] + [0x00, length] + src + dst, sp, dp);
  }

  /** A version 2 header for IPv4 is these bytes: signature, version and command, family,
      length, both addresses, both ports most significant byte first. */
  lemma WireV4(lib: Library, src: Bytes, dst: Bytes, a: Bytes, b: Bytes, sp: int, dp: int)
    requires Holds4(src, a) && Holds4(dst, b) && Port(sp) && Port(dp)
    ensures HeaderV2(lib, TCPAddr(src, sp), TCPAddr(dst, dp))
         == [0x0D, 0x0A, 0x0D, 0x0A, 0x00, 0x0D, 0x0A, 0x51, 0x55, 0x49, 0x54, 0x0A, 0x21, 0x11, 0x00, 0x0C]
            + a + b + [sp / 256, sp % 256, dp / 256, dp % 256]
  {
    ToFour(src, a);
    ToFour(dst, b);
    Wire(0x11, 0x0C, a, b, sp, dp);
  }

  lemma WireV6(lib: Library, src: Bytes, dst: Bytes, sp: int, dp: int)
    requires Holds6(src) && Holds6(dst) && Port(sp) && Port(dp)
    ensures HeaderV2(lib, TCPAddr(src, sp), TCPAddr(dst, dp))
         == [0x0D, 0x0A, 0x0D, 0x0A, 0x00, 0x0D, 0x0A, 0x51, 0x55, 0x49, 0x54, 0x0A, 0x21, 0x21, 0x00, 0x24]
            + src + dst + [sp / 256, sp % 256, dp / 256, dp % 256]
  {
    NotFour(src);
    NotFour(dst);
    Wire(0x21, 0x24, src, dst, sp, dp);
  }

  lemma Join6(a: Bytes, b: Bytes, c: Bytes, d: Bytes, e: Bytes, f: Bytes, sep: byte)
    ensures Join([a, b, c, d, e, f], sep) == a + [sep] + b + [sep] + c + [sep] + d + [sep] + e + [sep] + f
  {
    var s: seq<Bytes> := [a, b, c, d, e, f];
    assert s[1..] == [b, c, d, e, f] && s[1..][1..] == [c, d, e, f];
    assert [c, d, e, f][1..] == [d, e, f] && [d, e, f][1..] == [e, f] && [e, f][1..] == [f];
    assert Join([f], sep) == f;
    assert Join([e, f], sep) == e + [sep] + f;
    assert Join([d, e, f], sep) == d + [sep] + (e + [sep] + f);
    assert Join([c, d, e, f], sep) == c + [sep] + (d + [sep] + (e + [sep] + f));
    assert Join([b, c, d, e, f], sep) == b + [sep] + (c + [sep] + (d + [sep] + (e + [sep] + f)));
  }

  lemma Join4(a: Bytes, b: Bytes, c: Bytes, d: Bytes, sep: byte)
    ensures Join([a, b, c, d], sep) == a + [sep] + b + [sep] + c + [sep] + d
  {
    var s: seq<Bytes> := [a, b, c, d];
    assert s[1..] == [b, c, d] && [b, c, d][1..] == [c, d] && [c, d][1..] == [d];
    assert Join([d], sep) == d;
    assert Join([c, d], sep) == c + [sep] + d;
    assert Join([b, c, d], sep) == b + [sep] + (c + [sep] + d);
  }

  /** Dotted decimal text of four bytes. */
  function Dotted(a: Bytes): Bytes
    requires |a| == 4
  {
    Decimal(a[0]) + [46] + Decimal(a[1]) + [46] + Decimal(a[2]) + [46] + Decimal(a[3])
  }

  lemma Prefixes()
    ensures Ascii("PROXY") + [SPACE] + Ascii("TCP4") + [SPACE] == [80, 82, 79, 88, 89, 32, 84, 67, 80, 52, 32]
    ensures Ascii("PROXY") + [SPACE] + Ascii("TCP6") + [SPACE] == [80, 82, 79, 88, 89, 32, 84, 67, 80, 54, 32]
  {
    assert Ascii("PROXY") == [80, 82, 79, 88, 89];
    assert Ascii("TCP4") == [84, 67, 80, 52] && Ascii("TCP6") == [84, 67, 80, 54];
  }

  lemma LineOf(family: string, x: Bytes, y: Bytes, sp: int, dp: int)
    requires (family == "TCP4" || family == "TCP6") && Port(sp) && Port(dp)
    ensures LineV1(family, x, y, sp, dp) + [CR, LF]
         == [80, 82, 79, 88, 89, 32, 84, 67, 80, if family == "TCP4" then 52 else 54, 32] + x + [32] + y
            + [32] + Decimal(sp) + [32] + Decimal(dp) + [13, 10]
  {
    Prefixes();
    Join6(Ascii("PROXY"), Ascii(family), x, y, PrintInt(sp), PrintInt(dp), SPACE);
  }

  lemma QuadIsDotted(a: Bytes)
    requires |a| == 4
    ensures DottedQuad(a) == Dotted(a)
  {
    Join4(Decimal(a[0]), Decimal(a[1]), Decimal(a[2]), Decimal(a[3]), DOT);
  }

  /** A version 1 line is "PROXY", "TCP4" or "TCP6", both addresses and both ports in
      decimal, with single spaces between them and CR LF behind. */
  lemma LineV4(lib: Library, src: Bytes, dst: Bytes, a: Bytes, b: Bytes, sp: int, dp: int)
    requires Holds4(src, a) && Holds4(dst, b) && Port(sp) && Port(dp)
    ensures HeaderV1(lib, TCPAddr(src, sp), TCPAddr(dst, dp))
         == [80, 82, 79, 88, 89, 32, 84, 67, 80, 52, 32] + Dotted(a) + [32] + Dotted(b)
            + [32] + Decimal(sp) + [32] + Decimal(dp) + [13, 10]
  {
    HeaderIs4(lib, src, dst, a, b, sp, dp);
    LineOf("TCP4", Dotted(a), Dotted(b), sp, dp);
  }

  lemma HeaderIs4(lib: Library, src: Bytes, dst: Bytes, a: Bytes, b: Bytes, sp: int, dp: int)
    requires Holds4(src, a) && Holds4(dst, b)
    ensures HeaderV1(lib, TCPAddr(src, sp), TCPAddr(dst, dp)) == LineV1("TCP4", Dotted(a), Dotted(b), sp, dp) + [CR, LF]
  {
    ToFour(src, a);
    ToFour(dst, b);
    QuadIsDotted(a);
    QuadIsDotted(b);
  }

  lemma LineV6(lib: Library, src: Bytes, dst: Bytes, sp: int, dp: int)
    requires Holds6(src) && Holds6(dst) && Port(sp) && Port(dp)
    ensures HeaderV1(lib, TCPAddr(src, sp), TCPAddr(dst, dp))
         == [80, 82, 79, 88, 89, 32, 84, 67, 80, 54, 32] + lib.printIP(src) + [32] + lib.printIP(dst)
            + [32] + Decimal(sp) + [32] + Decimal(dp) + [13, 10]
  {
    HeaderIs6(lib, src, dst, sp, dp);
    LineOf("TCP6", lib.printIP(src), lib.printIP(dst), sp, dp);
  }

  lemma HeaderIs6(lib: Library, src: Bytes, dst: Bytes, sp: int, dp: int)
    requires Holds6(src) && Holds6(dst)
    ensures HeaderV1(lib, TCPAddr(src, sp), TCPAddr(dst, dp))
         == LineV1("TCP6", lib.printIP(src), lib.printIP(dst), sp, dp) + [CR, LF]
  {
    NotFour(src);
    NotFour(dst);
  }

  // ----- which version is sent

  /** The setting chooses the header: "v1", "v2", none for the empty string, and an error for
      anything else. */
  lemma VersionChooses(version: string, lib: Library, src: Addr, dst: Addr)
    ensures Encode("v1", lib, src, dst) == Built(HeaderV1(lib, src, dst))
    ensures Encode("v2", lib, src, dst) == Built(HeaderV2(lib, src, dst))
    ensures Encode("", lib, src, dst) == Disabled
    ensures version != "v1" && version != "v2" && version != "" ==> Encode(version, lib, src, dst) == UnknownVersion
  {
  }
}
