/** The PROXY header and the connection protocol together: what a backend can rely on. */
module EndToEnd {
  import opened Common
  import opened PipeMachine
  import opened Connection
  import opened ConnectionInvariant
  import opened ConnectionTheorems
  import opened ConnectionCauses
  import H = ProxyHeader
  import R = ProxyRoundTrip

  /** The header setting of a connection between these addresses. */
  function Setting(version: string, lib: H.Library, src: H.Addr, dst: H.Addr): ProxySetting {
    match H.Encode(version, lib, src, dst)
    case Built(h) => Header(h)
    case Disabled => Off
    case UnknownVersion => Rejected
  }

  /** In every run with a PROXY header, from any backend stream that contains the whole
      header the reference decoder recovers the client's source and destination, and what
      follows is a prefix of the bytes read from the client unless the header write fell
      short without an error, which the io.Writer contract rules out. */
  lemma BackendLearnsClient(cfg: Config, acts: seq<Action>, version: string, lib: H.Library, src: H.Addr, dst: H.Addr)
    requires version == "v1" || version == "v2"
    requires cfg.proxy == Setting(version, lib, src, dst)
    requires R.GoodPrinter(lib.printIP)
    requires R.Sized(lib, src) && R.Sized(lib, dst) && R.PortsCarried(lib, src, dst)
    requires Valid(Init(cfg), acts)
    requires HeaderBytes(cfg) <= BackendBytes(Exec(Init(cfg), acts))
    ensures var stream := BackendBytes(Exec(Init(cfg), acts));
            var rest := stream[|HeaderBytes(cfg)|..];
            && H.Decode(lib.printIP, stream) == Some(H.Parse(H.Canonical(lib, src, dst), rest))
            && (!ShortHeader(cfg, acts) ==> rest <= ReadsOf(acts, Up))
            && (cfg.honestWriter ==> !ShortHeader(cfg, acts))
  {
    var stream := BackendBytes(Exec(Init(cfg), acts));
    HeaderDecodes(cfg, stream, version, lib, src, dst);
    if !ShortHeader(cfg, acts) {
      WholeHeader(cfg, acts);
      RestOf(HeaderBytes(cfg), Exec(Init(cfg), acts).up.delivered);
    }
    if cfg.honestWriter { HonestRun(Init(cfg), acts); }
  }

  lemma RestOf(header: Bytes, rest: Bytes)
    ensures (header + rest)[|header|..] == rest
  {
  }

  lemma HeaderDecodes(cfg: Config, stream: Bytes, version: string, lib: H.Library, src: H.Addr, dst: H.Addr)
    requires version == "v1" || version == "v2"
    requires cfg.proxy == Setting(version, lib, src, dst) && HeaderBytes(cfg) <= stream
    requires R.GoodPrinter(lib.printIP)
    requires R.Sized(lib, src) && R.Sized(lib, dst) && R.PortsCarried(lib, src, dst)
    ensures H.Decode(lib.printIP, stream)
         == Some(H.Parse(H.Canonical(lib, src, dst), stream[|HeaderBytes(cfg)|..]))
  {
    var rest := stream[|HeaderBytes(cfg)|..];
    assert stream == HeaderBytes(cfg) + rest;
    R.EncodeRoundTrip(version, lib, src, dst, rest);
  }

  /** Unless the header write fell short, a backend stream as long as the header is the
      header and then the bytes delivered by the copy goroutine. */
  lemma WholeHeader(cfg: Config, acts: seq<Action>)
    requires Valid(Init(cfg), acts) && !ShortHeader(cfg, acts)
    requires |BackendBytes(Exec(Init(cfg), acts))| >= |HeaderBytes(cfg)|
    ensures var s := Exec(Init(cfg), acts);
            BackendBytes(s) == HeaderBytes(cfg) + s.up.delivered && s.up.delivered <= ReadsOf(acts, Up)
  {
    HeaderFirst(cfg, acts);
    var s := Exec(Init(cfg), acts);
    if !SetUp(s) {
      assert |s.headerSent| + |s.up.delivered| == |s.headerSent|;
      assert s.headerSent == HeaderBytes(cfg);
    }
  }

  /** With the setting off, the backend receives the client's bytes and nothing else. */
  lemma NoHeaderWhenDisabled(cfg: Config, acts: seq<Action>, lib: H.Library, src: H.Addr, dst: H.Addr)
    requires cfg.proxy == Setting("", lib, src, dst) && Valid(Init(cfg), acts)
    ensures BackendBytes(Exec(Init(cfg), acts)) <= ReadsOf(acts, Up)
  {
    HeaderFirst(cfg, acts);
  }

  /** And it can receive all of them: with the setting off, or with a version the encoder
      knows, any two byte streams can be proxied without an error being counted, the one to
      the backend behind exactly the encoded header. */
  lemma KnownVersionProxies(cfg: Config, version: string, lib: H.Library, src: H.Addr, dst: H.Addr,
                            toBackend: Bytes, toClient: Bytes)
      returns (s: State)
    requires cfg.proxy == Setting(version, lib, src, dst) && (version == "" || version == "v1" || version == "v2")
    ensures Reaches(Init(cfg), s) && s.main.Waiting? && ErrorCount(s) == 0
    ensures s.down.delivered == toClient
    ensures version == "" ==> BackendBytes(s) == toBackend
    ensures version == "v1" ==> BackendBytes(s) == H.HeaderV1(lib, src, dst) + toBackend
    ensures version == "v2" ==> BackendBytes(s) == H.HeaderV2(lib, src, dst) + toBackend
  {
    s := CanProxy(cfg, toBackend, toClient);
  }

  /** Without a usable header nothing is ever spawned. */
  predicate Barred(s: State) {
    s.cfg.proxy.Rejected? && s.watcher.NotStarted? && !Spawning(s.main)
  }

  lemma BarredSetup(s: State, p: SetupEvent)
    requires Barred(s) && SetupEnabled(s, p)
    ensures Barred(SetupDo(s, p))
  {
  }

  lemma BarredMain(s: State, m: MainEvent)
    requires Barred(s) && MainEnabled(s, m)
    ensures Barred(MainDo(s, m))
  {
  }

  lemma BarredUnwind(s: State, g: Stage)
    requires Barred(s)
    ensures Barred(Unwind(s, g))
  {
  }

  lemma BarredStep(s: State, a: Action)
    requires Barred(s) && Enabled(s, a)
    ensures Barred(Do(s, a))
  {
    match a
    case Setup(p) => BarredSetup(s, p);
    case Main(m) => BarredMain(s, m);
    case RunDeferred => BarredUnwind(s, s.main.stage);
    case _ =>
  }

  lemma {:induction false} StaysBarred(s: State, acts: seq<Action>)
    requires Barred(s) && Valid(s, acts)
    ensures Barred(Exec(s, acts))
    decreases |acts|
  {
    if acts != [] {
      BarredStep(s, acts[0]);
      StaysBarred(Do(s, acts[0]), acts[1..]);
    }
  }

  /** A version string the encoder does not know ends the connection before anything is
      sent: the backend never receives a byte. */
  lemma UnknownVersionSendsNothing(cfg: Config, acts: seq<Action>, version: string,
                                   lib: H.Library, src: H.Addr, dst: H.Addr)
    requires version != "v1" && version != "v2" && version != ""
    requires cfg.proxy == Setting(version, lib, src, dst)
    requires Valid(Init(cfg), acts)
    ensures BackendBytes(Exec(Init(cfg), acts)) == []
  {
    HeaderFirst(cfg, acts);
    StaysBarred(Init(cfg), acts);
  }
}
