/** One proxied TCP connection (`TCPProxy.Start`): the goroutine running Start, the
    context watcher it spawns and the two copy goroutines. They share a capacity-1
    signal channel, a sync.Once, two closable connections and a parent/child context.

    A state and an action determine the next state; the environment (peers, runtime,
    scheduler) chooses the actions. */
module Connection {
  import opened Common
  import opened PipeMachine

  /** The PROXY header setting: none, a version string the encoder rejects, or the
      bytes of the encoded header. */
  datatype ProxySetting = Off | Rejected | Header(bytes: Bytes)

  /** `tls`: the accepted connection is a TLS connection. `writeTimeout`: a write
      deadline is set before the header write. `honestWriter`: the connections obey the
      io.Writer contract (fewer bytes than asked implies an error); no theorem needs it. */
  datatype Config = Config(tls: bool, proxy: ProxySetting, writeTimeout: bool, honestWriter: bool)

  datatype Conn = Absent | Open | Shut

  /** sync.Once: not run, running its function, or returned. */
  datatype Once = Fresh | Firing | Fired

  /** The deferred calls of Start, in the order they run. */
  datatype Stage = CloseRemote | CancelDial | CancelConn | CloseServer | Finished

  datatype MainPc =
    | Handshake
    | Dial
    | SendHeader
    | SpawnWatcher
    | SpawnUp
    | SpawnDown
    | Waiting
    | MainEnter(resume: Stage)
    | MainSend(resume: Stage)
    | Unwinding(stage: Stage)
    | MainExited

  datatype WatcherPc =
    | NotStarted
    | Selecting
    | Checking
    | ClosingServer
    | ClosingRemote
    | Holding
    | WatcherExited

  /** `Up` copies ServerConn to RemoteConn ("send"), `Down` the other way ("recv"). */
  datatype Direction = Up | Down

  datatype State = State(
    cfg: Config,
    main: MainPc,
    panicking: bool,
    watcher: WatcherPc,
    up: Pipe,
    down: Pipe,
    tokens: nat,
    once: Once,
    consumed: nat,
    resendLost: bool,
    server: Conn,
    remote: Conn,
    parent: bool,
    child: bool,
    headerSent: Bytes,
    setupErrors: seq<NetError>)

  datatype SetupEvent =
    | HandshakeOk
    | HandshakeFailed
    | DialOk
    | DialFailed(e: NetError)
    | HeaderSkipped
    | HeaderRejected
    | HeaderWritten(n: nat)
    | HeaderFailed(n: nat, e: NetError)

  datatype MainEvent =
    | TokenTaken
    | ShutdownSeen
    | MainWon
    | MainLost
    | MainSent
    | MainPanicked

  datatype WatchEvent = SignalTaken | DoneSeen | ParentChecked | WatcherClosed | Resent

  datatype Action =
    | Setup(p: SetupEvent)
    | SpawnNext
    | Main(m: MainEvent)
    | RunDeferred
    | Watcher(w: WatchEvent)
    | Copy(d: Direction, ev: Event)
    | CancelParent
    | PropagateCancel

  /** The bytes that must precede every copied byte on the backend connection. */
  function HeaderBytes(cfg: Config): Bytes {
    if cfg.proxy.Header? then cfg.proxy.bytes else []
  }

  /** An empty header is not written at all. */
  predicate WritesHeader(cfg: Config) {
    HeaderBytes(cfg) != []
  }

  function Init(cfg: Config): State {
    State(cfg, if cfg.tls then Handshake else Dial, false, NotStarted, UNSTARTED, UNSTARTED,
          0, Fresh, 0, false, Open, Absent, false, false, [], [])
  }

  // ----- the goroutine running Start

  predicate MainInBody(m: MainPc) {
    m.Handshake? || m.Dial? || m.SendHeader? || Spawning(m) || m.Waiting?
  }

  /** The first deferred call registered by the time a panic or return happens at `m`. */
  function UnwindFrom(m: MainPc): Stage {
    if m.Handshake? then CancelConn else if m.Dial? then CancelDial else CloseRemote
  }

  predicate SetupEnabled(s: State, p: SetupEvent) {
    match p
    case HandshakeOk => s.main.Handshake?
    case HandshakeFailed => s.main.Handshake?
    case DialOk => s.main.Dial?
    case DialFailed(_) => s.main.Dial?
    case HeaderSkipped => s.main.SendHeader? && !s.cfg.proxy.Rejected? && !WritesHeader(s.cfg)
    case HeaderRejected => s.main.SendHeader? && s.cfg.proxy.Rejected?
    case HeaderWritten(n) =>
      s.main.SendHeader? && WritesHeader(s.cfg) && n <= |HeaderBytes(s.cfg)|
      && (s.cfg.honestWriter ==> n == |HeaderBytes(s.cfg)|)
    case HeaderFailed(n, _) => s.main.SendHeader? && WritesHeader(s.cfg) && n <= |HeaderBytes(s.cfg)|
  }

  /** `err` during setup: count unless benign (timeouts are counted here), then signal. */
  function SetupFails(s: State, e: NetError, resume: Stage): State {
    s.(main := MainEnter(resume), setupErrors := if Benign(e) then s.setupErrors else s.setupErrors + [e])
  }

  function SetupDo(s: State, p: SetupEvent): (t: State)
    requires SetupEnabled(s, p)
    ensures t.cfg == s.cfg && t.watcher == s.watcher && t.up == s.up && t.down == s.down
  {
    match p
    case HandshakeOk => s.(main := Dial)
    case HandshakeFailed => s.(main := MainEnter(CancelConn))
    case DialOk => s.(main := SendHeader, remote := Open)
    case DialFailed(e) => SetupFails(s, e, CancelDial)
    case HeaderSkipped => s.(main := SpawnWatcher)
    case HeaderRejected => SetupFails(s, Other(0), CloseRemote)
    case HeaderWritten(n) => s.(main := SpawnWatcher, headerSent := HeaderBytes(s.cfg)[..n])
    case HeaderFailed(n, e) => SetupFails(s.(headerSent := HeaderBytes(s.cfg)[..n]), e, CloseRemote)
  }

  predicate MainEnabled(s: State, m: MainEvent) {
    match m
    case TokenTaken => s.main.Waiting? && s.tokens > 0
    case ShutdownSeen => s.main.Waiting? && s.parent
    case MainWon => s.main.MainEnter? && s.once.Fresh?
    case MainLost => s.main.MainEnter? && s.once.Fired?
    case MainSent => s.main.MainSend? && s.tokens < 1
    case MainPanicked => MainInBody(s.main)
  }

  predicate Spawning(m: MainPc) {
    m.SpawnWatcher? || m.SpawnUp? || m.SpawnDown?
  }

  /** The three go statements, in order. */
  function Spawn(s: State): (t: State)
    requires Spawning(s.main)
    ensures t.cfg == s.cfg
    ensures t.headerSent == s.headerSent && t.setupErrors == s.setupErrors
  {
    if s.main.SpawnWatcher? then s.(main := SpawnUp, watcher := Selecting)
    else if s.main.SpawnUp? then s.(main := SpawnDown, up := STARTED)
    else s.(main := Waiting, down := STARTED)
  }

  /** One deferred call; after the last, a recovered panic still signals. */
  function Unwind(s: State, stage: Stage): (t: State)
    ensures t.cfg == s.cfg && t.watcher == s.watcher && t.up == s.up && t.down == s.down
    ensures t.headerSent == s.headerSent && t.setupErrors == s.setupErrors
  {
    match stage
    case CloseRemote => s.(remote := Shut, main := Unwinding(CancelDial))
    case CancelDial => s.(main := Unwinding(CancelConn))
    case CancelConn => s.(child := true, main := Unwinding(CloseServer))
    case CloseServer => s.(server := Shut, main := if s.panicking then MainEnter(Finished) else Unwinding(Finished))
    case Finished => s.(main := MainExited)
  }

  function MainDo(s: State, m: MainEvent): (t: State)
    requires MainEnabled(s, m)
    ensures t.cfg == s.cfg && t.watcher == s.watcher && t.up == s.up && t.down == s.down
    ensures t.headerSent == s.headerSent && t.setupErrors == s.setupErrors
  {
    match m
    case TokenTaken => s.(main := Unwinding(CloseRemote), tokens := s.tokens - 1, consumed := s.consumed + 1)
    case ShutdownSeen => s.(main := Unwinding(CloseRemote))
    case MainWon => s.(main := MainSend(s.main.resume), once := Firing)
    case MainLost => s.(main := Unwinding(s.main.resume))
    case MainSent => s.(main := Unwinding(s.main.resume), tokens := s.tokens + 1, once := Fired)
    case MainPanicked => s.(main := Unwinding(UnwindFrom(s.main)), panicking := true)
  }

  // ----- the context watcher

  predicate WatcherEnabled(s: State, w: WatchEvent) {
    match w
    case SignalTaken => s.watcher.Selecting? && s.tokens > 0
    case DoneSeen => s.watcher.Selecting? && s.child
    case ParentChecked => s.watcher.Checking?
    case WatcherClosed => s.watcher.ClosingServer? || s.watcher.ClosingRemote?
    case Resent => s.watcher.Holding?
  }

  function WatcherDo(s: State, w: WatchEvent): (t: State)
    requires WatcherEnabled(s, w)
    ensures t.cfg == s.cfg && t.main == s.main && t.up == s.up && t.down == s.down
    ensures t.once == s.once && t.parent == s.parent && t.child == s.child
    ensures t.headerSent == s.headerSent && t.setupErrors == s.setupErrors
    ensures !s.watcher.NotStarted? && !t.watcher.NotStarted?
  {
    match w
    case SignalTaken => s.(watcher := Holding, tokens := s.tokens - 1)
    case DoneSeen => s.(watcher := Checking)
    case ParentChecked => s.(watcher := if s.parent then ClosingServer else WatcherExited)
    case WatcherClosed =>
      if s.watcher.ClosingServer? then s.(watcher := ClosingRemote, server := Shut)
      else s.(watcher := WatcherExited, remote := Shut)
    case Resent =>
      if s.tokens < 1 then s.(watcher := WatcherExited, tokens := s.tokens + 1)
      else s.(watcher := WatcherExited, resendLost := true)
  }

  // ----- the copy goroutines

  function PipeOf(s: State, d: Direction): Pipe {
    if d.Up? then s.up else s.down
  }

  function WithPipe(s: State, d: Direction, p: Pipe): State {
    if d.Up? then s.(up := p) else s.(down := p)
  }

  function Source(s: State, d: Direction): Conn {
    if d.Up? then s.server else s.remote
  }

  function Target(s: State, d: Direction): Conn {
    if d.Up? then s.remote else s.server
  }

  /** What the shared state lets a copy goroutine observe. */
  predicate CopyEnabled(s: State, d: Direction, ev: Event) {
    && PipeEnabled(PipeOf(s, d), ev)
    && match ev
       case CtxChecked(done) => done == s.child
       case ReadOk(_) => Source(s, d).Open?
       case ReadErr(_, e, open) => open == Source(s, d).Open? && (!open ==> e == Closed)
       case Wrote(n) => Target(s, d).Open? && (s.cfg.honestWriter ==> PipeOf(s, d).written + n == |PipeOf(s, d).chunk|)
       case WroteErr(_, e, open) => open == Target(s, d).Open? && (!open ==> e == Closed)
       case OnceWon => s.once.Fresh?
       case OnceLost => s.once.Fired?
       case Sent => s.tokens < 1
       case _ => true
  }

  function CopyDo(s: State, d: Direction, ev: Event): (t: State)
    requires CopyEnabled(s, d, ev)
    ensures t.up == (if d.Up? then PipeDo(s.up, ev) else s.up)
    ensures t.down == (if d.Down? then PipeDo(s.down, ev) else s.down)
    ensures t.cfg == s.cfg && t.main == s.main && t.watcher == s.watcher
    ensures t.server == s.server && t.remote == s.remote && t.parent == s.parent && t.child == s.child
    ensures t.headerSent == s.headerSent && t.setupErrors == s.setupErrors
  {
    var t := WithPipe(s, d, PipeDo(PipeOf(s, d), ev));
    match ev
    case OnceWon => t.(once := Firing)
    case Sent => t.(once := Fired, tokens := s.tokens + 1)
    case _ => t
  }

  // ----- the whole connection

  predicate Enabled(s: State, a: Action) {
    match a
    case Setup(p) => SetupEnabled(s, p)
    case SpawnNext => Spawning(s.main)
    case Main(m) => MainEnabled(s, m)
    case RunDeferred => s.main.Unwinding?
    case Watcher(w) => WatcherEnabled(s, w)
    case Copy(d, ev) => CopyEnabled(s, d, ev)
    case CancelParent => !s.parent
    case PropagateCancel => s.parent && !s.child
  }

  function Do(s: State, a: Action): (t: State)
    requires Enabled(s, a)
    ensures t.cfg == s.cfg
  {
    match a
    case Setup(p) => SetupDo(s, p)
    case SpawnNext => Spawn(s)
    case Main(m) => MainDo(s, m)
    case RunDeferred => Unwind(s, s.main.stage)
    case Watcher(w) => WatcherDo(s, w)
    case Copy(d, ev) => CopyDo(s, d, ev)
    case CancelParent => s.(parent := true)
    case PropagateCancel => s.(child := true)
  }

  predicate Valid(s: State, acts: seq<Action>)
    decreases |acts|
  {
    acts == [] || (Enabled(s, acts[0]) && Valid(Do(s, acts[0]), acts[1..]))
  }

  function Exec(s: State, acts: seq<Action>): State
    requires Valid(s, acts)
    decreases |acts|
  {
    if acts == [] then s else Exec(Do(s, acts[0]), acts[1..])
  }

  /** The bytes that have reached the backend. */
  function BackendBytes(s: State): Bytes {
    s.headerSent + s.up.delivered
  }

  /** How often this connection has raised the connection error metric. */
  function ErrorCount(s: State): nat {
    |s.setupErrors| + |s.up.reported| + |s.down.reported|
  }
}
