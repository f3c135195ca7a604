/** What starts the teardown of a connection, what it leaves behind, and what a connection
    can do before it: the other half of the safety theorems. */
module ConnectionCauses {
  import opened Common
  import opened PipeMachine
  import opened Connection
  import opened ConnectionInvariant
  import opened ConnectionTheorems

  /** Start waits only once all three goroutines run. */
  lemma AllRunning(cfg: Config, acts: seq<Action>)
    requires Valid(Init(cfg), acts) && Exec(Init(cfg), acts).main.Waiting?
    ensures var s := Exec(Init(cfg), acts);
            !s.watcher.NotStarted? && !s.up.pc.Idle? && !s.down.pc.Idle?
  {
    InitInv(cfg);
    RunKeepsInv(Init(cfg), acts);
  }

  // ----- a copy goroutine that ends takes the connection down

  /** CloseOnce.Do has been entered, and stays so; the context, once done, stays done. */
  lemma MarksLast(s: State, a: Action)
    requires SignalInv(s) && Enabled(s, a)
    ensures !s.once.Fresh? ==> !Do(s, a).once.Fresh?
    ensures s.child ==> Do(s, a).child
  {
    match a
    case Copy(d, ev) =>
    case Main(m) =>
    case _ =>
  }

  lemma ExitStep(s: State, d: Direction, ev: Event)
    requires CopyEnabled(s, d, ev)
    ensures PipeDo(PipeOf(s, d), ev).pc.Exited? ==> ev == CtxChecked(true) || !CopyDo(s, d, ev).once.Fresh?
    ensures ev == CtxChecked(true) ==> s.child
  {
    StepEnds(PipeOf(s, d), ev);
  }

  lemma StepExits(s: State, a: Action, d: Direction)
    requires PhaseInv(s) && Enabled(s, a)
    ensures PipeOf(Do(s, a), d).pc.Exited? ==>
              PipeOf(s, d).pc.Exited? || !Do(s, a).once.Fresh? || a == Copy(d, CtxChecked(true))
    ensures a == Copy(d, CtxChecked(true)) ==> s.child
  {
    if a.Copy? && a.d == d {
      CopyMovesPipe(s, d, a.ev);
      ExitStep(s, d, a.ev);
    } else {
      OthersLeavePipe(s, a, d);
    }
  }

  lemma {:induction false} ExitRun(s: State, acts: seq<Action>, d: Direction)
    requires Inv(s) && Valid(s, acts)
    ensures !s.once.Fresh? ==> !Exec(s, acts).once.Fresh?
    ensures s.child || Copy(d, CtxChecked(true)) in acts ==> Exec(s, acts).child
    ensures PipeOf(Exec(s, acts), d).pc.Exited? ==>
              PipeOf(s, d).pc.Exited? || !Exec(s, acts).once.Fresh? || Copy(d, CtxChecked(true)) in acts
    decreases |acts|
  {
    if acts != [] {
      var a := acts[0];
      StepKeepsInv(s, a);
      MarksLast(s, a);
      StepExits(s, a, d);
      ExitRun(Do(s, a), acts[1..], d);
      assert forall b :: b in acts <==> b == a || b in acts[1..];
    }
  }

  /** No copy goroutine ends in silence: it has seen the context done, or CloseOnce.Do has
      been entered. Either way the connection has been told to end, or Start is returning. */
  lemma EndingTearsDown(cfg: Config, acts: seq<Action>, d: Direction)
    requires Valid(Init(cfg), acts) && PipeOf(Exec(Init(cfg), acts), d).pc.Exited?
    ensures var s := Exec(Init(cfg), acts);
            && (!s.once.Fresh? || Copy(d, CtxChecked(true)) in acts)
            && (TeardownStarted(s) || Returning(s.main))
  {
    InitInv(cfg);
    RunKeepsInv(Init(cfg), acts);
    ExitRun(Init(cfg), acts, d);
  }

  // ----- Start returns for a reason

  predicate SetupFailure(p: SetupEvent) {
    p.HandshakeFailed? || p.DialFailed? || p.HeaderRejected? || p.HeaderFailed?
  }

  /** The actions with which Start leaves its body. */
  predicate Leaves(a: Action) {
    || (a.Setup? && SetupFailure(a.p))
    || a == Main(TokenTaken) || a == Main(ShutdownSeen) || a == Main(MainPanicked)
  }

  lemma SetupReturns(s: State, p: SetupEvent)
    requires SetupEnabled(s, p)
    ensures !Returning(s.main) && (Returning(SetupDo(s, p).main) <==> SetupFailure(p))
  {
  }

  lemma MainReturns(s: State, m: MainEvent)
    requires MainEnabled(s, m)
    ensures Returning(MainDo(s, m).main)
    ensures Returning(s.main) || Leaves(Main(m))
  {
  }

  lemma StepReturns(s: State, a: Action)
    requires Enabled(s, a)
    ensures Returning(Do(s, a).main) <==> Returning(s.main) || Leaves(a)
  {
    match a
    case Setup(p) => SetupReturns(s, p);
    case Main(m) => MainReturns(s, m);
    case RunDeferred => assert Returning(Unwind(s, s.main.stage).main);
    case SpawnNext => assert !Returning(Spawn(s).main);
    case Watcher(w) =>
    case Copy(d, ev) =>
    case _ =>
  }

  lemma {:induction false} ReturnRun(s: State, acts: seq<Action>)
    requires Valid(s, acts)
    ensures Returning(Exec(s, acts).main) <==> Returning(s.main) || exists a :: a in acts && Leaves(a)
    decreases |acts|
  {
    if acts != [] {
      StepReturns(s, acts[0]);
      ReturnRun(Do(s, acts[0]), acts[1..]);
      assert forall a :: a in acts <==> a == acts[0] || a in acts[1..];
    }
  }

  lemma StepCause(s: State, a: Action)
    requires SignalInv(s) && Enabled(s, a)
    ensures s.parent || a == Main(ShutdownSeen) ==> Do(s, a).parent
    ensures s.once.Fired? || a == Main(TokenTaken) ==> Do(s, a).once.Fired?
  {
    FiringLasts(s, a);
    match a
    case Main(m) =>
    case RunDeferred => assert Unwind(s, s.main.stage).parent == s.parent;
    case _ => assert s.parent ==> Do(s, a).parent;
  }

  lemma {:induction false} CauseOfReturn(s: State, acts: seq<Action>)
    requires Inv(s) && Valid(s, acts)
    ensures s.parent || Main(ShutdownSeen) in acts ==> Exec(s, acts).parent
    ensures s.once.Fired? || Main(TokenTaken) in acts ==> Exec(s, acts).once.Fired?
    decreases |acts|
  {
    if acts != [] {
      StepKeepsInv(s, acts[0]);
      StepCause(s, acts[0]);
      CauseOfReturn(Do(s, acts[0]), acts[1..]);
    }
  }

  /** Start returns exactly when setup failed, it took the token, it saw the shutdown or it
      panicked: it keeps a healthy connection. It takes the token only after it was sent and
      sees the shutdown only if there is one. */
  lemma ReturnsIff(cfg: Config, acts: seq<Action>)
    requires Valid(Init(cfg), acts)
    ensures var s := Exec(Init(cfg), acts);
            && (Returning(s.main) <==> exists a :: a in acts && Leaves(a))
            && (Main(TokenTaken) in acts ==> s.once.Fired?)
            && (Main(ShutdownSeen) in acts ==> s.parent)
  {
    ReturnRun(Init(cfg), acts);
    InitInv(cfg);
    CauseOfReturn(Init(cfg), acts);
  }

  // ----- and signals when it fails

  /** Start is about to signal, or the signal has been sent. */
  predicate Signalling(s: State) {
    s.main.MainEnter? || s.main.MainSend? || s.once.Fired?
  }

  /** Start has panicked and will signal when its deferred calls are through, or has. */
  predicate Recovering(s: State) {
    s.panicking && (Signalling(s) || (s.main.Unwinding? && !s.main.stage.Finished?))
  }

  lemma MainSignals(s: State, m: MainEvent)
    requires MainEnabled(s, m)
    ensures Signalling(s) ==> Signalling(MainDo(s, m))
    ensures Recovering(s) || m.MainPanicked? ==> Recovering(MainDo(s, m))
  {
  }

  lemma UnwindSignals(s: State, g: Stage)
    requires s.main == Unwinding(g)
    ensures Signalling(s) ==> Signalling(Unwind(s, g))
    ensures Recovering(s) ==> Recovering(Unwind(s, g))
  {
  }

  lemma StepSignals(s: State, a: Action)
    requires SignalInv(s) && Enabled(s, a)
    ensures Signalling(s) || (a.Setup? && SetupFailure(a.p)) ==> Signalling(Do(s, a))
    ensures Recovering(s) || a == Main(MainPanicked) ==> Recovering(Do(s, a))
  {
    match a
    case Setup(p) => SetupSignals(s, p);
    case Main(m) => MainSignals(s, m);
    case RunDeferred => UnwindSignals(s, s.main.stage);
    case SpawnNext => SpawnSignals(s);
    case Copy(d, ev) => CopySignals(s, d, ev);
    case _ =>
  }

  lemma SetupSignals(s: State, p: SetupEvent)
    requires SetupEnabled(s, p)
    ensures Signalling(s) || SetupFailure(p) ==> Signalling(SetupDo(s, p))
    ensures Recovering(s) ==> Recovering(SetupDo(s, p))
  {
  }

  lemma SpawnSignals(s: State)
    requires Spawning(s.main)
    ensures Spawn(s).once == s.once && Spawn(s).panicking == s.panicking
  {
  }

  lemma CopySignals(s: State, d: Direction, ev: Event)
    requires SignalInv(s) && CopyEnabled(s, d, ev)
    ensures CopyDo(s, d, ev).panicking == s.panicking
    ensures s.once.Fired? ==> CopyDo(s, d, ev).once.Fired?
  {
  }

  lemma {:induction false} SignalRun(s: State, acts: seq<Action>)
    requires Inv(s) && Valid(s, acts)
    ensures Signalling(s) || (exists p :: Setup(p) in acts && SetupFailure(p)) ==> Signalling(Exec(s, acts))
    ensures Recovering(s) || Main(MainPanicked) in acts ==> Recovering(Exec(s, acts))
    decreases |acts|
  {
    if acts != [] {
      StepKeepsInv(s, acts[0]);
      StepSignals(s, acts[0]);
      SignalRun(Do(s, acts[0]), acts[1..]);
      if p :| Setup(p) in acts && SetupFailure(p) {
        assert Setup(p) == acts[0] || Setup(p) in acts[1..];
      }
    }
  }

  /** Once Start has returned, both connections are closed and its context is cancelled; if
      setup failed or Start panicked, the signal has been sent. Unless the process is
      shutting down, the backend connection was closed before the context was cancelled,
      and the client connection after. */
  lemma ReturnedStart(cfg: Config, acts: seq<Action>)
    requires Valid(Init(cfg), acts)
    ensures var s := Exec(Init(cfg), acts);
            && (s.main.MainExited? ==> s.server.Shut? && !s.remote.Open? && s.child)
            && (s.main.MainExited? && (exists p :: Setup(p) in acts && SetupFailure(p)) ==> s.once.Fired?)
            && (s.main.MainExited? && Main(MainPanicked) in acts ==> s.once.Fired?)
            && (!s.parent ==> (s.child ==> !s.remote.Open?) && (s.server.Shut? ==> s.child))
  {
    InitInv(cfg);
    RunKeepsInv(Init(cfg), acts);
    SignalRun(Init(cfg), acts);
  }

  // ----- who signals

  /** Start enters CloseOnce.Do only for a failed setup or a panic. */
  predicate OwnFailure(a: Action) {
    (a.Setup? && SetupFailure(a.p)) || a == Main(MainPanicked)
  }

  predicate EntersOnce(a: Action) {
    a == Main(MainWon) || (a.Copy? && a.ev == OnceWon)
  }

  lemma MainEnters(s: State, m: MainEvent)
    requires MainEnabled(s, m)
    ensures var t := MainDo(s, m);
            && (t.main.MainEnter? || t.main.MainSend? ==> s.main.MainEnter?)
            && (t.panicking ==> s.panicking || m.MainPanicked?)
            && (t.once.Fresh? <==> s.once.Fresh? && !m.MainWon? && !m.MainSent?)
            && (m.MainSent? ==> s.main.MainSend?)
  {
  }

  lemma UnwindEnters(s: State, g: Stage)
    requires s.main == Unwinding(g)
    ensures Unwind(s, g).main.MainEnter? ==> s.panicking
    ensures !Unwind(s, g).main.MainSend?
    ensures Unwind(s, g).panicking == s.panicking && Unwind(s, g).once == s.once
  {
  }

  lemma SetupEnters(s: State, p: SetupEvent)
    requires SetupEnabled(s, p)
    ensures SetupDo(s, p).main.MainEnter? ==> SetupFailure(p)
    ensures !SetupDo(s, p).main.MainSend?
    ensures SetupDo(s, p).panicking == s.panicking && SetupDo(s, p).once == s.once
  {
  }

  lemma SpawnEnters(s: State)
    requires Spawning(s.main)
    ensures !Spawn(s).main.MainEnter? && !Spawn(s).main.MainSend?
    ensures Spawn(s).panicking == s.panicking && Spawn(s).once == s.once
  {
  }

  lemma CopyEnters(s: State, d: Direction, ev: Event)
    requires SignalInv(s) && CopyEnabled(s, d, ev)
    ensures CopyDo(s, d, ev).panicking == s.panicking
    ensures CopyDo(s, d, ev).once.Fresh? <==> s.once.Fresh? && ev != OnceWon
  {
  }

  /** Start is in CloseOnce.Do, or will be because of a panic. */
  predicate Entering(s: State) {
    s.main.MainEnter? || s.main.MainSend? || s.panicking
  }

  lemma StepEnters(s: State, a: Action)
    requires SignalInv(s) && Enabled(s, a)
    ensures Entering(Do(s, a)) ==> Entering(s) || OwnFailure(a)
    ensures Do(s, a).once.Fresh? <==> s.once.Fresh? && !EntersOnce(a)
  {
    match a
    case Setup(p) => SetupEnters(s, p);
    case Main(m) => MainEnters(s, m);
    case RunDeferred => UnwindEnters(s, s.main.stage);
    case SpawnNext => SpawnEnters(s);
    case Copy(d, ev) => CopyEnters(s, d, ev);
    case _ =>
  }

  lemma {:induction false} EnterRun(s: State, acts: seq<Action>)
    requires Inv(s) && Valid(s, acts)
    ensures Entering(Exec(s, acts)) ==> Entering(s) || exists a :: a in acts && OwnFailure(a)
    ensures Exec(s, acts).once.Fresh? <==> s.once.Fresh? && forall a :: a in acts ==> !EntersOnce(a)
    decreases |acts|
  {
    if acts != [] {
      StepKeepsInv(s, acts[0]);
      StepEnters(s, acts[0]);
      EnterRun(Do(s, acts[0]), acts[1..]);
      assert forall a :: a in acts <==> a == acts[0] || a in acts[1..];
    }
  }

  /** Nobody signals without a cause: Start enters CloseOnce.Do only after a failed setup or
      a panic of its own, and the once is entered exactly when Start or a copy goroutine
      wins it. */
  lemma SignalsForAReason(cfg: Config, acts: seq<Action>)
    requires Valid(Init(cfg), acts)
    ensures var s := Exec(Init(cfg), acts);
            && (s.main.MainEnter? || s.main.MainSend? ==> exists a :: a in acts && OwnFailure(a))
            && (!s.once.Fresh? <==> exists a :: a in acts && EntersOnce(a))
  {
    InitInv(cfg);
    EnterRun(Init(cfg), acts);
  }

  // ----- the watcher

  /** The watcher has closed both connections. */
  predicate WatcherClosedBoth(s: State) {
    s.server.Shut? && s.remote.Shut?
  }

  /** What the watcher leaves when it exits without having taken the token. */
  predicate WatcherDuty(s: State) {
    || WatcherClosedBoth(s) || ContextReleased(s)
    || !(s.watcher.WatcherExited? || s.watcher.Holding?)
  }

  lemma WatcherDutyStep(s: State, w: WatchEvent)
    requires TeardownInv(s) && WatcherEnabled(s, w) && !w.SignalTaken? && !w.Resent?
    ensures WatcherDuty(WatcherDo(s, w))
  {
  }

  lemma DutyLasts(s: State, a: Action)
    requires TeardownInv(s) && PhaseInv(s) && Enabled(s, a) && !a.Watcher? && WatcherDuty(s)
    ensures WatcherDuty(Do(s, a))
  {
    match a
    case Setup(p) => assert !ContextReleased(s);
    case SpawnNext => assert !ContextReleased(s);
    case Main(m) => MainDuty(s, m);
    case RunDeferred => UnwindDuty(s, s.main.stage);
    case Copy(d, ev) =>
    case _ =>
  }

  lemma MainDuty(s: State, m: MainEvent)
    requires MainEnabled(s, m) && WatcherDuty(s)
    ensures WatcherDuty(MainDo(s, m))
  {
  }

  lemma UnwindDuty(s: State, g: Stage)
    requires s.main == Unwinding(g) && WatcherDuty(s)
    ensures WatcherDuty(Unwind(s, g))
  {
  }

  lemma DutyStep(s: State, a: Action)
    requires TeardownInv(s) && PhaseInv(s) && Enabled(s, a) && a != Watcher(SignalTaken)
    requires WatcherDuty(s) && !s.watcher.Holding?
    ensures WatcherDuty(Do(s, a)) && !Do(s, a).watcher.Holding?
  {
    match a
    case Watcher(w) => WatcherDutyStep(s, w);
    case SpawnNext => DutyLasts(s, a);
    case _ => DutyLasts(s, a);
  }

  lemma {:induction false} DutyRun(s: State, acts: seq<Action>)
    requires Inv(s) && Valid(s, acts) && Watcher(SignalTaken) !in acts && WatcherDuty(s)
    requires !s.watcher.Holding?
    ensures WatcherDuty(Exec(s, acts))
    decreases |acts|
  {
    if acts != [] {
      var a := acts[0];
      StepKeepsInv(s, a);
      assert a in acts;
      DutyStep(s, a);
      DutyRun(Do(s, a), acts[1..]);
    }
  }

  /** A watcher that has exited without having taken the token has closed both connections,
      or Start has cancelled the context itself and closes them. */
  lemma WatcherCloses(cfg: Config, acts: seq<Action>)
    requires Valid(Init(cfg), acts) && Watcher(SignalTaken) !in acts
    requires Exec(Init(cfg), acts).watcher.WatcherExited?
    ensures var s := Exec(Init(cfg), acts);
            (s.server.Shut? && s.remote.Shut?) || ContextReleased(s)
  {
    InitInv(cfg);
    DutyRun(Init(cfg), acts);
  }

  // ----- the handshake gate

  /** Start left before it dialed. */
  predicate NeverDialed(s: State) {
    RemoteReleased(s) && s.remote.Absent?
  }

  lemma GateSetup(s: State, p: SetupEvent)
    requires PhaseInv(s) && SetupEnabled(s, p)
    ensures s.main.Handshake? && !p.HandshakeOk? ==> NeverDialed(SetupDo(s, p))
    ensures !NeverDialed(s)
  {
  }

  lemma GateMain(s: State, m: MainEvent)
    requires PhaseInv(s) && MainEnabled(s, m)
    ensures s.main.Handshake? || NeverDialed(s) ==> NeverDialed(MainDo(s, m))
  {
  }

  lemma GateUnwind(s: State, g: Stage)
    requires s.main == Unwinding(g) && NeverDialed(s)
    ensures NeverDialed(Unwind(s, g))
  {
  }

  lemma GateStep(s: State, a: Action)
    requires PhaseInv(s) && Enabled(s, a)
    ensures NeverDialed(s) ==> NeverDialed(Do(s, a))
    ensures s.main.Handshake? && a != Setup(HandshakeOk) ==> Do(s, a).main.Handshake? || NeverDialed(Do(s, a))
  {
    match a
    case Setup(p) => GateSetup(s, p);
    case Main(m) => GateMain(s, m);
    case RunDeferred => if NeverDialed(s) { GateUnwind(s, s.main.stage); }
    case SpawnNext => assert !NeverDialed(s) && !s.main.Handshake?;
    case Watcher(w) => assert !NeverDialed(s) && !s.main.Handshake?;
    case Copy(d, ev) =>
    case _ =>
  }

  lemma {:induction false} GateRun(s: State, acts: seq<Action>)
    requires Inv(s) && Valid(s, acts) && (s.main.Handshake? || NeverDialed(s))
    requires Setup(HandshakeOk) !in acts || NeverDialed(s)
    ensures Exec(s, acts).main.Handshake? || NeverDialed(Exec(s, acts))
    decreases |acts|
  {
    if acts != [] {
      StepKeepsInv(s, acts[0]);
      GateStep(s, acts[0]);
      assert acts[0] in acts;
      GateRun(Do(s, acts[0]), acts[1..]);
    }
  }

  /** On a TLS listener the backend is not dialed before the client's handshake succeeded. */
  lemma NoDialBeforeHandshake(cfg: Config, acts: seq<Action>)
    requires cfg.tls && Valid(Init(cfg), acts)
    ensures var s := Exec(Init(cfg), acts);
            s.main.Dial? || !s.remote.Absent? ==> Setup(HandshakeOk) in acts
  {
    InitInv(cfg);
    RunKeepsInv(Init(cfg), acts);
    if Setup(HandshakeOk) !in acts { GateRun(Init(cfg), acts); }
  }

  // ----- what a connection can do

  lemma {:induction false} RunSnoc(s: State, acts: seq<Action>, a: Action)
    requires Valid(s, acts) && Enabled(Exec(s, acts), a)
    ensures Valid(s, acts + [a]) && Exec(s, acts + [a]) == Do(Exec(s, acts), a)
    decreases |acts|
  {
    var all := acts + [a];
    if acts == [] {
      assert all[1..] == [];
      assert Valid(Do(s, a), all[1..]) && Exec(Do(s, a), all[1..]) == Do(s, a);
    } else {
      assert all[0] == acts[0] && all[1..] == acts[1..] + [a];
      RunSnoc(Do(s, acts[0]), acts[1..], a);
    }
  }

  ghost predicate Reaches(s: State, t: State) {
    exists acts :: Valid(s, acts) && Exec(s, acts) == t
  }

  lemma Then(s: State, t: State, a: Action) returns (u: State)
    requires Reaches(s, t) && Enabled(t, a)
    ensures Reaches(s, u) && u == Do(t, a)
  {
    var acts :| Valid(s, acts) && Exec(s, acts) == t;
    RunSnoc(s, acts, a);
    assert Valid(s, acts + [a]);
    u := Do(t, a);
  }

  /** Start waits, both connections are open, and both copy goroutines are at their head. */
  predicate Flowing(s: State) {
    && s.main.Waiting? && s.up.pc.Head? && s.down.pc.Head?
    && s.server.Open? && s.remote.Open? && !s.child && !s.parent && s.once.Fresh?
  }

  lemma CanDial(cfg: Config) returns (s: State)
    requires !cfg.proxy.Rejected?
    ensures Reaches(Init(cfg), s) && s == Init(cfg).(main := SendHeader, remote := Open)
  {
    s := Init(cfg);
    assert Valid(s, []) && Exec(s, []) == s;
    if cfg.tls {
      s := Then(Init(cfg), s, Setup(HandshakeOk));
    }
    s := Then(Init(cfg), s, Setup(DialOk));
  }

  lemma CanSetUp(cfg: Config) returns (s: State)
    requires !cfg.proxy.Rejected?
    ensures Reaches(Init(cfg), s)
    ensures s == Init(cfg).(main := SpawnWatcher, remote := Open, headerSent := HeaderBytes(cfg))
  {
    s := CanDial(cfg);
    var p := if WritesHeader(cfg) then HeaderWritten(|HeaderBytes(cfg)|) else HeaderSkipped;
    s := Then(Init(cfg), s, Setup(p));
  }

  lemma CanFlow(cfg: Config) returns (s: State)
    requires !cfg.proxy.Rejected?
    ensures Reaches(Init(cfg), s) && Flowing(s) && s.up == STARTED && s.down == STARTED
    ensures s.headerSent == HeaderBytes(cfg) && ErrorCount(s) == 0 && s.cfg == cfg && s.tokens == 0
  {
    s := CanSetUp(cfg);
    s := Then(Init(cfg), s, SpawnNext);
    s := Then(Init(cfg), s, SpawnNext);
    s := Then(Init(cfg), s, SpawnNext);
  }

  lemma CanReadChunk(s0: State, s: State, d: Direction, chunk: Bytes) returns (t: State)
    requires Reaches(s0, s) && Flowing(s) && |chunk| <= 65535
    ensures Reaches(s0, t)
    ensures var p := PipeOf(s, d);
            t == WithPipe(s, d, p.(pc := Write, fetched := p.fetched + chunk, chunk := chunk, written := 0))
  {
    t := Then(s0, s, Copy(d, CtxChecked(false)));
    t := Then(s0, t, Copy(d, ReadOk(chunk)));
  }

  /** One chunk through one direction; nothing else moves. */
  lemma CanCopyChunk(s0: State, s: State, d: Direction, chunk: Bytes) returns (t: State)
    requires Reaches(s0, s) && Flowing(s) && |chunk| <= 65535
    requires PipeOf(s, d).chunk == [] && PipeOf(s, d).written == 0
    ensures Reaches(s0, t)
    ensures var p := PipeOf(s, d);
            t == WithPipe(s, d, p.(fetched := p.fetched + chunk, delivered := p.delivered + chunk,
                                   counted := p.counted + chunk))
  {
    t := CanReadChunk(s0, s, d, chunk);
    if chunk == [] {
      assert PipeOf(t, d).delivered == PipeOf(s, d).delivered + chunk;
    } else {
      t := Then(s0, t, Copy(d, Wrote(|chunk|)));
      assert chunk[0..|chunk|] == chunk;
    }
    t := Then(s0, t, Copy(d, Counted));
  }

  lemma {:induction false} CanCopy(s0: State, s: State, d: Direction, data: Bytes) returns (t: State)
    requires Reaches(s0, s) && Flowing(s)
    requires PipeOf(s, d).chunk == [] && PipeOf(s, d).written == 0
    ensures Reaches(s0, t)
    ensures var p := PipeOf(s, d);
            t == WithPipe(s, d, p.(fetched := p.fetched + data, delivered := p.delivered + data,
                                   counted := p.counted + data))
    decreases |data|
  {
    var n := Min(65535, |data|);
    t := CanCopyChunk(s0, s, d, data[..n]);
    if n < |data| {
      var p := PipeOf(s, d);
      t := CanCopy(s0, t, d, data[n..]);
      assert data == data[..n] + data[n..];
      ConcatAssociates(p.fetched, data[..n], data[n..]);
      ConcatAssociates(p.delivered, data[..n], data[n..]);
      ConcatAssociates(p.counted, data[..n], data[n..]);
    } else {
      assert data[..n] == data;
    }
  }

  /** The proxy works: unless the header version is unknown, for any two byte streams there
      is a run that delivers the one to the backend, behind the header, and the other to the
      client, counts both and raises no error. */
  lemma CanProxy(cfg: Config, toBackend: Bytes, toClient: Bytes) returns (s: State)
    requires !cfg.proxy.Rejected?
    ensures Reaches(Init(cfg), s) && s.main.Waiting?
    ensures BackendBytes(s) == HeaderBytes(cfg) + toBackend && s.up.counted == toBackend
    ensures s.down.delivered == toClient == s.down.counted && ErrorCount(s) == 0
  {
    s := CanFlow(cfg);
    s := CanCopy(Init(cfg), s, Up, toBackend);
    s := CanCopy(Init(cfg), s, Down, toClient);
    NothingBefore(toBackend);
    NothingBefore(toClient);
  }

  /** Any result of a read or write on the two open connections, with no outside cause to stop. */
  predicate Undisturbed(ev: Event) {
    match ev
    case CtxChecked(done) => !done
    case ReadErr(_, _, open) => open
    case WroteErr(_, _, open) => open
    case OnceLost => false
    case _ => true
  }

  /** Nothing but this goroutine itself has begun to end the connection. */
  predicate Free(s: State, d: Direction) {
    && s.server.Open? && s.remote.Open? && !s.child && !s.cfg.honestWriter
    && var pc := PipeOf(s, d).pc;
       && !pc.Idle?
       && (pc.Send? ==> s.once.Firing? && s.tokens == 0)
       && (!pc.Send? && !pc.Exited? ==> s.once.Fresh? && s.tokens == 0)
  }

  lemma FreeStep(s: State, d: Direction, ev: Event)
    requires Free(s, d) && PipeEnabled(PipeOf(s, d), ev) && Undisturbed(ev)
    ensures CopyEnabled(s, d, ev) && Free(CopyDo(s, d, ev), d)
    ensures PipeOf(CopyDo(s, d, ev), d) == PipeDo(PipeOf(s, d), ev)
  {
  }

  lemma {:induction false} CanObserveFrom(s0: State, s: State, d: Direction, trace: seq<Event>) returns (t: State)
    requires Reaches(s0, s) && Free(s, d) && PipeValid(PipeOf(s, d), trace)
    requires forall ev :: ev in trace ==> Undisturbed(ev)
    ensures Reaches(s0, t) && PipeOf(t, d) == PipeExec(PipeOf(s, d), trace)
    decreases |trace|
  {
    t := s;
    if trace != [] {
      assert trace[0] in trace;
      FreeStep(s, d, trace[0]);
      t := Then(s0, s, Copy(d, trace[0]));
      t := CanObserveFrom(s0, t, d, trace[1..]);
    }
  }

  /** Nothing is ruled out: whatever a goroutine could observe on open connections, errors,
      stalls and panics included, some run of the connection shows it in that direction. */
  lemma CanObserve(cfg: Config, d: Direction, trace: seq<Event>) returns (t: State)
    requires !cfg.proxy.Rejected? && !cfg.honestWriter
    requires LoopTrace(trace) && forall ev :: ev in trace ==> Undisturbed(ev)
    ensures PipeValid(STARTED, trace)
    ensures Reaches(Init(cfg), t) && PipeOf(t, d) == PipeExec(STARTED, trace)
  {
    TracesOfPipe(trace);
    t := CanFlow(cfg);
    t := CanObserveFrom(Init(cfg), t, d, trace);
  }

  /** Which connection is which: the client's is read by Up and written by Down, the backend's
      the other way round. A closed one yields nothing and takes nothing; an open one may
      yield anything up to a buffer, whatever has become of the other. */
  lemma EndsOfCopies(s: State, data: Bytes, n: nat)
    ensures !s.server.Open? ==> !Enabled(s, Copy(Up, ReadOk(data))) && !Enabled(s, Copy(Down, Wrote(n)))
    ensures !s.remote.Open? ==> !Enabled(s, Copy(Down, ReadOk(data))) && !Enabled(s, Copy(Up, Wrote(n)))
    ensures s.server.Open? && s.up.pc.Read? && |data| <= 65535 ==> Enabled(s, Copy(Up, ReadOk(data)))
    ensures s.remote.Open? && s.down.pc.Read? && |data| <= 65535 ==> Enabled(s, Copy(Down, ReadOk(data)))
  {
  }
}
