/** The inductive invariant of the connection protocol. */
module ConnectionInvariant {
  import opened Common
  import opened PipeMachine
  import opened Connection

  // ----- how far Start has come

  /** The deferred call that runs next, `Finished` before Exited, if Start is returning. */
  predicate Returning(m: MainPc) {
    m.MainEnter? || m.MainSend? || m.Unwinding? || m.MainExited?
  }

  function NextStage(m: MainPc): Stage
    requires Returning(m)
  {
    match m
    case MainEnter(g) => g
    case MainSend(g) => g
    case Unwinding(g) => g
    case MainExited => Finished
  }

  /** The deferred RemoteConn.Close has run, or there was no backend to close. */
  predicate RemoteReleased(s: State) {
    Returning(s.main) && !NextStage(s.main).CloseRemote?
  }

  /** The deferred connCancel has run. */
  predicate ContextReleased(s: State) {
    Returning(s.main) && (NextStage(s.main).CloseServer? || NextStage(s.main).Finished?)
  }

  /** The deferred ServerConn.Close has run. */
  predicate ServerReleased(s: State) {
    Returning(s.main) && NextStage(s.main).Finished?
  }

  // ----- the invariant, by concern

  function Held(s: State): nat { if s.watcher.Holding? then 1 else 0 }

  function Senders(s: State): nat {
    (if s.main.MainSend? then 1 else 0) + (if s.up.pc.Send? then 1 else 0) + (if s.down.pc.Send? then 1 else 0)
  }

  /** Signal conservation: the channel, the watcher and Start together own exactly one
      token once the once has fired and none before; whoever is inside the once is alone. */
  predicate SignalInv(s: State) {
    && s.tokens + Held(s) + s.consumed == (if s.once.Fired? then 1 else 0)
    && Senders(s) == (if s.once.Firing? then 1 else 0)
    && !s.resendLost
    && (s.consumed > 0 ==> Returning(s.main))
  }

  /** Who may have closed or cancelled what. */
  predicate TeardownInv(s: State) {
    && (ContextReleased(s) ==> s.child)
    && (s.child ==> s.parent || ContextReleased(s))
    && !s.server.Absent?
    && (ServerReleased(s) ==> s.server.Shut?)
    && (RemoteReleased(s) ==> !s.remote.Open?)
    && (s.server.Shut? ==> ServerReleased(s) || (s.parent && (s.watcher.ClosingRemote? || s.watcher.WatcherExited?)))
    && (s.remote.Shut? ==> RemoteReleased(s) || (s.parent && s.watcher.WatcherExited?))
    && (s.watcher.ClosingServer? || s.watcher.ClosingRemote? ==> s.parent)
    && (s.watcher.ClosingRemote? ==> s.server.Shut?)
    && (s.watcher.Checking? ==> s.child)
  }

  /** Which connections and goroutines exist at each point of Start. */
  predicate PhaseInv(s: State) {
    && (s.main.Handshake? || s.main.Dial? ==> s.remote.Absent?)
    && (!s.main.Handshake? && !s.main.Dial? && !RemoteReleased(s) ==> !s.remote.Absent?)
    && (s.main.Handshake? || s.main.Dial? || s.main.SendHeader? || s.main.SpawnWatcher? ==> s.watcher.NotStarted?)
    && (s.main.SpawnUp? || s.main.SpawnDown? || s.main.Waiting? ==> !s.watcher.NotStarted?)
    && (s.main.SpawnUp? ==> s.up.pc.Idle?)
    && (s.main.SpawnDown? ==> !s.up.pc.Idle? && s.down.pc.Idle?)
    && (s.main.Waiting? ==> !s.up.pc.Idle? && !s.down.pc.Idle?)
    && (s.watcher.NotStarted? ==> s.up.pc.Idle?)
    && (s.up.pc.Idle? ==> s.down.pc.Idle?)
    && (!s.watcher.NotStarted? ==> !s.remote.Absent?)
  }

  /** The header. */
  predicate HeaderInv(s: State) {
    && s.headerSent <= HeaderBytes(s.cfg)
    && (s.main.Handshake? || s.main.Dial? || s.main.SendHeader? ==> s.headerSent == [])
  }

  /** A failed setup is reported once, and then no goroutine is ever spawned. */
  ghost predicate ErrorInv(s: State) {
    && |s.setupErrors| <= 1
    && (forall e :: e in s.setupErrors ==> !Benign(e))
    && (s.setupErrors != [] ==> Returning(s.main) && s.watcher.NotStarted?)
  }

  ghost predicate CopyInv(s: State) {
    PipeInv(s.up) && PipeInv(s.down)
  }

  ghost predicate Inv(s: State) {
    SignalInv(s) && TeardownInv(s) && PhaseInv(s) && HeaderInv(s) && ErrorInv(s) && CopyInv(s)
  }

  lemma InitInv(cfg: Config)
    ensures Inv(Init(cfg))
  {
  }

  // ----- setup steps

  lemma SetupKeepsControl(s: State, p: SetupEvent)
    requires SignalInv(s) && TeardownInv(s) && PhaseInv(s) && SetupEnabled(s, p)
    ensures SignalInv(SetupDo(s, p)) && TeardownInv(SetupDo(s, p)) && PhaseInv(SetupDo(s, p))
  {
  }

  lemma SetupKeepsHeader(s: State, p: SetupEvent)
    requires HeaderInv(s) && PhaseInv(s) && SetupEnabled(s, p)
    ensures HeaderInv(SetupDo(s, p))
  {
  }

  lemma SetupKeepsErrors(s: State, p: SetupEvent)
    requires ErrorInv(s) && PhaseInv(s) && SetupEnabled(s, p)
    ensures ErrorInv(SetupDo(s, p))
  {
  }

  lemma SetupKeepsCopies(s: State, p: SetupEvent)
    requires CopyInv(s) && SetupEnabled(s, p)
    ensures CopyInv(SetupDo(s, p))
  {
  }

  // ----- steps of Start after setup

  lemma SpawnKeepsSignal(s: State)
    requires SignalInv(s) && PhaseInv(s) && Spawning(s.main)
    ensures SignalInv(Spawn(s))
  {
  }

  lemma SpawnKeepsPhase(s: State)
    requires TeardownInv(s) && PhaseInv(s) && Spawning(s.main)
    ensures TeardownInv(Spawn(s)) && PhaseInv(Spawn(s))
  {
    var t := Spawn(s);
    assert !Returning(s.main) && !Returning(t.main);
    assert t.server == s.server && t.remote == s.remote && t.parent == s.parent && t.child == s.child;
  }

  lemma SpawnKeepsRest(s: State)
    requires HeaderInv(s) && ErrorInv(s) && PhaseInv(s) && CopyInv(s) && Spawning(s.main)
    ensures HeaderInv(Spawn(s)) && ErrorInv(Spawn(s)) && CopyInv(Spawn(s))
  {
    assert PipeInv(STARTED);
  }

  lemma UnwindKeepsSignal(s: State, g: Stage)
    requires SignalInv(s) && s.main == Unwinding(g)
    ensures SignalInv(Unwind(s, g))
  {
  }

  lemma UnwindKeepsTeardown(s: State, g: Stage)
    requires TeardownInv(s) && s.main == Unwinding(g)
    ensures TeardownInv(Unwind(s, g))
  {
  }

  lemma UnwindKeepsPhase(s: State, g: Stage)
    requires PhaseInv(s) && s.main == Unwinding(g)
    ensures PhaseInv(Unwind(s, g))
  {
  }

  lemma UnwindKeepsRest(s: State, g: Stage)
    requires PhaseInv(s) && HeaderInv(s) && ErrorInv(s) && CopyInv(s) && s.main == Unwinding(g)
    ensures HeaderInv(Unwind(s, g)) && ErrorInv(Unwind(s, g)) && CopyInv(Unwind(s, g))
  {
  }

  lemma UnwindKeepsInv(s: State, g: Stage)
    requires Inv(s) && s.main == Unwinding(g)
    ensures Inv(Unwind(s, g))
  {
    UnwindKeepsSignal(s, g);
    UnwindKeepsTeardown(s, g);
    UnwindKeepsPhase(s, g);
    UnwindKeepsRest(s, g);
  }

  lemma MainKeepsSignal(s: State, m: MainEvent)
    requires SignalInv(s) && PhaseInv(s) && MainEnabled(s, m)
    ensures SignalInv(MainDo(s, m))
  {
  }

  lemma MainKeepsTeardown(s: State, m: MainEvent)
    requires TeardownInv(s) && PhaseInv(s) && MainEnabled(s, m)
    ensures TeardownInv(MainDo(s, m)) && PhaseInv(MainDo(s, m))
  {
  }

  lemma MainKeepsRest(s: State, m: MainEvent)
    requires HeaderInv(s) && ErrorInv(s) && CopyInv(s) && MainEnabled(s, m)
    ensures HeaderInv(MainDo(s, m)) && ErrorInv(MainDo(s, m)) && CopyInv(MainDo(s, m))
  {
  }

  // ----- steps of the watcher and the copy goroutines

  lemma WatcherKeepsControl(s: State, w: WatchEvent)
    requires SignalInv(s) && TeardownInv(s) && PhaseInv(s) && WatcherEnabled(s, w)
    ensures SignalInv(WatcherDo(s, w)) && TeardownInv(WatcherDo(s, w)) && PhaseInv(WatcherDo(s, w))
  {
  }

  lemma WatcherKeepsRest(s: State, w: WatchEvent)
    requires HeaderInv(s) && ErrorInv(s) && PhaseInv(s) && CopyInv(s) && WatcherEnabled(s, w)
    ensures HeaderInv(WatcherDo(s, w)) && ErrorInv(WatcherDo(s, w)) && CopyInv(WatcherDo(s, w))
  {
  }

  lemma CopyKeepsSignal(s: State, d: Direction, ev: Event)
    requires SignalInv(s) && CopyEnabled(s, d, ev)
    ensures SignalInv(CopyDo(s, d, ev))
  {
  }

  lemma CopyKeepsPipes(s: State, d: Direction, ev: Event)
    requires CopyInv(s) && CopyEnabled(s, d, ev)
    ensures CopyInv(CopyDo(s, d, ev))
  {
    PipeStepKeepsInv(PipeOf(s, d), ev);
  }

  /** Replacing the state of a started goroutine does not concern the other parts. */
  lemma ReplacedPipe(s: State, d: Direction, p: Pipe, once: Once, tokens: nat)
    requires TeardownInv(s) && PhaseInv(s) && HeaderInv(s) && ErrorInv(s)
    requires !PipeOf(s, d).pc.Idle? && !p.pc.Idle?
    ensures var t := WithPipe(s, d, p).(once := once, tokens := tokens);
            TeardownInv(t) && PhaseInv(t) && HeaderInv(t) && ErrorInv(t)
  {
  }

  lemma CopyReplacesPipe(s: State, d: Direction, ev: Event)
    requires CopyEnabled(s, d, ev)
    ensures var t, p := CopyDo(s, d, ev), PipeDo(PipeOf(s, d), ev);
            t == WithPipe(s, d, p).(once := t.once, tokens := t.tokens) && !PipeOf(s, d).pc.Idle? && !p.pc.Idle?
  {
  }

  lemma CopyKeepsRest(s: State, d: Direction, ev: Event)
    requires TeardownInv(s) && PhaseInv(s) && HeaderInv(s) && ErrorInv(s) && CopyEnabled(s, d, ev)
    ensures var t := CopyDo(s, d, ev); TeardownInv(t) && PhaseInv(t) && HeaderInv(t) && ErrorInv(t)
  {
    CopyReplacesPipe(s, d, ev);
    var t := CopyDo(s, d, ev);
    ReplacedPipe(s, d, PipeDo(PipeOf(s, d), ev), t.once, t.tokens);
  }

  lemma CopyKeepsInv(s: State, d: Direction, ev: Event)
    requires Inv(s) && CopyEnabled(s, d, ev)
    ensures Inv(CopyDo(s, d, ev))
  {
    CopyKeepsSignal(s, d, ev);
    CopyKeepsPipes(s, d, ev);
    CopyKeepsRest(s, d, ev);
  }

  // ----- every step, every run

  lemma StepKeepsInv(s: State, a: Action)
    requires Inv(s) && Enabled(s, a)
    ensures Inv(Do(s, a))
  {
    match a
    case Setup(p) =>
      SetupKeepsControl(s, p);
      SetupKeepsHeader(s, p);
      SetupKeepsErrors(s, p);
      SetupKeepsCopies(s, p);
    case SpawnNext =>
      SpawnKeepsSignal(s);
      SpawnKeepsPhase(s);
      SpawnKeepsRest(s);
    case RunDeferred => UnwindKeepsInv(s, s.main.stage);
    case Main(m) =>
      MainKeepsSignal(s, m);
      MainKeepsTeardown(s, m);
      MainKeepsRest(s, m);
    case Watcher(w) =>
      WatcherKeepsControl(s, w);
      WatcherKeepsRest(s, w);
    case Copy(d, ev) => CopyKeepsInv(s, d, ev);
    case _ =>
  }

  /** The invariant holds in every state of every run. */
  lemma {:induction false} RunKeepsInv(s: State, acts: seq<Action>)
    requires Inv(s) && Valid(s, acts)
    ensures Inv(Exec(s, acts))
    decreases |acts|
  {
    if acts != [] {
      StepKeepsInv(s, acts[0]);
      RunKeepsInv(Do(s, acts[0]), acts[1..]);
    }
  }
}
