/** What holds in every run of one proxied connection. */
module ConnectionTheorems {
  import opened Common
  import opened PipeMachine
  import opened Connection
  import opened ConnectionInvariant

  // ----- the signal

  /** In every run the single token is in the channel, with the watcher or consumed by
      Start, exactly when the once has fired. Hence no send inside the once blocks, and
      the watcher's re-send never takes its default branch. */
  lemma SignalConservation(cfg: Config, acts: seq<Action>)
    requires Valid(Init(cfg), acts)
    ensures var s := Exec(Init(cfg), acts);
            && s.tokens + Held(s) + s.consumed == (if s.once.Fired? then 1 else 0)
            && (s.main.MainSend? || s.up.pc.Send? || s.down.pc.Send? || s.watcher.Holding? ==> s.tokens == 0)
            && Senders(s) <= 1
            && !s.resendLost
  {
    InitInv(cfg);
    RunKeepsInv(Init(cfg), acts);
  }

  // ----- progress

  /** The action needs nothing from a peer: it is a local step, an operation on a
      connection this process has closed, or an operation bounded by a deadline. */
  predicate Auto(s: State, a: Action) {
    && Enabled(s, a)
    && match a
       case Setup(p) =>
         (match p
          case HandshakeFailed => true
          case DialFailed(_) => true
          case HeaderSkipped => true
          case HeaderRejected => true
          case HeaderFailed(_, e) => s.cfg.writeTimeout && e == Timeout
          case _ => false)
       case Main(m) => !m.MainPanicked?
       case SpawnNext => true
       case RunDeferred => true
       case Watcher(_) => true
       case Copy(d, ev) =>
         (match ev
          case ReadErr(_, _, _) => !Source(s, d).Open?
          case WroteErr(_, _, _) => !Target(s, d).Open?
          case ReadOk(_) => false
          case Wrote(_) => false
          case Panicked => false
          case _ => true)
       case _ => false
  }

  /** The connection has been told to end. */
  predicate TeardownStarted(s: State) {
    !s.once.Fresh? || s.parent
  }

  predicate AllDone(s: State) {
    && s.main.MainExited?
    && (s.watcher.NotStarted? || s.watcher.WatcherExited?)
    && (s.up.pc.Idle? || s.up.pc.Exited?)
    && (s.down.pc.Idle? || s.down.pc.Exited?)
  }

  /** Start is inside the header write without a write deadline; the goroutine that
      would close the connection on shutdown has not been spawned yet. */
  predicate HeaderBlocked(s: State) {
    s.main.SendHeader? && WritesHeader(s.cfg) && !s.cfg.writeTimeout
  }

  /** A step of Start or its watcher. */
  predicate Control(a: Action) {
    a.Setup? || a.SpawnNext? || a.Main? || a.RunDeferred? || a.Watcher?
  }

  /** A step that brings the teardown on: one of Start or its watcher, or the send. */
  predicate Closing(a: Action) {
    Control(a) || (a.Copy? && a.ev.Sent?)
  }

  /** The next step of a copy goroutine whose connections are both closed. */
  function CopyStep(s: State, d: Direction): Event
    requires !PipeOf(s, d).pc.Idle? && !PipeOf(s, d).pc.Exited?
  {
    var p := PipeOf(s, d);
    match p.pc
    case Read => ReadErr([], Closed, false)
    case Write => if p.written < |p.chunk| then WroteErr(0, Closed, false) else Counted
    case Enter => if s.once.Fresh? then OnceWon else OnceLost
    case Send => Sent
    case _ => CtxChecked(s.child)
  }

  lemma CopyCanStep(s: State, d: Direction)
    requires Inv(s) && !Source(s, d).Open? && !Target(s, d).Open?
    requires !PipeOf(s, d).pc.Idle? && !PipeOf(s, d).pc.Exited?
    requires !s.once.Firing? || PipeOf(s, d).pc.Send?
    ensures Auto(s, Copy(d, CopyStep(s, d)))
  {
  }

  /** Whoever is inside the once can leave it. */
  lemma SenderCanStep(s: State) returns (a: Action)
    requires Inv(s) && s.once.Firing?
    ensures Auto(s, a) && Closing(a)
  {
    if s.main.MainSend? {
      a := Main(MainSent);
    } else if s.up.pc.Send? {
      a := Copy(Up, Sent);
    } else {
      a := Copy(Down, Sent);
    }
  }

  /** While Start has not returned, Start itself, the watcher holding the token or the
      goroutine inside the once can step. */
  lemma StartCanStep(s: State) returns (a: Action)
    requires Inv(s) && TeardownStarted(s) && !s.main.MainExited? && !HeaderBlocked(s)
    ensures Auto(s, a) && Closing(a)
  {
    match s.main
    case Handshake => a := Setup(HandshakeFailed);
    case Dial => a := Setup(DialFailed(Timeout));
    case SendHeader =>
      a := Setup(if s.cfg.proxy.Rejected? then HeaderRejected
                 else if WritesHeader(s.cfg) then HeaderFailed(0, Timeout)
                 else HeaderSkipped);
    case Waiting =>
      if s.parent { a := Main(ShutdownSeen); }
      else if s.once.Firing? { a := SenderCanStep(s); }
      else if s.tokens > 0 { a := Main(TokenTaken); }
      else { a := Watcher(Resent); }
    case MainEnter(_) =>
      if s.once.Firing? { a := SenderCanStep(s); }
      else { a := Main(if s.once.Fresh? then MainWon else MainLost); }
    case MainSend(_) => a := Main(MainSent);
    case Unwinding(_) => a := RunDeferred;
    case _ => a := SpawnNext;
  }

  /** After Start has returned, the goroutines it left behind can finish. */
  lemma RestCanStep(s: State) returns (a: Action)
    requires Inv(s) && s.main.MainExited? && !AllDone(s)
    ensures Auto(s, a)
  {
    a := Watcher(Resent);
    match s.watcher
    case NotStarted => assert false;
    case Selecting => a := Watcher(DoneSeen);
    case Checking => a := Watcher(ParentChecked);
    case ClosingServer => a := Watcher(WatcherClosed);
    case ClosingRemote => a := Watcher(WatcherClosed);
    case Holding =>
    case WatcherExited =>
      if s.once.Firing? {
        a := SenderCanStep(s);
      } else {
        var d := if s.up.pc.Idle? || s.up.pc.Exited? then Down else Up;
        CopyCanStep(s, d);
        a := Copy(d, CopyStep(s, d));
      }
  }

  lemma NothingLeft(s: State, a: Action)
    requires Inv(s) && (AllDone(s) || HeaderBlocked(s))
    ensures !Auto(s, a)
  {
  }

  /** No lost wakeup and no deadlock, exactly: once the connection has been told to end,
      some goroutine can step without its peers, unless everything has exited or Start is
      still in a header write that has no deadline. */
  lemma TeardownProgressIff(cfg: Config, acts: seq<Action>)
    requires Valid(Init(cfg), acts) && TeardownStarted(Exec(Init(cfg), acts))
    ensures var s := Exec(Init(cfg), acts);
            (exists a :: Auto(s, a)) <==> !AllDone(s) && !HeaderBlocked(s)
  {
    var s := Exec(Init(cfg), acts);
    InitInv(cfg);
    RunKeepsInv(Init(cfg), acts);
    if AllDone(s) || HeaderBlocked(s) {
      forall a ensures !Auto(s, a) { NothingLeft(s, a); }
    } else if s.main.MainExited? {
      var a := RestCanStep(s);
    } else {
      var a := StartCanStep(s);
    }
  }

  /** The exception is reachable: a shutdown that arrives during the header write. */
  lemma ShutdownDuringHeaderWrite(header: Bytes)
    requires header != []
    ensures var cfg := Config(false, Header(header), false, true);
            var acts := [Setup(DialOk), CancelParent];
            Valid(Init(cfg), acts) && TeardownStarted(Exec(Init(cfg), acts)) && !AllDone(Exec(Init(cfg), acts))
            && forall a :: !Auto(Exec(Init(cfg), acts), a)
  {
    var cfg := Config(false, Header(header), false, true);
    var acts := [Setup(DialOk), CancelParent];
    TwoSteps(Init(cfg), acts);
    TeardownProgressIff(cfg, acts);
  }

  // ----- termination: ranks that every goroutine only moves down

  function StageRank(g: Stage): nat {
    match g
    case CloseRemote => 5
    case CancelDial => 4
    case CancelConn => 3
    case CloseServer => 2
    case Finished => 1
  }

  function MainRank(m: MainPc): (r: nat)
    ensures r <= 22
  {
    match m
    case Handshake => 22
    case Dial => 21
    case SendHeader => 20
    case SpawnWatcher => 19
    case SpawnUp => 18
    case SpawnDown => 17
    case Waiting => 16
    case MainEnter(g) => 3 * StageRank(g)
    case MainSend(g) => 3 * StageRank(g) - 1
    case Unwinding(g) => 3 * StageRank(g) - 2
    case MainExited => 0
  }

  function WatcherRank(w: WatcherPc): (r: nat)
    ensures r <= 6
  {
    match w
    case NotStarted => 6
    case Selecting => 5
    case Checking => 4
    case ClosingServer => 3
    case ClosingRemote => 2
    case Holding => 1
    case WatcherExited => 0
  }

  function PipeRank(pc: Pc): (r: nat)
    ensures r <= 8
  {
    match pc
    case Idle => 8
    case Write => 7
    case Head => 6
    case Read => 5
    case ReadFailed(_, _) => 4
    case WriteFailed(_, _) => 4
    case Enter => 2
    case Send => 1
    case Exited => 0
  }

  function ControlRank(s: State): nat {
    MainRank(s.main) + WatcherRank(s.watcher)
  }

  /** Start's and the watcher's steps, and one more while the send is still to come. */
  function ClosingRank(s: State): (r: nat)
    ensures r <= 29
  {
    ControlRank(s) + (if s.once.Fired? then 0 else 1)
  }

  function ClosingSteps(acts: seq<Action>): nat {
    if acts == [] then 0 else (if Closing(acts[0]) then 1 else 0) + ClosingSteps(acts[1..])
  }

  lemma SetupRankFalls(s: State, p: SetupEvent)
    requires SetupEnabled(s, p)
    ensures ControlRank(SetupDo(s, p)) < ControlRank(s)
  {
  }

  lemma SpawnRankFalls(s: State)
    requires PhaseInv(s) && Spawning(s.main)
    ensures ControlRank(Spawn(s)) < ControlRank(s)
  {
  }

  lemma UnwindRankFalls(s: State, g: Stage)
    requires s.main == Unwinding(g)
    ensures ControlRank(Unwind(s, g)) < ControlRank(s)
  {
  }

  lemma MainRankFalls(s: State, m: MainEvent)
    requires MainEnabled(s, m)
    ensures ControlRank(MainDo(s, m)) < ControlRank(s)
  {
  }

  lemma WatcherRankFalls(s: State, w: WatchEvent)
    requires WatcherEnabled(s, w)
    ensures ControlRank(WatcherDo(s, w)) < ControlRank(s)
  {
  }

  lemma ControlRankFalls(s: State, a: Action)
    requires PhaseInv(s) && Enabled(s, a)
    ensures if Control(a) then ControlRank(Do(s, a)) < ControlRank(s) else ControlRank(Do(s, a)) == ControlRank(s)
  {
    match a
    case Setup(p) => SetupRankFalls(s, p);
    case SpawnNext => SpawnRankFalls(s);
    case Main(m) => MainRankFalls(s, m);
    case RunDeferred => UnwindRankFalls(s, s.main.stage);
    case Watcher(w) => WatcherRankFalls(s, w);
    case _ =>
  }

  lemma CopyFiringLasts(s: State, d: Direction, ev: Event)
    requires SignalInv(s) && CopyEnabled(s, d, ev)
    ensures s.once.Fired? ==> CopyDo(s, d, ev).once.Fired?
    ensures ev.Sent? ==> !s.once.Fired? && CopyDo(s, d, ev).once.Fired?
  {
  }

  lemma MainFiringLasts(s: State, m: MainEvent)
    requires SignalInv(s) && MainEnabled(s, m)
    ensures s.once.Fired? ==> MainDo(s, m).once.Fired?
  {
  }

  lemma FiringLasts(s: State, a: Action)
    requires SignalInv(s) && Enabled(s, a)
    ensures s.once.Fired? ==> Do(s, a).once.Fired?
    ensures a.Copy? && a.ev.Sent? ==> !s.once.Fired? && Do(s, a).once.Fired?
  {
    match a
    case Copy(d, ev) => CopyFiringLasts(s, d, ev);
    case Main(m) => MainFiringLasts(s, m);
    case _ =>
  }

  lemma ClosingRankFalls(s: State, a: Action)
    requires PhaseInv(s) && SignalInv(s) && Enabled(s, a)
    ensures if Closing(a) then ClosingRank(Do(s, a)) < ClosingRank(s) else ClosingRank(Do(s, a)) <= ClosingRank(s)
  {
    ControlRankFalls(s, a);
    FiringLasts(s, a);
  }

  lemma {:induction false} ClosingRun(s: State, acts: seq<Action>)
    requires Inv(s) && Valid(s, acts)
    ensures ClosingSteps(acts) + ClosingRank(Exec(s, acts)) <= ClosingRank(s)
    decreases |acts|
  {
    if acts != [] {
      StepKeepsInv(s, acts[0]);
      ClosingRankFalls(s, acts[0]);
      ClosingRun(Do(s, acts[0]), acts[1..]);
    }
  }

  /** The copy goroutines cannot put off the closing of the connections: no run has more
      than 29 closing steps, and as long as a connection that was told to end is still
      open, a closing step is enabled (unless the header write blocks). */
  lemma ClosingIsBounded(cfg: Config, acts: seq<Action>)
    requires Valid(Init(cfg), acts)
    ensures ClosingSteps(acts) <= 29
    ensures var s := Exec(Init(cfg), acts);
            TeardownStarted(s) && !BothClosed(s) && !HeaderBlocked(s) ==> exists a :: Auto(s, a) && Closing(a)
  {
    InitInv(cfg);
    ClosingRun(Init(cfg), acts);
    RunKeepsInv(Init(cfg), acts);
    var s := Exec(Init(cfg), acts);
    if TeardownStarted(s) && !BothClosed(s) && !HeaderBlocked(s) {
      var a := StartCanStep(s);
    }
  }

  predicate BothClosed(s: State) {
    s.server.Shut? && !s.remote.Open?
  }

  function Measure(s: State): (r: nat)
    ensures r <= 46
  {
    ControlRank(s) + PipeRank(s.up.pc) + PipeRank(s.down.pc) + (if s.parent then 0 else 1) + (if s.child then 0 else 1)
  }

  lemma CopyMeasureFalls(s: State, d: Direction, ev: Event)
    requires BothClosed(s) && CopyEnabled(s, d, ev)
    ensures BothClosed(CopyDo(s, d, ev)) && Measure(CopyDo(s, d, ev)) < Measure(s)
  {
    assert PipeRank(PipeDo(PipeOf(s, d), ev).pc) < PipeRank(PipeOf(s, d).pc);
  }

  lemma SpawnMeasureFalls(s: State)
    requires PhaseInv(s) && BothClosed(s) && Spawning(s.main)
    ensures BothClosed(Spawn(s)) && Measure(Spawn(s)) < Measure(s)
  {
    SpawnRankFalls(s);
  }

  lemma UnwindMeasureFalls(s: State, g: Stage)
    requires BothClosed(s) && s.main == Unwinding(g)
    ensures BothClosed(Unwind(s, g)) && Measure(Unwind(s, g)) < Measure(s)
  {
    UnwindRankFalls(s, g);
  }

  lemma MainMeasureFalls(s: State, m: MainEvent)
    requires BothClosed(s) && MainEnabled(s, m)
    ensures BothClosed(MainDo(s, m)) && Measure(MainDo(s, m)) < Measure(s)
  {
    MainRankFalls(s, m);
  }

  lemma WatcherMeasureFalls(s: State, w: WatchEvent)
    requires BothClosed(s) && WatcherEnabled(s, w)
    ensures BothClosed(WatcherDo(s, w)) && Measure(WatcherDo(s, w)) < Measure(s)
  {
    WatcherRankFalls(s, w);
  }

  lemma MeasureFalls(s: State, a: Action)
    requires Inv(s) && BothClosed(s) && Enabled(s, a)
    ensures BothClosed(Do(s, a)) && Measure(Do(s, a)) < Measure(s)
  {
    match a
    case Setup(p) => assert false; // the server connection stays open through setup
    case Main(m) => MainMeasureFalls(s, m);
    case SpawnNext => SpawnMeasureFalls(s);
    case RunDeferred => UnwindMeasureFalls(s, s.main.stage);
    case Watcher(w) => WatcherMeasureFalls(s, w);
    case Copy(d, ev) => CopyMeasureFalls(s, d, ev);
    case _ =>
  }

  lemma {:induction false} ClosedRun(s: State, acts: seq<Action>)
    requires Inv(s) && BothClosed(s) && Valid(s, acts)
    ensures BothClosed(Exec(s, acts)) && |acts| + Measure(Exec(s, acts)) <= Measure(s)
    decreases |acts|
  {
    if acts != [] {
      StepKeepsInv(s, acts[0]);
      MeasureFalls(s, acts[0]);
      ClosedRun(Do(s, acts[0]), acts[1..]);
    }
  }

  /** With both connections closed, whoever is left can step. */
  lemma ClosedCanStep(s: State) returns (a: Action)
    requires Inv(s) && BothClosed(s) && !AllDone(s)
    ensures Auto(s, a)
  {
    if s.main.MainExited? {
      a := RestCanStep(s);
    } else if s.main.Unwinding? {
      a := RunDeferred;
    } else if s.main.MainEnter? && s.once.Fresh? {
      a := Main(MainWon);
    } else {
      a := StartCanStep(s);
    }
  }

  /** Bounded teardown: from any reachable state in which both connections are closed, no
      schedule and no environment can take more than 46 further steps, and a run that
      cannot be continued has ended every goroutine. */
  lemma BoundedTeardown(cfg: Config, before: seq<Action>, acts: seq<Action>)
    requires Valid(Init(cfg), before) && BothClosed(Exec(Init(cfg), before))
    requires Valid(Exec(Init(cfg), before), acts)
    ensures |acts| <= 46
    ensures var s := Exec(Exec(Init(cfg), before), acts);
            (forall a :: !Auto(s, a)) ==> AllDone(s)
  {
    var s0 := Exec(Init(cfg), before);
    InitInv(cfg);
    RunKeepsInv(Init(cfg), before);
    ClosedRun(s0, acts);
    RunKeepsInv(s0, acts);
    var s := Exec(s0, acts);
    if !AllDone(s) {
      var a := ClosedCanStep(s);
    }
  }

  // ----- each copy goroutine runs its own automaton

  /** What one copy goroutine observed in a run. */
  function EventsOf(acts: seq<Action>, d: Direction): seq<Event> {
    if acts == [] then []
    else (if acts[0].Copy? && acts[0].d == d then [acts[0].ev] else []) + EventsOf(acts[1..], d)
  }

  lemma {:induction false} EventHappened(acts: seq<Action>, d: Direction, ev: Event)
    ensures ev in EventsOf(acts, d) <==> Copy(d, ev) in acts
  {
    if acts != [] {
      EventHappened(acts[1..], d, ev);
      assert Copy(d, ev) in acts <==> acts[0] == Copy(d, ev) || Copy(d, ev) in acts[1..];
    }
  }

  lemma CopyMovesPipe(s: State, d: Direction, ev: Event)
    requires CopyEnabled(s, d, ev)
    ensures !PipeOf(s, d).pc.Idle? && PipeEnabled(PipeOf(s, d), ev) && Truthful(ev)
    ensures PipeOf(CopyDo(s, d, ev), d) == PipeDo(PipeOf(s, d), ev)
    ensures !PipeDo(PipeOf(s, d), ev).pc.Idle?
  {
  }

  /** Any other action leaves the goroutine alone, or starts it. */
  lemma OthersLeavePipe(s: State, a: Action, d: Direction)
    requires PhaseInv(s) && Enabled(s, a) && !(a.Copy? && a.d == d)
    ensures PipeOf(Do(s, a), d) == PipeOf(s, d) || (PipeOf(s, d).pc.Idle? && PipeOf(Do(s, a), d) == STARTED)
  {
    match a
    case Copy(e, ev) =>
    case SpawnNext =>
    case _ =>
  }

  /** The goroutine as it stands, or as it will start. */
  function Running(p: Pipe): Pipe {
    if p.pc.Idle? then STARTED else p
  }

  lemma StepProjects(s: State, a: Action, d: Direction)
    requires PhaseInv(s) && Enabled(s, a)
    ensures var p, q := Running(PipeOf(s, d)), Running(PipeOf(Do(s, a), d));
            if a.Copy? && a.d == d then PipeEnabled(p, a.ev) && Truthful(a.ev) && q == PipeDo(p, a.ev) else q == p
    ensures PipeOf(Do(s, a), d).pc.Idle? ==> PipeOf(s, d).pc.Idle? && !(a.Copy? && a.d == d)
  {
    if a.Copy? && a.d == d {
      CopyMovesPipe(s, d, a.ev);
    } else {
      OthersLeavePipe(s, a, d);
    }
  }

  /** In a run of the connection each copy goroutine follows a run of its automaton. */
  lemma {:induction false} Projected(s: State, acts: seq<Action>, d: Direction)
    requires Inv(s) && Valid(s, acts)
    ensures PipeValid(Running(PipeOf(s, d)), EventsOf(acts, d))
    ensures Running(PipeOf(Exec(s, acts), d)) == PipeExec(Running(PipeOf(s, d)), EventsOf(acts, d))
    ensures PipeOf(Exec(s, acts), d).pc.Idle? ==> PipeOf(s, d).pc.Idle? && EventsOf(acts, d) == []
    decreases |acts|
  {
    if acts != [] {
      StepKeepsInv(s, acts[0]);
      StepProjects(s, acts[0], d);
      Projected(Do(s, acts[0]), acts[1..], d);
      var evs := EventsOf(acts, d);
      if acts[0].Copy? && acts[0].d == d {
        assert evs[0] == acts[0].ev && evs[1..] == EventsOf(acts[1..], d);
      } else {
        assert evs == EventsOf(acts[1..], d);
      }
    }
  }

  lemma ProjectedRun(cfg: Config, acts: seq<Action>, d: Direction)
    requires Valid(Init(cfg), acts)
    ensures PipeValid(STARTED, EventsOf(acts, d))
    ensures var p := PipeOf(Exec(Init(cfg), acts), d);
            if p.pc.Idle? then p == UNSTARTED && EventsOf(acts, d) == []
            else p == PipeExec(STARTED, EventsOf(acts, d))
  {
    InitInv(cfg);
    RunKeepsInv(Init(cfg), acts);
    Projected(Init(cfg), acts, d);
    assert PipeInv(PipeOf(Exec(Init(cfg), acts), d));
  }

  // ----- the streams

  /** The concatenated error-free reads of one direction in a run. */
  function ReadsOf(acts: seq<Action>, d: Direction): Bytes {
    ReadBytes(EventsOf(acts, d))
  }

  /** Stream fidelity over whole runs: each destination holds a prefix of the error-free
      reads of its source, in order and without duplication, at most one buffer behind,
      and exactly those reads at each loop head. */
  lemma Streams(cfg: Config, acts: seq<Action>, d: Direction)
    requires Valid(Init(cfg), acts)
    ensures var p := PipeOf(Exec(Init(cfg), acts), d);
            && p.delivered <= ReadsOf(acts, d)
            && |p.delivered| == AcceptedBytes(EventsOf(acts, d))
            && |ReadsOf(acts, d)| - |p.delivered| <= 65535
            && (p.pc.Head? ==> p.delivered == ReadsOf(acts, d))
  {
    ProjectedRun(cfg, acts, d);
    StreamFidelity(EventsOf(acts, d));
  }

  /** What an exited goroutine lost and left uncounted, from what it observed in the run. */
  lemma LossesIff(cfg: Config, acts: seq<Action>, d: Direction)
    requires Valid(Init(cfg), acts) && PipeOf(Exec(Init(cfg), acts), d).pc.Exited?
    ensures var p := PipeOf(Exec(Init(cfg), acts), d);
            && (p.delivered == OfferedBytes(EventsOf(acts, d)) <==> AllLossless(EventsOf(acts, d), 0))
            && (p.delivered == p.counted <==> AllAccounted(EventsOf(acts, d), 0))
  {
    ProjectedRun(cfg, acts, d);
    EverythingArrivesIff(EventsOf(acts, d));
    EverythingCountedIff(EventsOf(acts, d));
  }

  // ----- the header

  /** The header write took less than the header and reported no error. */
  predicate ShortWrite(cfg: Config, a: Action) {
    a.Setup? && a.p.HeaderWritten? && a.p.n < |HeaderBytes(cfg)|
  }

  predicate ShortHeader(cfg: Config, acts: seq<Action>) {
    exists i :: 0 <= i < |acts| && ShortWrite(cfg, acts[i])
  }

  lemma ShortHeaderStep(cfg: Config, acts: seq<Action>)
    requires acts != []
    ensures ShortHeader(cfg, acts) <==> ShortWrite(cfg, acts[0]) || ShortHeader(cfg, acts[1..])
  {
    if i :| 0 <= i < |acts| && ShortWrite(cfg, acts[i]) {
      assert i > 0 ==> ShortWrite(cfg, acts[1..][i - 1]);
    }
    if i :| 0 <= i < |acts[1..]| && ShortWrite(cfg, acts[1..][i]) {
      assert ShortWrite(cfg, acts[i + 1]);
    }
  }

  /** Start is done with the header, one way or the other. */
  predicate PastHeader(s: State) {
    !s.main.Handshake? && !s.main.Dial? && !s.main.SendHeader?
  }

  /** Start got through setup. */
  predicate SetUp(s: State) {
    s.main.SpawnWatcher? || !s.watcher.NotStarted?
  }

  lemma SetupHeaderStep(s: State, p: SetupEvent)
    requires PhaseInv(s) && HeaderInv(s) && SetupEnabled(s, p)
    ensures !PastHeader(s)
    ensures var t := SetupDo(s, p);
            && (SetUp(t) ==> (t.headerSent == HeaderBytes(s.cfg) <==> !ShortWrite(s.cfg, Setup(p))))
            && (!PastHeader(t) ==> !ShortWrite(s.cfg, Setup(p)))
  {
  }

  lemma MainHeaderStep(s: State, m: MainEvent)
    requires MainEnabled(s, m)
    ensures PastHeader(MainDo(s, m)) && !MainDo(s, m).main.SpawnWatcher?
  {
  }

  lemma UnwindHeaderStep(s: State, g: Stage)
    ensures PastHeader(Unwind(s, g)) && !Unwind(s, g).main.SpawnWatcher?
  {
  }

  lemma SpawnHeaderStep(s: State)
    requires PhaseInv(s) && Spawning(s.main)
    ensures PastHeader(Spawn(s)) && SetUp(s)
  {
  }

  lemma LaterHeaderStep(s: State, a: Action)
    requires PhaseInv(s) && Enabled(s, a) && !a.Setup?
    ensures Do(s, a).headerSent == s.headerSent && (PastHeader(s) ==> PastHeader(Do(s, a)))
    ensures SetUp(Do(s, a)) ==> SetUp(s)
  {
    match a
    case Main(m) => MainHeaderStep(s, m);
    case RunDeferred => UnwindHeaderStep(s, s.main.stage);
    case SpawnNext => SpawnHeaderStep(s);
    case _ =>
  }

  lemma {:induction false} HeaderRun(s: State, acts: seq<Action>)
    requires Inv(s) && Valid(s, acts)
    ensures PastHeader(s) && !SetUp(s) ==> !SetUp(Exec(s, acts))
    ensures SetUp(Exec(s, acts)) ==>
              (Exec(s, acts).headerSent == HeaderBytes(s.cfg) <==>
                 (SetUp(s) ==> s.headerSent == HeaderBytes(s.cfg)) && !ShortHeader(s.cfg, acts))
    decreases |acts|
  {
    if acts != [] {
      var a := acts[0];
      StepKeepsInv(s, a);
      ShortHeaderStep(s.cfg, acts);
      HeaderRun(Do(s, a), acts[1..]);
      match a
      case Setup(p) => SetupHeaderStep(s, p);
      case _ => LaterHeaderStep(s, a);
    }
  }

  /** No pipe byte precedes the header: until setup is through, the backend has received a
      prefix of the header; from then on it has received what the header write took and
      then a prefix of the client's bytes. What the write took is the whole header exactly
      unless it fell short without an error, which tcp.go does not notice. */
  lemma HeaderFirst(cfg: Config, acts: seq<Action>)
    requires Valid(Init(cfg), acts)
    ensures var s := Exec(Init(cfg), acts);
            && s.headerSent <= HeaderBytes(cfg)
            && (!SetUp(s) ==> BackendBytes(s) == s.headerSent)
            && (SetUp(s) ==> (s.headerSent == HeaderBytes(cfg) <==> !ShortHeader(cfg, acts)))
            && s.up.delivered <= ReadsOf(acts, Up)
  {
    var s := Exec(Init(cfg), acts);
    InitInv(cfg);
    RunKeepsInv(Init(cfg), acts);
    ConfigIsFixed(Init(cfg), acts);
    HeaderRun(Init(cfg), acts);
    Streams(cfg, acts, Up);
    if s.up.pc.Idle? { assert s.up.delivered == []; }
  }

  /** The witness: a header write that takes one byte of two and reports nothing lets
      Start go on to spawn the copy goroutines. */
  lemma ShortHeaderGoesUnnoticed(a: byte, b: byte)
    ensures var cfg := Config(false, Header([a, b]), true, false);
            var acts := [Setup(DialOk), Setup(HeaderWritten(1))];
            && Valid(Init(cfg), acts)
            && Exec(Init(cfg), acts).main.SpawnWatcher? && BackendBytes(Exec(Init(cfg), acts)) == [a]
  {
    var cfg := Config(false, Header([a, b]), true, false);
    var acts := [Setup(DialOk), Setup(HeaderWritten(1))];
    TwoSteps(Init(cfg), acts);
  }

  lemma TwoSteps(s: State, acts: seq<Action>)
    requires |acts| == 2 && Enabled(s, acts[0]) && Enabled(Do(s, acts[0]), acts[1])
    ensures Valid(s, acts) && Exec(s, acts) == Do(Do(s, acts[0]), acts[1])
  {
    var s1 := Do(s, acts[0]);
    var s2 := Do(s1, acts[1]);
    var rest := acts[1..];
    assert rest == [acts[1]] && rest[1..] == [];
    assert Valid(s2, rest[1..]) && Exec(s2, rest[1..]) == s2;
    assert Valid(s1, rest) && Exec(s1, rest) == s2;
  }

  lemma {:induction false} ConfigIsFixed(s: State, acts: seq<Action>)
    requires Valid(s, acts)
    ensures Exec(s, acts).cfg == s.cfg
    decreases |acts|
  {
    if acts != [] {
      ConfigIsFixed(Do(s, acts[0]), acts[1..]);
    }
  }

  // ----- writers that keep their contract

  lemma HonestStep(s: State, a: Action)
    requires s.cfg.honestWriter && Enabled(s, a)
    ensures !ShortWrite(s.cfg, a) && !(a.Copy? && a.ev == Wrote(0))
  {
  }

  /** Under the io.Writer contract no header write falls short and no write stalls. */
  lemma {:induction false} HonestRun(s: State, acts: seq<Action>)
    requires s.cfg.honestWriter && Valid(s, acts)
    ensures !ShortHeader(s.cfg, acts) && forall d :: Copy(d, Wrote(0)) !in acts
    decreases |acts|
  {
    if acts != [] {
      HonestStep(s, acts[0]);
      HonestRun(Do(s, acts[0]), acts[1..]);
      ShortHeaderStep(s.cfg, acts);
    }
  }

  // ----- the error metric

  /** In every run a connection raises the error metric at most twice, at most once if
      setup fails (and then no goroutine was spawned). A copy goroutine raises it only for
      a stalled write, or for an error that is not EOF, not net.ErrClosed and not a timeout,
      on a connection this process had not closed, while the context was live; and only
      for the latter exactly when no Write in the run accepted nothing and reported nothing. */
  lemma ErrorClassification(cfg: Config, acts: seq<Action>)
    requires Valid(Init(cfg), acts)
    ensures var s := Exec(Init(cfg), acts);
            && ErrorCount(s) <= 2
            && (s.setupErrors != [] ==> ErrorCount(s) == 1 && s.up.pc.Idle? && s.down.pc.Idle?)
            && (forall d, c :: c in PipeOf(s, d).reported ==> c == Stalled || RealFailure(c))
            && ((forall d, c :: c in PipeOf(s, d).reported ==> RealFailure(c)) <==>
                (forall d :: Copy(d, Wrote(0)) !in acts))
  {
    var s := Exec(Init(cfg), acts);
    InitInv(cfg);
    RunKeepsInv(Init(cfg), acts);
    forall d ensures Stalled in PipeOf(s, d).reported <==> Copy(d, Wrote(0)) in acts {
      StalledHere(cfg, acts, d);
    }
    forall d, c | c in PipeOf(s, d).reported ensures c == Stalled || RealFailure(c) {
      assert PipeInv(PipeOf(s, d));
    }
    if d :| Copy(d, Wrote(0)) in acts {
      assert Stalled in PipeOf(s, d).reported && !RealFailure(Stalled);
    }
  }

  /** The metric of a copy goroutine exactly, from what it observed in the run. */
  lemma CopyErrorIff(cfg: Config, acts: seq<Action>, d: Direction, c: Cause)
    requires Valid(Init(cfg), acts)
    ensures c in PipeOf(Exec(Init(cfg), acts), d).reported <==>
              if c.Stalled? then Wrote(0) in EventsOf(acts, d) else CausedIn(EventsOf(acts, d), c)
  {
    ProjectedRun(cfg, acts, d);
    ReportedIff(EventsOf(acts, d), c);
  }

  lemma StalledHere(cfg: Config, acts: seq<Action>, d: Direction)
    requires Valid(Init(cfg), acts)
    ensures Stalled in PipeOf(Exec(Init(cfg), acts), d).reported <==> Copy(d, Wrote(0)) in acts
  {
    ProjectedRun(cfg, acts, d);
    StalledIff(EventsOf(acts, d));
    EventHappened(acts, d, Wrote(0));
  }

  /** The action makes setup fail with this error. */
  predicate FailsWith(a: Action, e: NetError) {
    && a.Setup?
    && match a.p
       case DialFailed(f) => f == e
       case HeaderFailed(_, f) => f == e
       case HeaderRejected => e == Other(0)
       case _ => false
  }

  lemma ReportStep(s: State, a: Action, e: NetError)
    requires Enabled(s, a)
    ensures e in Do(s, a).setupErrors <==> e in s.setupErrors || (!Benign(e) && FailsWith(a, e))
  {
    match a
    case Setup(p) => SetupReportStep(s, p, e);
    case _ => assert Do(s, a).setupErrors == s.setupErrors;
  }

  lemma FailureReported(s: State, f: NetError, resume: Stage, e: NetError)
    ensures e in SetupFails(s, f, resume).setupErrors <==> e in s.setupErrors || (!Benign(e) && e == f)
  {
  }

  lemma SetupReportStep(s: State, p: SetupEvent, e: NetError)
    requires SetupEnabled(s, p)
    ensures e in SetupDo(s, p).setupErrors <==> e in s.setupErrors || (!Benign(e) && FailsWith(Setup(p), e))
  {
    match p
    case DialFailed(f) => FailureReported(s, f, CancelDial, e);
    case HeaderRejected => FailureReported(s, Other(0), CloseRemote, e);
    case HeaderFailed(n, f) => FailureReported(s.(headerSent := HeaderBytes(s.cfg)[..n]), f, CloseRemote, e);
    case _ => assert SetupDo(s, p).setupErrors == s.setupErrors;
  }

  lemma {:induction false} ReportRun(s: State, acts: seq<Action>, e: NetError)
    requires Valid(s, acts)
    ensures e in Exec(s, acts).setupErrors <==>
              e in s.setupErrors || (!Benign(e) && exists a :: a in acts && FailsWith(a, e))
    decreases |acts|
  {
    if acts != [] {
      ReportStep(s, acts[0], e);
      ReportRun(Do(s, acts[0]), acts[1..], e);
      assert forall a :: a in acts <==> a == acts[0] || a in acts[1..];
    }
  }

  /** Setup counts exactly the errors that are not EOF or net.ErrClosed. In particular
      timeouts, exempt in the copy goroutines, are counted here: exactly when the dial or
      the header write timed out. */
  lemma SetupErrorIff(cfg: Config, acts: seq<Action>, e: NetError)
    requires Valid(Init(cfg), acts)
    ensures e in Exec(Init(cfg), acts).setupErrors <==> !Benign(e) && exists a :: a in acts && FailsWith(a, e)
    ensures Timeout in Exec(Init(cfg), acts).setupErrors <==>
              Setup(DialFailed(Timeout)) in acts || exists n :: Setup(HeaderFailed(n, Timeout)) in acts
  {
    ReportRun(Init(cfg), acts, e);
    ReportRun(Init(cfg), acts, Timeout);
    if a :| a in acts && FailsWith(a, Timeout) {
      assert a == Setup(DialFailed(Timeout)) || a == Setup(HeaderFailed(a.p.n, Timeout));
    }
    if Setup(DialFailed(Timeout)) in acts {
      assert FailsWith(Setup(DialFailed(Timeout)), Timeout);
    }
    if n :| Setup(HeaderFailed(n, Timeout)) in acts {
      assert FailsWith(Setup(HeaderFailed(n, Timeout)), Timeout);
    }
  }

  /** A dial that times out is counted. */
  lemma DialTimeoutIsCounted(cfg: Config)
    requires !cfg.tls
    ensures Valid(Init(cfg), [Setup(DialFailed(Timeout))])
            && ErrorCount(Exec(Init(cfg), [Setup(DialFailed(Timeout))])) == 1
  {
    var acts := [Setup(DialFailed(Timeout))];
    assert acts[1..] == [];
    assert Exec(Init(cfg), acts) == Exec(Do(Init(cfg), acts[0]), acts[1..]) == Do(Init(cfg), acts[0]);
  }

  /** So is a header write that times out. */
  lemma HeaderTimeoutIsCounted(cfg: Config)
    requires !cfg.tls && WritesHeader(cfg)
    ensures var acts := [Setup(DialOk), Setup(HeaderFailed(0, Timeout))];
            Valid(Init(cfg), acts) && ErrorCount(Exec(Init(cfg), acts)) == 1
  {
    TwoSteps(Init(cfg), [Setup(DialOk), Setup(HeaderFailed(0, Timeout))]);
  }
}
