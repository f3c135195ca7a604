/** Any number of connections sharing one traffic counter. */
module Traffic {
  import opened Common
  import opened PipeMachine
  import opened Connection
  import opened ConnectionInvariant
  import opened ConnectionTheorems
  import opened Counters

  datatype System = System(conns: seq<State>, to: uint64, from: uint64)

  datatype SystemEvent = Opened(cfg: Config) | Stepped(i: nat, a: Action)

  predicate SystemEnabled(y: System, e: SystemEvent) {
    match e
    case Opened(_) => true
    case Stepped(i, a) => i < |y.conns| && Enabled(y.conns[i], a)
  }

  /** A copy goroutine that finishes a chunk adds what it has written to the counter of
      its direction; nothing else touches the counter. */
  function SystemDo(y: System, e: SystemEvent): System
    requires SystemEnabled(y, e)
  {
    match e
    case Opened(cfg) => y.(conns := y.conns + [Init(cfg)])
    case Stepped(i, a) =>
      var c := y.conns[i];
      System(y.conns[i := Do(c, a)],
             if a == Copy(Up, Counted) then Add64(y.to, c.up.written) else y.to,
             if a == Copy(Down, Counted) then Add64(y.from, c.down.written) else y.from)
  }

  predicate SystemValid(y: System, es: seq<SystemEvent>)
    decreases |es|
  {
    es == [] || (SystemEnabled(y, es[0]) && SystemValid(SystemDo(y, es[0]), es[1..]))
  }

  function SystemExec(y: System, es: seq<SystemEvent>): System
    requires SystemValid(y, es)
    decreases |es|
  {
    if es == [] then y else SystemExec(SystemDo(y, es[0]), es[1..])
  }

  const EMPTY_SYSTEM := System([], 0, 0)

  /** The bytes of fully written chunks, over all connections. */
  function Total(conns: seq<State>, d: Direction): nat {
    if conns == [] then 0 else |PipeOf(conns[0], d).counted| + Total(conns[1..], d)
  }

  lemma {:induction false} TotalAppend(conns: seq<State>, c: State, d: Direction)
    ensures Total(conns + [c], d) == Total(conns, d) + |PipeOf(c, d).counted|
  {
    var all := conns + [c];
    if conns == [] {
      assert all[1..] == [];
    } else {
      assert all[1..] == conns[1..] + [c];
      TotalAppend(conns[1..], c, d);
    }
  }

  lemma {:induction false} TotalUpdate(conns: seq<State>, i: nat, c: State, d: Direction)
    requires i < |conns|
    ensures Total(conns[i := c], d) == Total(conns, d) - |PipeOf(conns[i], d).counted| + |PipeOf(c, d).counted|
  {
    var all := conns[i := c];
    if i == 0 {
      assert all[1..] == conns[1..];
    } else {
      assert all[1..] == conns[1..][i - 1 := c];
      TotalUpdate(conns[1..], i - 1, c, d);
    }
  }

  lemma PipeCounts(p: Pipe, ev: Event)
    requires PipeEnabled(p, ev)
    ensures |PipeDo(p, ev).counted| == |p.counted| + (if ev.Counted? then p.written else 0)
  {
  }

  /** What an action adds to the counter of a direction. */
  function Moved(s: State, a: Action, d: Direction): nat {
    if a == Copy(d, Counted) then PipeOf(s, d).written else 0
  }

  /** Only finishing a chunk moves the counted bytes of a connection. */
  lemma ActionCounts(s: State, a: Action, d: Direction)
    requires Inv(s) && Enabled(s, a)
    ensures |PipeOf(Do(s, a), d).counted| == |PipeOf(s, d).counted| + Moved(s, a, d)
  {
    if a.Copy? {
      PipeCounts(PipeOf(s, a.d), a.ev);
    } else if a.SpawnNext? {
      assert PipeOf(s, d).pc.Idle? ==> PipeOf(s, d) == UNSTARTED;
    }
  }

  function Word(y: System, d: Direction): uint64 {
    if d.Up? then y.to else y.from
  }

  ghost predicate AllInv(conns: seq<State>) {
    forall i :: 0 <= i < |conns| ==> Inv(conns[i])
  }

  ghost predicate SystemInv(y: System) {
    AllInv(y.conns) && forall d :: Word(y, d) == Total(y.conns, d) % WORD
  }

  lemma WordMoves(y: System, i: nat, a: Action, d: Direction)
    requires SystemEnabled(y, Stepped(i, a))
    ensures Word(SystemDo(y, Stepped(i, a)), d) == Add64(Word(y, d), Moved(y.conns[i], a, d))
  {
  }

  lemma TotalMoves(conns: seq<State>, i: nat, a: Action, d: Direction)
    requires i < |conns| && Inv(conns[i]) && Enabled(conns[i], a)
    ensures Total(conns[i := Do(conns[i], a)], d) == Total(conns, d) + Moved(conns[i], a, d)
  {
    ActionCounts(conns[i], a, d);
    TotalUpdate(conns, i, Do(conns[i], a), d);
  }

  lemma AddedWord(w: uint64, w': uint64, total: nat, total': nat, moved: nat)
    requires w == total % WORD && w' == Add64(w, moved) && total' == total + moved
    ensures w' == total' % WORD
  {
    AddsCombine(total, moved, 0);
  }

  lemma StepKeepsWord(y: System, i: nat, a: Action, d: Direction)
    requires SystemEnabled(y, Stepped(i, a)) && Inv(y.conns[i])
    requires Word(y, d) == Total(y.conns, d) % WORD
    ensures Word(SystemDo(y, Stepped(i, a)), d) == Total(y.conns[i := Do(y.conns[i], a)], d) % WORD
  {
    WordMoves(y, i, a, d);
    TotalMoves(y.conns, i, a, d);
    AddedWord(Word(y, d), Word(SystemDo(y, Stepped(i, a)), d),
              Total(y.conns, d), Total(y.conns[i := Do(y.conns[i], a)], d), Moved(y.conns[i], a, d));
  }

  lemma StepKeepsAll(conns: seq<State>, i: nat, a: Action)
    requires AllInv(conns) && i < |conns| && Enabled(conns[i], a)
    ensures AllInv(conns[i := Do(conns[i], a)])
  {
    StepKeepsInv(conns[i], a);
  }

  lemma SystemStepKeepsInv(y: System, e: SystemEvent)
    requires SystemInv(y) && SystemEnabled(y, e)
    ensures SystemInv(SystemDo(y, e))
  {
    forall d ensures Word(SystemDo(y, e), d) == Total(SystemDo(y, e).conns, d) % WORD {
      assert Word(y, d) == Total(y.conns, d) % WORD;
      match e
      case Opened(cfg) => TotalAppend(y.conns, Init(cfg), d);
      case Stepped(i, a) => StepKeepsWord(y, i, a, d);
    }
    match e
    case Opened(cfg) => InitInv(cfg);
    case Stepped(i, a) => StepKeepsAll(y.conns, i, a);
  }

  lemma {:induction false} SystemRun(y: System, es: seq<SystemEvent>)
    requires SystemInv(y) && SystemValid(y, es)
    ensures SystemInv(SystemExec(y, es))
    decreases |es|
  {
    if es != [] {
      SystemStepKeepsInv(y, es[0]);
      SystemRun(SystemDo(y, es[0]), es[1..]);
    }
  }

  /** Traffic conservation: over any interleaving of any number of connections the two
      words equal, modulo 2^64, the fully written chunks of each direction. A connection
      has delivered at most one buffer that is not counted yet (or never will be), and
      the PROXY header is never counted. */
  lemma TrafficConservation(es: seq<SystemEvent>)
    requires SystemValid(EMPTY_SYSTEM, es)
    ensures var y := SystemExec(EMPTY_SYSTEM, es);
            && (forall d :: Word(y, d) == Total(y.conns, d) % 0x1_0000_0000_0000_0000)
            && (forall i, d :: 0 <= i < |y.conns| ==>
                  && PipeOf(y.conns[i], d).counted <= PipeOf(y.conns[i], d).delivered
                  && |PipeOf(y.conns[i], d).delivered| - |PipeOf(y.conns[i], d).counted| <= 65535)
            && (forall i :: 0 <= i < |y.conns| ==>
                  |y.conns[i].up.counted| + |y.conns[i].headerSent| <= |BackendBytes(y.conns[i])|)
  {
    SystemRun(EMPTY_SYSTEM, es);
    var y := SystemExec(EMPTY_SYSTEM, es);
    forall i, d | 0 <= i < |y.conns|
      ensures && PipeOf(y.conns[i], d).counted <= PipeOf(y.conns[i], d).delivered
              && |PipeOf(y.conns[i], d).delivered| - |PipeOf(y.conns[i], d).counted| <= BUFFER_SIZE
    {
      assert Inv(y.conns[i]);
      DataMeansPrefix(PipeOf(y.conns[i], d));
    }
    forall i | 0 <= i < |y.conns|
      ensures |y.conns[i].up.counted| + |y.conns[i].headerSent| <= |BackendBytes(y.conns[i])|
    {
      assert Inv(y.conns[i]);
      DataMeansPrefix(y.conns[i].up);
    }
  }

  // ----- each connection of a system runs by itself

  /** What happened on one connection in a run of the system. */
  function ActionsOf(es: seq<SystemEvent>, i: nat): seq<Action> {
    if es == [] then []
    else (if es[0].Stepped? && es[0].i == i then [es[0].a] else []) + ActionsOf(es[1..], i)
  }

  /** Connection i as it stands, or as it will be opened. */
  function ConnAt(y: System, i: nat, cfg: Config): State {
    if i < |y.conns| then y.conns[i] else Init(cfg)
  }

  lemma StepOnConn(y: System, e: SystemEvent, i: nat, cfg: Config)
    requires SystemEnabled(y, e)
    requires e.Opened? && i == |y.conns| ==> e.cfg == cfg
    ensures var c := ConnAt(y, i, cfg);
            if e.Stepped? && e.i == i then Enabled(c, e.a) && ConnAt(SystemDo(y, e), i, cfg) == Do(c, e.a)
            else ConnAt(SystemDo(y, e), i, cfg) == c
  {
  }

  lemma {:induction false} ConnProjected(y: System, es: seq<SystemEvent>, i: nat)
    requires SystemValid(y, es) && i < |SystemExec(y, es).conns|
    ensures var cfg := SystemExec(y, es).conns[i].cfg;
            && Valid(ConnAt(y, i, cfg), ActionsOf(es, i))
            && Exec(ConnAt(y, i, cfg), ActionsOf(es, i)) == SystemExec(y, es).conns[i]
            && ConnAt(y, i, cfg).cfg == cfg
    decreases |es|
  {
    if es != [] {
      var cfg := SystemExec(y, es).conns[i].cfg;
      var y' := SystemDo(y, es[0]);
      ConnProjected(y', es[1..], i);
      StepOnConn(y, es[0], i, cfg);
      var acts := ActionsOf(es, i);
      if es[0].Stepped? && es[0].i == i {
        assert acts[0] == es[0].a && acts[1..] == ActionsOf(es[1..], i);
      } else {
        assert acts == ActionsOf(es[1..], i);
      }
    }
  }

  /** Sharing the counter couples nothing else: each connection of a system follows a run of
      the connection protocol, so every theorem about those runs applies to it. */
  lemma ConnectionsRunAlone(es: seq<SystemEvent>, i: nat)
    requires SystemValid(EMPTY_SYSTEM, es) && i < |SystemExec(EMPTY_SYSTEM, es).conns|
    ensures var c := SystemExec(EMPTY_SYSTEM, es).conns[i];
            Valid(Init(c.cfg), ActionsOf(es, i)) && Exec(Init(c.cfg), ActionsOf(es, i)) == c
  {
    ConnProjected(EMPTY_SYSTEM, es, i);
  }

  // ----- when the counter is exact

  /** The bytes accepted by the destinations of one direction, over all connections. */
  function TotalDelivered(conns: seq<State>, d: Direction): nat {
    if conns == [] then 0 else |PipeOf(conns[0], d).delivered| + TotalDelivered(conns[1..], d)
  }

  predicate FullyCounted(c: State, d: Direction) {
    PipeOf(c, d).delivered == PipeOf(c, d).counted
  }

  lemma CountedAtMostDelivered(c: State, d: Direction)
    requires Inv(c)
    ensures |PipeOf(c, d).counted| <= |PipeOf(c, d).delivered|
    ensures |PipeOf(c, d).counted| == |PipeOf(c, d).delivered| <==> FullyCounted(c, d)
  {
    DataMeansPrefix(PipeOf(c, d));
  }

  lemma {:induction false} TotalsEqualIff(conns: seq<State>, d: Direction)
    requires AllInv(conns)
    ensures Total(conns, d) <= TotalDelivered(conns, d)
    ensures Total(conns, d) == TotalDelivered(conns, d) <==> AllFullyCounted(conns, d)
  {
    if conns != [] {
      CountedAtMostDelivered(conns[0], d);
      TotalsEqualIff(conns[1..], d);
      AllButFirst(conns, d);
    }
  }

  predicate AllFullyCounted(conns: seq<State>, d: Direction) {
    forall i :: 0 <= i < |conns| ==> FullyCounted(conns[i], d)
  }

  lemma AllButFirst(conns: seq<State>, d: Direction)
    requires conns != []
    ensures AllFullyCounted(conns, d) <==> FullyCounted(conns[0], d) && AllFullyCounted(conns[1..], d)
  {
    assert forall i :: 0 < i < |conns| ==> conns[i] == conns[1..][i - 1];
  }

  /** The copy goroutine of this direction has ended, or never started. */
  predicate Over(c: State, d: Direction) {
    PipeOf(c, d).pc.Idle? || PipeOf(c, d).pc.Exited?
  }

  /** Connection i left no delivered byte of this direction uncounted, by what it observed. */
  predicate AccountedOn(es: seq<SystemEvent>, i: nat, d: Direction) {
    AllAccounted(EventsOf(ActionsOf(es, i), d), 0)
  }

  lemma CountedIff(es: seq<SystemEvent>, i: nat, d: Direction)
    requires SystemValid(EMPTY_SYSTEM, es) && i < |SystemExec(EMPTY_SYSTEM, es).conns|
    requires Over(SystemExec(EMPTY_SYSTEM, es).conns[i], d)
    ensures FullyCounted(SystemExec(EMPTY_SYSTEM, es).conns[i], d) <==> AccountedOn(es, i, d)
  {
    var c := SystemExec(EMPTY_SYSTEM, es).conns[i];
    var acts := ActionsOf(es, i);
    ConnectionsRunAlone(es, i);
    ProjectedRun(c.cfg, acts, d);
    if PipeOf(c, d).pc.Exited? {
      LossesIff(c.cfg, acts, d);
    }
  }

  /** The counter tells less than the traffic: once the copy goroutines of a direction are
      over (and fewer than 2^64 bytes have passed), its word equals the bytes delivered
      exactly when on no connection a write error took a byte, or an error, a stall or a
      panic found a chunk partly written or not yet counted. */
  lemma WordExactIff(es: seq<SystemEvent>, d: Direction)
    requires SystemValid(EMPTY_SYSTEM, es)
    requires var y := SystemExec(EMPTY_SYSTEM, es);
             TotalDelivered(y.conns, d) < WORD && forall i :: 0 <= i < |y.conns| ==> Over(y.conns[i], d)
    ensures var y := SystemExec(EMPTY_SYSTEM, es);
            Word(y, d) == TotalDelivered(y.conns, d) <==>
              forall i :: 0 <= i < |y.conns| ==> AccountedOn(es, i, d)
  {
    var conns := SystemExec(EMPTY_SYSTEM, es).conns;
    WordIsTotal(es, d);
    forall i | 0 <= i < |conns| ensures FullyCounted(conns[i], d) <==> AccountedOn(es, i, d) {
      CountedIff(es, i, d);
    }
  }

  lemma WordIsTotal(es: seq<SystemEvent>, d: Direction)
    requires SystemValid(EMPTY_SYSTEM, es) && TotalDelivered(SystemExec(EMPTY_SYSTEM, es).conns, d) < WORD
    ensures var y := SystemExec(EMPTY_SYSTEM, es);
            Word(y, d) == TotalDelivered(y.conns, d) <==>
              AllFullyCounted(y.conns, d)
  {
    var y := SystemExec(EMPTY_SYSTEM, es);
    SystemRun(EMPTY_SYSTEM, es);
    WordOf(y, d);
  }

  lemma WordOf(y: System, d: Direction)
    requires SystemInv(y) && TotalDelivered(y.conns, d) < WORD
    ensures Word(y, d) == TotalDelivered(y.conns, d) <==>
              AllFullyCounted(y.conns, d)
  {
    TotalsEqualIff(y.conns, d);
    assert Word(y, d) == Total(y.conns, d) % WORD;
    SmallWord(Total(y.conns, d));
  }

  lemma SmallWord(n: nat)
    requires n < WORD
    ensures n % WORD == n
  {
  }
}
