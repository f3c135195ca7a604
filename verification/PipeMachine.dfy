/** One copy goroutine (`TCPProxy.Pipe`), as an automaton over what it observes:
    answers of the context, results of reads and writes, and the outcome of
    `CloseOnce.Do`. The connection protocol interleaves two of these; the imperative
    copy loop is proved to follow one of them. */
module PipeMachine {
  import opened Common

  const BUFFER_SIZE: nat := 0xffff

  /** Where the goroutine stands. A failed operation remembers its error and whether
      this process had the connection open when the operation returned. */
  datatype Pc =
    | Idle
    | Head
    | Read
    | ReadFailed(e: NetError, open: bool)
    | Write
    | WriteFailed(e: NetError, open: bool)
    | Enter
    | Send
    | Exited

  /** Why the connection error metric was raised: a failed operation, with the facts
      at the time, or a write that accepted nothing and reported nothing. */
  datatype Cause = Failure(e: NetError, open: bool, contextLive: bool) | Stalled

  /** `fetched` is everything that error-free reads returned, `delivered` everything
      the destination accepted, `counted` what the traffic counter was told about,
      and `dropped` the data that arrived together with a read error. */
  datatype Pipe = Pipe(
    pc: Pc,
    chunk: Bytes,
    written: nat,
    fetched: Bytes,
    delivered: Bytes,
    counted: Bytes,
    dropped: Bytes,
    reported: seq<Cause>)

  datatype Event =
    | CtxChecked(done: bool)
    | ReadOk(data: Bytes)
    | ReadErr(data: Bytes, e: NetError, open: bool)
    | Wrote(n: nat)
    | WroteErr(n: nat, e: NetError, open: bool)
    | Counted
    | OnceWon
    | OnceLost
    | Sent
    | Panicked

  const UNSTARTED := Pipe(Idle, [], 0, [], [], [], [], [])

  const STARTED := UNSTARTED.(pc := Head)

  /** Whether the goroutine is still in the body that its recover guards. */
  predicate InBody(pc: Pc) {
    pc.Head? || pc.Read? || pc.ReadFailed? || pc.Write? || pc.WriteFailed?
  }

  predicate PipeEnabled(p: Pipe, ev: Event) {
    match ev
    case CtxChecked(_) => p.pc.Head? || p.pc.ReadFailed? || p.pc.WriteFailed?
    case ReadOk(data) => p.pc.Read? && |data| <= BUFFER_SIZE
    case ReadErr(data, _, _) => p.pc.Read? && |data| <= BUFFER_SIZE
    case Wrote(n) => p.pc.Write? && p.written < |p.chunk| && p.written + n <= |p.chunk|
    case WroteErr(n, _, _) => p.pc.Write? && p.written < |p.chunk| && p.written + n <= |p.chunk|
    case Counted => p.pc.Write? && p.written == |p.chunk|
    case OnceWon => p.pc.Enter?
    case OnceLost => p.pc.Enter?
    case Sent => p.pc.Send?
    case Panicked => InBody(p.pc)
  }

  /** Take `n` more bytes of the current chunk on the destination. */
  function Accept(p: Pipe, n: nat): Pipe
    requires p.written + n <= |p.chunk|
  {
    p.(delivered := p.delivered + p.chunk[p.written..p.written + n], written := p.written + n)
  }

  /** The branch after a failed read or write that goes on to the error: a timeout
      signals quietly, anything else goes through `err`. `done` is what the context
      check before it said. */
  function Report(p: Pipe, e: NetError, open: bool, done: bool): Pipe {
    if e == Timeout || Benign(e) then p.(pc := Enter)
    else p.(pc := Enter, reported := p.reported + [Failure(e, open, !done)])
  }

  function PipeDo(p: Pipe, ev: Event): Pipe
    requires PipeEnabled(p, ev)
  {
    match ev
    case CtxChecked(done) =>
      if done then p.(pc := Exited)
      else (match p.pc
            case ReadFailed(e, open) => Report(p, e, open, done)
            case WriteFailed(e, open) => Report(p, e, open, done)
            case _ => p.(pc := Read))
    case ReadOk(data) => p.(pc := Write, chunk := data, written := 0, fetched := p.fetched + data)
    case ReadErr(data, e, open) => p.(pc := ReadFailed(e, open), dropped := data)
    case Wrote(n) =>
      if n == 0 then p.(pc := Enter, reported := p.reported + [Stalled]) else Accept(p, n)
    case WroteErr(n, e, open) => Accept(p, n).(pc := WriteFailed(e, open))
    case Counted => p.(pc := Head, counted := p.counted + p.chunk, chunk := [], written := 0)
    case OnceWon => p.(pc := Send)
    case OnceLost => p.(pc := Exited)
    case Sent => p.(pc := Exited)
    case Panicked => p.(pc := Enter)
  }

  /** The bytes of a copy goroutine: all but the current chunk has been copied and
      counted, and the destination holds the written part of the current chunk. */
  ghost predicate PipeData(p: Pipe) {
    && p.written <= |p.chunk| <= BUFFER_SIZE
    && p.fetched == p.counted + p.chunk
    && p.delivered == p.counted + p.chunk[..p.written]
    && (p.pc.Head? || p.pc.Read? || p.pc.ReadFailed? ==> p.chunk == [])
  }

  /** Where a goroutine stands limits what it may have dropped or reported. */
  ghost predicate PipeControl(p: Pipe) {
    && (p.pc.Idle? ==> p == UNSTARTED)
    && (p.pc.Idle? || p.pc.Head? || p.pc.Read? || p.pc.Write? || p.pc.WriteFailed? ==> p.dropped == [])
    && (InBody(p.pc) ==> p.reported == [])
    && |p.reported| <= 1
    && ((p.pc.ReadFailed? || p.pc.WriteFailed?) && !p.pc.open ==> p.pc.e == Closed)
    && (forall c :: c in p.reported ==> c == Stalled || RealFailure(c))
  }

  /** What every step of a copy goroutine keeps. */
  ghost predicate PipeInv(p: Pipe) {
    PipeData(p) && PipeControl(p)
  }

  /** A failure that deserves the error metric: not a peer close, not a local close,
      not a timeout, seen on a connection this process had not closed, while the
      connection's context was live. */
  predicate RealFailure(c: Cause) {
    c.Failure? && !Benign(c.e) && c.e != Timeout && c.open && c.contextLive
  }

  /** What the runtime guarantees about an event: an operation on a connection that
      this process has closed fails with net.ErrClosed. */
  predicate Truthful(ev: Event) {
    (ev.ReadErr? || ev.WroteErr?) && !ev.open ==> ev.e == Closed
  }

  lemma AcceptKeepsData(p: Pipe, n: nat)
    requires PipeData(p) && p.pc.Write? && p.written + n <= |p.chunk|
    ensures PipeData(Accept(p, n))
  {
    var c, w := p.chunk, p.written;
    assert c[..w] + c[w..w + n] == c[..w + n];
    ConcatAssociates(p.counted, c[..w], c[w..w + n]);
  }

  lemma PipeStepKeepsData(p: Pipe, ev: Event)
    requires PipeData(p) && PipeEnabled(p, ev)
    ensures PipeData(PipeDo(p, ev))
  {
    if ev.Wrote? || ev.WroteErr? {
      AcceptKeepsData(p, ev.n);
    } else if ev.Counted? {
      assert p.chunk[..p.written] == p.chunk;
    }
  }

  lemma PipeStepKeepsControl(p: Pipe, ev: Event)
    requires PipeControl(p) && PipeEnabled(p, ev) && Truthful(ev)
    ensures PipeControl(PipeDo(p, ev))
  {
  }

  lemma PipeStepKeepsInv(p: Pipe, ev: Event)
    requires PipeInv(p) && PipeEnabled(p, ev) && Truthful(ev)
    ensures PipeInv(PipeDo(p, ev))
  {
    PipeStepKeepsData(p, ev);
    PipeStepKeepsControl(p, ev);
  }

  // ----- whole runs of one goroutine

  predicate PipeValid(p: Pipe, trace: seq<Event>)
    decreases |trace|
  {
    trace == [] || (PipeEnabled(p, trace[0]) && Truthful(trace[0]) && PipeValid(PipeDo(p, trace[0]), trace[1..]))
  }

  function PipeExec(p: Pipe, trace: seq<Event>): Pipe
    requires PipeValid(p, trace)
    decreases |trace|
  {
    if trace == [] then p else PipeExec(PipeDo(p, trace[0]), trace[1..])
  }

  /** What one event adds to the error-free reads. */
  function Fetch(ev: Event): Bytes {
    if ev.ReadOk? then ev.data else []
  }

  /** The concatenation of the error-free reads in a run. */
  function ReadBytes(trace: seq<Event>): Bytes {
    if trace == [] then [] else Fetch(trace[0]) + ReadBytes(trace[1..])
  }

  /** What one event shows the source handing over. */
  function Offer(ev: Event): Bytes {
    if ev.ReadOk? || ev.ReadErr? then ev.data else []
  }

  /** Every byte the source handed over in a run, with or without an error. */
  function OfferedBytes(trace: seq<Event>): Bytes {
    if trace == [] then []
    else Offer(trace[0]) + OfferedBytes(trace[1..])
  }

  lemma {:induction false} PipeRun(p: Pipe, trace: seq<Event>)
    requires PipeInv(p) && PipeValid(p, trace)
    ensures PipeInv(PipeExec(p, trace))
    decreases |trace|
  {
    if trace != [] {
      PipeStepKeepsInv(p, trace[0]);
      PipeRun(PipeDo(p, trace[0]), trace[1..]);
    }
  }

  lemma StepFetches(p: Pipe, ev: Event)
    requires PipeEnabled(p, ev)
    ensures PipeDo(p, ev).fetched == p.fetched + Fetch(ev)
  {
    if !ev.ReadOk? { assert PipeDo(p, ev).fetched == p.fetched; }
  }

  lemma {:induction false} FetchedRun(p: Pipe, trace: seq<Event>)
    requires PipeValid(p, trace)
    ensures PipeExec(p, trace).fetched == p.fetched + ReadBytes(trace)
    decreases |trace|
  {
    if trace != [] {
      var q := PipeDo(p, trace[0]);
      var got := Fetch(trace[0]);
      StepFetches(p, trace[0]);
      FetchedRun(q, trace[1..]);
      assert (p.fetched + got) + ReadBytes(trace[1..]) == p.fetched + (got + ReadBytes(trace[1..]));
    }
  }

  lemma DataMeansPrefix(p: Pipe)
    requires PipeData(p)
    ensures p.counted <= p.delivered <= p.fetched
    ensures |p.fetched| - |p.counted| <= BUFFER_SIZE
    ensures p.pc.Head? ==> p.delivered == p.fetched == p.counted
  {
  }

  /** What one event shows the destination accepting. */
  function Accepted(ev: Event): nat {
    if ev.Wrote? || ev.WroteErr? then ev.n else 0
  }

  /** How many bytes the writes of a run accepted. */
  function AcceptedBytes(trace: seq<Event>): nat {
    if trace == [] then 0 else Accepted(trace[0]) + AcceptedBytes(trace[1..])
  }

  lemma {:induction false} AcceptedRun(p: Pipe, trace: seq<Event>)
    requires PipeValid(p, trace)
    ensures |PipeExec(p, trace).delivered| == |p.delivered| + AcceptedBytes(trace)
    decreases |trace|
  {
    if trace != [] {
      assert |PipeDo(p, trace[0]).delivered| == |p.delivered| + Accepted(trace[0]);
      AcceptedRun(PipeDo(p, trace[0]), trace[1..]);
    }
  }

  /** Stream fidelity of one goroutine: whatever the pattern of short writes, errors
      and panics, the destination holds exactly as many of the error-free reads, from the
      first on, as its writes accepted; at most one buffer is missing, and nothing at every
      loop head. */
  lemma StreamFidelity(trace: seq<Event>)
    requires PipeValid(STARTED, trace)
    ensures var p := PipeExec(STARTED, trace);
            && p.delivered <= ReadBytes(trace)
            && |p.delivered| == AcceptedBytes(trace)
            && |ReadBytes(trace)| - |p.delivered| <= 65535
            && (p.pc.Head? ==> p.delivered == ReadBytes(trace) == p.counted)
            && p.counted <= p.delivered
            && |p.delivered| - |p.counted| <= 65535
  {
    PipeRun(STARTED, trace);
    FetchedRun(STARTED, trace);
    AcceptedRun(STARTED, trace);
    var p := PipeExec(STARTED, trace);
    DataMeansPrefix(p);
    assert p.fetched == ReadBytes(trace);
  }

  /** After a failed read the goroutine never reads again. */
  predicate DoneReading(p: Pipe) {
    p.pc.ReadFailed? || p.pc.Enter? || p.pc.Send? || p.pc.Exited? || p.pc.WriteFailed?
  }

  lemma {:induction false} NoMoreReads(p: Pipe, trace: seq<Event>)
    requires DoneReading(p) && PipeValid(p, trace)
    ensures OfferedBytes(trace) == []
    ensures var q := PipeExec(p, trace); q.fetched == p.fetched && q.dropped == p.dropped
    decreases |trace|
  {
    if trace != [] { NoMoreReads(PipeDo(p, trace[0]), trace[1..]); }
  }

  lemma StepOffers(p: Pipe, ev: Event)
    requires PipeEnabled(p, ev) && !DoneReading(p) && p.dropped == []
    ensures PipeDo(p, ev).fetched + PipeDo(p, ev).dropped == p.fetched + Offer(ev)
    ensures !DoneReading(PipeDo(p, ev)) ==> PipeDo(p, ev).dropped == []
  {
    if !ev.ReadOk? && !ev.ReadErr? {
      assert PipeDo(p, ev).fetched == p.fetched && PipeDo(p, ev).dropped == [];
    }
  }

  lemma ConcatAssociates(a: Bytes, b: Bytes, c: Bytes)
    ensures (a + b) + c == a + (b + c)
  {
  }

  lemma {:induction false} OfferedRun(p: Pipe, trace: seq<Event>)
    requires PipeValid(p, trace)
    requires !DoneReading(p) && p.dropped == []
    ensures var q := PipeExec(p, trace); p.fetched + OfferedBytes(trace) == q.fetched + q.dropped
    decreases |trace|
  {
    if trace != [] {
      var p' := PipeDo(p, trace[0]);
      StepOffers(p, trace[0]);
      ConcatAssociates(p.fetched, Offer(trace[0]), OfferedBytes(trace[1..]));
      if DoneReading(p') {
        NoMoreReads(p', trace[1..]);
        assert OfferedBytes(trace) == Offer(trace[0]);
      } else {
        OfferedRun(p', trace[1..]);
        assert p'.fetched + p'.dropped == p'.fetched;
      }
    }
  }

  lemma OfferedFromStart(trace: seq<Event>)
    requires PipeValid(STARTED, trace)
    ensures var p := PipeExec(STARTED, trace); p.fetched + p.dropped == OfferedBytes(trace)
  {
    OfferedRun(STARTED, trace);
    NothingBefore(OfferedBytes(trace));
  }

  lemma NothingBefore(s: Bytes)
    ensures [] + s == s
  {
  }

  lemma ArrivedIff(p: Pipe)
    requires PipeData(p)
    ensures p.delivered == p.fetched + p.dropped <==> p.dropped == [] && p.written == |p.chunk|
    ensures p.delivered == p.counted <==> p.written == 0
  {
    assert |p.delivered| == |p.counted| + p.written;
    if p.dropped == [] && p.written == |p.chunk| {
      assert p.chunk[..p.written] == p.chunk;
      assert p.fetched + p.dropped == p.fetched;
    } else {
      assert |p.fetched + p.dropped| == |p.counted| + |p.chunk| + |p.dropped|;
    }
  }

  // ----- what was lost, read off the results of the reads and writes

  /** How many bytes of the last chunk read the destination has yet to accept. */
  function Owe(owed: int, ev: Event): int {
    match ev
    case ReadOk(data) => |data|
    case Wrote(n) => owed - n
    case WroteErr(n, _, _) => owed - n
    case _ => owed
  }

  /** The event loses nothing: a read error without data, a write error only with the
      last byte of the chunk, no stalled write, no panic in the middle of a chunk. */
  predicate Lossless(ev: Event, owed: int) {
    match ev
    case ReadErr(data, _, _) => data == []
    case Wrote(n) => n > 0
    case WroteErr(n, _, _) => n == owed
    case Panicked => owed == 0
    case _ => true
  }

  predicate AllLossless(trace: seq<Event>, owed: int) {
    trace == [] || (Lossless(trace[0], owed) && AllLossless(trace[1..], Owe(owed, trace[0])))
  }

  /** How many bytes of the current chunk the destination has accepted so far. */
  function Taken(taken: nat, ev: Event): nat {
    match ev
    case ReadOk(_) => 0
    case Wrote(n) => taken + n
    case WroteErr(n, _, _) => taken + n
    case Counted => 0
    case _ => taken
  }

  /** The event leaves no accepted byte out of the count: a write error that accepted
      nothing, or a stall or panic, and only before the destination took any of the chunk. */
  predicate Accounted(ev: Event, taken: nat) {
    match ev
    case Wrote(n) => n > 0 || taken == 0
    case WroteErr(n, _, _) => taken + n == 0
    case Panicked => taken == 0
    case _ => true
  }

  predicate AllAccounted(trace: seq<Event>, taken: nat) {
    trace == [] || (Accounted(trace[0], taken) && AllAccounted(trace[1..], Taken(taken, trace[0])))
  }

  predicate Complete(p: Pipe) {
    p.dropped == [] && p.written == |p.chunk|
  }

  lemma StepLoses(p: Pipe, ev: Event)
    requires PipeInv(p) && PipeEnabled(p, ev)
    ensures var q := PipeDo(p, ev);
            && |q.chunk| - q.written == Owe(|p.chunk| - p.written, ev)
            && (DoneReading(p) ==> DoneReading(q) && (Complete(q) <==> Complete(p)))
            && (DoneReading(p) && Complete(p) ==> Lossless(ev, |p.chunk| - p.written))
            && (!DoneReading(p) ==> (Lossless(ev, |p.chunk| - p.written) <==> (DoneReading(q) ==> Complete(q))))
  {
  }

  lemma {:induction false} LossRun(p: Pipe, trace: seq<Event>)
    requires PipeInv(p) && PipeValid(p, trace) && PipeExec(p, trace).pc.Exited?
    ensures Complete(PipeExec(p, trace)) <==>
              (DoneReading(p) ==> Complete(p)) && AllLossless(trace, |p.chunk| - p.written)
    decreases |trace|
  {
    if trace != [] {
      StepLoses(p, trace[0]);
      PipeStepKeepsInv(p, trace[0]);
      LossRun(PipeDo(p, trace[0]), trace[1..]);
    }
  }

  lemma StepLeavesOut(p: Pipe, ev: Event)
    requires PipeInv(p) && PipeEnabled(p, ev)
    ensures var q := PipeDo(p, ev);
            && q.written == Taken(p.written, ev)
            && (DoneReading(p) ==> DoneReading(q) && q.written == p.written)
            && (DoneReading(p) && p.written == 0 ==> Accounted(ev, p.written))
            && (!DoneReading(p) ==> (Accounted(ev, p.written) <==> (DoneReading(q) ==> q.written == 0)))
  {
  }

  lemma {:induction false} CountRun(p: Pipe, trace: seq<Event>)
    requires PipeInv(p) && PipeValid(p, trace) && PipeExec(p, trace).pc.Exited?
    ensures PipeExec(p, trace).written == 0 <==>
              (DoneReading(p) ==> p.written == 0) && AllAccounted(trace, p.written)
    decreases |trace|
  {
    if trace != [] {
      StepLeavesOut(p, trace[0]);
      PipeStepKeepsInv(p, trace[0]);
      CountRun(PipeDo(p, trace[0]), trace[1..]);
    }
  }

  /** Delivering all the bytes that the source handed over is NOT what the code does. A
      goroutine that has exited has done so exactly when no read error carried data, no
      write stalled, a write error came only with the last byte of a chunk, and no panic
      hit in the middle of one. */
  lemma EverythingArrivesIff(trace: seq<Event>)
    requires PipeValid(STARTED, trace) && PipeExec(STARTED, trace).pc.Exited?
    ensures PipeExec(STARTED, trace).delivered == OfferedBytes(trace) <==> AllLossless(trace, 0)
  {
    PipeRun(STARTED, trace);
    LossRun(STARTED, trace);
    OfferedFromStart(trace);
    ArrivedIff(PipeExec(STARTED, trace));
  }

  /** Nor is every delivered byte counted. For a goroutine that has exited it is exactly
      when no write error accepted a byte, and no error, stall or panic found the current
      chunk partly written, or written and not yet counted. */
  lemma EverythingCountedIff(trace: seq<Event>)
    requires PipeValid(STARTED, trace) && PipeExec(STARTED, trace).pc.Exited?
    ensures PipeExec(STARTED, trace).delivered == PipeExec(STARTED, trace).counted <==> AllAccounted(trace, 0)
  {
    PipeRun(STARTED, trace);
    CountRun(STARTED, trace);
    ArrivedIff(PipeExec(STARTED, trace));
  }

  /** The witness for reads: a byte arriving together with EOF never reaches the destination. */
  lemma DataWithErrorIsLost(b: byte)
    ensures var trace := [CtxChecked(false), ReadErr([b], EndOfFile, true), CtxChecked(true)];
            && PipeValid(STARTED, trace) && PipeExec(STARTED, trace).pc.Exited?
            && PipeExec(STARTED, trace).delivered == [] && OfferedBytes(trace) == [b]
  {
    var trace := [CtxChecked(false), ReadErr([b], EndOfFile, true), CtxChecked(true)];
    ThreeSteps(STARTED, trace);
    OfferedThree(trace);
  }

  /** The witness for writes: a byte accepted by a write that then fails is delivered but
      not counted, and the rest of the chunk is lost. */
  lemma CutChunkIsNotCounted(a: byte, b: byte)
    ensures var trace := [CtxChecked(false), ReadOk([a, b]), WroteErr(1, Other(0), true), CtxChecked(true)];
            && PipeValid(STARTED, trace) && PipeExec(STARTED, trace).pc.Exited?
            && PipeExec(STARTED, trace).delivered == [a] && PipeExec(STARTED, trace).counted == []
            && OfferedBytes(trace) == [a, b]
  {
    var trace := [CtxChecked(false), ReadOk([a, b]), WroteErr(1, Other(0), true), CtxChecked(true)];
    var p := PipeDo(STARTED, trace[0]);
    var rest := trace[1..];
    assert rest == [ReadOk([a, b]), WroteErr(1, Other(0), true), CtxChecked(true)];
    ThreeSteps(p, rest);
    OfferedThree(rest);
  }

  lemma OfferedThree(trace: seq<Event>)
    requires |trace| == 3
    ensures OfferedBytes(trace) == Offer(trace[0]) + Offer(trace[1]) + Offer(trace[2])
  {
    assert trace[1..][1..] == trace[2..] && trace[2..][1..] == [];
    assert OfferedBytes(trace[2..]) == Offer(trace[2]) + [];
    assert OfferedBytes(trace[1..]) == Offer(trace[1]) + OfferedBytes(trace[2..]);
  }

  lemma ThreeSteps(p: Pipe, trace: seq<Event>)
    requires |trace| == 3 && Truthful(trace[0]) && Truthful(trace[1]) && Truthful(trace[2])
    requires PipeEnabled(p, trace[0]) && PipeEnabled(PipeDo(p, trace[0]), trace[1])
    requires PipeEnabled(PipeDo(PipeDo(p, trace[0]), trace[1]), trace[2])
    ensures PipeValid(p, trace)
    ensures PipeExec(p, trace) == PipeDo(PipeDo(PipeDo(p, trace[0]), trace[1]), trace[2])
  {
    var p1 := PipeDo(p, trace[0]);
    var p2 := PipeDo(p1, trace[1]);
    var p3 := PipeDo(p2, trace[2]);
    assert trace[1..][1..] == trace[2..] && trace[2..][1..] == [];
    assert PipeValid(p3, []) && PipeExec(p3, []) == p3;
    assert PipeValid(p2, trace[2..]) && PipeExec(p2, trace[2..]) == p3;
    assert PipeValid(p1, trace[1..]) && PipeExec(p1, trace[1..]) == p3;
  }

  /** Error classification of one goroutine: it raises the metric at most once, and
      only for a real failure or for a writer that broke its contract. */
  lemma PipeReportsOnlyFailures(trace: seq<Event>)
    requires PipeValid(STARTED, trace)
    ensures var p := PipeExec(STARTED, trace);
            |p.reported| <= 1 && forall c :: c in p.reported ==> c == Stalled || RealFailure(c)
  {
    PipeRun(STARTED, trace);
  }

  lemma StepStalls(p: Pipe, ev: Event)
    requires PipeEnabled(p, ev)
    ensures Stalled in PipeDo(p, ev).reported <==> Stalled in p.reported || ev == Wrote(0)
  {
  }

  lemma {:induction false} StalledRun(p: Pipe, trace: seq<Event>)
    requires PipeValid(p, trace)
    ensures Stalled in PipeExec(p, trace).reported <==> Stalled in p.reported || Wrote(0) in trace
    decreases |trace|
  {
    if trace != [] {
      StepStalls(p, trace[0]);
      StalledRun(PipeDo(p, trace[0]), trace[1..]);
      assert Wrote(0) in trace <==> trace[0] == Wrote(0) || Wrote(0) in trace[1..];
    }
  }

  /** The second kind of cause occurs exactly when a Write accepts nothing and reports
      nothing: it is counted without asking the context. */
  lemma StalledIff(trace: seq<Event>)
    requires PipeValid(STARTED, trace)
    ensures Stalled in PipeExec(STARTED, trace).reported <==> Wrote(0) in trace
  {
    StalledRun(STARTED, trace);
  }

  // ----- how a goroutine ends

  /** The goroutine returns with this event. */
  predicate Ends(ev: Event) {
    ev == CtxChecked(true) || ev == OnceLost || ev == Sent
  }

  lemma StepEnds(p: Pipe, ev: Event)
    requires PipeEnabled(p, ev)
    ensures PipeDo(p, ev).pc.Exited? ==> Ends(ev)
    ensures Ends(ev) ==> PipeDo(p, ev).pc.Exited?
  {
  }

  lemma {:induction false} EndRun(p: Pipe, trace: seq<Event>)
    requires PipeValid(p, trace) && trace != []
    ensures PipeExec(p, trace).pc.Exited? <==> Ends(trace[|trace| - 1])
    decreases |trace|
  {
    StepEnds(p, trace[0]);
    if |trace| > 1 {
      EndRun(PipeDo(p, trace[0]), trace[1..]);
    } else {
      assert trace[1..] == [];
    }
  }

  /** No goroutine returns in silence: it returns exactly when the context is done, or after
      CloseOnce.Do has run, by itself or before. */
  lemma ExitedIff(trace: seq<Event>)
    requires PipeValid(STARTED, trace)
    ensures PipeExec(STARTED, trace).pc.Exited? <==> trace != [] && Ends(trace[|trace| - 1])
  {
    if trace != [] { EndRun(STARTED, trace); }
  }

  // ----- which errors are counted

  /** An operation failed with an error that counts, and the context was live after it. */
  predicate CountsAs(op: Event, check: Event, c: Cause) {
    && (op.ReadErr? || op.WroteErr?) && check == CtxChecked(false)
    && op.e != EndOfFile && op.e != Closed && op.e != Timeout
    && c == Failure(op.e, op.open, true)
  }

  predicate CausedIn(trace: seq<Event>, c: Cause) {
    |trace| >= 2 && (CountsAs(trace[0], trace[1], c) || CausedIn(trace[1..], c))
  }

  /** The failed operation that the goroutine is about to look at. */
  function Failing(pc: Pc): Option<Event> {
    match pc
    case ReadFailed(e, open) => Some(ReadErr([], e, open))
    case WriteFailed(e, open) => Some(WroteErr(0, e, open))
    case _ => None
  }

  predicate CausedFirst(p: Pipe, trace: seq<Event>, c: Cause) {
    Failing(p.pc).Some? && trace != [] && CountsAs(Failing(p.pc).value, trace[0], c)
  }

  lemma StepCauses(p: Pipe, ev: Event, c: Cause)
    requires PipeEnabled(p, ev) && c.Failure?
    ensures c in PipeDo(p, ev).reported <==> c in p.reported || CausedFirst(p, [ev], c)
    ensures var q := PipeDo(p, ev);
            if ev.ReadErr? || ev.WroteErr? then Failing(q.pc).Some? && Failing(q.pc).value.e == ev.e
                                                && Failing(q.pc).value.open == ev.open
            else Failing(q.pc) == None
  {
  }

  lemma {:induction false} CauseRun(p: Pipe, trace: seq<Event>, c: Cause)
    requires PipeValid(p, trace) && c.Failure?
    ensures c in PipeExec(p, trace).reported <==> c in p.reported || CausedFirst(p, trace, c) || CausedIn(trace, c)
    decreases |trace|
  {
    if trace != [] {
      StepCauses(p, trace[0], c);
      CauseRun(PipeDo(p, trace[0]), trace[1..], c);
    }
  }

  /** The metric exactly: a failed operation is counted if and only if its error is not
      EOF, not net.ErrClosed and not a timeout and the context was live right after it; a
      write that accepted nothing and reported nothing is counted in any case. */
  lemma ReportedIff(trace: seq<Event>, c: Cause)
    requires PipeValid(STARTED, trace)
    ensures c in PipeExec(STARTED, trace).reported <==>
              if c.Stalled? then Wrote(0) in trace else CausedIn(trace, c)
  {
    StalledRun(STARTED, trace);
    if c.Failure? { CauseRun(STARTED, trace, c); }
  }

  // ----- the goroutine's behaviour as a language

  /** At the loop head: return if the context is done, else read. A panic anywhere signals. */
  predicate LoopTrace(t: seq<Event>)
    decreases |t|
  {
    t == [] ||
    match t[0]
    case CtxChecked(done) => if done then t[1..] == [] else ReadTrace(t[1..])
    case Panicked => SignalTrace(t[1..])
    case _ => false
  }

  /** A read of at most a buffer, then the writing of it, or the error branch. */
  predicate ReadTrace(t: seq<Event>)
    decreases |t|
  {
    t == [] ||
    match t[0]
    case ReadOk(data) => |data| <= 65535 && WriteTrace(t[1..], |data|)
    case ReadErr(data, _, _) => |data| <= 65535 && FailTrace(t[1..])
    case Panicked => SignalTrace(t[1..])
    case _ => false
  }

  /** Writes until nothing is left, then the counting and the next turn. A write of nothing
      without an error signals; one with an error takes the error branch. */
  predicate WriteTrace(t: seq<Event>, left: int)
    decreases |t|
  {
    t == [] ||
    match t[0]
    case Wrote(n) => left > 0 && n <= left && (if n == 0 then SignalTrace(t[1..]) else WriteTrace(t[1..], left - n))
    case WroteErr(n, _, _) => left > 0 && n <= left && FailTrace(t[1..])
    case Counted => left == 0 && LoopTrace(t[1..])
    case Panicked => SignalTrace(t[1..])
    case _ => false
  }

  /** The error branch: return if the context is done, else signal. */
  predicate FailTrace(t: seq<Event>) {
    t == [] ||
    match t[0]
    case CtxChecked(done) => if done then t[1..] == [] else SignalTrace(t[1..])
    case Panicked => SignalTrace(t[1..])
    case _ => false
  }

  /** CloseOnce.Do: run the send, or find that it was run. */
  predicate SignalTrace(t: seq<Event>) {
    t == [] || t == [OnceLost] || t == [OnceWon] || t == [OnceWon, Sent]
  }

  predicate TraceFrom(p: Pipe, t: seq<Event>) {
    match p.pc
    case Idle => t == []
    case Head => LoopTrace(t)
    case Read => ReadTrace(t)
    case ReadFailed(_, _) => FailTrace(t)
    case Write => WriteTrace(t, |p.chunk| - p.written)
    case WriteFailed(_, _) => FailTrace(t)
    case Enter => SignalTrace(t)
    case Send => t == [] || t == [Sent]
    case Exited => t == []
  }

  lemma StepInLanguage(p: Pipe, t: seq<Event>)
    requires p.written <= |p.chunk| && t != []
    ensures TraceFrom(p, t) <==> PipeEnabled(p, t[0]) && TraceFrom(PipeDo(p, t[0]), t[1..])
  {
    var ev := t[0];
    assert t == [ev] + t[1..];
    if PipeEnabled(p, ev) {
      var q := PipeDo(p, ev);
      assert ev.Wrote? && ev.n > 0 ==> |q.chunk| - q.written == |p.chunk| - p.written - ev.n;
    }
  }

  lemma {:induction false} Language(p: Pipe, t: seq<Event>)
    requires p.written <= |p.chunk|
    ensures PipeValid(p, t) <==> TraceFrom(p, t) && forall ev :: ev in t ==> Truthful(ev)
    decreases |t|
  {
    if t != [] {
      StepInLanguage(p, t);
      assert forall ev :: ev in t <==> ev == t[0] || ev in t[1..];
      if PipeEnabled(p, t[0]) {
        Language(PipeDo(p, t[0]), t[1..]);
      }
    }
  }

  /** The runs of the automaton are exactly the prefixes of the loop's traces: nothing is
      skipped, repeated or reordered, and every result of a read or write can occur. */
  lemma TracesOfPipe(t: seq<Event>)
    ensures PipeValid(STARTED, t) <==> LoopTrace(t) && forall ev :: ev in t ==> Truthful(ev)
  {
    Language(STARTED, t);
  }
}
