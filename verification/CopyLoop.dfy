/** `TCPProxy.Pipe` as code: a loop over a reused buffer with an inner short-write
    loop. Each operation is mirrored by an event of the copy automaton, so the method's
    contract says that the code follows a run of PipeMachine. */
module CopyLoop {
  import opened Common
  import opened PipeMachine
  import opened Counters

  // ----- runs of the automaton, built step by step

  /** What a goroutine has consulted, and what the destination has received. */
  datatype View = View(asked: seq<bool>, read: seq<Event>, written: seq<Event>, received: Bytes)

  /** A run so far, the state it has reached, and the views at its start and now. */
  datatype Log = Log(trace: seq<Event>, p: Pipe, start: View, now: View)

  ghost predicate Follows(l: Log) {
    && PipeValid(STARTED, l.trace) && l.p == PipeExec(STARTED, l.trace)
    && l.now == Later(l.start, l.trace, l.p.delivered)
  }

  /** The view after a run, from the view before it. */
  function Later(v: View, trace: seq<Event>, delivered: Bytes): View {
    View(v.asked + Asked(trace), v.read + Reads(trace), v.written + Writes(trace), v.received + delivered)
  }

  lemma {:induction false} PipeSnoc(p: Pipe, trace: seq<Event>, ev: Event)
    requires PipeValid(p, trace) && PipeEnabled(PipeExec(p, trace), ev) && Truthful(ev)
    ensures PipeValid(p, trace + [ev])
    ensures PipeExec(p, trace + [ev]) == PipeDo(PipeExec(p, trace), ev)
    decreases |trace|
  {
    var all := trace + [ev];
    if trace == [] {
      assert all == [ev] && all[1..] == [];
      assert PipeValid(PipeDo(p, ev), all[1..]) && PipeExec(PipeDo(p, ev), all[1..]) == PipeDo(p, ev);
    } else {
      PipeSnoc(PipeDo(p, trace[0]), trace[1..], ev);
      assert all[0] == trace[0] && all[1..] == trace[1..] + [ev];
    }
  }

  // ----- what a run consulted

  /** The answers of the context, in order. */
  function Asked(t: seq<Event>): seq<bool> {
    if t == [] then []
    else var ev := t[|t| - 1];
         Asked(t[..|t| - 1]) + (if ev.CtxChecked? then [ev.done] else [])
  }

  /** The results of the reads, in order. */
  function Reads(t: seq<Event>): seq<Event> {
    if t == [] then []
    else var ev := t[|t| - 1];
         Reads(t[..|t| - 1]) + (if ev.ReadOk? || ev.ReadErr? then [ev] else [])
  }

  /** The results of the writes, in order. */
  function Writes(t: seq<Event>): seq<Event> {
    if t == [] then []
    else var ev := t[|t| - 1];
         Writes(t[..|t| - 1]) + (if ev.Wrote? || ev.WroteErr? then [ev] else [])
  }

  /** What one event adds to the view of a goroutine in this state. */
  function Seen(v: View, p: Pipe, ev: Event): View
    requires PipeEnabled(p, ev)
  {
    match ev
    case CtxChecked(done) => v.(asked := v.asked + [done])
    case ReadOk(_) => v.(read := v.read + [ev])
    case ReadErr(_, _, _) => v.(read := v.read + [ev])
    case Wrote(n) => v.(written := v.written + [ev], received := v.received + p.chunk[p.written..p.written + n])
    case WroteErr(n, _, _) =>
      v.(written := v.written + [ev], received := v.received + p.chunk[p.written..p.written + n])
    case _ => v
  }

  lemma LaterSnoc(v: View, trace: seq<Event>, p: Pipe, ev: Event)
    requires PipeEnabled(p, ev)
    ensures Later(v, trace + [ev], PipeDo(p, ev).delivered) == Seen(Later(v, trace, p.delivered), p, ev)
  {
    assert (trace + [ev])[..|trace|] == trace;
    var t := trace + [ev];
    assert Asked(t) == Asked(trace) + (if ev.CtxChecked? then [ev.done] else []);
    assert Reads(t) == Reads(trace) + (if ev.ReadOk? || ev.ReadErr? then [ev] else []);
    assert Writes(t) == Writes(trace) + (if ev.Wrote? || ev.WroteErr? then [ev] else []);
    if ev.Wrote? || ev.WroteErr? {
      ConcatAssociates(v.received, p.delivered, p.chunk[p.written..p.written + ev.n]);
    }
  }

  ghost function Push(l: Log, ev: Event): (l': Log)
    requires Follows(l) && PipeEnabled(l.p, ev) && Truthful(ev)
    ensures Follows(l')
    ensures l' == Log(l.trace + [ev], PipeDo(l.p, ev), l.start, Seen(l.now, l.p, ev))
  {
    PipeSnoc(STARTED, l.trace, ev);
    LaterSnoc(l.start, l.trace, l.p, ev);
    Log(l.trace + [ev], PipeDo(l.p, ev), l.start, Seen(l.now, l.p, ev))
  }

  ghost function NewLog(v: View): (l: Log)
    ensures Follows(l) && l == Log([], STARTED, v, v)
  {
    assert Later(v, [], []) == v;
    Log([], STARTED, v, v)
  }

  /** The run ended at a context check. */
  predicate Quiet(l: Log) {
    l.trace != [] && l.trace[|l.trace| - 1] == CtxChecked(true)
  }

  /** The two states differ in control and reports only. */
  predicate SameData(p: Pipe, q: Pipe) {
    p.fetched == q.fetched && p.dropped == q.dropped && p.counted == q.counted && p.delivered == q.delivered
  }

  // ----- the connections, with scripted behaviour

  /** What one call of Read or Write will do: panic, or return; `open` is false once this
      process has closed the connection. */
  datatype ReadResult = ReadPanics | ReadResult(data: Bytes, err: Option<NetError>, open: bool)
  datatype WriteResult = WritePanics | WriteResult(n: nat, err: Option<NetError>, open: bool)

  predicate TruthfulRead(r: ReadResult) {
    r.ReadResult? && !r.open ==> r.err == Some(Closed)
  }

  predicate TruthfulWrite(r: WriteResult) {
    r.WriteResult? && !r.open ==> r.err == Some(Closed)
  }

  /** A net.Conn. `incoming` and `outgoing` script the results of the reads and writes to
      come (then: end of file, and everything accepted); `received` is what writes have
      delivered so far. The ghost fields record what the calls so far returned. */
  class Conn {
    var incoming: seq<ReadResult>
    var outgoing: seq<WriteResult>
    var received: Bytes
    ghost var readLog: seq<Event>
    ghost var writeLog: seq<Event>

    ghost predicate Valid()
      reads this
    {
      && (forall i :: 0 <= i < |incoming| ==> TruthfulRead(incoming[i]))
      && (forall i :: 0 <= i < |outgoing| ==> TruthfulWrite(outgoing[i]))
    }

    /** Fills a prefix of the buffer; the rest of the buffer keeps its stale bytes. */
    method Read(buff: array<byte>) returns (n: nat, err: Option<NetError>, panicked: bool, ghost open: bool)
      requires Valid()
      modifies this`incoming, this`readLog, buff
      ensures Valid() && n <= buff.Length
      ensures panicked <==> old(incoming) != [] && old(incoming)[0].ReadPanics?
      ensures old(incoming) == [] ==> n == 0 && err == Some(EndOfFile)
      ensures old(incoming) != [] && !panicked ==>
                var r := old(incoming)[0];
                n == Min(|r.data|, buff.Length) && buff[..n] == r.data[..n] && err == r.err
      ensures readLog == old(readLog) + (if panicked then []
                                     else if err == None then [ReadOk(buff[..n])]
                                     else [ReadErr(buff[..n], err.value, open)])
      ensures !open ==> err == Some(Closed)
      ensures err == None ==> |incoming| < |old(incoming)|
    {
      n, err, panicked, open := 0, Some(EndOfFile), false, true;
      if incoming != [] {
        var r := incoming[0];
        incoming := incoming[1..];
        if r.ReadPanics? {
          panicked := true;
          return;
        }
        n, err, open := Min(|r.data|, buff.Length), r.err, r.open;
        forall i | 0 <= i < n { buff[i] := r.data[i]; }
      }
      readLog := readLog + [if err == None then ReadOk(buff[..n]) else ReadErr(buff[..n], err.value, open)];
    }

    method Write(data: Bytes) returns (n: nat, err: Option<NetError>, panicked: bool, ghost open: bool)
      requires Valid()
      modifies this`outgoing, this`received, this`writeLog
      ensures Valid() && n <= |data|
      ensures panicked <==> old(outgoing) != [] && old(outgoing)[0].WritePanics?
      ensures panicked ==> n == 0
      ensures old(outgoing) == [] ==> n == |data| && err == None
      ensures old(outgoing) != [] && !panicked ==>
                n == Min(old(outgoing)[0].n, |data|) && err == old(outgoing)[0].err
      ensures received == old(received) + data[..n]
      ensures writeLog == old(writeLog) + (if panicked then []
                                       else if err == None then [Wrote(n)]
                                       else [WroteErr(n, err.value, open)])
      ensures !open ==> err == Some(Closed)
    {
      n, err, panicked, open := |data|, None, false, true;
      if outgoing != [] {
        var r := outgoing[0];
        outgoing := outgoing[1..];
        if r.WritePanics? {
          n, panicked := 0, true;
          return;
        }
        n, err, open := Min(r.n, |data|), r.err, r.open;
      }
      received := received + data[..n];
      writeLog := writeLog + [if err == None then Wrote(n) else WroteErr(n, err.value, open)];
    }
  }

  // ----- the proxy

  /** The two words of the counter after `n` more bytes in one direction. */
  predicate Grew(islocal: bool, n: nat, to: uint64, from: uint64, to': uint64, from': uint64) {
    if islocal then to' == Add64(to, n) && from' == from else to' == to && from' == Add64(from, n)
  }

  lemma GrewTwice(islocal: bool, m: nat, n: nat, to: uint64, from: uint64, to': uint64, from': uint64,
                  to'': uint64, from'': uint64)
    requires Grew(islocal, m, to, from, to', from') && Grew(islocal, n, to', from', to'', from'')
    ensures Grew(islocal, m + n, to, from, to'', from'')
  {
    AddsCombine(if islocal then to else from, m, n);
  }

  class TcpProxy {
    const counter: Counter
    var answers: seq<bool>  // what ctx.Err() != nil will answer (then: true)
    var fired: bool         // CloseOnce
    var tokens: nat         // ErrorSignal
    var errors: nat         // the connection error metric
    ghost var asked: seq<bool>

    constructor (counter: Counter, answers: seq<bool>)
      ensures this.counter == counter && !fired && tokens == 0 && errors == 0
    {
      this.counter, this.answers, fired, tokens, errors := counter, answers, false, 0, 0;
    }

    /** The goroutine has followed this run, and what the run consulted and delivered is what
        happened to the context and the connections. */
    ghost predicate Tracks(src: Conn, dst: Conn, l: Log)
      reads this`asked, src`readLog, dst`writeLog, dst`received
    {
      Follows(l) && l.now == View(asked, src.readLog, dst.writeLog, dst.received)
    }

    method ContextDone() returns (done: bool)
      modifies this`answers, this`asked
      ensures done == (old(answers) == [] || old(answers)[0])
      ensures answers == if old(answers) == [] then [] else old(answers)[1..]
      ensures asked == old(asked) + [done]
    {
      if answers == [] {
        done := true;
      } else {
        done, answers := answers[0], answers[1..];
      }
      asked := asked + [done];
    }

    /** CloseOnce.Do with the send on ErrorSignal. */
    method Signal(src: Conn, dst: Conn, ghost l: Log) returns (ghost l': Log)
      requires Tracks(src, dst, l) && l.p.pc.Enter?
      modifies this`fired, this`tokens
      ensures Tracks(src, dst, l') && l'.p == l.p.(pc := Exited) && l'.start == l.start
      ensures fired && tokens == old(tokens) + (if old(fired) then 0 else 1)
    {
      if fired {
        l' := Push(l, OnceLost);
      } else {
        fired, tokens := true, tokens + 1;
        l' := Push(Push(l, OnceWon), Sent);
      }
    }

    /** The deferred function after a panic: recover, and signal. */
    method Recover(src: Conn, dst: Conn, ghost l: Log) returns (ghost l': Log)
      requires Tracks(src, dst, l) && InBody(l.p.pc)
      modifies this`fired, this`tokens
      ensures Tracks(src, dst, l') && l'.p == l.p.(pc := Exited) && l'.start == l.start
      ensures fired && tokens == old(tokens) + (if old(fired) then 0 else 1)
    {
      l' := Signal(src, dst, Push(l, Panicked));
    }

    /** The common tail of the read and write error branches. */
    method Fail(src: Conn, dst: Conn, e: NetError, ghost l: Log) returns (ghost l': Log)
      requires Tracks(src, dst, l)
      requires (l.p.pc.ReadFailed? || l.p.pc.WriteFailed?) && l.p.pc.e == e
      modifies this`answers, this`asked, this`fired, this`tokens, this`errors
      ensures Tracks(src, dst, l') && l'.p.pc.Exited? && SameData(l.p, l'.p)
      ensures errors - old(errors) == |l'.p.reported| - |l.p.reported|
      ensures tokens - old(tokens) == (if fired && !old(fired) then 1 else 0) && (old(fired) ==> fired)
      ensures l'.start == l.start
      ensures fired || (Quiet(l') && l'.p.reported == l.p.reported)
    {
      var done := ContextDone();
      l' := Push(l, CtxChecked(done));
      if done { return; }
      if e != Timeout && !Benign(e) {
        errors := errors + 1;
      }
      l' := Signal(src, dst, l');
    }

    /** One Write call of the short-write loop. */
    method WriteSome(src: Conn, dst: Conn, data: Bytes, ghost l: Log)
      returns (m: nat, ok: bool, ghost l': Log)
      requires src != dst && dst.Valid() && Tracks(src, dst, l)
      requires l.p.pc.Write? && l.p.written < |l.p.chunk| && data == l.p.chunk[l.p.written..]
      modifies this`answers, this`asked, this`fired, this`tokens, this`errors
      modifies dst`outgoing, dst`received, dst`writeLog
      ensures dst.Valid() && Tracks(src, dst, l') && l'.p.counted == l.p.counted
      ensures errors - old(errors) == |l'.p.reported| - |l.p.reported|
      ensures tokens - old(tokens) == (if fired && !old(fired) then 1 else 0) && (old(fired) ==> fired)
      ensures ok ==> 0 < m <= |data| && l'.p.pc.Write? && l'.p.chunk == l.p.chunk && l'.p.written == l.p.written + m
      ensures ok ==> l'.p.dropped == l.p.dropped && l'.p.reported == l.p.reported && fired == old(fired)
      ensures l'.start == l.start
      ensures !ok ==> l'.p.pc.Exited? && (fired || (Quiet(l') && l'.p.reported == l.p.reported))
    {
      var err, panicked;
      ghost var open;
      m, err, panicked, open := dst.Write(data);
      assert data[..m] == l.p.chunk[l.p.written..l.p.written + m];
      ok := false;
      if panicked {
        l' := Recover(src, dst, l);
        return;
      }
      l' := Push(l, if err == None then Wrote(m) else WroteErr(m, err.value, open));
      assert Tracks(src, dst, l');
      if m == 0 && err == None {
        errors := errors + 1;
        l' := Signal(src, dst, l');
      } else if err != None {
        l' := Fail(src, dst, err.value, l');
      } else {
        ok := true;
      }
    }

    /** The short-write loop: writes buff[..n] to dst until all is written or a write
        fails. Whatever is accepted lands on dst in order, and only once. */
    method WriteAll(src: Conn, dst: Conn, buff: array<byte>, n: nat, ghost l: Log)
      returns (ok: bool, ghost l': Log)
      requires src != dst && dst.Valid() && n <= buff.Length && Tracks(src, dst, l)
      requires l.p.pc.Write? && l.p.chunk == buff[..n] && l.p.written == 0
      modifies this`answers, this`asked, this`fired, this`tokens, this`errors
      modifies dst`outgoing, dst`received, dst`writeLog
      ensures dst.Valid() && Tracks(src, dst, l') && l'.p.counted == l.p.counted
      ensures errors - old(errors) == |l'.p.reported| - |l.p.reported|
      ensures tokens - old(tokens) == (if fired && !old(fired) then 1 else 0) && (old(fired) ==> fired)
      ensures ok ==> l'.p.pc.Write? && l'.p.written == n == |l'.p.chunk|
      ensures ok ==> l'.p.dropped == l.p.dropped && l'.p.reported == l.p.reported && fired == old(fired)
      ensures l'.start == l.start
      ensures !ok ==> l'.p.pc.Exited? && (fired || (Quiet(l') && l'.p.reported == l.p.reported))
    {
      var written := 0;
      l' := l;
      while written < n
        invariant dst.Valid() && Tracks(src, dst, l') && l'.p.counted == l.p.counted && l'.start == l.start
        invariant l'.p.pc.Write? && l'.p.chunk == buff[..n] && l'.p.written == written <= n
        invariant l'.p.dropped == l.p.dropped && l'.p.reported == l.p.reported
        invariant errors == old(errors) && tokens == old(tokens) && fired == old(fired)
        decreases n - written
      {
        assert buff[written..n] == l'.p.chunk[written..];
        var m;
        m, ok, l' := WriteSome(src, dst, buff[written..n], l');
        if !ok { return; }
        written := written + m;
      }
      ok := true;
    }

    /** The counter update after a fully written chunk. */
    method Count(islocal: bool, written: nat)
      modifies counter
      ensures Grew(islocal, written, old(counter.to), old(counter.from), counter.to, counter.from)
    {
      if islocal { counter.To(written); } else { counter.From(written); }
    }

    /** The first half of a turn: check the context and read a chunk into the buffer. */
    method ReadChunk(src: Conn, dst: Conn, buff: array<byte>, ghost l: Log)
      returns (n: nat, ok: bool, ghost l': Log)
      requires src != dst && src.Valid() && buff.Length == BUFFER_SIZE
      requires Tracks(src, dst, l) && l.p.pc.Head?
      modifies this`answers, this`asked, this`fired, this`tokens, this`errors, buff, src`incoming, src`readLog
      ensures src.Valid() && Tracks(src, dst, l') && l'.p.counted == l.p.counted
      ensures errors - old(errors) == |l'.p.reported| - |l.p.reported|
      ensures tokens - old(tokens) == (if fired && !old(fired) then 1 else 0) && (old(fired) ==> fired)
      ensures ok ==> n <= buff.Length && l'.p.pc.Write? && l'.p.chunk == buff[..n] && l'.p.written == 0
      ensures ok ==> l'.p.dropped == l.p.dropped && l'.p.reported == l.p.reported && fired == old(fired)
      ensures ok ==> |src.incoming| < old(|src.incoming|)
      ensures l'.start == l.start
      ensures !ok ==> l'.p.pc.Exited? && (fired || (Quiet(l') && l'.p.reported == l.p.reported))
    {
      n, ok := 0, false;
      var done := ContextDone();
      l' := Push(l, CtxChecked(done));
      if done { return; }
      var err, panicked;
      ghost var open;
      n, err, panicked, open := src.Read(buff);
      if panicked {
        l' := Recover(src, dst, l');
      } else if err != None {
        l' := Push(l', ReadErr(buff[..n], err.value, open));
        l' := Fail(src, dst, err.value, l');
      } else {
        l' := Push(l', ReadOk(buff[..n]));
        ok := true;
      }
    }

    /** One turn of the copy loop: check the context, read, write everything, count. */
    method Turn(src: Conn, dst: Conn, islocal: bool, buff: array<byte>, ghost l: Log)
      returns (more: bool, ghost l': Log)
      requires src != dst && src.Valid() && dst.Valid() && buff.Length == BUFFER_SIZE
      requires Tracks(src, dst, l) && l.p.pc.Head?
      modifies this`answers, this`asked, this`fired, this`tokens, this`errors, counter, buff
      modifies src`incoming, src`readLog, dst`outgoing, dst`received, dst`writeLog
      ensures src.Valid() && dst.Valid() && Tracks(src, dst, l')
      ensures |l'.p.counted| >= |l.p.counted|
      ensures Grew(islocal, |l'.p.counted| - |l.p.counted|, old(counter.to), old(counter.from),
                   counter.to, counter.from)
      ensures errors - old(errors) == |l'.p.reported| - |l.p.reported|
      ensures tokens - old(tokens) == (if fired && !old(fired) then 1 else 0) && (old(fired) ==> fired)
      ensures more ==> l'.p.pc.Head? && l'.p.reported == l.p.reported && fired == old(fired)
      ensures more ==> |src.incoming| < old(|src.incoming|)
      ensures l'.start == l.start
      ensures !more ==> l'.p.pc.Exited? && (fired || (Quiet(l') && l'.p.reported == l.p.reported))
    {
      var n;
      n, more, l' := ReadChunk(src, dst, buff, l);
      if more {
        more, l' := WriteAll(src, dst, buff, n, l');
      }
      if more {
        Count(islocal, n);
        l' := Push(l', Counted);
      }
    }

    /** A turn, with the counter compared to its words when the goroutine began. */
    method CountedTurn(src: Conn, dst: Conn, islocal: bool, buff: array<byte>,
                       ghost to: uint64, ghost from: uint64, ghost l: Log)
      returns (more: bool, ghost l': Log)
      requires src != dst && src.Valid() && dst.Valid() && buff.Length == BUFFER_SIZE
      requires Tracks(src, dst, l) && l.p.pc.Head?
      requires Grew(islocal, |l.p.counted|, to, from, counter.to, counter.from)
      modifies this`answers, this`asked, this`fired, this`tokens, this`errors, counter, buff
      modifies src`incoming, src`readLog, dst`outgoing, dst`received, dst`writeLog
      ensures src.Valid() && dst.Valid() && Tracks(src, dst, l') && l'.start == l.start
      ensures Grew(islocal, |l'.p.counted|, to, from, counter.to, counter.from)
      ensures errors - old(errors) == |l'.p.reported| - |l.p.reported|
      ensures tokens - old(tokens) == (if fired && !old(fired) then 1 else 0) && (old(fired) ==> fired)
      ensures more ==> l'.p.pc.Head? && l'.p.reported == l.p.reported && fired == old(fired)
      ensures more ==> |src.incoming| < old(|src.incoming|)
      ensures !more ==> l'.p.pc.Exited? && (fired || (Quiet(l') && l'.p.reported == l.p.reported))
    {
      more, l' := Turn(src, dst, islocal, buff, l);
      GrewTwice(islocal, |l.p.counted|, |l'.p.counted| - |l.p.counted|, to, from, old(counter.to), old(counter.from),
                counter.to, counter.from);
    }

    /** The copy goroutine. For every script of context answers, reads, writes and panics it
        terminates, having followed a run of the automaton whose context answers, reads and
        writes are those it was given: dst received exactly what the run delivered, the
        counter of its direction grew by exactly the fully written chunks, the metric by the
        reported causes, a token was sent if and only if this call fired the once, and the
        once has fired unless the last thing it saw was a context that is done. */
    method Pipe(src: Conn, dst: Conn, islocal: bool) returns (ghost l: Log)
      requires src != dst && src.Valid() && dst.Valid()
      modifies this`answers, this`asked, this`fired, this`tokens, this`errors, counter
      modifies src`incoming, src`readLog, dst`outgoing, dst`received, dst`writeLog
      ensures Tracks(src, dst, l) && l.p.pc.Exited?
      ensures l.start == old(View(asked, src.readLog, dst.writeLog, dst.received))
      ensures islocal ==> counter.to == Add64(old(counter.to), |l.p.counted|) && counter.from == old(counter.from)
      ensures !islocal ==> counter.from == Add64(old(counter.from), |l.p.counted|) && counter.to == old(counter.to)
      ensures errors == old(errors) + |l.p.reported|
      ensures tokens - old(tokens) == (if fired && !old(fired) then 1 else 0) && (old(fired) ==> fired)
      ensures fired || (l.trace[|l.trace| - 1] == CtxChecked(true) && l.p.reported == [])
    {
      var buff := new byte[BUFFER_SIZE];
      ghost var start := View(asked, src.readLog, dst.writeLog, dst.received);
      ghost var to, from := counter.to, counter.from;
      l := NewLog(start);
      var more := true;
      while more
        invariant src.Valid() && dst.Valid() && fresh(buff) && Tracks(src, dst, l) && l.start == start
        invariant more ==> l.p.pc.Head? && l.p.reported == [] && fired == old(fired)
        invariant !more ==> l.p.pc.Exited? && (fired || (Quiet(l) && l.p.reported == []))
        invariant Grew(islocal, |l.p.counted|, to, from, counter.to, counter.from)
        invariant errors == old(errors) + |l.p.reported|
        invariant tokens - old(tokens) == (if fired && !old(fired) then 1 else 0) && (old(fired) ==> fired)
        decreases more, |src.incoming|
      {
        more, l := CountedTurn(src, dst, islocal, buff, to, from, l);
      }
    }
  }
}
