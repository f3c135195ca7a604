/** The TCP accept loop: a semaphore of `server.maxconns` slots, a WaitGroup and a bounded
    drain, interleaved with the connection goroutines. */
module TcpAdmission {

  datatype LoopPc = Accepting | Offered | Holding | Draining | Drained | GaveUp

  /** `limit` is maxconns, 0 for none. A connection goroutine is running Start, then about
      to give its slot back, then about to leave the WaitGroup. `panicked` are those whose
      Start recovered from a panic before it returned. */
  datatype State = State(
    limit: nat,
    tokens: nat,
    wg: nat,
    connID: nat,
    loop: LoopPc,
    running: set<nat>,
    releasing: set<nat>,
    leaving: set<nat>,
    panicked: set<nat>,
    issued: seq<nat>,
    cancelled: bool,
    waited: bool)

  datatype Action =
    | Accept
    | AcceptFailed
    | Acquire
    | Reject
    | Spawn
    | StartReturned(id: nat, panicked: bool)
    | Release(id: nat)
    | Leave(id: nat)
    | Cancel
    | WaitReturned
    | DoneSeen
    | DrainTimeout

  function Init(limit: nat): State {
    State(limit, 0, 0, 0, Accepting, {}, {}, {}, {}, [], false, false)
  }

  predicate Enabled(s: State, a: Action) {
    match a
    case Accept => s.loop.Accepting?
    case AcceptFailed => s.loop.Accepting?
    case Acquire => s.loop.Offered? && (s.limit == 0 || s.tokens < s.limit)
    case Reject => s.loop.Offered? && s.limit > 0 && s.tokens >= s.limit
    case Spawn => s.loop.Holding?
    case StartReturned(id, _) => id in s.running
    case Release(id) => id in s.releasing && (s.limit == 0 || s.tokens > 0)
    case Leave(id) => id in s.leaving && s.wg > 0
    case Cancel => !s.cancelled
    case WaitReturned => s.loop.Draining? && s.wg == 0
    case DoneSeen => s.loop.Draining? && s.waited
    case DrainTimeout => s.loop.Draining?
  }

  function Do(s: State, a: Action): State
    requires Enabled(s, a)
  {
    match a
    case Accept => s.(loop := Offered)
    case AcceptFailed => s.(loop := if s.cancelled then Draining else Accepting)
    case Acquire => s.(loop := Holding, tokens := if s.limit > 0 then s.tokens + 1 else s.tokens)
    case Reject => s.(loop := Accepting)
    case Spawn =>
      s.(loop := Accepting, connID := s.connID + 1, wg := s.wg + 1,
         running := s.running + {s.connID + 1}, issued := s.issued + [s.connID + 1])
    case StartReturned(id, panicked) =>
      s.(running := s.running - {id}, releasing := s.releasing + {id},
         panicked := if panicked then s.panicked + {id} else s.panicked)
    case Release(id) =>
      s.(releasing := s.releasing - {id}, leaving := s.leaving + {id},
         tokens := if s.limit > 0 then s.tokens - 1 else s.tokens)
    case Leave(id) => s.(leaving := s.leaving - {id}, wg := s.wg - 1)
    case Cancel => s.(cancelled := true)
    case WaitReturned => s.(waited := true)
    case DoneSeen => s.(loop := Drained)
    case DrainTimeout => s.(loop := GaveUp)
  }

  predicate Valid(s: State, acts: seq<Action>)
    decreases |acts|
  {
    acts == [] || (Enabled(s, acts[0]) && Valid(Do(s, acts[0]), acts[1..]))
  }

  function Exec(s: State, acts: seq<Action>): State
    requires Valid(s, acts)
    decreases |acts|
  {
    if acts == [] then s else Exec(Do(s, acts[0]), acts[1..])
  }

  /** The goroutines that have not given their slot back yet. */
  function Unfinished(s: State): nat {
    |s.running| + |s.releasing|
  }

  function LoopHolds(s: State): nat {
    if s.loop.Holding? then 1 else 0
  }

  predicate SlotInv(s: State) {
    && s.tokens == (if s.limit > 0 then Unfinished(s) + LoopHolds(s) else 0)
    && (s.limit > 0 ==> s.tokens <= s.limit)
    && s.wg == |s.running| + |s.releasing| + |s.leaving|
    && s.running !! s.releasing && s.running !! s.leaving && s.releasing !! s.leaving
  }

  predicate Issued(ids: set<nat>, connID: nat) {
    forall id :: id in ids ==> 1 <= id <= connID
  }

  predicate IdInv(s: State) {
    && |s.issued| == s.connID
    && (forall i :: 0 <= i < |s.issued| ==> s.issued[i] == i + 1)
    && Issued(s.running, s.connID) && Issued(s.releasing, s.connID) && Issued(s.leaving, s.connID)
    && Issued(s.panicked, s.connID) && s.panicked !! s.running
  }

  predicate DrainInv(s: State) {
    && (s.loop.Drained? ==> s.waited)
    && (s.waited ==> s.wg == 0 && (s.loop.Draining? || s.loop.Drained? || s.loop.GaveUp?))
  }

  predicate Inv(s: State) {
    SlotInv(s) && IdInv(s) && DrainInv(s)
  }

  lemma SpawnKeepsSlots(s: State)
    requires SlotInv(s) && IdInv(s) && Enabled(s, Spawn)
    ensures SlotInv(Do(s, Spawn))
  {
    assert s.connID + 1 !in s.running && s.connID + 1 !in s.releasing && s.connID + 1 !in s.leaving;
  }

  lemma ReturnKeepsSlots(s: State, id: nat, panicked: bool)
    requires SlotInv(s) && Enabled(s, StartReturned(id, panicked))
    ensures SlotInv(Do(s, StartReturned(id, panicked)))
  {
    assert id !in s.releasing;
  }

  lemma ReleaseKeepsSlots(s: State, id: nat)
    requires SlotInv(s) && Enabled(s, Release(id))
    ensures SlotInv(Do(s, Release(id)))
  {
    assert id !in s.leaving;
  }

  lemma StepKeepsSlots(s: State, a: Action)
    requires SlotInv(s) && IdInv(s) && Enabled(s, a)
    ensures SlotInv(Do(s, a))
  {
    match a
    case Spawn => SpawnKeepsSlots(s);
    case StartReturned(id, panicked) => ReturnKeepsSlots(s, id, panicked);
    case Release(id) => ReleaseKeepsSlots(s, id);
    case _ =>
  }

  lemma SpawnKeepsIds(s: State)
    requires IdInv(s) && Enabled(s, Spawn)
    ensures IdInv(Do(s, Spawn))
  {
  }

  lemma ReturnKeepsIds(s: State, id: nat, panicked: bool)
    requires IdInv(s) && Enabled(s, StartReturned(id, panicked))
    ensures IdInv(Do(s, StartReturned(id, panicked)))
  {
  }

  lemma ReleaseKeepsIds(s: State, id: nat)
    requires IdInv(s) && Enabled(s, Release(id))
    ensures IdInv(Do(s, Release(id)))
  {
  }

  lemma StepKeepsIds(s: State, a: Action)
    requires IdInv(s) && Enabled(s, a)
    ensures IdInv(Do(s, a))
  {
    match a
    case Spawn => SpawnKeepsIds(s);
    case StartReturned(id, panicked) => ReturnKeepsIds(s, id, panicked);
    case Release(id) => ReleaseKeepsIds(s, id);
    case _ =>
  }

  lemma StepKeepsInv(s: State, a: Action)
    requires Inv(s) && Enabled(s, a)
    ensures Inv(Do(s, a))
  {
    StepKeepsSlots(s, a);
    StepKeepsIds(s, a);
  }

  lemma {:induction false} RunKeepsInv(s: State, acts: seq<Action>)
    requires Inv(s) && Valid(s, acts)
    ensures Inv(Exec(s, acts)) && Exec(s, acts).limit == s.limit
    decreases |acts|
  {
    if acts != [] {
      StepKeepsInv(s, acts[0]);
      RunKeepsInv(Do(s, acts[0]), acts[1..]);
    }
  }

  /** TCP admission: in every run with a limit, the held slots are those of the unfinished
      connection goroutines (and of the one about to be spawned) and never exceed the
      limit; ids are 1, 2, 3, ...; giving a slot back never blocks; a Start that panicked
      does not count as running; "drained" means that no connection goroutine is left. */
  lemma Admission(limit: nat, acts: seq<Action>)
    requires Valid(Init(limit), acts)
    ensures var s := Exec(Init(limit), acts);
            && (limit > 0 ==> s.tokens == Unfinished(s) + LoopHolds(s) && s.tokens <= limit)
            && (forall i, j :: 0 <= i < j < |s.issued| ==> s.issued[i] < s.issued[j])
            && (forall id :: id in s.releasing ==> Enabled(s, Release(id)))
            && (forall id :: id in s.leaving ==> Enabled(s, Leave(id)))
            && s.panicked !! s.running
            && (s.loop.Drained? ==> s.running == {} && s.releasing == {} && s.leaving == {})
  {
    RunKeepsInv(Init(limit), acts);
  }

  /** A connection is turned away exactly while the limit is reached by others that have not
      finished; otherwise it is admitted. The loop never blocks on the semaphore. */
  lemma RejectedIffFull(limit: nat, acts: seq<Action>)
    requires Valid(Init(limit), acts) && Exec(Init(limit), acts).loop.Offered?
    ensures var s := Exec(Init(limit), acts);
            && (Enabled(s, Reject) <==> limit > 0 && Unfinished(s) == limit)
            && (Enabled(s, Acquire) <==> !Enabled(s, Reject))
  {
    RunKeepsInv(Init(limit), acts);
  }

  // ----- when the loop ends

  predicate LoopOver(s: State) {
    s.loop.Draining? || s.loop.Drained? || s.loop.GaveUp?
  }

  /** Accept failed after the shutdown was requested. */
  predicate FailedAfterCancel(acts: seq<Action>) {
    exists i, j :: 0 <= i < j < |acts| && acts[i] == Cancel && acts[j] == AcceptFailed
  }

  lemma StepOver(s: State, a: Action)
    requires Enabled(s, a)
    ensures LoopOver(Do(s, a)) <==> LoopOver(s) || (a == AcceptFailed && s.cancelled)
    ensures Do(s, a).cancelled <==> s.cancelled || a == Cancel
  {
  }

  lemma FailedAfterStep(acts: seq<Action>)
    requires acts != []
    ensures FailedAfterCancel(acts) <==>
              FailedAfterCancel(acts[1..]) || (acts[0] == Cancel && AcceptFailed in acts[1..])
  {
    if i, j :| 0 <= i < j < |acts| && acts[i] == Cancel && acts[j] == AcceptFailed {
      assert acts[1..][j - 1] == AcceptFailed;
      if i > 0 { assert acts[1..][i - 1] == Cancel; }
    }
    if i, j :| 0 <= i < j < |acts[1..]| && acts[1..][i] == Cancel && acts[1..][j] == AcceptFailed {
      assert acts[i + 1] == Cancel && acts[j + 1] == AcceptFailed;
    }
    if acts[0] == Cancel && AcceptFailed in acts[1..] {
      var j :| 0 <= j < |acts[1..]| && acts[1..][j] == AcceptFailed;
      assert acts[j + 1] == AcceptFailed;
    }
  }

  lemma {:induction false} OverRun(s: State, acts: seq<Action>)
    requires Valid(s, acts)
    ensures LoopOver(Exec(s, acts)) <==>
              LoopOver(s) || (s.cancelled && AcceptFailed in acts) || FailedAfterCancel(acts)
    decreases |acts|
  {
    if acts != [] {
      StepOver(s, acts[0]);
      FailedAfterStep(acts);
      OverRun(Do(s, acts[0]), acts[1..]);
    }
  }

  /** The loop stops accepting exactly when Accept fails after a shutdown was requested; any
      other accept error is survived. */
  lemma StopsIff(limit: nat, acts: seq<Action>)
    requires Valid(Init(limit), acts)
    ensures LoopOver(Exec(Init(limit), acts)) <==> FailedAfterCancel(acts)
    ensures Cancel !in acts ==> !LoopOver(Exec(Init(limit), acts))
  {
    OverRun(Init(limit), acts);
  }

  lemma {:induction false} DrainRun(s: State, acts: seq<Action>)
    requires Valid(s, acts)
    ensures var t := Exec(s, acts);
            && (t.loop.Drained? <==> s.loop.Drained? || DoneSeen in acts)
            && (t.loop.GaveUp? <==> s.loop.GaveUp? || DrainTimeout in acts)
            && (t.waited <==> s.waited || WaitReturned in acts)
    ensures s.loop.Drained? ==> DrainTimeout !in acts
    ensures s.loop.GaveUp? ==> DoneSeen !in acts
    decreases |acts|
  {
    if acts != [] {
      DrainRun(Do(s, acts[0]), acts[1..]);
      assert forall a :: a in acts <==> a == acts[0] || a in acts[1..];
    }
  }

  /** How the drain ends: "drained" exactly if the WaitGroup was seen empty, given up exactly
      at the timeout; and as soon as no connection goroutine is left, the drain can end well. */
  lemma DrainIff(limit: nat, acts: seq<Action>)
    requires Valid(Init(limit), acts)
    ensures var s := Exec(Init(limit), acts);
            && (s.loop.Drained? <==> DoneSeen in acts)
            && (s.loop.GaveUp? <==> DrainTimeout in acts)
            && (DoneSeen in acts ==> WaitReturned in acts)
            && (s.loop.Draining? && s.running == {} && s.releasing == {} && s.leaving == {} ==>
                  Enabled(s, WaitReturned) && Enabled(Do(s, WaitReturned), DoneSeen))
  {
    RunKeepsInv(Init(limit), acts);
    DrainRun(Init(limit), acts);
  }

  // ----- who is where, from the history

  predicate Returned(id: nat, acts: seq<Action>) {
    StartReturned(id, true) in acts || StartReturned(id, false) in acts
  }

  function Spawns(acts: seq<Action>): nat {
    if acts == [] then 0 else (if acts[0] == Spawn then 1 else 0) + Spawns(acts[1..])
  }

  /** What can no longer happen to a connection that has passed a point. */
  lemma {:induction false} NeverAgain(s: State, acts: seq<Action>, id: nat)
    requires Inv(s) && Valid(s, acts) && id <= s.connID && id !in s.running
    ensures !Returned(id, acts) && id !in Exec(s, acts).running
    ensures id !in s.releasing ==> Release(id) !in acts && id !in Exec(s, acts).releasing
    decreases |acts|
  {
    if acts != [] {
      StepKeepsInv(s, acts[0]);
      NeverAgain(Do(s, acts[0]), acts[1..], id);
    }
  }

  lemma StepHistory(s: State, a: Action, id: nat)
    requires Inv(s) && Enabled(s, a)
    ensures var t := Do(s, a);
            && t.connID == s.connID + (if a == Spawn then 1 else 0)
            && (id in t.running <==> (id in s.running || s.connID < id <= t.connID) && !Returned(id, [a]))
            && (id in t.releasing <==> (id in s.releasing || Returned(id, [a])) && a != Release(id))
            && (id in t.leaving <==> (id in s.leaving || a == Release(id)) && a != Leave(id))
    ensures Returned(id, [a]) ==> id in s.running
    ensures a == Release(id) ==> id in s.releasing
    ensures a == Leave(id) ==> id in s.leaving
  {
  }

  lemma {:induction false} RunningRun(s: State, acts: seq<Action>, id: nat)
    requires Inv(s) && Valid(s, acts)
    ensures var t := Exec(s, acts);
            && t.connID == s.connID + Spawns(acts)
            && (id in t.running <==> (id in s.running || s.connID < id <= t.connID) && !Returned(id, acts))
    decreases |acts|
  {
    if acts != [] {
      var a, s' := acts[0], Do(s, acts[0]);
      StepKeepsInv(s, a);
      StepHistory(s, a, id);
      RunningRun(s', acts[1..], id);
      assert Returned(id, acts) <==> Returned(id, [a]) || Returned(id, acts[1..]);
    }
  }

  lemma {:induction false} ReleasingRun(s: State, acts: seq<Action>, id: nat)
    requires Inv(s) && Valid(s, acts)
    ensures id in Exec(s, acts).releasing <==> (id in s.releasing || Returned(id, acts)) && Release(id) !in acts
    decreases |acts|
  {
    if acts != [] {
      var a, s' := acts[0], Do(s, acts[0]);
      StepKeepsInv(s, a);
      StepHistory(s, a, id);
      ReleasingRun(s', acts[1..], id);
      assert Returned(id, acts) <==> Returned(id, [a]) || Returned(id, acts[1..]);
      if a == Release(id) { NeverAgain(s', acts[1..], id); }
    }
  }

  lemma {:induction false} LeavingRun(s: State, acts: seq<Action>, id: nat)
    requires Inv(s) && Valid(s, acts)
    ensures id in Exec(s, acts).leaving <==> (id in s.leaving || Release(id) in acts) && Leave(id) !in acts
    decreases |acts|
  {
    if acts != [] {
      var a, s' := acts[0], Do(s, acts[0]);
      StepKeepsInv(s, a);
      StepHistory(s, a, id);
      LeavingRun(s', acts[1..], id);
      if a == Leave(id) {
        NeverAgain(s', acts[1..], id);
        LeftForGood(s', acts[1..], id);
      }
    }
  }

  lemma {:induction false} LeftForGood(s: State, acts: seq<Action>, id: nat)
    requires Inv(s) && Valid(s, acts) && id <= s.connID
    requires id !in s.running && id !in s.releasing && id !in s.leaving
    ensures Leave(id) !in acts && id !in Exec(s, acts).leaving
    decreases |acts|
  {
    if acts != [] {
      StepKeepsInv(s, acts[0]);
      LeftForGood(Do(s, acts[0]), acts[1..], id);
    }
  }

  /** Every spawned connection is running until its Start returns, normally or not; then it
      holds its slot until it gives it back, and the WaitGroup until it leaves. */
  lemma Bookkeeping(limit: nat, acts: seq<Action>, id: nat)
    requires Valid(Init(limit), acts)
    ensures var s := Exec(Init(limit), acts);
            && (id in s.running <==> 1 <= id <= Spawns(acts) && !Returned(id, acts))
            && (id in s.releasing <==> Returned(id, acts) && Release(id) !in acts)
            && (id in s.leaving <==> Release(id) in acts && Leave(id) !in acts)
            && s.wg == |s.running| + |s.releasing| + |s.leaving|
  {
    RunKeepsInv(Init(limit), acts);
    RunningRun(Init(limit), acts, id);
    ReleasingRun(Init(limit), acts, id);
    LeavingRun(Init(limit), acts, id);
  }

  lemma AdmitKeepsInv(s: State)
    requires Inv(s) && s.loop.Accepting? && (s.limit == 0 || s.tokens < s.limit)
    ensures var t := Do(Do(Do(s, Accept), Acquire), Spawn);
            && Inv(t)
            && t == s.(tokens := if s.limit > 0 then s.tokens + 1 else s.tokens, wg := s.wg + 1,
                       connID := s.connID + 1, running := s.running + {s.connID + 1},
                       issued := s.issued + [s.connID + 1])
  {
    StepKeepsInv(s, Accept);
    StepKeepsInv(Do(s, Accept), Acquire);
    StepKeepsInv(Do(Do(s, Accept), Acquire), Spawn);
  }

  // ----- the loop body as code

  /** The loop's variables; the ghost fields stand for the goroutines it has spawned. */
  class AcceptLoop {
    const limit: nat
    var tokens: nat
    var wg: nat
    var connID: nat
    ghost var running: set<nat>
    ghost var releasing: set<nat>
    ghost var leaving: set<nat>
    ghost var panicked: set<nat>
    ghost var issued: seq<nat>
    ghost var cancelled: bool

    /** This loop between two Accept calls, as a state of the machine. */
    ghost function View(): State
      reads this
    {
      State(limit, tokens, wg, connID, Accepting, running, releasing, leaving, panicked, issued, cancelled, false)
    }

    constructor (maxConns: nat)
      ensures View() == Init(maxConns)
    {
      limit, tokens, wg, connID := maxConns, 0, 0, 0;
      running, releasing, leaving, panicked, issued, cancelled := {}, {}, {}, {}, [], false;
    }

    /** What happens to an accepted connection: rejected when no slot is free, else a
        goroutine is spawned for it. The result is that of the machine's steps. */
    method Admit() returns (admitted: bool)
      requires Inv(View())
      modifies this
      ensures admitted <==> old(limit == 0 || Unfinished(View()) < limit)
      ensures View() == if admitted then Do(Do(Do(old(View()), Accept), Acquire), Spawn) else old(View())
      ensures Inv(View())
    {
      ghost var s := View();
      if limit > 0 {
        if tokens < limit {
          tokens := tokens + 1;
        } else {
          return false;
        }
      }
      connID := connID + 1;
      wg := wg + 1;
      running, issued := running + {connID}, issued + [connID];
      AdmitKeepsInv(s);
      return true;
    }
  }
}
