/** The HTTP connection limiter: the ConnState hook with its semaphore, its mutex and its
    map of connections that own a slot, called concurrently for many connections. */
module HttpLimiter {

  /** A connection's callbacks: New first, once; then any others, terminal ones possibly
      repeated. `pending` connections have taken a slot but are not in the map yet;
      `holder` has been deleted from the map and is about to give its slot back, under
      the mutex. `released` remembers who gave a slot back. */
  datatype State = State(
    limit: nat,
    tokens: nat,
    seen: set<nat>,
    pending: set<nat>,
    acquired: set<nat>,
    holder: set<nat>,
    rejected: set<nat>,
    released: set<nat>)

  datatype Action =
    | NewAdmitted(c: nat)
    | NewRejected(c: nat)
    | Record(c: nat)
    | Terminal(c: nat)
    | GiveBack(c: nat)
    | OtherState(c: nat)

  function Init(limit: nat): State {
    State(limit, 0, {}, {}, {}, {}, {}, {})
  }

  predicate MutexFree(s: State) {
    s.holder == {}
  }

  /** The New callback of the connection has returned. */
  predicate Known(s: State, c: nat) {
    c in s.seen && c !in s.pending
  }

  predicate Enabled(s: State, a: Action) {
    match a
    case NewAdmitted(c) => c !in s.seen && s.tokens < s.limit
    case NewRejected(c) => c !in s.seen && s.tokens >= s.limit
    case Record(c) => c in s.pending && MutexFree(s)
    case Terminal(c) => Known(s, c) && MutexFree(s)
    case GiveBack(c) => c in s.holder && s.tokens > 0
    case OtherState(c) => Known(s, c)
  }

  function Do(s: State, a: Action): State
    requires Enabled(s, a)
  {
    match a
    case NewAdmitted(c) => s.(seen := s.seen + {c}, tokens := s.tokens + 1, pending := s.pending + {c})
    case NewRejected(c) => s.(seen := s.seen + {c}, rejected := s.rejected + {c})
    case Record(c) => s.(pending := s.pending - {c}, acquired := s.acquired + {c})
    case Terminal(c) => if c in s.acquired then s.(acquired := s.acquired - {c}, holder := {c}) else s
    case GiveBack(c) => s.(tokens := s.tokens - 1, holder := s.holder - {c}, released := s.released + {c})
    case OtherState(_) => s
  }

  predicate Valid(s: State, acts: seq<Action>)
    decreases |acts|
  {
    acts == [] || (Enabled(s, acts[0]) && Valid(Do(s, acts[0]), acts[1..]))
  }

  function Exec(s: State, acts: seq<Action>): State
    requires Valid(s, acts)
    decreases |acts|
  {
    if acts == [] then s else Exec(Do(s, acts[0]), acts[1..])
  }

  /** A connection owns at most one slot; one that was turned away, or has given its slot
      back, owns none. */
  predicate PlaceInv(s: State) {
    && s.pending !! s.acquired && s.pending !! s.holder && s.acquired !! s.holder
    && s.released !! s.pending && s.released !! s.acquired && s.released !! s.holder
    && s.rejected !! s.pending && s.rejected !! s.acquired && s.rejected !! s.holder && s.rejected !! s.released
    && s.pending <= s.seen && s.acquired <= s.seen && s.holder <= s.seen && s.rejected <= s.seen && s.released <= s.seen
  }

  predicate SlotInv(s: State) {
    && s.tokens == |s.pending| + |s.acquired| + |s.holder|
    && s.tokens <= s.limit
    && |s.holder| <= 1
  }

  predicate Inv(s: State) {
    PlaceInv(s) && SlotInv(s)
  }

  lemma StepKeepsPlaces(s: State, a: Action)
    requires PlaceInv(s) && Enabled(s, a)
    ensures PlaceInv(Do(s, a))
  {
  }

  lemma StepKeepsSlots(s: State, a: Action)
    requires PlaceInv(s) && SlotInv(s) && Enabled(s, a)
    ensures SlotInv(Do(s, a))
  {
  }

  lemma StepKeepsInv(s: State, a: Action)
    requires Inv(s) && Enabled(s, a)
    ensures Inv(Do(s, a))
  {
    StepKeepsPlaces(s, a);
    StepKeepsSlots(s, a);
  }

  lemma {:induction false} RunKeepsInv(s: State, acts: seq<Action>)
    requires Inv(s) && Valid(s, acts)
    ensures Inv(Exec(s, acts)) && Exec(s, acts).limit == s.limit
    ensures s.rejected <= Exec(s, acts).rejected
    decreases |acts|
  {
    if acts != [] {
      StepKeepsInv(s, acts[0]);
      RunKeepsInv(Do(s, acts[0]), acts[1..]);
    }
  }

  /** The HTTP limiter: in every interleaving of callbacks the semaphore holds one token
      per connection in the map, per acquirer not yet recorded and per deletion not yet
      given back; it never exceeds the limit; the receive under the mutex never blocks. */
  lemma LimiterConservation(limit: nat, acts: seq<Action>)
    requires Valid(Init(limit), acts)
    ensures var s := Exec(Init(limit), acts);
            && s.tokens == |s.acquired| + |s.pending| + |s.holder|
            && s.tokens <= limit
            && (forall c :: c in s.holder ==> Enabled(s, GiveBack(c)))
            && s.rejected !! s.released && s.released !! (s.acquired + s.pending + s.holder)
  {
    RunKeepsInv(Init(limit), acts);
    var s := Exec(Init(limit), acts);
    forall c | c in s.holder ensures s.tokens > 0 {
      assert |s.holder - {c}| == |s.holder| - 1;
    }
  }

  /** A rejected connection never gives a slot back, whatever callbacks follow. */
  lemma RejectedNeverReleases(limit: nat, before: seq<Action>, c: nat, acts: seq<Action>)
    requires Valid(Init(limit), before) && c in Exec(Init(limit), before).rejected
    requires Valid(Exec(Init(limit), before), acts)
    ensures c !in Exec(Exec(Init(limit), before), acts).released
  {
    RunKeepsInv(Init(limit), before);
    RunKeepsInv(Exec(Init(limit), before), acts);
  }

  // ----- who owns a slot, from the history

  lemma {:induction false} HistoryRun(s: State, acts: seq<Action>, c: nat)
    requires Inv(s) && Valid(s, acts)
    ensures var t := Exec(s, acts);
            && (c in t.seen <==> c in s.seen || NewAdmitted(c) in acts || NewRejected(c) in acts)
            && (c in t.rejected <==> c in s.rejected || NewRejected(c) in acts)
            && (c in t.pending <==> (c in s.pending || NewAdmitted(c) in acts) && Record(c) !in acts)
            && (c in t.acquired <==> (c in s.acquired || Record(c) in acts) && Terminal(c) !in acts)
            && (c in t.released <==> c in s.released || GiveBack(c) in acts)
    ensures c in s.seen ==> NewAdmitted(c) !in acts && NewRejected(c) !in acts
    ensures c in s.seen && c !in s.pending ==> Record(c) !in acts
    decreases |acts|
  {
    if acts != [] {
      StepKeepsInv(s, acts[0]);
      HistoryRun(Do(s, acts[0]), acts[1..], c);
      assert forall b :: b in acts <==> b == acts[0] || b in acts[1..];
    }
  }

  /** A connection is in the map exactly from the end of its New callback, if that took a
      slot, to its first terminal callback; it is turned away exactly by a New callback that
      found all slots taken. */
  lemma OwnersIff(limit: nat, acts: seq<Action>, c: nat)
    requires Valid(Init(limit), acts)
    ensures var s := Exec(Init(limit), acts);
            && (c in s.pending <==> NewAdmitted(c) in acts && Record(c) !in acts)
            && (c in s.acquired <==> Record(c) in acts && Terminal(c) !in acts)
            && (c in s.rejected <==> NewRejected(c) in acts)
            && (c in s.released <==> GiveBack(c) in acts)
  {
    HistoryRun(Init(limit), acts, c);
  }

  /** A new connection is turned away exactly when all slots are owned; the callback never
      blocks on the semaphore. */
  lemma RejectedIffFull(limit: nat, acts: seq<Action>, c: nat)
    requires Valid(Init(limit), acts) && c !in Exec(Init(limit), acts).seen
    ensures var s := Exec(Init(limit), acts);
            && (Enabled(s, NewRejected(c)) <==> |s.acquired| + |s.pending| + |s.holder| == limit)
            && (Enabled(s, NewAdmitted(c)) <==> !Enabled(s, NewRejected(c)))
  {
    RunKeepsInv(Init(limit), acts);
  }

  // ----- the hook as code

  datatype ConnState = StateNew | StateActive | StateIdle | StateHijacked | StateClosed

  /** The variables captured by the hook. Here each call runs alone; that the semaphore send
      of a New callback is outside the mutex is the machine's `pending`. */
  class Limiter {
    const limit: nat
    var tokens: nat
    var acquired: set<nat>
    ghost var seen: set<nat>
    ghost var rejected: set<nat>
    ghost var released: set<nat>

    ghost function View(): State
      reads this
    {
      State(limit, tokens, seen, {}, acquired, {}, rejected, released)
    }

    constructor (maxConns: nat)
      ensures View() == Init(maxConns)
    {
      limit, tokens, acquired := maxConns, 0, {};
      seen, rejected, released := {}, {}, {};
    }

    /** srv.ConnState: the new state is that of the machine's steps for this call. */
    method OnState(c: nat, state: ConnState) returns (closed: bool)
      requires Inv(View())
      requires state.StateNew? <==> c !in seen
      modifies this
      ensures Inv(View())
      ensures closed <==> state.StateNew? && old(tokens) >= limit
      ensures state.StateNew? && !closed ==> View() == Do(Do(old(View()), NewAdmitted(c)), Record(c))
      ensures closed ==> View() == Do(old(View()), NewRejected(c))
      ensures (state.StateClosed? || state.StateHijacked?) && c in old(acquired) ==>
                old(tokens) > 0 && View() == Do(Do(old(View()), Terminal(c)), GiveBack(c))
      ensures !state.StateNew? && !(c in old(acquired) && (state.StateClosed? || state.StateHijacked?)) ==>
                View() == old(View())
    {
      closed := false;
      ghost var s := View();
      match state
      case StateNew =>
        if tokens < limit {
          tokens, acquired, seen := tokens + 1, acquired + {c}, seen + {c};
          StepKeepsInv(s, NewAdmitted(c));
          StepKeepsInv(Do(s, NewAdmitted(c)), Record(c));
          assert Do(Do(s, NewAdmitted(c)), Record(c)) == View();
        } else {
          closed, seen, rejected := true, seen + {c}, rejected + {c};
          StepKeepsInv(s, NewRejected(c));
        }
      case StateHijacked => Forget(c);
      case StateClosed => Forget(c);
      case _ =>
    }

    method Forget(c: nat)
      requires Inv(View()) && c in seen
      modifies this
      ensures Inv(View())
      ensures c in old(acquired) ==> old(tokens) > 0 && View() == Do(Do(old(View()), Terminal(c)), GiveBack(c))
      ensures c !in old(acquired) ==> View() == old(View())
    {
      if c in acquired {
        ghost var s := View();
        assert |acquired - {c}| == |acquired| - 1;
        StepKeepsInv(s, Terminal(c));
        StepKeepsInv(Do(s, Terminal(c)), GiveBack(c));
        acquired, tokens, released := acquired - {c}, tokens - 1, released + {c};
      }
    }
  }
}
