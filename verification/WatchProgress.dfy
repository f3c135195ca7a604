/** The watcher's loop catches up: from every state it can be in, it needs only time and its
    own steps to make the store agree with the disk. */
module WatchProgress {
  import opened Common
  import opened Certificates
  import opened Freshness
  import opened WatchPaths
  import opened WatchMachine

  /** Steps of the loop, its timer and the clock: no new change or event, and no stop. */
  predicate Own(a: Action) {
    !a.Change? && !a.Enqueue? && !a.Stop?
  }

  ghost predicate Reaches(u: Setup, s: State, t: State) {
    exists acts :: Valid(u, s, acts) && (forall a :: a in acts ==> Own(a)) && Exec(u, s, acts) == t
  }

  lemma Here(u: Setup, s: State)
    ensures Reaches(u, s, s)
  {
    assert Valid(u, s, []) && Exec(u, s, []) == s;
  }

  lemma {:induction false} RunSnoc(u: Setup, s: State, acts: seq<Action>, a: Action)
    requires Valid(u, s, acts) && Enabled(u, Exec(u, s, acts), a)
    ensures Valid(u, s, acts + [a]) && Exec(u, s, acts + [a]) == Do(u, Exec(u, s, acts), a)
    decreases |acts|
  {
    var all := acts + [a];
    if acts == [] {
      assert all[1..] == [];
      assert Valid(u, Do(u, s, a), all[1..]) && Exec(u, Do(u, s, a), all[1..]) == Do(u, s, a);
    } else {
      assert all[0] == acts[0] && all[1..] == acts[1..] + [a];
      RunSnoc(u, Do(u, s, acts[0]), acts[1..], a);
    }
  }

  lemma Then(u: Setup, s: State, t: State, a: Action) returns (v: State)
    requires Reaches(u, s, t) && Enabled(u, t, a) && Own(a)
    ensures Reaches(u, s, v) && v == Do(u, t, a)
  {
    var acts :| Valid(u, s, acts) && (forall b :: b in acts ==> Own(b)) && Exec(u, s, acts) == t;
    RunSnoc(u, s, acts, a);
    assert Valid(u, s, acts + [a]) && forall b :: b in acts + [a] ==> Own(b);
    v := Do(u, t, a);
  }

  lemma ReachesKeeps(u: Setup, s: State, t: State)
    requires Reaches(u, s, t) && TimerInv(u, s) && FreshInv(u, s)
    ensures TimerInv(u, t) && FreshInv(u, t)
  {
    var acts :| Valid(u, s, acts) && (forall a :: a in acts ==> Own(a)) && Exec(u, s, acts) == t;
    RunKeepsTimer(u, s, acts);
    RunKeepsFresh(u, s, acts);
  }

  function PhaseRank(p: Phase): nat {
    match p
    case Start => 2
    case GotCert(_) => 1
    case Loaded(_) => 0
  }

  /** A running reload comes to its end, whatever it finds. */
  lemma {:induction false} CanFinish(u: Setup, s: State, t: State) returns (v: State)
    requires Reaches(u, s, t)
    ensures Reaches(u, s, v) && Finished(v.job) && v == t.(store := v.store, job := v.job)
    decreases t.job.snapshot, |t.job.rest|, PhaseRank(t.job.phase)
  {
    v := t;
    if !Finished(t.job) {
      v := Then(u, s, t, ReloadStep);
      v := CanFinish(u, s, v);
    }
  }

  /** At the select, all queued events can be handled. */
  lemma {:induction false} CanHandleAll(u: Setup, s: State, t: State) returns (v: State)
    requires Reaches(u, s, t) && Selecting(t)
    ensures Reaches(u, s, v) && Selecting(v) && v.queue == [] && v.disk == t.disk
    decreases |t.queue|
  {
    v := t;
    if t.queue != [] {
      v := Then(u, s, t, HandleEvent);
      v := CanHandleAll(u, s, v);
    }
  }

  /** An active timer expires in time. */
  lemma {:induction false} CanExpire(u: Setup, s: State, t: State) returns (v: State)
    requires Reaches(u, s, t) && Selecting(t) && (t.timer.Armed? || t.timer.Expired?)
    ensures Reaches(u, s, v) && Selecting(v) && v.timer.Expired? && v.queue == t.queue && v.disk == t.disk
    decreases if t.timer.Armed? && t.timer.at > t.now then t.timer.at - t.now else 0
  {
    v := t;
    if t.timer.Armed? {
      if t.timer.at <= t.now {
        v := Then(u, s, t, Expire);
      } else {
        v := Then(u, s, t, Tick);
        v := CanExpire(u, s, v);
      }
    }
  }

  /** Then the loop reloads, and is done. */
  lemma CanReload(u: Setup, s: State, t: State) returns (v: State)
    requires Reaches(u, s, t) && Selecting(t) && (t.timer.Armed? || t.timer.Expired?)
    ensures Reaches(u, s, v) && Finished(v.job) && !v.active && v.queue == t.queue && v.disk == t.disk
  {
    v := CanExpire(u, s, t);
    v := Then(u, s, v, Fire);
    v := CanFinish(u, s, v);
  }

  /** Catching up: in every run, as long as the loop has not been stopped, its own steps can
      lead from any state to one with nothing queued, the timer inactive and no reload
      running, in which the store agrees with the disk as it was. */
  lemma CanCatchUp(u: Setup, s0: State, acts: seq<Action>) returns (t: State)
    requires Watching(u, s0) && Valid(u, s0, acts) && Stop !in acts
    ensures var s := Exec(u, s0, acts);
            && Reaches(u, s, t) && t.disk == s.disk
            && t.queue == [] && !t.active && Finished(t.job)
            && Agrees(u.parse, t.disk, t.store)
  {
    var s := Exec(u, s0, acts);
    StopRun(u, s0, acts);
    RunKeepsTimer(u, s0, acts);
    RunKeepsFresh(u, s0, acts);
    Here(u, s);
    t := CanFinish(u, s, s);
    t := CanHandleAll(u, s, t);
    ReachesKeeps(u, s, t);
    if t.active {
      t := CanReload(u, s, t);
      ReachesKeeps(u, s, t);
    }
    FinishedAgrees(u.parse, t.disk, t.store, t.job);
  }
}
