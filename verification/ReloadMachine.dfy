/** Any number of concurrent Reload, ReloadAll and AddSNICert calls against a disk that
    may change between any two file reads. */
module ReloadMachine {
  import opened Common
  import opened Certificates

  /** `history` lists every disk state so far, the current one last. */
  datatype State = State(store: Store, history: seq<Disk>, jobs: seq<Job>)

  datatype Action = ChangeDisk(disk: Disk) | Begin(job: Job) | Step(j: nat)

  predicate Startable(job: Job) {
    || job == RELOAD_JOB
    || job == RELOAD_ALL_JOB
    || (|job.rest| == 1 && job.rest[0].Add? && job == AddJob(job.rest[0].entry))
  }

  predicate Enabled(s: State, a: Action) {
    match a
    case ChangeDisk(_) => true
    case Begin(job) => Startable(job)
    case Step(j) => j < |s.jobs| && !Finished(s.jobs[j]) && s.history != []
  }

  function CurrentDisk(s: State): Disk
    requires s.history != []
  {
    s.history[|s.history| - 1]
  }

  function Do(parse: Parser, s: State, a: Action): State
    requires Enabled(s, a)
  {
    match a
    case ChangeDisk(d) => s.(history := s.history + [d])
    case Begin(job) => s.(jobs := s.jobs + [job])
    case Step(j) =>
      s.(store := NextStore(s.store, s.jobs[j]),
         jobs := s.jobs[j := NextJob(parse, s.store, CurrentDisk(s), s.jobs[j])])
  }

  predicate Valid(parse: Parser, s: State, acts: seq<Action>)
    decreases |acts|
  {
    acts == [] || (Enabled(s, acts[0]) && Valid(parse, Do(parse, s, acts[0]), acts[1..]))
  }

  function Exec(parse: Parser, s: State, acts: seq<Action>): State
    requires Valid(parse, s, acts)
    decreases |acts|
  {
    if acts == [] then s else Exec(parse, Do(parse, s, acts[0]), acts[1..])
  }

  /** The state NewCertStore leaves: the default pair was read from disks d0 and d1. */
  ghost predicate Created(parse: Parser, s: State, d0: Disk, d1: Disk) {
    && s.history == [d0, d1] && s.jobs == []
    && s.store.certs == map[] && s.store.entries == []
    && Load(parse, d0, d1, s.store.pair) == Some(s.store.fallback)
  }

  // ----- provenance

  /** The file had this content in some disk state so far. */
  ghost predicate WasRead(history: seq<Disk>, path: string, c: Bytes) {
    exists i :: 0 <= i < |history| && ReadFile(history[i], path) == Some(c)
  }

  /** The pair loaded as x, its certificate file read no later than its key file. */
  ghost predicate WasLoaded(parse: Parser, history: seq<Disk>, pair: Pair, x: Cert) {
    exists i, j :: 0 <= i <= j < |history| && Load(parse, history[i], history[j], pair) == Some(x)
  }

  lemma LongerHistory(parse: Parser, history: seq<Disk>, d: Disk)
    ensures forall path, c :: WasRead(history, path, c) ==> WasRead(history + [d], path, c)
    ensures forall pair, x :: WasLoaded(parse, history, pair, x) ==> WasLoaded(parse, history + [d], pair, x)
  {
    var h := history + [d];
    forall path, c | WasRead(history, path, c) ensures WasRead(h, path, c) {
      var i :| 0 <= i < |history| && ReadFile(history[i], path) == Some(c);
      assert h[i] == history[i];
    }
    forall pair, x | WasLoaded(parse, history, pair, x) ensures WasLoaded(parse, h, pair, x) {
      var i, j :| 0 <= i <= j < |history| && Load(parse, history[i], history[j], pair) == Some(x);
      assert h[i] == history[i] && h[j] == history[j];
    }
  }

  /** What a running job holds was really read, for a pair it is entitled to install. */
  ghost predicate JobInv(parse: Parser, st: Store, history: seq<Disk>, job: Job) {
    && (forall t :: t in job.rest && t.Sni? ==> t.entry in st.entries)
    && (job.rest == [] ==> job.phase.Start?)
    && (job.phase.GotCert? ==> WasRead(history, PairOf(st, job.rest[0]).certPath, job.phase.c))
    && (job.phase.Loaded? ==> WasLoaded(parse, history, PairOf(st, job.rest[0]), job.phase.x))
  }

  /** Some entry registered for this host has loaded as x. */
  ghost predicate Registered(parse: Parser, entries: seq<Entry>, history: seq<Disk>, h: string, x: Cert) {
    exists e :: e in entries && e.host == h && WasLoaded(parse, history, e.pair, x)
  }

  ghost predicate AllRegistered(parse: Parser, certs: map<string, Cert>, entries: seq<Entry>, history: seq<Disk>) {
    forall h :: h in certs ==> Registered(parse, entries, history, h, certs[h])
  }

  ghost predicate StoreInv(parse: Parser, st: Store, history: seq<Disk>) {
    && WasLoaded(parse, history, st.pair, st.fallback)
    && AllRegistered(parse, st.certs, st.entries, history)
    && (forall e :: e in st.entries ==> e.host in st.certs)
  }

  ghost predicate Inv(parse: Parser, s: State) {
    && s.history != []
    && StoreInv(parse, s.store, s.history)
    && forall j :: 0 <= j < |s.jobs| ==> JobInv(parse, s.store, s.history, s.jobs[j])
  }

  lemma CreatedInv(parse: Parser, s: State, d0: Disk, d1: Disk)
    requires Created(parse, s, d0, d1)
    ensures Inv(parse, s)
  {
    assert s.history[0] == d0 && s.history[1] == d1;
  }

  lemma ChangeKeepsStore(parse: Parser, st: Store, history: seq<Disk>, d: Disk)
    requires StoreInv(parse, st, history)
    ensures StoreInv(parse, st, history + [d])
  {
    LongerHistory(parse, history, d);
    forall h | h in st.certs ensures Registered(parse, st.entries, history + [d], h, st.certs[h]) {
      assert Registered(parse, st.entries, history, h, st.certs[h]);
      var e :| e in st.entries && e.host == h && WasLoaded(parse, history, e.pair, st.certs[h]);
      assert WasLoaded(parse, history + [d], e.pair, st.certs[h]);
    }
  }

  lemma ChangeKeepsJob(parse: Parser, st: Store, history: seq<Disk>, d: Disk, job: Job)
    requires JobInv(parse, st, history, job)
    ensures JobInv(parse, st, history + [d], job)
  {
    LongerHistory(parse, history, d);
  }

  lemma ChangeKeepsInv(parse: Parser, s: State, d: Disk)
    requires Inv(parse, s)
    ensures Inv(parse, s.(history := s.history + [d]))
  {
    ChangeKeepsStore(parse, s.store, s.history, d);
    forall j | 0 <= j < |s.jobs| ensures JobInv(parse, s.store, s.history + [d], s.jobs[j]) {
      ChangeKeepsJob(parse, s.store, s.history, d, s.jobs[j]);
    }
  }

  /** One step of a job keeps the facts about that job. */
  lemma NextJobKeepsInv(parse: Parser, st: Store, history: seq<Disk>, job: Job)
    requires history != [] && !Finished(job) && JobInv(parse, st, history, job)
    ensures JobInv(parse, st, history, NextJob(parse, st, history[|history| - 1], job))
  {
    var disk := history[|history| - 1];
    if job.rest != [] {
      var pair := PairOf(st, job.rest[0]);
      match job.phase
      case Start => assert forall c :: ReadFile(disk, pair.certPath) == Some(c) ==> WasRead(history, pair.certPath, c);
      case GotCert(c) =>
        var i :| 0 <= i < |history| && ReadFile(history[i], pair.certPath) == Some(c);
        assert forall x :: Load(parse, history[i], disk, pair) == Some(x) ==> WasLoaded(parse, history, pair, x);
      case Loaded(_) =>
    }
  }

  lemma MoreEntries(parse: Parser, certs: map<string, Cert>, entries: seq<Entry>, e: Entry, history: seq<Disk>)
    requires AllRegistered(parse, certs, entries, history)
    ensures AllRegistered(parse, certs, entries + [e], history)
  {
    forall h | h in certs ensures Registered(parse, entries + [e], history, h, certs[h]) {
      assert Registered(parse, entries, history, h, certs[h]);
      var f :| f in entries && f.host == h && WasLoaded(parse, history, f.pair, certs[h]);
      assert f in entries + [e];
    }
  }

  /** The certificate map with one more certificate, for a registered host. */
  lemma OneMoreCert(parse: Parser, certs: map<string, Cert>, entries: seq<Entry>, history: seq<Disk>, e: Entry, x: Cert)
    requires AllRegistered(parse, certs, entries, history)
    requires e in entries && WasLoaded(parse, history, e.pair, x)
    ensures AllRegistered(parse, certs[e.host := x], entries, history)
  {
    assert Registered(parse, entries, history, e.host, x);
  }

  /** Installing a loaded certificate keeps the facts about the store. */
  lemma InstallKeepsInv(parse: Parser, st: Store, history: seq<Disk>, t: Task, x: Cert)
    requires StoreInv(parse, st, history) && WasLoaded(parse, history, PairOf(st, t), x)
    requires t.Sni? ==> t.entry in st.entries
    ensures StoreInv(parse, Install(st, t, x), history)
  {
    if t.Sni? {
      OneMoreCert(parse, st.certs, st.entries, history, t.entry, x);
    } else if t.Add? {
      MoreEntries(parse, st.certs, st.entries, t.entry, history);
      OneMoreCert(parse, st.certs, st.entries + [t.entry], history, t.entry, x);
    }
  }

  /** The entries only grow, so no other job loses its entitlement. */
  lemma OtherJobs(parse: Parser, st: Store, history: seq<Disk>, job: Job, other: Job)
    requires JobInv(parse, st, history, other)
    ensures JobInv(parse, NextStore(st, job), history, other)
  {
    var st' := NextStore(st, job);
    assert st'.pair == st.pair && forall e :: e in st.entries ==> e in st'.entries;
  }

  lemma StepKeepsInv(parse: Parser, s: State, a: Action)
    requires Inv(parse, s) && Enabled(s, a)
    ensures Inv(parse, Do(parse, s, a))
  {
    match a
    case ChangeDisk(d) => ChangeKeepsInv(parse, s, d);
    case Begin(job) =>
    case Step(j) =>
      var job := s.jobs[j];
      if job.rest != [] && job.phase.Loaded? {
        InstallKeepsInv(parse, s.store, s.history, job.rest[0], job.phase.x);
      }
      NextJobKeepsInv(parse, s.store, s.history, job);
      var s' := Do(parse, s, a);
      forall i | 0 <= i < |s'.jobs| ensures JobInv(parse, s'.store, s'.history, s'.jobs[i]) {
        OtherJobs(parse, s.store, s.history, job, if i == j then s'.jobs[j] else s.jobs[i]);
      }
  }

  lemma {:induction false} RunKeepsInv(parse: Parser, s: State, acts: seq<Action>)
    requires Inv(parse, s) && Valid(parse, s, acts)
    ensures Inv(parse, Exec(parse, s, acts))
    decreases |acts|
  {
    if acts != [] {
      StepKeepsInv(parse, s, acts[0]);
      RunKeepsInv(parse, Do(parse, s, acts[0]), acts[1..]);
    }
  }

  /** A name that has been given a certificate never loses it, and the default pair stays. */
  lemma {:induction false} NamesStay(parse: Parser, s: State, acts: seq<Action>)
    requires Valid(parse, s, acts)
    ensures s.store.certs.Keys <= Exec(parse, s, acts).store.certs.Keys
    ensures s.store.pair == Exec(parse, s, acts).store.pair
    decreases |acts|
  {
    if acts != [] {
      NamesStay(parse, Do(parse, s, acts[0]), acts[1..]);
    }
  }

  /** Certificate provenance: in every run, a certificate served for a registered name was
      successfully loaded, at some earlier disk state, from a pair registered for that
      name; any other name gets one so loaded from the default pair. */
  lemma Provenance(parse: Parser, s0: State, d0: Disk, d1: Disk, acts: seq<Action>, name: string)
    requires Created(parse, s0, d0, d1) && Valid(parse, s0, acts)
    ensures var s := Exec(parse, s0, acts);
            if name != "" && exists e :: e in s.store.entries && e.host == name
            then Registered(parse, s.store.entries, s.history, name, Get(s.store, name))
            else WasLoaded(parse, s.history, s0.store.pair, Get(s.store, name))
  {
    CreatedInv(parse, s0, d0, d1);
    RunKeepsInv(parse, s0, acts);
    NamesStay(parse, s0, acts);
    var s := Exec(parse, s0, acts);
    if name in s.store.certs {
      assert Registered(parse, s.store.entries, s.history, name, s.store.certs[name]);
    }
  }

  // ----- reachable states

  lemma {:induction false} RunSnoc(parse: Parser, s: State, acts: seq<Action>, a: Action)
    requires Valid(parse, s, acts) && Enabled(Exec(parse, s, acts), a)
    ensures Valid(parse, s, acts + [a]) && Exec(parse, s, acts + [a]) == Do(parse, Exec(parse, s, acts), a)
    decreases |acts|
  {
    var all := acts + [a];
    if acts == [] {
      assert all[1..] == [];
      assert Valid(parse, Do(parse, s, a), all[1..]) && Exec(parse, Do(parse, s, a), all[1..]) == Do(parse, s, a);
    } else {
      assert all[0] == acts[0] && all[1..] == acts[1..] + [a];
      RunSnoc(parse, Do(parse, s, acts[0]), acts[1..], a);
    }
  }

  ghost predicate Reaches(parse: Parser, s: State, t: State) {
    exists acts :: Valid(parse, s, acts) && Exec(parse, s, acts) == t
  }

  lemma ReachesNext(parse: Parser, s: State, t: State, a: Action)
    requires Reaches(parse, s, t) && Enabled(t, a)
    ensures Reaches(parse, s, Do(parse, t, a))
  {
    var acts :| Valid(parse, s, acts) && Exec(parse, s, acts) == t;
    RunSnoc(parse, s, acts, a);
    assert Valid(parse, s, acts + [a]);
  }

  // ----- an undisturbed ReloadAll is one of these runs

  /** A job that has just finished a pair, or has not begun, and its state. */
  predicate AtPair(s: State, j: nat, rest: seq<Task>, snapshot: bool) {
    j < |s.jobs| && s.jobs[j] == Job(rest, Start, snapshot) && s.history != []
  }

  /** One pair, read from the given disks while no other job steps. */
  lemma CanSettle(parse: Parser, s: State, t: State, j: nat, rest: seq<Task>, snapshot: bool, d0: Disk, d1: Disk)
      returns (u: State)
    requires Reaches(parse, s, t) && AtPair(t, j, rest, snapshot) && rest != []
    ensures Reaches(parse, s, u) && AtPair(u, j, rest[1..], snapshot)
    ensures u.store == Settle(parse, t.store, rest[0], d0, d1)
    ensures u.jobs == t.jobs[j := Job(rest[1..], Start, snapshot)] && (d0 == d1 ==> CurrentDisk(u) == d0)
  {
    ReachesNext(parse, s, t, ChangeDisk(d0));
    u := Do(parse, t, ChangeDisk(d0));
    ReachesNext(parse, s, u, Step(j));
    u := Do(parse, u, Step(j));
    if u.jobs[j].phase.GotCert? {
      ReachesNext(parse, s, u, ChangeDisk(d1));
      u := Do(parse, u, ChangeDisk(d1));
      ReachesNext(parse, s, u, Step(j));
      u := Do(parse, u, Step(j));
      if u.jobs[j].phase.Loaded? {
        ReachesNext(parse, s, u, Step(j));
        u := Do(parse, u, Step(j));
      }
    }
  }

  lemma {:induction false} CanSettleEntries(parse: Parser, s: State, t: State, j: nat, disk: nat -> Disk, n: nat)
      returns (u: State)
    requires Reaches(parse, s, t) && n <= |t.store.entries| && AtPair(t, j, SniTasks(t.store.entries), false)
    ensures Reaches(parse, s, u) && AtPair(u, j, SniTasks(t.store.entries)[n..], false)
    ensures u.store == SettleEntries(parse, disk, t.store, t.store.entries, n)
    ensures u.jobs == t.jobs[j := Job(SniTasks(t.store.entries)[n..], Start, false)]
    ensures (forall i :: disk(i) == CurrentDisk(t)) ==> CurrentDisk(u) == CurrentDisk(t)
  {
    if n == 0 {
      u := t;
    } else {
      u := CanSettleEntries(parse, s, t, j, disk, n - 1);
      u := CanSettle(parse, s, u, j, SniTasks(t.store.entries)[n - 1..], false, disk(2 * n), disk(2 * n + 1));
      assert SniTasks(t.store.entries)[n - 1..][1..] == SniTasks(t.store.entries)[n..];
    }
  }

  /** Whatever the disk does between its file reads, a ReloadAll that runs alone has the
      effect stated for the object's method, leaves other jobs as they stand, and is a run
      of this machine: so what holds in every run holds for it. */
  lemma ReloadAllIsARun(parse: Parser, s: State, t: State, disk: nat -> Disk) returns (u: State)
    requires Reaches(parse, s, t) && t.history != []
    ensures Reaches(parse, s, u) && u.store == SettleAll(parse, disk, t.store)
    ensures u.jobs == t.jobs + [IDLE_JOB]
    ensures u.history != [] && ((forall i :: disk(i) == disk(0)) ==> CurrentDisk(u) == disk(0))
  {
    var j := |t.jobs|;
    ReachesNext(parse, s, t, Begin(RELOAD_ALL_JOB));
    u := Do(parse, t, Begin(RELOAD_ALL_JOB));
    u := CanSettle(parse, s, u, j, [Default], true, disk(0), disk(1));
    ReachesNext(parse, s, u, Step(j));
    u := Do(parse, u, Step(j));
    var tasks := SniTasks(u.store.entries);
    u := CanSettleEntries(parse, s, u, j, disk, |u.store.entries|);
    assert tasks[|tasks|..] == [] && u.jobs[j] == IDLE_JOB;
    assert u.jobs == t.jobs + [IDLE_JOB];
  }
}
