/** When concurrent reloads leave the store in agreement with the disk: exactly, from who
    installed last and when it read its files, and always when reloads are serial. */
module ReloadOrder {
  import opened Common
  import opened Certificates
  import opened Freshness
  import opened ReloadMachine

  // ----- which installs happened, and what they had read

  /** When a job read the two files of the pair at hand, as positions in the history. */
  datatype Stamp = Stamp(certAt: nat, keyAt: nat)

  /** One install: the task, its pair, and when the two files were read. */
  datatype Note = Note(task: Task, pair: Pair, certAt: nat, keyAt: nat)

  /** What an observer of the schedule writes down: a stamp per job, and the installs. */
  datatype Trail = Trail(stamps: seq<Stamp>, notes: seq<Note>)

  const NO_TRAIL := Trail([], [])

  function Observe(s: State, t: Trail, a: Action): (t': Trail)
    requires Enabled(s, a) && |t.stamps| == |s.jobs|
    ensures |t'.stamps| == |s.jobs| + (if a.Begin? then 1 else 0)
  {
    match a
    case ChangeDisk(_) => t
    case Begin(_) => t.(stamps := t.stamps + [Stamp(0, 0)])
    case Step(j) =>
      var job, now, stamp := s.jobs[j], |s.history| - 1, t.stamps[j];
      if job.rest == [] then t
      else match job.phase
           case Start => t.(stamps := t.stamps[j := Stamp(now, now)])
           case GotCert(_) => t.(stamps := t.stamps[j := stamp.(keyAt := now)])
           case Loaded(_) =>
             t.(notes := t.notes + [Note(job.rest[0], PairOf(s.store, job.rest[0]), stamp.certAt, stamp.keyAt)])
  }

  function Observed(parse: Parser, s: State, t: Trail, acts: seq<Action>): (t': Trail)
    requires Valid(parse, s, acts) && |t.stamps| == |s.jobs|
    ensures |t'.stamps| == |Exec(parse, s, acts).jobs|
    decreases |acts|
  {
    if acts == [] then t
    else Observed(parse, Do(parse, s, acts[0]), Observe(s, t, acts[0]), acts[1..])
  }

  /** What a task is for: the default certificate, or a hostname. */
  function SlotOf(t: Task): Option<string> {
    if t.Default? then None else Some(t.entry.host)
  }

  function Served(st: Store, slot: Option<string>): Option<Cert> {
    match slot
    case None => Some(st.fallback)
    case Some(h) => if h in st.certs then Some(st.certs[h]) else None
  }

  function LastFor(notes: seq<Note>, slot: Option<string>): Option<Note> {
    if notes == [] then None
    else if SlotOf(notes[|notes| - 1].task) == slot then Some(notes[|notes| - 1])
    else LastFor(notes[..|notes| - 1], slot)
  }

  /** What the pair loads as from the files as they were when read. */
  function LoadedAt(parse: Parser, history: seq<Disk>, pair: Pair, certAt: nat, keyAt: nat): Option<Cert> {
    if certAt <= keyAt < |history| then Load(parse, history[certAt], history[keyAt], pair) else None
  }

  function NoteLoads(parse: Parser, history: seq<Disk>, n: Note): Option<Cert> {
    LoadedAt(parse, history, n.pair, n.certAt, n.keyAt)
  }

  /** The stamp tells when the job read what it holds. */
  predicate StampRight(parse: Parser, st: Store, history: seq<Disk>, job: Job, stamp: Stamp) {
    job.rest != [] ==>
      var pair := PairOf(st, job.rest[0]);
      match job.phase
      case Start => true
      case GotCert(c) => stamp.certAt < |history| && ReadFile(history[stamp.certAt], pair.certPath) == Some(c)
      case Loaded(x) => LoadedAt(parse, history, pair, stamp.certAt, stamp.keyAt) == Some(x)
  }

  predicate StampsRight(parse: Parser, s: State, stamps: seq<Stamp>) {
    && |stamps| == |s.jobs|
    && forall j :: 0 <= j < |s.jobs| ==> StampRight(parse, s.store, s.history, s.jobs[j], stamps[j])
  }

  /** Each slot holds what the last install for it had read, or what it held at first. */
  ghost predicate NotesRight(parse: Parser, s: State, notes: seq<Note>, base: Store) {
    forall slot :: Served(s.store, slot) ==
      match LastFor(notes, slot)
      case None => Served(base, slot)
      case Some(n) => NoteLoads(parse, s.history, n)
  }

  predicate NotesKnown(history: seq<Disk>, notes: seq<Note>) {
    forall n :: n in notes ==> n.certAt <= n.keyAt < |history|
  }

  lemma {:induction false} LastForIn(notes: seq<Note>, slot: Option<string>)
    ensures LastFor(notes, slot).Some? ==> LastFor(notes, slot).value in notes
  {
    if notes != [] { LastForIn(notes[..|notes| - 1], slot); }
  }

  lemma OtherStamps(parse: Parser, st: Store, history: seq<Disk>, other: Job, stamp: Stamp, job: Job)
    requires StampRight(parse, st, history, other, stamp)
    ensures StampRight(parse, NextStore(st, job), history, other, stamp)
  {
    assert NextStore(st, job).pair == st.pair;
  }

  lemma StepKeepsStamps(parse: Parser, s: State, t: Trail, j: nat)
    requires StampsRight(parse, s, t.stamps) && Enabled(s, Step(j))
    ensures StampsRight(parse, Do(parse, s, Step(j)), Observe(s, t, Step(j)).stamps)
  {
    var s', stamps := Do(parse, s, Step(j)), Observe(s, t, Step(j)).stamps;
    forall i | 0 <= i < |s'.jobs| ensures StampRight(parse, s'.store, s'.history, s'.jobs[i], stamps[i]) {
      if i == j {
        OwnStamp(parse, s, t, j);
      } else {
        OtherStamps(parse, s.store, s.history, s.jobs[i], stamps[i], s.jobs[j]);
      }
    }
  }

  lemma OwnStamp(parse: Parser, s: State, t: Trail, j: nat)
    requires StampsRight(parse, s, t.stamps) && Enabled(s, Step(j))
    ensures StampRight(parse, NextStore(s.store, s.jobs[j]), s.history,
                       NextJob(parse, s.store, CurrentDisk(s), s.jobs[j]), Observe(s, t, Step(j)).stamps[j])
  {
    assert StampRight(parse, s.store, s.history, s.jobs[j], t.stamps[j]);
  }

  lemma OneMoreNote(notes: seq<Note>, n: Note, slot: Option<string>)
    ensures LastFor(notes + [n], slot) == if SlotOf(n.task) == slot then Some(n) else LastFor(notes, slot)
  {
    assert (notes + [n])[..|notes|] == notes;
  }

  lemma StepKeepsNotes(parse: Parser, s: State, t: Trail, j: nat, base: Store)
    requires StampsRight(parse, s, t.stamps) && Enabled(s, Step(j))
    requires NotesRight(parse, s, t.notes, base) && NotesKnown(s.history, t.notes)
    ensures NotesRight(parse, Do(parse, s, Step(j)), Observe(s, t, Step(j)).notes, base)
    ensures NotesKnown(s.history, Observe(s, t, Step(j)).notes)
  {
    var job, s' := s.jobs[j], Do(parse, s, Step(j));
    if job.rest != [] && job.phase.Loaded? {
      assert StampRight(parse, s.store, s.history, job, t.stamps[j]);
      var n := Note(job.rest[0], PairOf(s.store, job.rest[0]), t.stamps[j].certAt, t.stamps[j].keyAt);
      forall slot ensures Served(s'.store, slot) ==
        match LastFor(t.notes + [n], slot)
        case None => Served(base, slot)
        case Some(m) => NoteLoads(parse, s.history, m)
      {
        OneMoreNote(t.notes, n, slot);
        assert SlotOf(n.task) != slot ==> Served(s'.store, slot) == Served(s.store, slot);
      }
    } else {
      assert s'.store == s.store;
    }
  }

  lemma ChangeKeepsStamps(parse: Parser, s: State, t: Trail, d: Disk)
    requires StampsRight(parse, s, t.stamps)
    ensures StampsRight(parse, Do(parse, s, ChangeDisk(d)), t.stamps)
  {
    var s' := Do(parse, s, ChangeDisk(d));
    assert forall i :: 0 <= i < |s.history| ==> s'.history[i] == s.history[i];
    forall j | 0 <= j < |s'.jobs| ensures StampRight(parse, s'.store, s'.history, s'.jobs[j], t.stamps[j]) {
      assert StampRight(parse, s.store, s.history, s.jobs[j], t.stamps[j]);
    }
  }

  lemma {:induction false} RunKeepsStamps(parse: Parser, s: State, t: Trail, acts: seq<Action>)
    requires StampsRight(parse, s, t.stamps) && Valid(parse, s, acts)
    ensures StampsRight(parse, Exec(parse, s, acts), Observed(parse, s, t, acts).stamps)
    decreases |acts|
  {
    if acts != [] {
      match acts[0] {
        case ChangeDisk(d) => ChangeKeepsStamps(parse, s, t, d);
        case Begin(job) =>
        case Step(j) => StepKeepsStamps(parse, s, t, j);
      }
      RunKeepsStamps(parse, Do(parse, s, acts[0]), Observe(s, t, acts[0]), acts[1..]);
    }
  }

  /** The disk stays as it is throughout. */
  predicate Steady(acts: seq<Action>) {
    forall a :: a in acts ==> !a.ChangeDisk?
  }

  lemma {:induction false} RunKeepsNotes(parse: Parser, s: State, t: Trail, acts: seq<Action>, base: Store)
    requires StampsRight(parse, s, t.stamps) && Valid(parse, s, acts) && Steady(acts)
    requires NotesRight(parse, s, t.notes, base) && NotesKnown(s.history, t.notes)
    ensures Exec(parse, s, acts).history == s.history
    ensures NotesRight(parse, Exec(parse, s, acts), Observed(parse, s, t, acts).notes, base)
    ensures NotesKnown(s.history, Observed(parse, s, t, acts).notes)
    decreases |acts|
  {
    if acts != [] {
      var s', t' := Do(parse, s, acts[0]), Observe(s, t, acts[0]);
      assert !acts[0].ChangeDisk?;
      match acts[0] {
        case Begin(job) => assert s'.store == s.store && t'.notes == t.notes;
        case Step(j) =>
          StepKeepsStamps(parse, s, t, j);
          StepKeepsNotes(parse, s, t, j, base);
      }
      RunKeepsNotes(parse, s', t', acts[1..], base);
    }
  }

  /** The state right after the last change of the disk. */
  function Changed(parse: Parser, s0: State, before: seq<Action>, d: Disk): State
    requires Valid(parse, s0, before)
  {
    Do(parse, Exec(parse, s0, before), ChangeDisk(d))
  }

  /** The installs after the last change. */
  function InstallsAfter(parse: Parser, s0: State, before: seq<Action>, d: Disk, after: seq<Action>): seq<Note>
    requires s0.jobs == [] && Valid(parse, s0, before) && Valid(parse, Changed(parse, s0, before, d), after)
  {
    var t := Observed(parse, s0, NO_TRAIL, before);
    Observed(parse, Changed(parse, s0, before, d), t.(notes := []), after).notes
  }

  /** Whatever reloads overlap: take any run whose last change of the disk is to d. If
      nothing was installed for a slot since, it holds what it held. Otherwise it holds what
      a pair loads as from d exactly when the last install for the slot was of that pair and
      had read both files after the change, or had read contents that load alike. */
  lemma LastInstallDecides(parse: Parser, s0: State, d0: Disk, d1: Disk, before: seq<Action>, d: Disk,
                           after: seq<Action>, slot: Option<string>, pair: Pair)
    requires Created(parse, s0, d0, d1) && Valid(parse, s0, before)
    requires Valid(parse, Changed(parse, s0, before, d), after) && Steady(after)
    requires OnDisk(parse, d, pair).Some?
    ensures var mid := Changed(parse, s0, before, d);
            var now := |mid.history| - 1;
            var held := Served(Exec(parse, mid, after).store, slot);
            match LastFor(InstallsAfter(parse, s0, before, d, after), slot)
            case None => held == Served(mid.store, slot)
            case Some(n) =>
              && n.certAt <= n.keyAt <= now
              && (held == OnDisk(parse, d, pair) <==>
                    || (n.pair == pair && n.certAt == now)
                    || Load(parse, mid.history[n.certAt], mid.history[n.keyAt], n.pair) == OnDisk(parse, d, pair))
  {
    var mid := Changed(parse, s0, before, d);
    var t := Observed(parse, s0, NO_TRAIL, before);
    RunKeepsStamps(parse, s0, NO_TRAIL, before);
    ChangeKeepsStamps(parse, Exec(parse, s0, before), t, d);
    RunKeepsNotes(parse, mid, t.(notes := []), after, mid.store);
    LastForIn(InstallsAfter(parse, s0, before, d, after), slot);
  }

  // ----- serial reloads

  predicate AllFinished(s: State) {
    forall j :: 0 <= j < |s.jobs| ==> Finished(s.jobs[j])
  }

  /** No job begins while another is unfinished. */
  predicate Serial(parse: Parser, s: State, acts: seq<Action>)
    requires Valid(parse, s, acts)
    decreases |acts|
  {
    acts == [] || ((acts[0].Begin? ==> AllFinished(s)) && Serial(parse, Do(parse, s, acts[0]), acts[1..]))
  }

  function LastJob(s: State): Job {
    if s.jobs == [] then IDLE_JOB else s.jobs[|s.jobs| - 1]
  }

  /** Only the last job may be unfinished. */
  predicate SerialInv(s: State) {
    && s.history != []
    && (forall j :: 0 <= j < |s.jobs| - 1 ==> Finished(s.jobs[j]))
    && JobShape(s.store, LastJob(s))
  }

  lemma SerialStep(parse: Parser, s: State, a: Action)
    requires SerialInv(s) && Enabled(s, a) && (a.Begin? ==> AllFinished(s))
    ensures SerialInv(Do(parse, s, a))
  {
    if a.Step? {
      assert a.j == |s.jobs| - 1;
      NextKeepsShape(parse, CurrentDisk(s), s.store, LastJob(s));
    }
  }

  lemma {:induction false} SerialRun(parse: Parser, s: State, acts: seq<Action>)
    requires SerialInv(s) && Valid(parse, s, acts) && Serial(parse, s, acts)
    ensures SerialInv(Exec(parse, s, acts))
    decreases |acts|
  {
    if acts != [] {
      SerialStep(parse, s, acts[0]);
      SerialRun(parse, Do(parse, s, acts[0]), acts[1..]);
    }
  }

  /** The default certificate is, or will be once the last job is through, as on disk. */
  predicate DefaultFresh(parse: Parser, s: State)
    requires s.history != []
  {
    && ReadsCurrent(parse, CurrentDisk(s), s.store, LastJob(s))
    && DefaultCurrent(parse, CurrentDisk(s), s.store, LastJob(s))
  }

  ghost predicate HostsFresh(parse: Parser, s: State)
    requires s.history != []
  {
    && ReadsCurrent(parse, CurrentDisk(s), s.store, LastJob(s))
    && HostsCurrent(parse, CurrentDisk(s), s.store, LastJob(s))
  }

  lemma BeginKeepsFresh(parse: Parser, s: State, job: Job)
    requires SerialInv(s) && AllFinished(s) && Startable(job)
    ensures var s' := Do(parse, s, Begin(job));
            && (DefaultFresh(parse, s) || job == RELOAD_JOB || job == RELOAD_ALL_JOB ==> DefaultFresh(parse, s'))
            && (HostsFresh(parse, s) || job == RELOAD_ALL_JOB ==> HostsFresh(parse, s'))
  {
    var s' := Do(parse, s, Begin(job));
    assert LastJob(s') == job && s'.store == s.store && Finished(LastJob(s));
    assert Position(s.store, LastJob(s)) == |s.store.entries| >= Position(s.store, job);
  }

  lemma StepKeepsFresh(parse: Parser, s: State, j: nat)
    requires SerialInv(s) && Enabled(s, Step(j))
    ensures var s' := Do(parse, s, Step(j));
            (DefaultFresh(parse, s) ==> DefaultFresh(parse, s')) && (HostsFresh(parse, s) ==> HostsFresh(parse, s'))
  {
    var disk, job, s' := CurrentDisk(s), LastJob(s), Do(parse, s, Step(j));
    assert j == |s.jobs| - 1 && LastJob(s') == NextJob(parse, s.store, disk, job) && CurrentDisk(s') == disk;
    if ReadsCurrent(parse, disk, s.store, job) {
      NextKeepsReads(parse, disk, s.store, job);
      if DefaultFresh(parse, s) { NextKeepsDefault(parse, disk, s.store, job); }
      if HostsFresh(parse, s) { NextKeepsHosts(parse, disk, s.store, job); }
    }
  }

  lemma FreshStep(parse: Parser, s: State, a: Action)
    requires SerialInv(s) && Enabled(s, a) && !a.ChangeDisk? && (a.Begin? ==> AllFinished(s))
    ensures var s' := Do(parse, s, a);
            && SerialInv(s') && CurrentDisk(s') == CurrentDisk(s)
            && (DefaultFresh(parse, s) || a == Begin(RELOAD_JOB) || a == Begin(RELOAD_ALL_JOB) ==>
                  DefaultFresh(parse, s'))
            && (HostsFresh(parse, s) || a == Begin(RELOAD_ALL_JOB) ==> HostsFresh(parse, s'))
  {
    SerialStep(parse, s, a);
    match a
    case Begin(job) => BeginKeepsFresh(parse, s, job);
    case Step(j) => StepKeepsFresh(parse, s, j);
  }

  lemma {:induction false} StaysFresh(parse: Parser, s: State, acts: seq<Action>)
    requires SerialInv(s) && Valid(parse, s, acts) && Serial(parse, s, acts) && Steady(acts)
    ensures var s' := Exec(parse, s, acts);
            && SerialInv(s') && CurrentDisk(s') == CurrentDisk(s)
            && (DefaultFresh(parse, s) ==> DefaultFresh(parse, s'))
            && (HostsFresh(parse, s) ==> HostsFresh(parse, s'))
    decreases |acts|
  {
    if acts != [] {
      FreshStep(parse, s, acts[0]);
      StaysFresh(parse, Do(parse, s, acts[0]), acts[1..]);
    }
  }

  /** From the beginning of a reload on, what it covers is fresh. */
  lemma {:induction false} FreshFromBegin(parse: Parser, s: State, acts: seq<Action>, job: Job)
    requires SerialInv(s) && Valid(parse, s, acts) && Serial(parse, s, acts) && Steady(acts)
    requires Begin(job) in acts && (job == RELOAD_JOB || job == RELOAD_ALL_JOB)
    ensures var s' := Exec(parse, s, acts);
            && SerialInv(s') && CurrentDisk(s') == CurrentDisk(s) && DefaultFresh(parse, s')
            && (job == RELOAD_ALL_JOB ==> HostsFresh(parse, s'))
    decreases |acts|
  {
    FreshStep(parse, s, acts[0]);
    if acts[0] == Begin(job) {
      StaysFresh(parse, Do(parse, s, acts[0]), acts[1..]);
    } else {
      FreshFromBegin(parse, Do(parse, s, acts[0]), acts[1..], job);
    }
  }

  lemma RegisteredMeansKnown(parse: Parser, s: State)
    requires Inv(parse, s)
    ensures HostsKnown(s.store)
  {
    forall h | h in s.store.certs ensures exists k :: 0 <= k < |s.store.entries| && s.store.entries[k].host == h {
      assert Registered(parse, s.store.entries, s.history, h, s.store.certs[h]);
      var e :| e in s.store.entries && e.host == h && WasLoaded(parse, s.history, e.pair, s.store.certs[h]);
    }
  }

  /** Serial reloads agree with the disk: if no call begins while another is unfinished, one
      ReloadAll begun after the last change of the disk is enough. When all calls have
      returned, every hostname (duplicates included) and the default are served as on disk.
      For the default alone, one Reload is enough. */
  lemma SerialReloadsAgree(parse: Parser, s0: State, d0: Disk, d1: Disk, before: seq<Action>, d: Disk,
                           after: seq<Action>)
    requires Created(parse, s0, d0, d1) && Valid(parse, s0, before) && Serial(parse, s0, before)
    requires var mid := Changed(parse, s0, before, d);
             && Valid(parse, mid, after) && Serial(parse, mid, after) && Steady(after)
             && AllFinished(Exec(parse, mid, after))
    ensures var st := Exec(parse, Changed(parse, s0, before, d), after).store;
            && (Begin(RELOAD_JOB) in after || Begin(RELOAD_ALL_JOB) in after ==> DefaultServed(parse, d, st))
            && (Begin(RELOAD_ALL_JOB) in after ==> Agrees(parse, d, st))
  {
    var mid := Changed(parse, s0, before, d);
    SerialRun(parse, s0, before);
    SerialStep(parse, Exec(parse, s0, before), ChangeDisk(d));
    if Begin(RELOAD_JOB) in after { FreshFromBegin(parse, mid, after, RELOAD_JOB); }
    if Begin(RELOAD_ALL_JOB) in after { FreshFromBegin(parse, mid, after, RELOAD_ALL_JOB); }
    CreatedInv(parse, s0, d0, d1);
    RunKeepsInv(parse, s0, before);
    StepKeepsInv(parse, Exec(parse, s0, before), ChangeDisk(d));
    RunKeepsInv(parse, mid, after);
    RegisteredMeansKnown(parse, Exec(parse, mid, after));
  }

  // ----- overlapping reloads

  /** A job at the start of a pair can read and parse it from the disk as it is. */
  lemma CanRead(parse: Parser, s: State, t: State, j: nat, rest: seq<Task>, x: Cert) returns (u: State)
    requires Reaches(parse, s, t) && rest != [] && AtPair(t, j, rest, false)
    requires OnDisk(parse, CurrentDisk(t), PairOf(t.store, rest[0])) == Some(x)
    ensures Reaches(parse, s, u) && u == t.(jobs := t.jobs[j := Job(rest, Loaded(x), false)])
  {
    var disk := CurrentDisk(t);
    var half := Job(rest, GotCert(disk[PairOf(t.store, rest[0]).certPath]), false);
    ReachesNext(parse, s, t, Step(j));
    var m := t.(jobs := t.jobs[j := half]);
    assert Do(parse, t, Step(j)) == m;
    ReachesNext(parse, s, m, Step(j));
    u := t.(jobs := t.jobs[j := Job(rest, Loaded(x), false)]);
    assert m.jobs[j := Job(rest, Loaded(x), false)] == u.jobs;
    assert Do(parse, m, Step(j)) == u;
  }

  lemma CanInstall(parse: Parser, s: State, t: State, j: nat, task: Task, x: Cert) returns (u: State)
    requires Reaches(parse, s, t) && j < |t.jobs| && t.jobs[j] == Job([task], Loaded(x), false) && t.history != []
    ensures Reaches(parse, s, u) && u == t.(store := Install(t.store, task, x), jobs := t.jobs[j := IDLE_JOB])
  {
    ReachesNext(parse, s, t, Step(j));
    assert [task][1..] == [] && Skip(t.jobs[j]) == IDLE_JOB;
    u := Do(parse, t, Step(j));
  }

  /** Once every reload has returned, the default certificate need not be the one on disk:
      a Reload that read the old files can install them after one that read the new. */
  lemma OverlapServesStale(parse: Parser, s0: State, oldDisk: Disk, newDisk: Disk, oldCert: Cert, newCert: Cert)
      returns (s: State)
    requires Created(parse, s0, oldDisk, oldDisk)
    requires OnDisk(parse, oldDisk, s0.store.pair) == Some(oldCert)
    requires OnDisk(parse, newDisk, s0.store.pair) == Some(newCert) && oldCert != newCert
    ensures Reaches(parse, s0, s) && AllFinished(s)
    ensures s.history != [] && OnDisk(parse, CurrentDisk(s), s.store.pair) == Some(newCert)
    ensures Get(s.store, "") == oldCert
  {
    assert Valid(parse, s0, []) && Exec(parse, s0, []) == s0;
    ReachesNext(parse, s0, s0, Begin(RELOAD_JOB));
    s := CanRead(parse, s0, Do(parse, s0, Begin(RELOAD_JOB)), 0, [Default], oldCert);
    ReachesNext(parse, s0, s, ChangeDisk(newDisk));
    s := Do(parse, s, ChangeDisk(newDisk));
    ReachesNext(parse, s0, s, Begin(RELOAD_JOB));
    s := CanRead(parse, s0, Do(parse, s, Begin(RELOAD_JOB)), 1, [Default], newCert);
    s := CanInstall(parse, s0, s, 1, Default, newCert);
    s := CanInstall(parse, s0, s, 0, Default, oldCert);
  }

  /** A store with one registered host, whose pair was loaded from an unchanging disk. */
  lemma CanRegister(parse: Parser, s0: State, disk: Disk, e: Entry, x: Cert) returns (s: State)
    requires Created(parse, s0, disk, disk) && OnDisk(parse, disk, e.pair) == Some(x)
    ensures Reaches(parse, s0, s) && s.jobs == [IDLE_JOB] && s.history != [] && CurrentDisk(s) == disk
    ensures s.store.entries == [e]
  {
    assert Valid(parse, s0, []) && Exec(parse, s0, []) == s0;
    ReachesNext(parse, s0, s0, Begin(AddJob(e)));
    s := CanSettle(parse, s0, Do(parse, s0, Begin(AddJob(e))), 0, [Add(e)], false, disk, disk);
    assert [Add(e)][1..] == [] && s.jobs == [IDLE_JOB];
  }

  /** A ReloadAll that has reached the only entry. */
  lemma CanReachEntry(parse: Parser, s0: State, t: State, e: Entry) returns (s: State)
    requires Reaches(parse, s0, t) && t.history != [] && t.store.entries == [e]
    ensures Reaches(parse, s0, s) && s.jobs == t.jobs + [Job([Sni(e)], Start, false)]
    ensures s.history != [] && CurrentDisk(s) == CurrentDisk(t) && s.store.entries == [e]
  {
    var disk, j := CurrentDisk(t), |t.jobs|;
    ReachesNext(parse, s0, t, Begin(RELOAD_ALL_JOB));
    s := CanSettle(parse, s0, Do(parse, t, Begin(RELOAD_ALL_JOB)), j, [Default], true, disk, disk);
    ReachesNext(parse, s0, s, Step(j));
    s := Do(parse, s, Step(j));
    assert SniTasks([e]) == [Sni(e)];
  }

  lemma SettledEntry(parse: Parser, disk: nat -> Disk, st: Store, e: Entry)
    requires st.entries == [e]
    ensures SettleAll(parse, disk, st).pair == st.pair && SettleAll(parse, disk, st).entries == st.entries
  {
  }

  /** The same for a hostname, under two overlapping ReloadAll calls. */
  lemma OverlapServesStaleHost(parse: Parser, s0: State, e: Entry, oldDisk: Disk, newDisk: Disk,
                               oldCert: Cert, newCert: Cert)
      returns (s: State)
    requires Created(parse, s0, oldDisk, oldDisk) && e.host != ""
    requires OnDisk(parse, oldDisk, e.pair) == Some(oldCert)
    requires OnDisk(parse, newDisk, e.pair) == Some(newCert) && oldCert != newCert
    ensures Reaches(parse, s0, s) && AllFinished(s)
    ensures s.history != [] && s.store.entries == [e]
    ensures OnDisk(parse, CurrentDisk(s), e.pair) == Some(newCert) && Get(s.store, e.host) == oldCert
  {
    s := CanRegister(parse, s0, oldDisk, e, oldCert);
    s := CanReachEntry(parse, s0, s, e);
    s := CanRead(parse, s0, s, 1, [Sni(e)], oldCert);
    ReachesNext(parse, s0, s, ChangeDisk(newDisk));
    s := Do(parse, s, ChangeDisk(newDisk));
    ghost var st := s.store;
    s := ReloadAllIsARun(parse, s0, s, _ => newDisk);
    SettledEntry(parse, _ => newDisk, st, e);
    s := CanInstall(parse, s0, s, 1, Sni(e), oldCert);
  }
}
