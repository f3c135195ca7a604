/** `watchLoop`: an event queue, a debounce timer and a reload that reads files one at a
    time while the disk may change. The loop is the only reloader. */
module WatchMachine {
  import opened Common
  import opened Certificates
  import opened Freshness
  import opened WatchPaths

  datatype Setup = Setup(parse: Parser, lib: PathLib, watched: Watched, debounce: nat)

  /** A Go timer (1.23 and later): stopped, running until `at`, or expired with its value
      not yet received. Stop and Reset discard an unreceived value. */
  datatype Timer = Stopped | Armed(at: nat) | Expired

  /** What happened when: a processed relevant event, or the start of a reload. */
  datatype Mark = Noticed(at: nat) | Reloaded(at: nat)

  datatype State = State(
    store: Store,
    disk: Disk,
    queue: seq<FsEvent>,
    timer: Timer,
    active: bool,    // timerActive
    drained: bool,   // the drain branch after a failed Stop was entered
    job: Job,
    running: bool,
    now: nat,
    log: seq<Mark>)

  datatype Action =
    | Tick
    | Expire
    | Change(disk: Disk, evs: seq<FsEvent>)
    | Enqueue(ev: FsEvent)
    | HandleEvent
    | Fire
    | ReloadStep
    | Stop

  /** The loop is at its select statement. */
  predicate Selecting(s: State) {
    s.running && Finished(s.job)
  }

  /** Every file of the store that differs between the disks is announced by an event. */
  predicate Announced(lib: PathLib, st: Store, before: Disk, after: Disk, evs: seq<FsEvent>) {
    forall p :: p in PathsOf(st) && ReadFile(after, p) != ReadFile(before, p) ==>
      exists ev :: ev in evs && Announces(lib, ev, p)
  }

  /** The disk may change in any way: files the store does not depend on without an event,
      its own files with an event for each. No file has an empty path. */
  predicate Enabled(u: Setup, s: State, a: Action) {
    match a
    case Tick => true
    case Expire => s.timer.Armed? && s.timer.at <= s.now
    case Change(disk, evs) => "" !in disk && Announced(u.lib, s.store, s.disk, disk, evs)
    case Enqueue(_) => true
    case HandleEvent => Selecting(s) && s.queue != []
    case Fire => Selecting(s) && s.timer.Expired?
    case ReloadStep => !Finished(s.job)
    case Stop => Selecting(s)
  }

  /** The branch for a relevant event: stop the timer if it is active, drain if Stop says
      it was not pending, and arm it again. */
  function Restart(u: Setup, s: State): State {
    s.(timer := Armed(s.now + u.debounce), active := true,
       drained := s.drained || (s.active && s.timer.Stopped?),
       log := s.log + [Noticed(s.now)])
  }

  function Do(u: Setup, s: State, a: Action): State
    requires Enabled(u, s, a)
  {
    match a
    case Tick => s.(now := s.now + 1)
    case Expire => s.(timer := Expired)
    case Change(disk, evs) => s.(disk := disk, queue := s.queue + evs)
    case Enqueue(ev) => s.(queue := s.queue + [ev])
    case HandleEvent =>
      var t := s.(queue := s.queue[1..]);
      if Relevant(u.lib, u.watched, s.queue[0]) then Restart(u, t) else t
    case Fire => s.(timer := Stopped, active := false, job := RELOAD_ALL_JOB, log := s.log + [Reloaded(s.now)])
    case ReloadStep =>
      s.(store := NextStore(s.store, s.job), job := NextJob(u.parse, s.store, s.disk, s.job))
    case Stop => s.(running := false)
  }

  predicate Valid(u: Setup, s: State, acts: seq<Action>)
    decreases |acts|
  {
    acts == [] || (Enabled(u, s, acts[0]) && Valid(u, Do(u, s, acts[0]), acts[1..]))
  }

  function Exec(u: Setup, s: State, acts: seq<Action>): State
    requires Valid(u, s, acts)
    decreases |acts|
  {
    if acts == [] then s else Exec(u, Do(u, s, acts[0]), acts[1..])
  }

  // ----- the debounce timer

  function LastMark(s: State): Mark
    requires s.log != []
  {
    s.log[|s.log| - 1]
  }

  /** Every reload follows a relevant event with none in between, by at least the
      debounce window. */
  predicate Debounced(u: Setup, log: seq<Mark>) {
    forall i :: 0 <= i < |log| && log[i].Reloaded? ==>
      i > 0 && log[i - 1].Noticed? && log[i].at >= log[i - 1].at + u.debounce
  }

  predicate TimerInv(u: Setup, s: State) {
    && (s.active <==> !s.timer.Stopped?)
    && (s.active <==> s.log != [] && LastMark(s).Noticed?)
    && (s.timer.Armed? ==> s.timer.at == LastMark(s).at + u.debounce)
    && (s.timer.Expired? ==> s.now >= LastMark(s).at + u.debounce)
    && !s.drained
    && Debounced(u, s.log)
  }

  lemma StepKeepsTimer(u: Setup, s: State, a: Action)
    requires TimerInv(u, s) && Enabled(u, s, a)
    ensures TimerInv(u, Do(u, s, a))
  {
  }

  // ----- freshness

  /** A reload is still to come: a relevant event is queued, or the timer is active. */
  predicate Dirty(u: Setup, s: State) {
    s.active || exists i :: 0 <= i < |s.queue| && Relevant(u.lib, u.watched, s.queue[i])
  }

  /** Everything the running reload has dealt with is served as on disk. */
  ghost predicate Current(u: Setup, s: State) {
    && ReadsCurrent(u.parse, s.disk, s.store, s.job)
    && DefaultCurrent(u.parse, s.disk, s.store, s.job)
    && HostsCurrent(u.parse, s.disk, s.store, s.job)
  }

  ghost predicate FreshInv(u: Setup, s: State) {
    && ReloadAllShape(s.store, s.job)
    && HostsKnown(s.store)
    && Covers(u.lib, u.watched, s.store) && "" !in s.disk
    && (!Dirty(u, s) ==> Current(u, s))
  }

  // ----- changes of the disk

  /** Two disks on which no file of the store differs. */
  predicate SameFiles(st: Store, d: Disk, d': Disk) {
    forall p :: p in PathsOf(st) ==> ReadFile(d', p) == ReadFile(d, p)
  }

  lemma SameLoads(parse: Parser, st: Store, d: Disk, d': Disk)
    requires SameFiles(st, d, d')
    ensures OnDisk(parse, d', st.pair) == OnDisk(parse, d, st.pair)
    ensures forall k :: 0 <= k < |st.entries| ==>
              && ReadFile(d', st.entries[k].pair.certPath) == ReadFile(d, st.entries[k].pair.certPath)
              && OnDisk(parse, d', st.entries[k].pair) == OnDisk(parse, d, st.entries[k].pair)
  {
    assert st.pair.certPath == PathsOf(st)[0] && st.pair.keyPath == PathsOf(st)[1];
    forall k | 0 <= k < |st.entries|
      ensures && ReadFile(d', st.entries[k].pair.certPath) == ReadFile(d, st.entries[k].pair.certPath)
              && OnDisk(parse, d', st.entries[k].pair) == OnDisk(parse, d, st.entries[k].pair)
    {
      EntryPathsHold(st.entries, k);
      assert st.entries[k].pair.certPath in PathsOf(st) && st.entries[k].pair.keyPath in PathsOf(st);
    }
  }

  lemma SameReads(parse: Parser, st: Store, job: Job, d: Disk, d': Disk)
    requires SameFiles(st, d, d') && ReloadAllShape(st, job) && ReadsCurrent(parse, d, st, job)
    ensures ReadsCurrent(parse, d', st, job)
  {
    SameLoads(parse, st, d, d');
    assert st.pair.certPath == PathsOf(st)[0];
    if job.rest != [] && !job.snapshot {
      TaskAtHand(st, job);
    }
  }

  lemma SameServed(parse: Parser, st: Store, d: Disk, d': Disk, n: int)
    requires SameFiles(st, d, d') && HostsServed(parse, d, st, n)
    ensures HostsServed(parse, d', st, n)
  {
    SameLoads(parse, st, d, d');
    forall h, k | LastLoadable(parse, d', st.entries, h, k) && k < n ensures HostServed(parse, d', st, h, k) {
      assert LastLoadable(parse, d, st.entries, h, k);
      assert HostServed(parse, d, st, h, k);
    }
  }

  /** A change that touches no file of the store leaves it as fresh as it was. */
  lemma UnrelatedChange(u: Setup, s: State, disk: Disk, s': State)
    requires SameFiles(s.store, s.disk, disk) && ReloadAllShape(s.store, s.job) && Current(u, s)
    requires s'.disk == disk && s'.store == s.store && s'.job == s.job
    ensures Current(u, s')
  {
    SameLoads(u.parse, s.store, s.disk, disk);
    SameReads(u.parse, s.store, s.job, s.disk, disk);
    SameServed(u.parse, s.store, s.disk, disk, Position(s.store, s.job));
  }

  /** A change that touches a file of the store puts a relevant event in the queue, because
      Watch watches that file and its directory. */
  lemma RelatedChange(u: Setup, s: State, disk: Disk, evs: seq<FsEvent>)
    requires Covers(u.lib, u.watched, s.store) && "" !in s.disk && Enabled(u, s, Change(disk, evs))
    requires !SameFiles(s.store, s.disk, disk)
    ensures Dirty(u, Do(u, s, Change(disk, evs)))
  {
    var p :| p in PathsOf(s.store) && ReadFile(disk, p) != ReadFile(s.disk, p);
    var ev :| ev in evs && Announces(u.lib, ev, p);
    ChangesAreRelevant(u.lib, u.watched, s.store, p, ev);
    var i :| 0 <= i < |evs| && evs[i] == ev;
    assert (s.queue + evs)[|s.queue| + i] == ev;
  }

  lemma ChangeKeepsFresh(u: Setup, s: State, disk: Disk, evs: seq<FsEvent>)
    requires FreshInv(u, s) && Enabled(u, s, Change(disk, evs))
    ensures FreshInv(u, Do(u, s, Change(disk, evs)))
  {
    var s' := Do(u, s, Change(disk, evs));
    if !SameFiles(s.store, s.disk, disk) {
      RelatedChange(u, s, disk, evs);
    } else if !Dirty(u, s') {
      if Dirty(u, s) { LongerQueue(u, s, s', evs); }
      UnrelatedChange(u, s, disk, s');
    }
  }

  lemma LongerQueue(u: Setup, s: State, s': State, evs: seq<FsEvent>)
    requires Dirty(u, s) && s'.active == s.active && s'.queue == s.queue + evs
    ensures Dirty(u, s')
  {
    if !s.active {
      var i :| 0 <= i < |s.queue| && Relevant(u.lib, u.watched, s.queue[i]);
      assert s'.queue[i] == s.queue[i];
    }
  }

  // ----- every step, every run

  lemma ReloadKeepsCurrent(u: Setup, s: State)
    requires ReloadAllShape(s.store, s.job) && Current(u, s) && !Finished(s.job)
    ensures Current(u, Do(u, s, ReloadStep))
  {
    NextKeepsReads(u.parse, s.disk, s.store, s.job);
    NextKeepsDefault(u.parse, s.disk, s.store, s.job);
    NextKeepsHosts(u.parse, s.disk, s.store, s.job);
  }

  lemma SamePaths(lib: PathLib, w: Watched, st: Store, st': Store)
    requires Covers(lib, w, st) && st'.pair == st.pair && st'.entries == st.entries
    ensures Covers(lib, w, st')
  {
    assert PathsOf(st') == PathsOf(st);
  }

  lemma ReloadKeepsFresh(u: Setup, s: State)
    requires FreshInv(u, s) && !Finished(s.job)
    ensures FreshInv(u, Do(u, s, ReloadStep))
  {
    var s' := Do(u, s, ReloadStep);
    NextKeepsReloadAll(u.parse, s.disk, s.store, s.job);
    NextKeepsKnown(s.store, s.job);
    SamePaths(u.lib, u.watched, s.store, s'.store);
    assert Dirty(u, s') <==> Dirty(u, s);
    if !Dirty(u, s) { ReloadKeepsCurrent(u, s); }
  }

  lemma StepKeepsFresh(u: Setup, s: State, a: Action)
    requires FreshInv(u, s) && Enabled(u, s, a)
    ensures FreshInv(u, Do(u, s, a))
  {
    match a
    case Change(disk, evs) => ChangeKeepsFresh(u, s, disk, evs);
    case HandleEvent => HandlingKeepsFresh(u, s);
    case Enqueue(ev) => EnqueueKeepsFresh(u, s, ev);
    case ReloadStep => ReloadKeepsFresh(u, s);
    case Fire => FireKeepsFresh(u, s);
    case _ => ClockKeepsFresh(u, s, a);
  }

  lemma EnqueueKeepsFresh(u: Setup, s: State, ev: FsEvent)
    requires FreshInv(u, s)
    ensures FreshInv(u, Do(u, s, Enqueue(ev)))
  {
    if Dirty(u, s) { LongerQueue(u, s, Do(u, s, Enqueue(ev)), [ev]); }
  }

  /** A reload that has just begun has dealt with nothing. */
  lemma FireKeepsFresh(u: Setup, s: State)
    requires FreshInv(u, s) && Enabled(u, s, Fire)
    ensures FreshInv(u, Do(u, s, Fire))
  {
  }

  lemma ClockKeepsFresh(u: Setup, s: State, a: Action)
    requires FreshInv(u, s) && Enabled(u, s, a) && (a.Tick? || a.Expire? || a.Stop?)
    ensures FreshInv(u, Do(u, s, a))
  {
  }

  /** A queued relevant event is not lost: handling it activates the timer. */
  lemma HandlingKeepsFresh(u: Setup, s: State)
    requires FreshInv(u, s) && Enabled(u, s, HandleEvent)
    ensures FreshInv(u, Do(u, s, HandleEvent))
  {
    var s' := Do(u, s, HandleEvent);
    if Dirty(u, s) && !s.active {
      var i :| 0 <= i < |s.queue| && Relevant(u.lib, u.watched, s.queue[i]);
      assert i > 0 ==> s'.queue[i - 1] == s.queue[i];
    }
  }

  lemma {:induction false} RunKeepsTimer(u: Setup, s: State, acts: seq<Action>)
    requires TimerInv(u, s) && Valid(u, s, acts)
    ensures TimerInv(u, Exec(u, s, acts))
    decreases |acts|
  {
    if acts != [] {
      StepKeepsTimer(u, s, acts[0]);
      RunKeepsTimer(u, Do(u, s, acts[0]), acts[1..]);
    }
  }

  lemma {:induction false} RunKeepsFresh(u: Setup, s: State, acts: seq<Action>)
    requires FreshInv(u, s) && Valid(u, s, acts)
    ensures FreshInv(u, Exec(u, s, acts))
    decreases |acts|
  {
    if acts != [] {
      StepKeepsFresh(u, s, acts[0]);
      RunKeepsFresh(u, Do(u, s, acts[0]), acts[1..]);
    }
  }

  /** The state when the loop starts: timer stopped, nothing queued, no reload running. */
  predicate Started(s: State) {
    && s.queue == [] && s.timer == Stopped && !s.active && !s.drained
    && s.job == IDLE_JOB && s.running && s.log == []
  }

  /** The loop as Watch starts it: on the sets it built for a store that agrees with the disk. */
  ghost predicate Watching(u: Setup, s: State) {
    && Started(s) && Covers(u.lib, u.watched, s.store)
    && "" !in s.disk && Agrees(u.parse, s.disk, s.store)
  }

  /** Quiescent freshness: take any run of disk changes, queued events, timer steps and
      file-by-file reload steps from a store that agrees with the disk. Whenever no
      relevant event is queued, the timer is inactive and no reload is running, the store
      agrees with the disk again. */
  lemma QuiescentFreshness(u: Setup, s0: State, acts: seq<Action>)
    requires Watching(u, s0) && Valid(u, s0, acts)
    ensures var s := Exec(u, s0, acts);
            Finished(s.job) && !Dirty(u, s) ==> Agrees(u.parse, s.disk, s.store)
  {
    RunKeepsFresh(u, s0, acts);
    var s := Exec(u, s0, acts);
    if Finished(s.job) && !Dirty(u, s) {
      FinishedAgrees(u.parse, s.disk, s.store, s.job);
    }
  }

  /** In any state of any run, the default pair, if it loads, and the last loadable pair of
      each host are served as on disk, or an event is queued, or the timer is active, or the
      running reload has yet to deal with them. */
  lemma FreshOrPending(u: Setup, s0: State, acts: seq<Action>)
    requires Watching(u, s0) && Valid(u, s0, acts)
    ensures var s := Exec(u, s0, acts);
            || Dirty(u, s)
            || (&& (DefaultServed(u.parse, s.disk, s.store) || s.job.rest == [Default])
                && forall h, k :: LastLoadable(u.parse, s.disk, s.store.entries, h, k) ==>
                     || HostServed(u.parse, s.disk, s.store, h, k)
                     || (!Finished(s.job) && Position(s.store, s.job) <= k))
  {
    RunKeepsFresh(u, s0, acts);
  }

  /** Debounce: in every run the active flag is exact, the drain branch is never taken,
      every reload comes at least the debounce window after the last relevant event and
      directly after one (so two reloads have a relevant event between them), and every
      relevant event has been followed by a reload unless the timer is running for it. */
  lemma Debounce(u: Setup, s0: State, acts: seq<Action>)
    requires Started(s0) && Valid(u, s0, acts)
    ensures var s := Exec(u, s0, acts);
            && (s.active <==> s.timer.Armed? || s.timer.Expired?)
            && !s.drained
            && Debounced(u, s.log)
            && (forall i :: 0 <= i < |s.log| && s.log[i].Noticed? ==>
                  s.active || exists j :: i < j < |s.log| && s.log[j].Reloaded?)
  {
    RunKeepsTimer(u, s0, acts);
    var s := Exec(u, s0, acts);
    if !s.active && s.log != [] {
      assert s.log[|s.log| - 1].Reloaded?;
    }
  }

  // ----- the log, from the history

  /** What an action should leave in the log: a mark for a handled event that concerns the
      store, and one for the start of a reload. */
  ghost function MarkOf(u: Setup, st: Store, s: State, a: Action): seq<Mark>
    requires Enabled(u, s, a)
  {
    if a.HandleEvent? && Concerns(u.lib, st, s.queue[0]) then [Noticed(s.now)]
    else if a.Fire? then [Reloaded(s.now)]
    else []
  }

  ghost function MarksOf(u: Setup, st: Store, s: State, acts: seq<Action>): seq<Mark>
    requires Valid(u, s, acts)
    decreases |acts|
  {
    if acts == [] then [] else MarkOf(u, st, s, acts[0]) + MarksOf(u, st, Do(u, s, acts[0]), acts[1..])
  }

  lemma StepMarks(u: Setup, st: Store, s: State, a: Action)
    requires Covers(u.lib, u.watched, st) && Enabled(u, s, a)
    ensures Do(u, s, a).log == s.log + MarkOf(u, st, s, a)
  {
    if a.HandleEvent? { RelevantIff(u.lib, u.watched, st, s.queue[0]); }
  }

  lemma {:induction false} MarksRun(u: Setup, st: Store, s: State, acts: seq<Action>)
    requires Covers(u.lib, u.watched, st) && Valid(u, s, acts)
    ensures Exec(u, s, acts).log == s.log + MarksOf(u, st, s, acts)
    decreases |acts|
  {
    if acts != [] {
      var s' := Do(u, s, acts[0]);
      StepMarks(u, st, s, acts[0]);
      MarksRun(u, st, s', acts[1..]);
      Regroup(s.log, MarkOf(u, st, s, acts[0]), MarksOf(u, st, s', acts[1..]));
    }
  }

  /** No event that concerns the store is handled in the run. */
  ghost predicate Unconcerned(u: Setup, st: Store, s: State, acts: seq<Action>)
    requires Valid(u, s, acts)
    decreases |acts|
  {
    acts == [] ||
    (&& !(acts[0].HandleEvent? && Concerns(u.lib, st, s.queue[0]))
     && Unconcerned(u, st, Do(u, s, acts[0]), acts[1..]))
  }

  lemma {:induction false} UnconcernedMarks(u: Setup, st: Store, s: State, acts: seq<Action>)
    requires Valid(u, s, acts) && Unconcerned(u, st, s, acts)
    ensures forall m :: m in MarksOf(u, st, s, acts) ==> m.Reloaded?
    decreases |acts|
  {
    if acts != [] {
      UnconcernedMarks(u, st, Do(u, s, acts[0]), acts[1..]);
    }
  }

  /** The loop notices exactly the handled events that concern the store, when it handles
      them, and reloads exactly when the timer's value is received. If no event that
      concerns the store is handled, the timer stays stopped and nothing is reloaded. */
  lemma NoticedIff(u: Setup, s0: State, acts: seq<Action>)
    requires Started(s0) && Covers(u.lib, u.watched, s0.store) && Valid(u, s0, acts)
    ensures var s := Exec(u, s0, acts);
            && s.log == MarksOf(u, s0.store, s0, acts)
            && (Unconcerned(u, s0.store, s0, acts) ==> s.log == [] && s.timer == Stopped && !s.active)
  {
    var s := Exec(u, s0, acts);
    MarksRun(u, s0.store, s0, acts);
    NothingBefore(MarksOf(u, s0.store, s0, acts));
    RunKeepsTimer(u, s0, acts);
    if Unconcerned(u, s0.store, s0, acts) {
      UnconcernedMarks(u, s0.store, s0, acts);
      NoReloadComesFirst(u, s.log);
    }
  }

  lemma NoReloadComesFirst(u: Setup, log: seq<Mark>)
    requires Debounced(u, log)
    ensures log == [] || (log[0].Noticed? && log[0] in log)
  {
  }

  lemma NothingBefore(marks: seq<Mark>)
    ensures [] + marks == marks
  {
  }

  lemma Regroup(a: seq<Mark>, b: seq<Mark>, c: seq<Mark>)
    ensures (a + b) + c == a + (b + c)
  {
  }

  /** The events an action puts in the queue. */
  function Arriving(a: Action): seq<FsEvent> {
    match a
    case Change(_, evs) => evs
    case Enqueue(ev) => [ev]
    case _ => []
  }

  function Arrived(acts: seq<Action>): seq<FsEvent> {
    if acts == [] then [] else Arriving(acts[0]) + Arrived(acts[1..])
  }

  function Handled(acts: seq<Action>): nat {
    if acts == [] then 0 else (if acts[0].HandleEvent? then 1 else 0) + Handled(acts[1..])
  }

  lemma StepQueue(u: Setup, s: State, a: Action, later: seq<FsEvent>)
    requires Enabled(u, s, a)
    ensures Do(u, s, a).queue + later == (s.queue + (Arriving(a) + later))[if a.HandleEvent? then 1 else 0..]
  {
  }

  lemma {:induction false} QueueRun(u: Setup, s: State, acts: seq<Action>)
    requires Valid(u, s, acts)
    ensures Handled(acts) <= |s.queue + Arrived(acts)|
    ensures Exec(u, s, acts).queue == (s.queue + Arrived(acts))[Handled(acts)..]
    decreases |acts|
  {
    if acts != [] {
      QueueRun(u, Do(u, s, acts[0]), acts[1..]);
      StepQueue(u, s, acts[0], Arrived(acts[1..]));
    }
  }

  /** Events are handled in the order in which they arrive, each once. */
  lemma FirstComeFirstServed(u: Setup, s0: State, acts: seq<Action>)
    requires Started(s0) && Valid(u, s0, acts)
    ensures Handled(acts) <= |Arrived(acts)| && Exec(u, s0, acts).queue == Arrived(acts)[Handled(acts)..]
  {
    QueueRun(u, s0, acts);
    assert s0.queue + Arrived(acts) == Arrived(acts);
  }

  lemma {:induction false} StopRun(u: Setup, s: State, acts: seq<Action>)
    requires Valid(u, s, acts)
    ensures Exec(u, s, acts).running <==> s.running && Stop !in acts
    ensures !s.running ==> HandleEvent !in acts && Fire !in acts
    decreases |acts|
  {
    if acts != [] {
      StopRun(u, Do(u, s, acts[0]), acts[1..]);
    }
  }

  /** The loop runs until it is stopped; from then on it handles and reloads nothing. */
  lemma RunsUntilStopped(u: Setup, s0: State, acts: seq<Action>, more: seq<Action>)
    requires Started(s0) && Valid(u, s0, acts) && Valid(u, Exec(u, s0, acts), more)
    ensures Exec(u, s0, acts).running <==> Stop !in acts
    ensures Stop in acts ==> HandleEvent !in more && Fire !in more
  {
    StopRun(u, s0, acts);
    StopRun(u, Exec(u, s0, acts), more);
  }

  /** Nothing but the loop stopping can keep an active timer from causing a reload: at the
      select, once the window has passed, at most an expiry and a fire are needed. */
  lemma ActiveTimerFires(u: Setup, s: State)
    requires TimerInv(u, s) && s.active && Selecting(s) && s.now >= LastMark(s).at + u.debounce
    ensures s.timer.Expired? ==> Enabled(u, s, Fire)
    ensures s.timer.Armed? ==> Enabled(u, s, Expire) && Enabled(u, Do(u, s, Expire), Fire)
  {
  }
}
