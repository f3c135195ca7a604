/** When the store serves what is on disk, and why one running job keeps it that way as
    long as the disk does not change: shared by the watcher's loop and by serial reloads. */
module Freshness {
  import opened Common
  import opened Certificates

  /** What a pair loads as from the disk as it is. */
  function OnDisk(parse: Parser, disk: Disk, pair: Pair): Option<Cert> {
    Load(parse, disk, disk, pair)
  }

  /** Entry k is the last one for host h that loads from the disk as it is. */
  predicate LastLoadable(parse: Parser, disk: Disk, entries: seq<Entry>, h: string, k: int) {
    && 0 <= k < |entries| && entries[k].host == h
    && OnDisk(parse, disk, entries[k].pair).Some?
    && forall j :: k < j < |entries| && entries[j].host == h ==> OnDisk(parse, disk, entries[j].pair) == None
  }

  predicate DefaultServed(parse: Parser, disk: Disk, st: Store) {
    OnDisk(parse, disk, st.pair).Some? ==> st.fallback == OnDisk(parse, disk, st.pair).value
  }

  predicate HostServed(parse: Parser, disk: Disk, st: Store, h: string, k: int)
    requires LastLoadable(parse, disk, st.entries, h, k)
  {
    h in st.certs && st.certs[h] == OnDisk(parse, disk, st.entries[k].pair).value
  }

  /** Each host whose last loadable pair is among the first n entries is served as on disk. */
  ghost predicate HostsServed(parse: Parser, disk: Disk, st: Store, n: int) {
    forall h, k :: LastLoadable(parse, disk, st.entries, h, k) && k < n ==> HostServed(parse, disk, st, h, k)
  }

  /** Only registered hosts have a certificate. */
  ghost predicate HostsKnown(st: Store) {
    forall h :: h in st.certs ==> exists k :: 0 <= k < |st.entries| && st.entries[k].host == h
  }

  /** The store answers as the disk would: a name registered by a pair that loads gets the
      load of its last such pair; a name that is not registered gets the default pair's. */
  ghost predicate Agrees(parse: Parser, disk: Disk, st: Store) {
    HostsKnown(st) && DefaultServed(parse, disk, st) && HostsServed(parse, disk, st, |st.entries|)
  }

  /** What a client gets from a store that agrees with the disk: what the two files of the
      last loadable pair for its name parse as, or those of the default pair. */
  lemma ServedAsOnDisk(parse: Parser, disk: Disk, st: Store, name: string, k: int)
    requires Agrees(parse, disk, st) && name != ""
    ensures LastLoadable(parse, disk, st.entries, name, k) ==>
              var pair := st.entries[k].pair;
              && pair.certPath in disk && pair.keyPath in disk
              && Some(Get(st, name)) == parse(disk[pair.certPath], disk[pair.keyPath])
    ensures (forall j :: 0 <= j < |st.entries| ==> st.entries[j].host != name) ==>
              st.pair.certPath in disk && st.pair.keyPath in disk ==>
                var loaded := parse(disk[st.pair.certPath], disk[st.pair.keyPath]);
                loaded == None || loaded == Some(Get(st, name))
  {
    if LastLoadable(parse, disk, st.entries, name, k) {
      assert HostServed(parse, disk, st, name, k);
    }
  }

  // ----- how far a job has come

  /** A ReloadAll between its start and its end (which is also any finished job). */
  predicate ReloadAllShape(st: Store, job: Job) {
    && (job.snapshot ==> job.rest == [Default] || job.rest == [])
    && (!job.snapshot ==> |job.rest| <= |st.entries|
                          && job.rest == SniTasks(st.entries)[|st.entries| - |job.rest|..])
    && (job.rest == [] ==> job.phase.Start?)
  }

  predicate JobShape(st: Store, job: Job) {
    || ReloadAllShape(st, job)
    || (!job.snapshot && (job.rest == [Default] || (|job.rest| == 1 && job.rest[0].Add?)))
  }

  /** How many entries the job has dealt with (all, if it is not a ReloadAll). */
  function Position(st: Store, job: Job): int {
    if job.snapshot then 0
    else if job.rest != [] && job.rest[0].Sni? then |st.entries| - |job.rest|
    else |st.entries|
  }

  /** What the job has read so far of the pair at hand is what the disk holds. */
  predicate ReadsCurrent(parse: Parser, disk: Disk, st: Store, job: Job) {
    job.rest != [] ==>
      var pair := PairOf(st, job.rest[0]);
      match job.phase
      case Start => true
      case GotCert(c) => ReadFile(disk, pair.certPath) == Some(c)
      case Loaded(x) => OnDisk(parse, disk, pair) == Some(x)
  }

  predicate DefaultCurrent(parse: Parser, disk: Disk, st: Store, job: Job) {
    job.rest != [Default] ==> DefaultServed(parse, disk, st)
  }

  ghost predicate HostsCurrent(parse: Parser, disk: Disk, st: Store, job: Job) {
    HostsServed(parse, disk, st, Position(st, job))
  }

  // ----- one step of a job against an unchanged disk

  /** The task at hand of a ReloadAll is the entry at its position. */
  lemma TaskAtHand(st: Store, job: Job)
    requires ReloadAllShape(st, job) && job.rest != [] && !job.snapshot
    ensures 0 <= Position(st, job) < |st.entries| && job.rest[0] == Sni(st.entries[Position(st, job)])
    ensures job.rest[1..] == SniTasks(st.entries)[Position(st, job) + 1..]
  {
  }

  lemma NextKeepsReloadAll(parse: Parser, disk: Disk, st: Store, job: Job)
    requires ReloadAllShape(st, job) && !Finished(job)
    ensures ReloadAllShape(NextStore(st, job), NextJob(parse, st, disk, job))
    ensures NextStore(st, job).entries == st.entries
  {
    if job.rest == [] {
      assert SniTasks(st.entries)[0..] == SniTasks(st.entries);
    } else if job.snapshot {
      assert [Default][1..] == [];
    } else {
      NextKeepsSuffix(parse, disk, st, job);
    }
  }

  lemma NextKeepsSuffix(parse: Parser, disk: Disk, st: Store, job: Job)
    requires ReloadAllShape(st, job) && job.rest != [] && !job.snapshot
    ensures ReloadAllShape(NextStore(st, job), NextJob(parse, st, disk, job))
    ensures NextStore(st, job).entries == st.entries
  {
    TaskAtHand(st, job);
    var job' := NextJob(parse, st, disk, job);
    assert job'.rest == job.rest || (job'.rest == job.rest[1..] && job'.phase.Start?);
  }

  lemma NextKeepsShape(parse: Parser, disk: Disk, st: Store, job: Job)
    requires JobShape(st, job) && !Finished(job)
    ensures JobShape(NextStore(st, job), NextJob(parse, st, disk, job))
  {
    if ReloadAllShape(st, job) {
      NextKeepsReloadAll(parse, disk, st, job);
    } else {
      assert job.rest[1..] == [];
    }
  }

  lemma NextKeepsReads(parse: Parser, disk: Disk, st: Store, job: Job)
    requires ReadsCurrent(parse, disk, st, job) && !Finished(job)
    ensures ReadsCurrent(parse, disk, NextStore(st, job), NextJob(parse, st, disk, job))
  {
  }

  /** The pair at hand is skipped only if it does not load from the disk as it is. */
  lemma SkippedMeansUnloadable(parse: Parser, disk: Disk, st: Store, job: Job)
    requires ReadsCurrent(parse, disk, st, job) && job.rest != [] && !job.phase.Loaded?
    requires NextJob(parse, st, disk, job).rest != job.rest
    ensures OnDisk(parse, disk, PairOf(st, job.rest[0])) == None
  {
  }

  lemma NextKeepsDefault(parse: Parser, disk: Disk, st: Store, job: Job)
    requires JobShape(st, job) && ReadsCurrent(parse, disk, st, job) && !Finished(job)
    requires DefaultCurrent(parse, disk, st, job)
    ensures DefaultCurrent(parse, disk, NextStore(st, job), NextJob(parse, st, disk, job))
  {
    if job.rest == [Default] {
      if !job.phase.Loaded? && NextJob(parse, st, disk, job).rest != job.rest {
        SkippedMeansUnloadable(parse, disk, st, job);
      }
    } else if job.rest != [] {
      assert !job.rest[0].Default? by {
        if ReloadAllShape(st, job) { TaskAtHand(st, job); }
      }
    }
  }

  /** Moving past entry p, whose load (if any) has just been installed. */
  lemma PastEntry(parse: Parser, disk: Disk, st: Store, st': Store, p: nat)
    requires p < |st.entries| && HostsServed(parse, disk, st, p) && st'.entries == st.entries
    requires st'.certs == match OnDisk(parse, disk, st.entries[p].pair)
                          case Some(x) => st.certs[st.entries[p].host := x]
                          case None => st.certs
    ensures HostsServed(parse, disk, st', p + 1)
  {
    forall h, k | LastLoadable(parse, disk, st'.entries, h, k) && k < p + 1
      ensures HostServed(parse, disk, st', h, k)
    {
      if k < p {
        assert HostServed(parse, disk, st, h, k);
        assert st.entries[p].host == h ==> OnDisk(parse, disk, st.entries[p].pair) == None;
      }
    }
  }

  /** Registering one more pair, which has just been loaded and installed. */
  lemma OneMoreEntry(parse: Parser, disk: Disk, st: Store, e: Entry, x: Cert)
    requires HostsServed(parse, disk, st, |st.entries|) && OnDisk(parse, disk, e.pair) == Some(x)
    ensures HostsServed(parse, disk, Install(st, Add(e), x), |st.entries| + 1)
  {
    var st' := Install(st, Add(e), x);
    forall h, k | LastLoadable(parse, disk, st'.entries, h, k) && k < |st.entries| + 1
      ensures HostServed(parse, disk, st', h, k)
    {
      if k < |st.entries| {
        assert st'.entries[|st.entries|] == e && h != e.host;
        assert forall j :: 0 <= j < |st.entries| ==> st'.entries[j] == st.entries[j];
        assert LastLoadable(parse, disk, st.entries, h, k);
        assert HostServed(parse, disk, st, h, k);
      }
    }
  }

  lemma SameHosts(parse: Parser, disk: Disk, st: Store, st': Store, n: int)
    requires HostsServed(parse, disk, st, n) && st'.entries == st.entries && st'.certs == st.certs
    ensures HostsServed(parse, disk, st', n)
  {
    forall h, k | LastLoadable(parse, disk, st'.entries, h, k) && k < n ensures HostServed(parse, disk, st', h, k) {
      assert HostServed(parse, disk, st, h, k);
    }
  }

  lemma NextKeepsHosts(parse: Parser, disk: Disk, st: Store, job: Job)
    requires JobShape(st, job) && ReadsCurrent(parse, disk, st, job) && !Finished(job)
    requires HostsCurrent(parse, disk, st, job)
    ensures HostsCurrent(parse, disk, NextStore(st, job), NextJob(parse, st, disk, job))
  {
    var st', job' := NextStore(st, job), NextJob(parse, st, disk, job);
    if job.rest == [] || job.rest[0].Default? {
      assert Position(st', job') <= Position(st, job);
      SameHosts(parse, disk, st, st', Position(st, job));
    } else if !job.phase.Loaded? && job'.rest == job.rest {
      assert st' == st;
    } else {
      if !job.phase.Loaded? { SkippedMeansUnloadable(parse, disk, st, job); }
      assert job' == Skip(job);
      if job.rest[0].Add? {
        assert job.rest[1..] == [];
        if job.phase.Loaded? { OneMoreEntry(parse, disk, st, job.rest[0].entry, job.phase.x); }
      } else {
        TaskAtHand(st, job);
        PastEntry(parse, disk, st, st', Position(st, job));
        assert Position(st', job') == Position(st, job) + 1;
      }
    }
  }

  lemma NextKeepsKnown(st: Store, job: Job)
    requires HostsKnown(st) && ReloadAllShape(st, job)
    ensures HostsKnown(NextStore(st, job))
  {
    if job.rest != [] && !job.snapshot {
      TaskAtHand(st, job);
    }
  }

  /** With the job finished, nothing is left pending. */
  lemma FinishedAgrees(parse: Parser, disk: Disk, st: Store, job: Job)
    requires Finished(job) && HostsKnown(st)
    requires DefaultCurrent(parse, disk, st, job) && HostsCurrent(parse, disk, st, job)
    ensures Agrees(parse, disk, st)
  {
  }
}
