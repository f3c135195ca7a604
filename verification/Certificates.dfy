/** Certificates on disk and in memory, and the work of one reload, file read by file
    read: what interleaves when the disk changes or several reloads run. */
module Certificates {
  import opened Common

  /** The readable files; a path that is not a key cannot be read. */
  type Disk = map<string, Bytes>

  datatype Cert = Cert(chain: Bytes, key: Bytes)

  /** X509KeyPair: a partial function of the two files' contents. */
  type Parser = (Bytes, Bytes) -> Option<Cert>

  datatype Pair = Pair(certPath: string, keyPath: string)

  datatype Entry = Entry(host: string, pair: Pair)

  function ReadFile(disk: Disk, path: string): Option<Bytes> {
    if path in disk then Some(disk[path]) else None
  }

  /** LoadX509KeyPair: reads the certificate file, then the key file; the disk may change
      between the two reads. */
  function Load(parse: Parser, certDisk: Disk, keyDisk: Disk, pair: Pair): Option<Cert> {
    match (ReadFile(certDisk, pair.certPath), ReadFile(keyDisk, pair.keyPath))
    case (Some(c), Some(k)) => parse(c, k)
    case _ => None
  }

  /** The in-memory store. */
  datatype Store = Store(pair: Pair, fallback: Cert, certs: map<string, Cert>, entries: seq<Entry>)

  /** GetCertificate; a nil hello and an absent server name are the empty name. */
  function Get(st: Store, name: string): Cert {
    if name != "" && name in st.certs then st.certs[name] else st.fallback
  }

  // ----- one reload, step by step

  datatype Task = Default | Sni(entry: Entry) | Add(entry: Entry)

  datatype Phase = Start | GotCert(c: Bytes) | Loaded(x: Cert)

  /** A running Reload, ReloadAll or AddSNICert: the pairs still to load, how far the first
      of them is, and whether the entry list is still to be copied (ReloadAll). */
  datatype Job = Job(rest: seq<Task>, phase: Phase, snapshot: bool)

  const RELOAD_JOB := Job([Default], Start, false)
  const RELOAD_ALL_JOB := Job([Default], Start, true)
  const IDLE_JOB := Job([], Start, false)

  function AddJob(e: Entry): Job {
    Job([Add(e)], Start, false)
  }

  predicate Finished(job: Job) {
    job.rest == [] && !job.snapshot
  }

  function PairOf(st: Store, t: Task): Pair {
    if t.Default? then st.pair else t.entry.pair
  }

  function SniTasks(entries: seq<Entry>): seq<Task> {
    seq(|entries|, i requires 0 <= i < |entries| => Sni(entries[i]))
  }

  /** Give up on the first pair: a failed load keeps what the store has. */
  function Skip(job: Job): Job
    requires job.rest != []
  {
    Job(job.rest[1..], Start, job.snapshot)
  }

  /** Under the lock: put a loaded certificate in place. */
  function Install(st: Store, t: Task, x: Cert): Store {
    match t
    case Default => st.(fallback := x)
    case Sni(e) => st.(certs := st.certs[e.host := x])
    case Add(e) => st.(certs := st.certs[e.host := x], entries := st.entries + [e])
  }

  /** The next step of a job, against the disk as it is now. */
  function NextJob(parse: Parser, st: Store, disk: Disk, job: Job): Job
    requires !Finished(job)
  {
    if job.rest == [] then Job(SniTasks(st.entries), Start, false)
    else
      var pair := PairOf(st, job.rest[0]);
      match job.phase
      case Start =>
        (match ReadFile(disk, pair.certPath)
         case Some(c) => job.(phase := GotCert(c))
         case None => Skip(job))
      case GotCert(c) =>
        (match ReadFile(disk, pair.keyPath)
         case Some(k) =>
           (match parse(c, k)
            case Some(x) => job.(phase := Loaded(x))
            case None => Skip(job))
         case None => Skip(job))
      case Loaded(_) => Skip(job)
  }

  /** Only installing a loaded certificate changes the store. */
  function NextStore(st: Store, job: Job): Store {
    if job.rest != [] && job.phase.Loaded? then Install(st, job.rest[0], job.phase.x) else st
  }

  // ----- a whole load, as its effect on the store

  /** Load a pair, the two files read from these disks, and install it if it parses. */
  function Settle(parse: Parser, st: Store, t: Task, certDisk: Disk, keyDisk: Disk): Store {
    match Load(parse, certDisk, keyDisk, PairOf(st, t))
    case Some(x) => Install(st, t, x)
    case None => st
  }

  /** The first n entries loaded in order; the i-th file read of ReloadAll sees disk(i),
      the default pair taking the first two. */
  function SettleEntries(parse: Parser, disk: nat -> Disk, st: Store, entries: seq<Entry>, n: nat): (r: Store)
    requires n <= |entries|
    ensures r.pair == st.pair && r.fallback == st.fallback && r.entries == st.entries
  {
    if n == 0 then st
    else
      var before := SettleEntries(parse, disk, st, entries, n - 1);
      Settle(parse, before, Sni(entries[n - 1]), disk(2 * n), disk(2 * n + 1))
  }

  /** The effect of an undisturbed ReloadAll. */
  function SettleAll(parse: Parser, disk: nat -> Disk, st: Store): Store {
    SettleEntries(parse, disk, Settle(parse, st, Default, disk(0), disk(1)), st.entries, |st.entries|)
  }
}
