/** `CertStore` as an object: sequential behaviour of each operation. The i-th file read
    of an operation sees the disk `disk(i)`, so the files may change while it runs. */
module CertStore {
  import opened Common
  import opened Certificates

  datatype ReloadError = DefaultFailed | SniFailed(host: string)

  /** The k-th pair loaded by an operation; ReloadAll loads the default, then the entries. */
  function LoadAt(parse: Parser, disk: nat -> Disk, pair: Pair, k: nat): Option<Cert> {
    Load(parse, disk(2 * k), disk(2 * k + 1), pair)
  }

  /** What ReloadAll gets for each entry. */
  function LoadsOf(parse: Parser, disk: nat -> Disk, entries: seq<Entry>): (r: seq<Option<Cert>>)
    ensures |r| == |entries|
  {
    seq(|entries|, i requires 0 <= i < |entries| => LoadAt(parse, disk, entries[i].pair, i + 1))
  }

  /** Among the first n entries, entry k is the last one for its host that loads. */
  ghost predicate LastLoaded(entries: seq<Entry>, loads: seq<Option<Cert>>, n: nat, h: string, k: int)
    requires n <= |entries| == |loads|
  {
    && 0 <= k < n && entries[k].host == h && loads[k].Some?
    && forall j :: k < j < n && entries[j].host == h ==> loads[j] == None
  }

  /** Among the first n entries, none for this host loads. */
  ghost predicate NoneLoads(entries: seq<Entry>, loads: seq<Option<Cert>>, n: nat, h: string)
    requires n <= |entries| == |loads|
  {
    forall j :: 0 <= j < n && entries[j].host == h ==> loads[j] == None
  }

  /** A host after the first n entries: it has the load of its last successfully loading
      entry, or what it had before if none loads. */
  ghost predicate HostInstalled(entries: seq<Entry>, loads: seq<Option<Cert>>, n: nat,
                                before: map<string, Cert>, now: map<string, Cert>, h: string)
    requires n <= |entries| == |loads|
  {
    && (forall k :: LastLoaded(entries, loads, n, h, k) ==> h in now && now[h] == loads[k].value)
    && (NoneLoads(entries, loads, n, h) ==> (h in now <==> h in before) && (h in now ==> now[h] == before[h]))
  }

  ghost predicate Installed(entries: seq<Entry>, loads: seq<Option<Cert>>, n: nat,
                            before: map<string, Cert>, now: map<string, Cert>)
    requires n <= |entries| == |loads|
  {
    forall h :: HostInstalled(entries, loads, n, before, now, h)
  }

  /** The error of the first failure among the default and the first n entries. */
  ghost predicate FirstError(ok: bool, entries: seq<Entry>, loads: seq<Option<Cert>>, n: nat, err: Option<ReloadError>)
    requires n <= |entries| == |loads|
  {
    match err
    case None => ok && forall j :: 0 <= j < n ==> loads[j].Some?
    case Some(DefaultFailed) => !ok
    case Some(SniFailed(h)) =>
      ok && exists k :: 0 <= k < n && entries[k].host == h && loads[k] == None
                        && forall j :: 0 <= j < k ==> loads[j].Some?
  }

  lemma FirstErrorNext(ok: bool, entries: seq<Entry>, loads: seq<Option<Cert>>, n: nat, err: Option<ReloadError>)
    requires n < |entries| == |loads| && FirstError(ok, entries, loads, n, err)
    ensures FirstError(ok, entries, loads, n + 1,
                       if loads[n] == None && err == None then Some(SniFailed(entries[n].host)) else err)
  {
  }

  /** The certificates once entry n has been dealt with. */
  function AfterEntry(entries: seq<Entry>, loads: seq<Option<Cert>>, n: nat, now: map<string, Cert>): map<string, Cert>
    requires n < |entries| == |loads|
  {
    if loads[n] == None then now else now[entries[n].host := loads[n].value]
  }

  lemma HostInstalledNext(entries: seq<Entry>, loads: seq<Option<Cert>>, n: nat,
                          before: map<string, Cert>, now: map<string, Cert>, h: string)
    requires n < |entries| == |loads| && HostInstalled(entries, loads, n, before, now, h)
    ensures HostInstalled(entries, loads, n + 1, before, AfterEntry(entries, loads, n, now), h)
  {
    var next := AfterEntry(entries, loads, n, now);
    forall k | LastLoaded(entries, loads, n + 1, h, k) ensures h in next && next[h] == loads[k].value {
      if k < n {
        assert h == entries[n].host ==> loads[n] == None;
        assert LastLoaded(entries, loads, n, h, k);
      }
    }
    if NoneLoads(entries, loads, n + 1, h) {
      assert h == entries[n].host ==> loads[n] == None;
      assert NoneLoads(entries, loads, n, h);
    }
  }

  lemma InstalledNext(entries: seq<Entry>, loads: seq<Option<Cert>>, n: nat,
                      before: map<string, Cert>, now: map<string, Cert>)
    requires n < |entries| == |loads| && Installed(entries, loads, n, before, now)
    ensures Installed(entries, loads, n + 1, before, AfterEntry(entries, loads, n, now))
  {
    var m, next := n + 1, AfterEntry(entries, loads, n, now);
    forall h ensures HostInstalled(entries, loads, m, before, next, h) {
      HostInstalledNext(entries, loads, n, before, now, h);
    }
  }

  lemma SettleOneMore(parse: Parser, disk: nat -> Disk, st: Store, n: nat)
    requires n < |st.entries|
    ensures SettleEntries(parse, disk, st, st.entries, n + 1).certs
         == AfterEntry(st.entries, LoadsOf(parse, disk, st.entries), n,
                       SettleEntries(parse, disk, st, st.entries, n).certs)
  {
  }

  lemma InstalledNothing(entries: seq<Entry>, loads: seq<Option<Cert>>, before: map<string, Cert>)
    requires |entries| == |loads|
    ensures Installed(entries, loads, 0, before, before)
  {
  }

  /** Loading the entries one after the other leaves each host with the load of its last
      successfully loading entry. */
  lemma {:induction false} SettledMeansInstalled(parse: Parser, disk: nat -> Disk, st: Store, n: nat)
    requires n <= |st.entries|
    ensures Installed(st.entries, LoadsOf(parse, disk, st.entries), n, st.certs,
                      SettleEntries(parse, disk, st, st.entries, n).certs)
    decreases n
  {
    var loads := LoadsOf(parse, disk, st.entries);
    if n == 0 {
      InstalledNothing(st.entries, loads, st.certs);
    } else {
      SettledMeansInstalled(parse, disk, st, n - 1);
      SettledNext(parse, disk, st, loads, n - 1);
    }
  }

  lemma SettledNext(parse: Parser, disk: nat -> Disk, st: Store, loads: seq<Option<Cert>>, n: nat)
    requires n < |st.entries| && loads == LoadsOf(parse, disk, st.entries)
    requires Installed(st.entries, loads, n, st.certs, SettleEntries(parse, disk, st, st.entries, n).certs)
    ensures Installed(st.entries, loads, n + 1, st.certs, SettleEntries(parse, disk, st, st.entries, n + 1).certs)
  {
    InstalledNext(st.entries, loads, n, st.certs, SettleEntries(parse, disk, st, st.entries, n).certs);
    SettleOneMore(parse, disk, st, n);
  }

  class CertStore {
    const pair: Pair
    var fallback: Cert
    var certs: map<string, Cert>
    var sniEntries: seq<Entry>

    /** The store as a value. */
    ghost function View(): Store
      reads this
    {
      Store(pair, fallback, certs, sniEntries)
    }

    constructor (pair: Pair, cert: Cert)
      ensures View() == Store(pair, cert, map[], [])
    {
      this.pair, fallback, certs, sniEntries := pair, cert, map[], [];
    }

    /** GetCertificate with the server name of the hello, empty if there is none. */
    method GetCertificate(name: string) returns (cert: Cert)
      ensures cert == Get(View(), name)
      ensures cert == if name != "" && name in certs then certs[name] else fallback
    {
      if name != "" {
        if name in certs {
          return certs[name];
        }
      }
      return fallback;
    }

    method AddSNICert(parse: Parser, disk: nat -> Disk, e: Entry) returns (ok: bool)
      modifies this
      ensures ok == LoadAt(parse, disk, e.pair, 0).Some?
      ensures View() == if ok then Install(old(View()), Add(e), LoadAt(parse, disk, e.pair, 0).value) else old(View())
    {
      var loaded := LoadAt(parse, disk, e.pair, 0);
      if loaded == None {
        return false;
      }
      certs := certs[e.host := loaded.value];
      sniEntries := sniEntries + [e];
      return true;
    }

    method Reload(parse: Parser, disk: nat -> Disk) returns (ok: bool)
      modifies this`fallback
      ensures ok == LoadAt(parse, disk, pair, 0).Some?
      ensures fallback == if ok then LoadAt(parse, disk, pair, 0).value else old(fallback)
    {
      var loaded := LoadAt(parse, disk, pair, 0);
      if loaded == None {
        return false;
      }
      fallback := loaded.value;
      return true;
    }

    /** The loop body of ReloadAll: load one entry, and install it if that succeeds. */
    method ReloadEntry(parse: Parser, disk: nat -> Disk, e: Entry, k: nat) returns (ok: bool)
      modifies this`certs
      ensures ok == LoadAt(parse, disk, e.pair, k).Some?
      ensures certs == if ok then old(certs)[e.host := LoadAt(parse, disk, e.pair, k).value] else old(certs)
      ensures View() == Settle(parse, old(View()), Sni(e), disk(2 * k), disk(2 * k + 1))
    {
      var loaded := LoadAt(parse, disk, e.pair, k);
      if loaded == None {
        return false;
      }
      certs := certs[e.host := loaded.value];
      return true;
    }

    /** The loop of ReloadAll over its copy of the entries; `firstErr` is the error so far,
        that of the default pair. */
    method ReloadEntries(parse: Parser, disk: nat -> Disk, entries: seq<Entry>, ok: bool, err: Option<ReloadError>)
      returns (firstErr: Option<ReloadError>)
      requires err == if ok then None else Some(DefaultFailed)
      modifies this`certs
      ensures View() == SettleEntries(parse, disk, old(View()), entries, |entries|)
      ensures FirstError(ok, entries, LoadsOf(parse, disk, entries), |entries|, firstErr)
    {
      firstErr := err;
      ghost var loads := LoadsOf(parse, disk, entries);
      for i := 0 to |entries|
        invariant View() == SettleEntries(parse, disk, old(View()), entries, i)
        invariant FirstError(ok, entries, loads, i, firstErr)
      {
        ghost var before := firstErr;
        var loaded := ReloadEntry(parse, disk, entries[i], i + 1);
        if !loaded && firstErr == None {
          firstErr := Some(SniFailed(entries[i].host));
        }
        assert loads[i].Some? == loaded;
        FirstErrorNext(ok, entries, loads, i, before);
      }
    }

    /** ReloadAll: whatever fails to load, each host ends with the load of its last
        successfully loading entry (or as before if none loads), the default likewise, and
        the error is that of the first failure, the default first. */
    method ReloadAll(parse: Parser, disk: nat -> Disk) returns (firstErr: Option<ReloadError>)
      modifies this`fallback, this`certs
      ensures fallback == (match LoadAt(parse, disk, pair, 0) case Some(x) => x case None => old(fallback))
      ensures Installed(sniEntries, LoadsOf(parse, disk, sniEntries), |sniEntries|, old(certs), certs)
      ensures FirstError(LoadAt(parse, disk, pair, 0).Some?, sniEntries, LoadsOf(parse, disk, sniEntries),
                         |sniEntries|, firstErr)
      ensures View() == SettleAll(parse, disk, old(View()))
    {
      firstErr := None;
      var ok := Reload(parse, disk);
      if !ok {
        firstErr := Some(DefaultFailed);
      }
      ghost var start := View();
      firstErr := ReloadEntries(parse, disk, sniEntries, ok, firstErr);
      SettledMeansInstalled(parse, disk, start, |sniEntries|);
    }
  }

  /** NewCertStore: there is a store only if the default pair loads. */
  method NewCertStore(parse: Parser, disk: nat -> Disk, pair: Pair) returns (store: CertStore?)
    ensures store == null <==> LoadAt(parse, disk, pair, 0) == None
    ensures store != null <==>
              && pair.certPath in disk(0) && pair.keyPath in disk(1)
              && parse(disk(0)[pair.certPath], disk(1)[pair.keyPath]).Some?
    ensures store != null ==> fresh(store) && store.View() == Store(pair, LoadAt(parse, disk, pair, 0).value, map[], [])
  {
    var loaded := LoadAt(parse, disk, pair, 0);
    if loaded == None {
      return null;
    }
    store := new CertStore(pair, loaded.value);
  }
}
