/** What the certificate watcher watches, and which filesystem events concern it. */
module WatchPaths {
  import opened Common
  import opened Certificates

  /** filepath.Abs (which can fail), filepath.Clean and filepath.Dir. */
  datatype PathLib = PathLib(abs: string -> Option<string>, clean: string -> string, dir: string -> string)

  function Resolve(lib: PathLib, name: string): string {
    match lib.abs(name)
    case Some(p) => p
    case None => lib.clean(name)
  }

  datatype FsEvent = FsEvent(name: string, create: bool)

  datatype Watched = Watched(files: set<string>, dirs: set<string>)

  /** relevantEvent: an event on a watched file, or a Create in a watched directory. */
  predicate Relevant(lib: PathLib, w: Watched, ev: FsEvent) {
    var name := Resolve(lib, ev.name);
    name in w.files || (ev.create && lib.dir(name) in w.dirs)
  }

  /** The paths a store depends on. */
  function PathsOf(st: Store): seq<string> {
    [st.pair.certPath, st.pair.keyPath] + EntryPaths(st.entries)
  }

  function EntryPaths(entries: seq<Entry>): seq<string> {
    if entries == [] then []
    else var last := entries[|entries| - 1];
         EntryPaths(entries[..|entries| - 1]) + [last.pair.certPath, last.pair.keyPath]
  }

  lemma {:induction false} EntryPathsHold(entries: seq<Entry>, k: nat)
    requires k < |entries|
    ensures entries[k].pair.certPath in EntryPaths(entries) && entries[k].pair.keyPath in EntryPaths(entries)
  {
    if k < |entries| - 1 {
      EntryPathsHold(entries[..|entries| - 1], k);
    }
  }

  /** certFilePaths: every non-empty path of the store, resolved. */
  method CertFilePaths(lib: PathLib, st: Store) returns (out: seq<string>)
    ensures forall q :: q in out <==> exists p :: p in PathsOf(st) && p != "" && q == Resolve(lib, p)
  {
    var paths := [st.pair.certPath, st.pair.keyPath];
    for i := 0 to |st.entries|
      invariant paths == [st.pair.certPath, st.pair.keyPath] + EntryPaths(st.entries[..i])
    {
      assert st.entries[..i + 1][..i] == st.entries[..i];
      paths := paths + [st.entries[i].pair.certPath, st.entries[i].pair.keyPath];
    }
    assert st.entries[..|st.entries|] == st.entries;
    out := [];
    for i := 0 to |paths|
      invariant forall q :: q in out <==> exists p :: p in paths[..i] && p != "" && q == Resolve(lib, p)
    {
      assert paths[..i + 1] == paths[..i] + [paths[i]];
      if paths[i] != "" {
        out := out + [Resolve(lib, paths[i])];
      }
    }
    assert paths[..|paths|] == paths;
  }

  /** The sets Watch builds from the file list. */
  method WatchSets(lib: PathLib, files: seq<string>) returns (w: Watched)
    ensures w.files == set f | f in files
    ensures w.dirs == set f | f in files :: lib.dir(f)
  {
    w := Watched({}, {});
    for i := 0 to |files|
      invariant w.files == set f | f in files[..i]
      invariant w.dirs == set f | f in files[..i] :: lib.dir(f)
    {
      assert files[..i + 1] == files[..i] + [files[i]];
      w := Watched(w.files + {files[i]}, w.dirs + {lib.dir(files[i])});
    }
    assert files[..|files|] == files;
  }

  /** What Watch watches for a store. */
  ghost predicate Covers(lib: PathLib, w: Watched, st: Store) {
    && (forall q :: q in w.files <==> exists p :: p in PathsOf(st) && p != "" && q == Resolve(lib, p))
    && w.dirs == set f | f in w.files :: lib.dir(f)
  }

  /** The store reads this file: its path is that of the default pair or of an entry. */
  ghost predicate DependsOn(st: Store, p: string) {
    || p == st.pair.certPath || p == st.pair.keyPath
    || exists k :: 0 <= k < |st.entries| && (p == st.entries[k].pair.certPath || p == st.entries[k].pair.keyPath)
  }

  lemma {:induction false} EntryPathsOnly(entries: seq<Entry>, p: string)
    requires p in EntryPaths(entries)
    ensures exists k :: 0 <= k < |entries| && (p == entries[k].pair.certPath || p == entries[k].pair.keyPath)
  {
    var init, last := entries[..|entries| - 1], entries[|entries| - 1];
    if p != last.pair.certPath && p != last.pair.keyPath {
      EntryPathsOnly(init, p);
      var k :| 0 <= k < |init| && (p == init[k].pair.certPath || p == init[k].pair.keyPath);
      assert init[k] == entries[k];
    }
  }

  lemma PathsAreDependencies(st: Store, p: string)
    ensures p in PathsOf(st) <==> DependsOn(st, p)
  {
    var base := [st.pair.certPath, st.pair.keyPath];
    assert p in PathsOf(st) <==> p in base || p in EntryPaths(st.entries);
    if p in EntryPaths(st.entries) { EntryPathsOnly(st.entries, p); }
    if k :| 0 <= k < |st.entries| && (p == st.entries[k].pair.certPath || p == st.entries[k].pair.keyPath) {
      EntryPathsHold(st.entries, k);
    }
  }

  /** The file that a path names: its absolute form, or its cleaned form if there is none. */
  predicate Names(lib: PathLib, p: string, q: string) {
    lib.abs(p) == Some(q) || (lib.abs(p) == None && lib.clean(p) == q)
  }

  /** The event is on a file that the store reads, or a Create in the directory of one. */
  ghost predicate Concerns(lib: PathLib, st: Store, ev: FsEvent) {
    exists p, q, f :: && DependsOn(st, p) && p != "" && Names(lib, p, q) && Names(lib, ev.name, f)
                      && (f == q || (ev.create && lib.dir(f) == lib.dir(q)))
  }

  lemma RelevantConcerns(lib: PathLib, w: Watched, st: Store, ev: FsEvent)
    requires Covers(lib, w, st) && Relevant(lib, w, ev)
    ensures Concerns(lib, st, ev)
  {
    var f := Resolve(lib, ev.name);
    var q := if f in w.files then f else FileIn(lib, w, lib.dir(f));
    var p :| p in PathsOf(st) && p != "" && q == Resolve(lib, p);
    PathsAreDependencies(st, p);
    assert Names(lib, p, q) && Names(lib, ev.name, f);
  }

  /** The filter lets through exactly the events that concern the store. */
  lemma RelevantIff(lib: PathLib, w: Watched, st: Store, ev: FsEvent)
    requires Covers(lib, w, st)
    ensures Relevant(lib, w, ev) <==> Concerns(lib, st, ev)
  {
    var f := Resolve(lib, ev.name);
    if Relevant(lib, w, ev) { RelevantConcerns(lib, w, st, ev); }
    if p, q, g :| && DependsOn(st, p) && p != "" && Names(lib, p, q) && Names(lib, ev.name, g)
                  && (g == q || (ev.create && lib.dir(g) == lib.dir(q))) {
      PathsAreDependencies(st, p);
      assert q == Resolve(lib, p) && g == f;
      ChangesAreRelevant(lib, w, st, p, ev);
    }
  }

  ghost function FileIn(lib: PathLib, w: Watched, dir: string): (q: string)
    requires exists f :: f in w.files && lib.dir(f) == dir
    ensures q in w.files && lib.dir(q) == dir
  {
    var f :| f in w.files && lib.dir(f) == dir;
    f
  }

  /** Watch, up to the start of the event loop. It fails exactly when the fsnotify watcher
      cannot be created or one of the directories cannot be added; otherwise it watches
      what the store depends on. */
  method Watch(lib: PathLib, st: Store, creatable: bool, addable: string -> bool) returns (w: Option<Watched>)
    ensures w.Some? ==> Covers(lib, w.value, st)
    ensures w.Some? ==> forall p, q :: DependsOn(st, p) && p != "" && Names(lib, p, q) ==> q in w.value.files
    ensures w.Some? <==>
              creatable && forall p :: p in PathsOf(st) && p != "" ==> addable(lib.dir(Resolve(lib, p)))
  {
    if !creatable {
      return None;
    }
    var files := CertFilePaths(lib, st);
    var sets := WatchSets(lib, files);
    var todo := sets.dirs;
    while todo != {}
      invariant todo <= sets.dirs
      invariant forall dir :: dir in sets.dirs && dir !in todo ==> addable(dir)
      decreases todo
    {
      var dir :| dir in todo;
      if !addable(dir) {
        return None;
      }
      todo := todo - {dir};
    }
    assert forall p :: p in PathsOf(st) && p != "" ==> Resolve(lib, p) in sets.files;
    forall p, q | DependsOn(st, p) && p != "" && Names(lib, p, q) ensures q in sets.files {
      PathsAreDependencies(st, p);
      assert q == Resolve(lib, p);
    }
    return Some(sets);
  }

  /** The event tells of a change of this file: it is an event on the file, or a Create next
      to it (a symlink swap). */
  predicate Announces(lib: PathLib, ev: FsEvent, p: string) {
    || Resolve(lib, ev.name) == Resolve(lib, p)
    || (ev.create && lib.dir(Resolve(lib, ev.name)) == lib.dir(Resolve(lib, p)))
  }

  /** No change of a file the store depends on goes unnoticed: an event that announces it is
      relevant to what Watch watches. */
  lemma ChangesAreRelevant(lib: PathLib, w: Watched, st: Store, p: string, ev: FsEvent)
    requires Covers(lib, w, st) && p in PathsOf(st) && p != "" && Announces(lib, ev, p)
    ensures Relevant(lib, w, ev)
  {
    assert Resolve(lib, p) in w.files;
  }
}
