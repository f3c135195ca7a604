/** The right-biased merge of nested configuration maps, and the exact conditions under
    which it overrides path by path and is associative. */
module ConfigMerge {
  import opened Common

  /** A configuration value: anything that is not a map, or a nested map. */
  datatype Value = Scalar(code: int) | Table(entries: map<string, Value>)

  const EMPTY_TABLE := Table(map[])

  /** Two values into one: the later wins, except that two nested maps are merged. */
  function Merge(x: Value, y: Value): Value
    decreases y
  {
    if x.Table? && y.Table? then Table(map k | k in x.entries.Keys + y.entries.Keys ::
      if k !in y.entries then x.entries[k]
      else if k in x.entries then Merge(x.entries[k], y.entries[k])
      else y.entries[k])
    else y
  }

  /** The part of a map under the given keys. */
  function Restrict(y: Value, keys: set<string>): Value
    requires y.Table?
  {
    Table(map k | k in y.entries && k in keys :: y.entries[k])
  }

  /** The left fold of the binary merge. */
  function MergeAll(maps: seq<Value>): Value {
    if maps == [] then EMPTY_TABLE else Merge(MergeAll(maps[..|maps| - 1]), maps[|maps| - 1])
  }

  // ----- paths

  /** The scalar at a path of the flattened value. */
  function Lookup(x: Value, path: seq<string>): Option<int>
    decreases |path|
  {
    if path == [] then (if x.Scalar? then Some(x.code) else None)
    else if x.Table? && path[0] in x.entries then Lookup(x.entries[path[0]], path[1..])
    else None
  }

  /** One flattened value overridden by another. */
  function Override(x: Option<int>, y: Option<int>): Option<int> {
    if y.Some? then y else x
  }

  /** Some path of the flattened value exists. */
  predicate HasLeaf(x: Value)
    decreases x
  {
    x.Scalar? || exists k :: k in x.entries && HasLeaf(x.entries[k])
  }

  /** Nowhere does a nested map replace a scalar, nor a scalar a nested map that holds one. */
  predicate Overridable(x: Value, y: Value)
    decreases y
  {
    match (x, y)
    case (Scalar(_), Scalar(_)) => true
    case (Scalar(_), Table(_)) => false
    case (Table(_), Scalar(_)) => !HasLeaf(x)
    case (Table(a), Table(b)) => forall k :: k in a && k in b ==> Overridable(a[k], b[k])
  }

  lemma {:induction false} LeafHasPath(x: Value) returns (path: seq<string>)
    requires HasLeaf(x)
    ensures Lookup(x, path).Some?
    decreases x
  {
    if x.Scalar? {
      path := [];
    } else {
      var k :| k in x.entries && HasLeaf(x.entries[k]);
      var rest := LeafHasPath(x.entries[k]);
      path := [k] + rest;
      assert path[1..] == rest;
    }
  }

  lemma {:induction false} PathHasLeaf(x: Value, path: seq<string>)
    requires Lookup(x, path).Some?
    ensures HasLeaf(x)
    decreases |path|
  {
    if path != [] {
      PathHasLeaf(x.entries[path[0]], path[1..]);
    }
  }

  lemma {:induction false} MergeOverrides(x: Value, y: Value, path: seq<string>)
    requires Overridable(x, y)
    ensures Lookup(Merge(x, y), path) == Override(Lookup(x, path), Lookup(y, path))
    decreases |path|
  {
    if path == [] {
    } else if x.Table? && y.Table? {
      var k := path[0];
      if k in x.entries && k in y.entries {
        MergeOverrides(x.entries[k], y.entries[k], path[1..]);
      }
    } else if x.Table? && Lookup(x, path).Some? {
      PathHasLeaf(x, path);
    }
  }

  /** A path on which the merge differs from overriding. */
  lemma {:induction false} ClashHasPath(x: Value, y: Value) returns (path: seq<string>)
    requires !Overridable(x, y)
    ensures Lookup(Merge(x, y), path) != Override(Lookup(x, path), Lookup(y, path))
    decreases y
  {
    if x.Scalar? {
      path := [];
    } else if y.Scalar? {
      path := LeafHasPath(x);
    } else {
      var k :| k in x.entries && k in y.entries && !Overridable(x.entries[k], y.entries[k]);
      var rest := ClashHasPath(x.entries[k], y.entries[k]);
      path := [k] + rest;
      assert path[1..] == rest;
    }
  }

  /** The flattened merge is the flattened first map overridden by the flattened second,
      exactly when no map replaces a scalar and no scalar a map with something in it. */
  lemma OverrideIff(x: Value, y: Value)
    ensures (forall path :: Lookup(Merge(x, y), path) == Override(Lookup(x, path), Lookup(y, path)))
       <==> Overridable(x, y)
  {
    if Overridable(x, y) {
      forall path ensures Lookup(Merge(x, y), path) == Override(Lookup(x, path), Lookup(y, path)) {
        MergeOverrides(x, y, path);
      }
    } else {
      var path := ClashHasPath(x, y);
    }
  }

  /** The witness: an empty map over a scalar removes what overriding would keep. */
  lemma MapOverScalar()
    ensures var x, y := Table(map["log" := Scalar(1)]), Table(map["log" := EMPTY_TABLE]);
            Lookup(Merge(x, y), ["log"]) == None && Override(Lookup(x, ["log"]), Lookup(y, ["log"])) == Some(1)
  {
    var x, y := Table(map["log" := Scalar(1)]), Table(map["log" := EMPTY_TABLE]);
    assert Merge(x, y).entries["log"] == Merge(Scalar(1), EMPTY_TABLE) == EMPTY_TABLE;
    assert ["log"][1..] == [];
    assert Lookup(x, ["log"]) == Lookup(Scalar(1), []) && Lookup(y, ["log"]) == Lookup(EMPTY_TABLE, []);
    assert Lookup(Merge(x, y), ["log"]) == Lookup(EMPTY_TABLE, []);
  }

  // ----- lists of maps

  /** No path is a scalar in one and a map in the other. */
  predicate Compatible(x: Value, y: Value)
    decreases y
  {
    && x.Table? == y.Table?
    && (x.Table? && y.Table? ==>
          forall k :: k in x.entries && k in y.entries ==> Compatible(x.entries[k], y.entries[k]))
  }

  lemma {:induction false} CompatibleOverrides(x: Value, y: Value)
    requires Compatible(x, y)
    ensures Overridable(x, y)
    decreases y
  {
    if x.Table? {
      forall k | k in x.entries && k in y.entries ensures Overridable(x.entries[k], y.entries[k]) {
        CompatibleOverrides(x.entries[k], y.entries[k]);
      }
    }
  }

  lemma {:induction false} MergeStaysCompatible(x: Value, y: Value, z: Value)
    requires Compatible(x, y) && Compatible(x, z) && Compatible(y, z)
    ensures Compatible(Merge(x, y), z)
    decreases z
  {
    if z.Table? {
      var m := Merge(x, y).entries;
      forall k | k in m && k in z.entries ensures Compatible(m[k], z.entries[k]) {
        if k in x.entries && k in y.entries {
          MergeStaysCompatible(x.entries[k], y.entries[k], z.entries[k]);
        }
      }
    }
  }

  /** The flattened maps overridden left to right, at one path. */
  function OverrideAll(maps: seq<Value>, path: seq<string>): Option<int> {
    if maps == [] then None
    else Override(OverrideAll(maps[..|maps| - 1], path), Lookup(maps[|maps| - 1], path))
  }

  ghost predicate PairwiseCompatible(maps: seq<Value>) {
    && (forall i :: 0 <= i < |maps| ==> maps[i].Table?)
    && (forall i, j :: 0 <= i < j < |maps| ==> Compatible(maps[i], maps[j]))
  }

  lemma {:induction false} FoldCompatible(maps: seq<Value>, z: Value)
    requires PairwiseCompatible(maps) && z.Table? && forall i :: 0 <= i < |maps| ==> Compatible(maps[i], z)
    ensures Compatible(MergeAll(maps), z)
    decreases |maps|
  {
    if maps != [] {
      var init, last := maps[..|maps| - 1], maps[|maps| - 1];
      FoldCompatible(init, last);
      FoldCompatible(init, z);
      MergeStaysCompatible(MergeAll(init), last, z);
    }
  }

  /** For a list of maps in which no path is a scalar in one and a map in another, the
      flattened result is the flattened inputs overridden left to right. */
  lemma {:induction false} FoldOverrides(maps: seq<Value>, path: seq<string>)
    requires PairwiseCompatible(maps)
    ensures Lookup(MergeAll(maps), path) == OverrideAll(maps, path)
    decreases |maps|
  {
    if maps != [] {
      var init, last := maps[..|maps| - 1], maps[|maps| - 1];
      FoldOverrides(init, path);
      FoldCompatible(init, last);
      CompatibleOverrides(MergeAll(init), last);
      MergeOverrides(MergeAll(init), last, path);
    }
  }

  // ----- associativity

  /** Merging x under z adds nothing to z. */
  predicate Absorbed(x: Value, z: Value)
    decreases z
  {
    x.Table? && z.Table? ==>
      forall k :: k in x.entries ==> k in z.entries && Absorbed(x.entries[k], z.entries[k])
  }

  lemma {:induction false} AbsorbedIff(x: Value, z: Value)
    ensures Merge(x, z) == z <==> Absorbed(x, z)
    decreases z
  {
    if x.Table? && z.Table? {
      forall k | k in x.entries && k in z.entries
        ensures Merge(x.entries[k], z.entries[k]) == z.entries[k] <==> Absorbed(x.entries[k], z.entries[k])
      {
        AbsorbedIff(x.entries[k], z.entries[k]);
      }
      var m := Merge(x, z).entries;
      if Absorbed(x, z) {
        assert m.Keys == z.entries.Keys;
        assert m == z.entries;
      } else {
        var k :| k in x.entries && !(k in z.entries && Absorbed(x.entries[k], z.entries[k]));
        assert k in m && (k !in z.entries || m[k] != z.entries[k]);
      }
    }
  }

  /** No scalar stands between two nested maps, unless the later map covers the earlier. */
  predicate Associates(x: Value, y: Value, z: Value)
    decreases z
  {
    x.Table? && z.Table? ==>
      if y.Table?
      then forall k :: k in x.entries && k in y.entries && k in z.entries ==>
             Associates(x.entries[k], y.entries[k], z.entries[k])
      else Absorbed(x, z)
  }

  lemma TableKeys(x: Value, y: Value, z: Value)
    requires x.Table? && y.Table? && z.Table?
    ensures Merge(Merge(x, y), z).entries.Keys == Merge(x, Merge(y, z)).entries.Keys
         == x.entries.Keys + y.entries.Keys + z.entries.Keys
  {
  }

  lemma TableEntry(x: Value, y: Value, z: Value, k: string)
    requires x.Table? && y.Table? && z.Table? && k in x.entries.Keys + y.entries.Keys + z.entries.Keys
    ensures k in Merge(Merge(x, y), z).entries && k in Merge(x, Merge(y, z)).entries
    ensures k in x.entries && k in y.entries && k in z.entries ==>
              && Merge(Merge(x, y), z).entries[k] == Merge(Merge(x.entries[k], y.entries[k]), z.entries[k])
              && Merge(x, Merge(y, z)).entries[k] == Merge(x.entries[k], Merge(y.entries[k], z.entries[k]))
    ensures !(k in x.entries && k in y.entries && k in z.entries) ==>
              Merge(Merge(x, y), z).entries[k] == Merge(x, Merge(y, z)).entries[k]
  {
  }

  /** The merge is associative exactly when no scalar hides an earlier map from a later
      one that does not cover it. */
  lemma {:induction false} AssociativeIff(x: Value, y: Value, z: Value)
    ensures Merge(Merge(x, y), z) == Merge(x, Merge(y, z)) <==> Associates(x, y, z)
    decreases z
  {
    if x.Table? && z.Table? && y.Table? {
      AssociativeTables(x, y, z);
    } else if x.Table? && z.Table? {
      AbsorbedIff(x, z);
    }
  }

  lemma {:induction false} AssociativeTables(x: Value, y: Value, z: Value)
    requires x.Table? && y.Table? && z.Table?
    ensures Merge(Merge(x, y), z) == Merge(x, Merge(y, z)) <==> Associates(x, y, z)
    decreases z, 0
  {
    var l, r := Merge(Merge(x, y), z).entries, Merge(x, Merge(y, z)).entries;
    TableKeys(x, y, z);
    forall k | k in l.Keys
      ensures l[k] == r[k] <==>
        (k in x.entries && k in y.entries && k in z.entries ==> Associates(x.entries[k], y.entries[k], z.entries[k]))
    {
      TableEntry(x, y, z, k);
      if k in x.entries && k in y.entries && k in z.entries {
        AssociativeIff(x.entries[k], y.entries[k], z.entries[k]);
      }
    }
    if Associates(x, y, z) {
      assert l == r;
    } else {
      var k :| && k in x.entries && k in y.entries && k in z.entries
               && !Associates(x.entries[k], y.entries[k], z.entries[k]);
      assert k in l.Keys;
    }
  }

  /** The witness that it is not associative in general. */
  lemma ScalarBetweenMaps()
    ensures var x := Table(map["log" := Table(map["level" := Scalar(1)])]);
            var y := Table(map["log" := Scalar(2)]);
            var z := Table(map["log" := EMPTY_TABLE]);
            Merge(Merge(x, y), z) != Merge(x, Merge(y, z))
  {
    var x := Table(map["log" := Table(map["level" := Scalar(1)])]);
    var y := Table(map["log" := Scalar(2)]);
    var z := Table(map["log" := EMPTY_TABLE]);
    assert "level" in x.entries["log"].entries && "level" !in z.entries["log"].entries;
    assert !Absorbed(x.entries["log"], z.entries["log"]);
    assert !Associates(x.entries["log"], y.entries["log"], z.entries["log"]);
    AssociativeIff(x, y, z);
  }
}
