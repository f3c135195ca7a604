/** `CombineMaps` on the heap: Go maps are references, and the result may share nested
    maps with the inputs, so "the inputs are unchanged" is about mutation, not values. */
module CombineMaps {
  import opened ConfigMerge

  datatype Cell = Leaf(code: int) | Ref(node: Node)

  /** A Go map[string]interface{}. `repr` is every map reachable from it. */
  class Node {
    var m: map<string, Cell>
    ghost var repr: set<Node>

    ghost predicate Valid()
      reads this, repr
      decreases repr
    {
      && this in repr
      && forall k :: k in m && m[k].Ref? ==>
           && m[k].node in repr
           && m[k].node.repr <= repr - {this}
           && m[k].node.Valid()
    }

    /** The configuration this map stands for. */
    ghost function View(): (v: Value)
      requires Valid()
      reads this, repr
      ensures v.Table? && v.entries.Keys == m.Keys
      decreases repr
    {
      Table(map k | k in m :: match m[k] case Leaf(c) => Scalar(c) case Ref(n) => n.View())
    }

    constructor ()
      ensures Valid() && m == map[] && repr == {this}
    {
      m, repr := map[], {this};
    }
  }

  // ----- nesting depth, for termination

  ghost function MaxOf(s: set<nat>): (r: nat)
    ensures forall x :: x in s ==> x <= r
  {
    if s == {} then 0
    else var x :| x in s;
         var rest := MaxOf(s - {x});
         assert s == s - {x} + {x};
         if x > rest then x else rest
  }

  ghost function Depth(v: Value): nat
    decreases v
  {
    if v.Scalar? then 0 else 1 + MaxOf(set k | k in v.entries :: Depth(v.entries[k]))
  }

  lemma EntryIsShallower(v: Value, k: string)
    requires v.Table? && k in v.entries
    ensures Depth(v.entries[k]) < Depth(v)
  {
    var depths: set<nat> := set k | k in v.entries :: Depth(v.entries[k]);
    assert Depth(v.entries[k]) in depths;
    assert Depth(v) == 1 + MaxOf(depths);
  }

  /** What a cell stands for. */
  ghost predicate Shows(c: Cell, v: Value)
    reads if c.Ref? then {c.node} + c.node.repr else {}
  {
    match c
    case Leaf(x) => v == Scalar(x)
    case Ref(n) => n.Valid() && n.View() == v
  }

  /** Everything reachable from a cell. */
  ghost function Reach(c: Cell): set<Node>
    reads if c.Ref? then {c.node} else {}
  {
    if c.Ref? then c.node.repr else {}
  }

  lemma CellFacts(n: Node, k: string)
    requires n.Valid() && k in n.m
    ensures Shows(n.m[k], n.View().entries[k]) && Reach(n.m[k]) <= n.repr - {n}
  {
  }

  lemma ViewIs(n: Node, v: Value)
    requires n.Valid() && v.Table? && v.entries.Keys == n.m.Keys
    requires forall k :: k in n.m ==> Shows(n.m[k], v.entries[k])
    ensures n.View() == v
  {
    assert n.View().entries == v.entries;
  }

  /** combined[k] = c */
  method Put(combined: Node, k: string, c: Cell, ghost before: Value, ghost v: Value)
    requires combined.Valid() && before == combined.View() && Shows(c, v) && combined !in Reach(c)
    modifies combined
    ensures combined.Valid() && combined.repr == old(combined.repr) + Reach(c)
    ensures combined.View() == Table(before.entries[k := v])
  {
    forall q | q in combined.m
      ensures Shows(combined.m[q], before.entries[q]) && Reach(combined.m[q]) <= combined.repr - {combined}
    {
      CellFacts(combined, q);
    }
    combined.m := combined.m[k := c];
    combined.repr := combined.repr + Reach(c);
    ViewIs(combined, Table(before.entries[k := v]));
  }

  /** The type switch of the inner loop for a key that is already present. */
  method MergedCell(present: Cell, val: Cell, ghost x: Value, ghost v: Value, ghost d: nat) returns (c: Cell)
    requires Shows(present, x) && Shows(val, v) && Depth(v) < d
    ensures Shows(c, Merge(x, v))
    ensures fresh(Reach(c) - Reach(present) - Reach(val))
    decreases d, 0, 0
  {
    if val.Ref? && present.Ref? {
      var merged := CombineWithin([present.node, val.node], [x, v], d - 1);
      TwoMaps(x, v);
      c := Ref(merged);
    } else {
      c := val;
    }
  }

  /** The body of the inner loop: one key. */
  method MergeEntry(combined: Node, cfg: Node, k: string, ghost d: nat, ghost before: Value, ghost v: Value)
    requires combined.Valid() && cfg.Valid() && combined !in cfg.repr && k in cfg.m
    requires before == combined.View()
    requires v == cfg.View().entries[k] && (k in before.entries ==> Depth(v) < d)
    modifies combined
    ensures combined.Valid()
    ensures combined.View() == Table(before.entries[k := Step(before, v, k)])
    ensures fresh(combined.repr - old(combined.repr) - cfg.repr)
    decreases d, 0, 1
  {
    CellFacts(cfg, k);
    var c := cfg.m[k];
    if k in combined.m {
      CellFacts(combined, k);
      c := MergedCell(combined.m[k], c, before.entries[k], v, d);
    }
    Put(combined, k, c, before, Step(before, v, k));
  }

  /** What the merge stores under one key. */
  ghost function Step(acc: Value, v: Value, k: string): Value
    requires acc.Table?
  {
    if k in acc.entries then Merge(acc.entries[k], v) else v
  }

  lemma MergeAt(acc: Value, y: Value, k: string)
    requires acc.Table? && y.Table?
    ensures k in Merge(acc, y).entries <==> k in acc.entries || k in y.entries
    ensures k in y.entries ==> Merge(acc, y).entries[k] == Step(acc, y.entries[k], k)
    ensures k in acc.entries && k !in y.entries ==> Merge(acc, y).entries[k] == acc.entries[k]
  {
  }

  lemma MergeNothing(acc: Value, v: Value)
    requires acc.Table? && v.Table?
    ensures Merge(acc, Restrict(v, {})) == acc
  {
    assert Merge(acc, Restrict(v, {})).entries == acc.entries;
  }

  /** Adding one more entry to a partial merge. */
  lemma MergeOneMore(acc: Value, v: Value, done: set<string>, k: string)
    requires acc.Table? && v.Table? && k in v.entries && k !in done
    ensures var part := Merge(acc, Restrict(v, done));
            Merge(acc, Restrict(v, done + {k})) == Table(part.entries[k := Step(part, v.entries[k], k)])
  {
    var part, more := Merge(acc, Restrict(v, done)), Merge(acc, Restrict(v, done + {k}));
    var put := part.entries[k := Step(part, v.entries[k], k)];
    forall q ensures (q in more.entries <==> q in put) && (q in put ==> more.entries[q] == put[q]) {
      MergeAt(acc, Restrict(v, done), q);
      MergeAt(acc, Restrict(v, done + {k}), q);
    }
    assert more.entries == put;
  }

  lemma TwoMaps(x: Value, y: Value)
    requires x.Table? && y.Table?
    ensures MergeAll([x, y]) == Merge(x, y)
  {
    assert [x, y][..1] == [x] && [x][..0] == [];
    assert MergeAll([x]) == Merge(EMPTY_TABLE, x);
    assert Merge(EMPTY_TABLE, x).entries == x.entries;
  }

  /** One turn of the inner loop, as progress of the partial merge. */
  method Advance(combined: Node, cfg: Node, k: string,
                 ghost acc: Value, ghost v: Value, ghost done: set<string>, ghost d: nat)
    requires combined.Valid() && cfg.Valid() && combined !in cfg.repr
    requires acc.Table? && v == cfg.View() && combined.View() == Merge(acc, Restrict(v, done))
    requires k in v.entries && k !in done && (acc.entries == map[] || Depth(v) <= d)
    modifies combined
    ensures combined.Valid() && combined.View() == Merge(acc, Restrict(v, done + {k}))
    ensures fresh(combined.repr - old(combined.repr) - cfg.repr)
    decreases d, 0, 2
  {
    EntryIsShallower(v, k);
    MergeAt(acc, Restrict(v, done), k);
    MergeOneMore(acc, v, done, k);
    MergeEntry(combined, cfg, k, d, Merge(acc, Restrict(v, done)), v.entries[k]);
  }

  /** The inner loop: adds the entries of one input, in whatever order the map yields
      them. Neither the input nor anything it shares with the result is written. */
  method MergeInto(combined: Node, cfg: Node, ghost acc: Value, ghost v: Value, ghost d: nat)
    requires combined.Valid() && cfg.Valid() && combined !in cfg.repr
    requires acc == combined.View() && v == cfg.View()
    requires combined.m == map[] || Depth(v) <= d
    modifies combined
    ensures combined.Valid() && combined.View() == Merge(acc, v)
    ensures fresh(combined.repr - old(combined.repr) - cfg.repr)
    decreases d, 1
  {
    var keys := cfg.m.Keys;
    ghost var done: set<string> := {};
    MergeNothing(acc, v);
    while keys != {}
      invariant combined.Valid()
      invariant done + keys == v.entries.Keys && done !! keys
      invariant combined.View() == Merge(acc, Restrict(v, done))
      invariant fresh(combined.repr - old(combined.repr) - cfg.repr)
      decreases keys
    {
      var k :| k in keys;
      Advance(combined, cfg, k, acc, v, done, d);
      done, keys := done + {k}, keys - {k};
    }
    assert Restrict(v, done).entries == v.entries;
  }

  /** The outer loop. `views` names the inputs' contents and `d` bounds the nesting of all
      but the first. */
  method CombineWithin(cfgs: seq<Node>, ghost views: seq<Value>, ghost d: nat) returns (combined: Node)
    requires |views| == |cfgs| && forall i :: 0 <= i < |cfgs| ==> cfgs[i].Valid() && cfgs[i].View() == views[i]
    requires forall i :: 1 <= i < |cfgs| ==> Depth(views[i]) <= d
    ensures fresh(combined) && combined.Valid() && combined.View() == MergeAll(views)
    ensures forall o :: o in combined.repr ==> fresh(o) || exists i :: 0 <= i < |cfgs| && o in cfgs[i].repr
    decreases d, 2
  {
    combined := new Node();
    assert combined.View().entries == map[];
    for i := 0 to |cfgs|
      invariant fresh(combined) && combined.Valid() && combined.View() == MergeAll(views[..i])
      invariant i == 0 ==> combined.m == map[]
      invariant forall o :: o in combined.repr ==> fresh(o) || exists j :: 0 <= j < i && o in cfgs[j].repr
    {
      assert views[..i + 1][..i] == views[..i];
      MergeInto(combined, cfgs[i], MergeAll(views[..i]), views[i], d);
    }
    assert views[..|cfgs|] == views;
  }

  /** CombineMaps: a new map whose content is the left fold of the binary merge, whatever
      order the maps are iterated in. No existing map is written (there is no modifies
      clause), although the result may share nested maps with the inputs. */
  method CombineMaps(cfgs: seq<Node>, ghost views: seq<Value>) returns (combined: Node)
    requires |views| == |cfgs| && forall i :: 0 <= i < |cfgs| ==> cfgs[i].Valid() && cfgs[i].View() == views[i]
    ensures fresh(combined) && combined.Valid() && combined.View() == MergeAll(views)
    ensures forall i :: 0 <= i < |cfgs| ==> cfgs[i].Valid() && cfgs[i].View() == views[i]
  {
    ghost var depths: set<nat> := set i | 0 <= i < |views| :: Depth(views[i]);
    assert forall i :: 0 <= i < |views| ==> Depth(views[i]) in depths;
    combined := CombineWithin(cfgs, views, MaxOf(depths));
  }
}
