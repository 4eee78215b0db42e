/** `update_dict`: merges a nested mapping `u` into a nested mapping `d`, in place. A
    mapping value of `u` is merged into `d`'s own sub-mapping (a fresh empty one when the
    key is absent); any other value of `u` replaces what `d` held. */
module DictFuncs {
  import opened Wrappers

  /** A dictionary value: a nested mapping, or anything else (a leaf). */
  datatype Value = Leaf(atom: string) | Mapping(entries: map<string, Value>)

  /** `d.get(k)`. */
  function Get(d: map<string, Value>, k: string): Option<Value> {
    if k in d then Some(d[k]) else None
  }

  /** What `update_dict(d.get(k, {}), m)` merges into: the sub-mapping, an empty one when the
      key is absent, or None when `d` holds a leaf there. */
  function SubMapping(o: Option<Value>): Option<map<string, Value>> {
    match o
    case None => Some(map[])
    case Some(Mapping(dm)) => Some(dm)
    case Some(Leaf(_)) => None
  }

  /** Merging `u` into `d` ends normally: wherever `u` holds a non-empty mapping and `d` a leaf,
      the source recurses into the leaf and fails on the mapping's first entry. An empty
      mapping over a leaf runs no statement and leaves the leaf. */
  predicate Mergeable(d: map<string, Value>, u: map<string, Value>)
    decreases Mapping(u), 0
  {
    forall k :: k in u ==> EntryMergeable(Get(d, k), u[k])
  }

  predicate EntryMergeable(o: Option<Value>, v: Value)
    decreases v, 1
  {
    match v
    case Leaf(_) => true
    case Mapping(m) =>
      match SubMapping(o)
      case None => m == map[]
      case Some(dm) => Mergeable(dm, m)
  }

  /** The exception the recursion into a leaf raises at an entry `v` of the mapping: a
      mapping `v` calls `get` on the leaf (AttributeError), any other `v` assigns an item of
      it (TypeError). */
  function LeafError(v: Value): (e: PyError)
    ensures e == AttributeError <==> v.Mapping?
    ensures e == TypeError <==> v.Leaf?
  {
    if v.Mapping? then AttributeError else TypeError
  }

  /** Merging `u` into `d` can end with the exception `e`: some non-empty mapping of `u`, at
      any depth, meets a leaf of `d`, and the entry of that mapping read first raises `e`.
      Which offending key and which entry come first is Python's insertion order. */
  predicate FailsWith(d: map<string, Value>, u: map<string, Value>, e: PyError)
    decreases Mapping(u), 0
  {
    exists k :: k in u && EntryFailsWith(Get(d, k), u[k], e)
  }

  predicate EntryFailsWith(o: Option<Value>, v: Value, e: PyError)
    decreases v, 1
  {
    match v
    case Leaf(_) => false
    case Mapping(m) =>
      match SubMapping(o)
      case None => exists k :: k in m && e == LeafError(m[k])
      case Some(dm) => FailsWith(dm, m, e)
  }

  /** A merge fails exactly when it can fail with an AttributeError or a TypeError, and it can
      fail with no other exception. */
  lemma {:induction false} FailureKinds(d: map<string, Value>, u: map<string, Value>)
    decreases Mapping(u)
    ensures !Mergeable(d, u) <==> FailsWith(d, u, AttributeError) || FailsWith(d, u, TypeError)
    ensures forall e :: FailsWith(d, u, e) ==> e == AttributeError || e == TypeError
  {
    forall k | k in u && u[k].Mapping? && SubMapping(Get(d, k)).Some?
      ensures !Mergeable(SubMapping(Get(d, k)).value, u[k].entries) <==>
        (FailsWith(SubMapping(Get(d, k)).value, u[k].entries, AttributeError)
         || FailsWith(SubMapping(Get(d, k)).value, u[k].entries, TypeError))
      ensures forall e :: FailsWith(SubMapping(Get(d, k)).value, u[k].entries, e) ==> e == AttributeError || e == TypeError
    {
      FailureKinds(SubMapping(Get(d, k)).value, u[k].entries);
    }
    forall k | k in u && u[k].Mapping? && SubMapping(Get(d, k)).None? && u[k].entries != map[]
      ensures EntryFailsWith(Get(d, k), u[k], AttributeError) || EntryFailsWith(Get(d, k), u[k], TypeError)
    {
      var j :| j in u[k].entries;
      assert LeafError(u[k].entries[j]) == AttributeError || LeafError(u[k].entries[j]) == TypeError;
    }
    forall e | FailsWith(d, u, e)
      ensures e == AttributeError || e == TypeError
    {
      var k :| k in u && EntryFailsWith(Get(d, k), u[k], e);
      if SubMapping(Get(d, k)).Some? {
        assert FailsWith(SubMapping(Get(d, k)).value, u[k].entries, e);
      }
    }
  }

  /** A nested mapping over a leaf: Python's `"x".get("b", {})` raises an AttributeError,
      and nothing raises a TypeError. */
  lemma NestedOverLeaf()
    ensures var d, u := map["a" := Leaf("x")], map["a" := Mapping(map["b" := Mapping(map[])])];
      && FailsWith(d, u, AttributeError) && !FailsWith(d, u, TypeError)
  {
    var d, u := map["a" := Leaf("x")], map["a" := Mapping(map["b" := Mapping(map[])])];
    var m := u["a"].entries;
    assert "b" in m && LeafError(m["b"]) == AttributeError;
    assert EntryFailsWith(Get(d, "a"), u["a"], AttributeError);
    assert forall k :: k in u ==> k == "a";
    assert forall k :: k in m ==> k == "b";
  }

  /** A leaf over a leaf: Python's `"x"["b"] = "y"` raises a TypeError, and nothing raises an
      AttributeError. */
  lemma LeafOverLeaf()
    ensures var d, u := map["a" := Leaf("x")], map["a" := Mapping(map["b" := Leaf("y")])];
      && FailsWith(d, u, TypeError) && !FailsWith(d, u, AttributeError)
  {
    var d, u := map["a" := Leaf("x")], map["a" := Mapping(map["b" := Leaf("y")])];
    var m := u["a"].entries;
    assert "b" in m && LeafError(m["b"]) == TypeError;
    assert EntryFailsWith(Get(d, "a"), u["a"], TypeError);
    assert forall k :: k in u ==> k == "a";
    assert forall k :: k in m ==> k == "b";
  }

  /** The mapping `d` holds after `update_dict(d, u)` returns. */
  function Merged(d: map<string, Value>, u: map<string, Value>): map<string, Value>
    requires Mergeable(d, u)
    decreases Mapping(u), 0
  {
    map k | k in d.Keys + u.Keys :: if k in u then MergedEntry(Get(d, k), u[k]) else d[k]
  }

  /** The value stored at a key of `u` whose previous value (if any) was `o`. */
  function MergedEntry(o: Option<Value>, v: Value): Value
    requires EntryMergeable(o, v)
    decreases v, 1
  {
    match v
    case Leaf(_) => v
    case Mapping(m) =>
      match SubMapping(o)
      case None => o.value
      case Some(dm) => Mapping(Merged(dm, m))
  }

  /** A dictionary object the caller holds a reference to. */
  class Dict {
    var entries: map<string, Value>

    constructor (entries: map<string, Value>)
      ensures this.entries == entries
    {
      this.entries := entries;
    }
  }

  /** `update_dict(d, u)`: writes every key of `u` into `d`, recursing into sub-mappings, and
      returns `d` itself. An exception ends the call part-way, with `d` partly written. The
      keys are taken in an unspecified order, standing for Python's insertion order. */
  method UpdateDict(d: Dict, u: map<string, Value>) returns (r: Result<Dict, PyError>)
    modifies d
    decreases Mapping(u)
    ensures r.Success? <==> Mergeable(old(d.entries), u)
    ensures r.Success? ==> r.value == d && d.entries == Merged(old(d.entries), u)
    ensures r.Failure? ==> FailsWith(old(d.entries), u, r.error)
  {
    ghost var d0 := d.entries;
    var todo := u.Keys;
    while todo != {}
      invariant todo <= u.Keys
      invariant d.entries.Keys == d0.Keys + (u.Keys - todo)
      invariant forall k :: k in u && k !in todo ==> EntryMergeable(Get(d0, k), u[k])
      invariant forall k :: k in d.entries ==>
        d.entries[k] == if k in u && k !in todo then MergedEntry(Get(d0, k), u[k]) else d0[k]
      decreases todo
    {
      var k :| k in todo;
      assert Get(d.entries, k) == Get(d0, k);
      var v := u[k];
      if v.Mapping? {
        var sub := SubMapping(Get(d.entries, k));
        if sub.None? {
          if v.entries != map[] {
            // The recursion into the leaf stops at the first entry of `v`.
            var first :| first in v.entries;
            var e := LeafError(v.entries[first]);
            assert !Mergeable(d0, u) by { assert !EntryMergeable(Get(d0, k), u[k]); }
            assert EntryFailsWith(Get(d0, k), u[k], e);
            return Failure(e);
          }
        } else {
          var inner := new Dict(sub.value);
          var rr := UpdateDict(inner, v.entries);
          if rr.Failure? {
            assert !Mergeable(d0, u) by { assert !EntryMergeable(Get(d0, k), u[k]); }
            assert EntryFailsWith(Get(d0, k), u[k], rr.error);
            return Failure(rr.error);
          }
          d.entries := d.entries[k := Mapping(inner.entries)];
        }
      } else {
        d.entries := d.entries[k := v];
      }
      todo := todo - {k};
    }
    assert d.entries == Merged(d0, u);
    return Success(d);
  }

  /** Merging into a fresh empty mapping rebuilds `u` exactly: the copy the source makes when
      a mapping of `u` lands on a key `d` does not have. */
  lemma {:induction false} MergeIntoEmpty(u: map<string, Value>)
    decreases Mapping(u)
    ensures Mergeable(map[], u)
    ensures Merged(map[], u) == u
  {
    forall k | k in u && u[k].Mapping?
      ensures Mergeable(map[], u[k].entries) && Merged(map[], u[k].entries) == u[k].entries
    {
      MergeIntoEmpty(u[k].entries);
    }
    forall k | k in u
      ensures EntryMergeable(None, u[k]) && MergedEntry(None, u[k]) == u[k]
    {
    }
  }

  /** Every key of `u` is in the merged mapping at every nesting level; a leaf of `u` is stored
      as it is, and a mapping of `u` becomes a mapping holding `u`'s keys again (or stays an
      existing leaf when it is empty). */
  predicate Covers(r: map<string, Value>, u: map<string, Value>)
    decreases Mapping(u)
  {
    forall k :: k in u ==>
      && k in r
      && (u[k].Leaf? ==> r[k] == u[k])
      && (u[k].Mapping? ==>
            if r[k].Mapping? then Covers(r[k].entries, u[k].entries)
            else u[k].entries == map[])
  }

  lemma {:induction false} MergedCovers(d: map<string, Value>, u: map<string, Value>)
    requires Mergeable(d, u)
    decreases Mapping(u)
    ensures Covers(Merged(d, u), u)
  {
    var r := Merged(d, u);
    forall k | k in u && u[k].Mapping? && SubMapping(Get(d, k)).Some?
      ensures r[k].Mapping? && Covers(r[k].entries, u[k].entries)
    {
      var dm := SubMapping(Get(d, k)).value;
      assert r[k] == MergedEntry(Get(d, k), u[k]) == Mapping(Merged(dm, u[k].entries));
      MergedCovers(dm, u[k].entries);
    }
  }

  /** At every level where both sides hold mappings, the merged keys are the union of `d`'s
      and `u`'s keys, and a key only `d` has keeps its value. */
  predicate KeyUnion(r: map<string, Value>, d: map<string, Value>, u: map<string, Value>)
    decreases Mapping(u)
  {
    && r.Keys == d.Keys + u.Keys
    && (forall k :: k in d && k !in u ==> r[k] == d[k])
    && (forall k :: k in u && u[k].Mapping? && SubMapping(Get(d, k)).Some? ==>
          && r[k].Mapping?
          && KeyUnion(r[k].entries, SubMapping(Get(d, k)).value, u[k].entries))
  }

  lemma {:induction false} MergedKeyUnion(d: map<string, Value>, u: map<string, Value>)
    requires Mergeable(d, u)
    decreases Mapping(u)
    ensures KeyUnion(Merged(d, u), d, u)
  {
    forall k | k in u && u[k].Mapping? && SubMapping(Get(d, k)).Some?
      ensures KeyUnion(Merged(d, u)[k].entries, SubMapping(Get(d, k)).value, u[k].entries)
    {
      MergedKeyUnion(SubMapping(Get(d, k)).value, u[k].entries);
    }
  }

  /** Merging the same `u` a second time changes nothing. */
  lemma {:induction false} MergeIdempotent(d: map<string, Value>, u: map<string, Value>)
    requires Mergeable(d, u)
    decreases Mapping(u)
    ensures Mergeable(Merged(d, u), u)
    ensures Merged(Merged(d, u), u) == Merged(d, u)
  {
    var r := Merged(d, u);
    forall k | k in u
      ensures EntryMergeable(Get(r, k), u[k]) && MergedEntry(Get(r, k), u[k]) == r[k]
    {
      assert r[k] == MergedEntry(Get(d, k), u[k]);
      if u[k].Mapping? {
        var m := u[k].entries;
        if SubMapping(Get(d, k)).Some? {
          var dm := SubMapping(Get(d, k)).value;
          assert r[k] == Mapping(Merged(dm, m));
          MergeIdempotent(dm, m);
        } else {
          assert r[k] == d[k] && r[k].Leaf? && m == map[];
        }
      }
    }
    assert Mergeable(r, u);
    var rr := Merged(r, u);
    assert rr.Keys == r.Keys;
    forall k | k in rr
      ensures rr[k] == r[k]
    {
    }
  }

  /** Merging `d` after it has absorbed `u` back into `u` gives the same mapping: once `d` has
      been updated with `u`, updating `u` with it agrees with it. */
  lemma {:induction false} MergeAbsorbs(d: map<string, Value>, u: map<string, Value>)
    requires Mergeable(d, u)
    decreases Mapping(u)
    ensures Mergeable(u, Merged(d, u))
    ensures Merged(u, Merged(d, u)) == Merged(d, u)
  {
    var r := Merged(d, u);
    forall k | k in r
      ensures EntryMergeable(Get(u, k), r[k]) && MergedEntry(Get(u, k), r[k]) == r[k]
    {
      if k !in u {
        assert r[k] == d[k];
        if r[k].Mapping? {
          MergeIntoEmpty(r[k].entries);
        }
      } else {
        assert r[k] == MergedEntry(Get(d, k), u[k]);
        if u[k].Mapping? {
          var m := u[k].entries;
          if SubMapping(Get(d, k)).Some? {
            var dm := SubMapping(Get(d, k)).value;
            assert r[k] == Mapping(Merged(dm, m));
            MergeAbsorbs(dm, m);
          } else {
            assert r[k] == d[k] && r[k].Leaf?;
          }
        }
      }
    }
    assert Mergeable(u, r);
    var rr := Merged(u, r);
    assert rr.Keys == r.Keys;
    forall k | k in rr
      ensures rr[k] == r[k]
    {
    }
  }
}
