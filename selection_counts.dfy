/**
 * What the three `reduce` counts of `addUnionSelection` mean when the ids
 * they compare are distinct: each counts the existing entries plus the
 * new one exactly once, so the union is published exactly when every
 * (source, field) pair has its select.
 */
module SelectionCounts {
  import opened JsValues
  import opened Facts
  import opened Collaborators
  import opened Batches

  /** Some tuple of `ts` has `key` equal to `x`. */
  predicate Mentions(ts: seq<Tuple>, key: Tuple -> Value, x: Value) {
    exists i :: 0 <= i < |ts| && key(ts[i]) == x
  }

  /** No two tuples of `ts` share a `key`. */
  predicate DistinctKeys(ts: seq<Tuple>, key: Tuple -> Value) {
    forall i, j :: 0 <= i < j < |ts| ==> key(ts[i]) != key(ts[j])
  }

  /** Counting the tuples whose key is not `x` skips exactly the one that has it, if any. */
  lemma {:induction false} CountOthers(ts: seq<Tuple>, p: Tuple -> bool, key: Tuple -> Value, x: Value)
    requires forall t :: p(t) == (key(t) != x)
    requires DistinctKeys(ts, key)
    ensures CountIf(ts, p) == |ts| - (if Mentions(ts, key, x) then 1 else 0)
    decreases |ts|
  {
    if ts != [] {
      var init := ts[..|ts| - 1];
      var last := ts[|ts| - 1];
      assert DistinctKeys(init, key) by {
        forall i, j | 0 <= i < j < |init| ensures key(init[i]) != key(init[j]) {
          assert init[i] == ts[i] && init[j] == ts[j];
        }
      }
      CountOthers(init, p, key, x);
      if key(last) == x {
        assert !Mentions(init, key, x) by {
          forall i | 0 <= i < |init| ensures key(init[i]) != x {
            assert init[i] == ts[i];
          }
        }
        assert key(ts[|ts| - 1]) == x;
      } else {
        assert Mentions(ts, key, x) <==> Mentions(init, key, x) by {
          if Mentions(ts, key, x) {
            var i :| 0 <= i < |ts| && key(ts[i]) == x;
            assert i < |init| && init[i] == ts[i];
          }
          if Mentions(init, key, x) {
            var i :| 0 <= i < |init| && key(init[i]) == x;
            assert ts[i] == init[i];
          }
        }
      }
    }
  }

  function SourceKey(env: Env): Tuple -> Value {
    t => At(t, env.ix.sourceSource)
  }

  function FieldKey(env: Env): Tuple -> Value {
    t => At(t, env.ix.fieldField)
  }

  /** The (source, field) pair a select reads. */
  function SelectKey(env: Env): Tuple -> Value {
    t => Arr([At(t, env.ix.selectSource), At(t, env.ix.selectViewField)])
  }

  /** `numSources` is the number of the view's sources once the payload's is counted in. */
  lemma SourceCountIsUnionSize(store: Store, env: Env, info: Payload)
    requires DistinctKeys(ListAt(store.viewToSources, Get(info, "viewId")), SourceKey(env))
    ensures var sources := ListAt(store.viewToSources, Get(info, "viewId"));
      SourceCount(store, env, info)
      == |sources| + (if Mentions(sources, SourceKey(env), Get(info, "sourceId")) then 0 else 1)
  {
    CountOthers(ListAt(store.viewToSources, Get(info, "viewId")), NotSource(env, Get(info, "sourceId")),
                SourceKey(env), Get(info, "sourceId"));
  }

  /** `numFields` is the number of the view's fields once the payload's is counted in. */
  lemma FieldCountIsUnionSize(store: Store, env: Env, info: Payload)
    requires DistinctKeys(ListAt(store.viewToFields, Get(info, "viewId")), FieldKey(env))
    ensures var fields := ListAt(store.viewToFields, Get(info, "viewId"));
      FieldCount(store, env, info)
      == |fields| + (if Mentions(fields, FieldKey(env), Get(info, "fieldId")) then 0 else 1)
  {
    CountOthers(ListAt(store.viewToFields, Get(info, "viewId")), NotField(env, Get(info, "fieldId")),
                FieldKey(env), Get(info, "fieldId"));
  }

  /** `numSelects` is the number of distinct (source, field) selects once the new one is counted in. */
  lemma SelectCountIsUnionSize(store: Store, env: Env, info: Payload)
    requires DistinctKeys(ListAt(store.viewToSelects, Get(info, "viewId")), SelectKey(env))
    ensures var selects := ListAt(store.viewToSelects, Get(info, "viewId"));
      var pair := Arr([Get(info, "sourceId"), Get(info, "fieldId")]);
      SelectCount(store, env, info)
      == |selects| + (if Mentions(selects, SelectKey(env), pair) then 0 else 1)
  {
    var pair := Arr([Get(info, "sourceId"), Get(info, "fieldId")]);
    var p := NotSelect(env, Get(info, "sourceId"), Get(info, "fieldId"));
    assert forall t :: p(t) == (SelectKey(env)(t) != pair) by {
      forall t ensures p(t) == (SelectKey(env)(t) != pair) {
        var k := [At(t, env.ix.selectSource), At(t, env.ix.selectViewField)];
        assert SelectKey(env)(t) == Arr(k);
        assert k == [Get(info, "sourceId"), Get(info, "fieldId")] <==>
               (k[0] == Get(info, "sourceId") && k[1] == Get(info, "fieldId"));
      }
    }
    CountOthers(ListAt(store.viewToSelects, Get(info, "viewId")), p, SelectKey(env), pair);
  }

  /**
   * With distinct ids the product test compares sizes: the number of
   * selects, the new one included, against the number of sources times
   * the number of fields, the payload's included in each.
   */
  lemma PublishedIffComplete(store: Store, env: Env, info: Payload)
    requires DistinctKeys(ListAt(store.viewToSources, Get(info, "viewId")), SourceKey(env))
    requires DistinctKeys(ListAt(store.viewToFields, Get(info, "viewId")), FieldKey(env))
    requires DistinctKeys(ListAt(store.viewToSelects, Get(info, "viewId")), SelectKey(env))
    ensures var v := Get(info, "viewId");
      var sources := ListAt(store.viewToSources, v);
      var fields := ListAt(store.viewToFields, v);
      var selects := ListAt(store.viewToSelects, v);
      var newSource := if Mentions(sources, SourceKey(env), Get(info, "sourceId")) then 0 else 1;
      var newField := if Mentions(fields, FieldKey(env), Get(info, "fieldId")) then 0 else 1;
      var newSelect := if Mentions(selects, SelectKey(env), Arr([Get(info, "sourceId"), Get(info, "fieldId")])) then 0 else 1;
      UnionPublishable(store, env, info)
      <==> |selects| + newSelect == (|fields| + newField) * (|sources| + newSource)
  {
    var v := Get(info, "viewId");
    var sources := ListAt(store.viewToSources, v);
    var fields := ListAt(store.viewToFields, v);
    var selects := ListAt(store.viewToSelects, v);
    SourceCountIsUnionSize(store, env, info);
    FieldCountIsUnionSize(store, env, info);
    SelectCountIsUnionSize(store, env, info);
    var nS: int := |sources| + (if Mentions(sources, SourceKey(env), Get(info, "sourceId")) then 0 else 1);
    var nF: int := |fields| + (if Mentions(fields, FieldKey(env), Get(info, "fieldId")) then 0 else 1);
    var nP: int := |selects| + (if Mentions(selects, SelectKey(env), Arr([Get(info, "sourceId"), Get(info, "fieldId")])) then 0 else 1);
    var cS: int, cF: int := SourceCount(store, env, info), FieldCount(store, env, info);
    assert cS == nS && cF == nF && SelectCount(store, env, info) == nP;
    assert cF * cS == nF * nS;
  }

  // ---------------------------------------------------------------------
  // From the size test to coverage
  // ---------------------------------------------------------------------

  /** The keys of the tuples of `ts`. */
  function KeySet(ts: seq<Tuple>, key: Tuple -> Value): set<Value> {
    set i | 0 <= i < |ts| :: key(ts[i])
  }

  /** Distinct keys: the key set is as large as the list. */
  /** The keys of a list are those of all but its last tuple, plus the last one's. */
  lemma KeySetSnoc(ts: seq<Tuple>, key: Tuple -> Value)
    requires ts != []
    ensures KeySet(ts, key) == KeySet(ts[..|ts| - 1], key) + {key(ts[|ts| - 1])}
  {
    var init := ts[..|ts| - 1];
    forall x | x in KeySet(ts, key) ensures x in KeySet(init, key) + {key(ts[|ts| - 1])} {
      var i :| 0 <= i < |ts| && key(ts[i]) == x;
      if i < |init| { assert init[i] == ts[i]; }
    }
    forall x | x in KeySet(init, key) ensures x in KeySet(ts, key) {
      var i :| 0 <= i < |init| && key(init[i]) == x;
      assert ts[i] == init[i];
    }
  }

  lemma {:induction false} KeySetSize(ts: seq<Tuple>, key: Tuple -> Value)
    requires DistinctKeys(ts, key)
    ensures |KeySet(ts, key)| == |ts|
    decreases |ts|
  {
    if ts != [] {
      var init := ts[..|ts| - 1];
      var last := key(ts[|ts| - 1]);
      assert DistinctKeys(init, key) by {
        forall i, j | 0 <= i < j < |init| ensures key(init[i]) != key(init[j]) {
          assert init[i] == ts[i] && init[j] == ts[j];
        }
      }
      KeySetSize(init, key);
      KeySetSnoc(ts, key);
      assert last !in KeySet(init, key) by {
        forall i | 0 <= i < |init| ensures key(init[i]) != last {
          assert init[i] == ts[i];
        }
      }
    }
  }

  /** The pairs `[s, f]` with `s` from `a` and `f` from `b`, as a select keys them. */
  function Pairs(a: set<Value>, b: set<Value>): set<Value> {
    set s, f | s in a && f in b :: Arr([s, f])
  }

  /** The pairs whose source is `s`. */
  function Row(s: Value, b: set<Value>): set<Value> {
    set f | f in b :: Arr([s, f])
  }

  lemma PairParts(s: Value, f: Value, s': Value, f': Value)
    requires Arr([s, f]) == Arr([s', f'])
    ensures s == s' && f == f'
  {
    assert [s, f][0] == [s', f'][0] && [s, f][1] == [s', f'][1];
  }

  lemma {:induction false} RowSize(s: Value, b: set<Value>)
    ensures |Row(s, b)| == |b|
    decreases |b|
  {
    if b != {} {
      var f :| f in b;
      var rest := b - {f};
      RowSize(s, rest);
      assert Row(s, b) == Row(s, rest) + {Arr([s, f])};
      assert Arr([s, f]) !in Row(s, rest) by {
        forall g | g in rest ensures Arr([s, g]) != Arr([s, f]) {
          if Arr([s, g]) == Arr([s, f]) { PairParts(s, g, s, f); }
        }
      }
    }
  }

  /** The pairs of `a` split into those of `a - {s}` and the row of `s`, which share none. */
  lemma PairsSplit(s: Value, a: set<Value>, b: set<Value>)
    requires s in a
    ensures Pairs(a, b) == Pairs(a - {s}, b) + Row(s, b)
    ensures Pairs(a - {s}, b) * Row(s, b) == {}
  {
  }

  lemma SuccTimes(n: int, m: int)
    ensures (n + 1) * m == n * m + m
  {
  }

  /** There are `|a| * |b|` pairs. */
  lemma {:induction false} PairsSize(a: set<Value>, b: set<Value>)
    ensures |Pairs(a, b)| == |a| * |b|
    decreases |a|
  {
    if a != {} {
      var s :| s in a;
      var rest := a - {s};
      PairsSize(rest, b);
      RowSize(s, b);
      PairsSplit(s, a, b);
      var nR, nB := |rest|, |b|;
      assert |a| == nR + 1;
      SuccTimes(nR, nB);
    }
  }

  /** A subset is as large as its superset exactly when it is all of it. */
  lemma SubsetSize(p: set<Value>, q: set<Value>)
    requires p <= q
    ensures |p| == |q| <==> q <= p
  {
    assert q == p + (q - p) && p * (q - p) == {};
    if |p| == |q| {
      assert |q - p| == 0;
    }
  }

  /** The view's source ids, the payload's included. */
  function SourceIds(store: Store, env: Env, info: Payload): set<Value> {
    KeySet(ListAt(store.viewToSources, Get(info, "viewId")), SourceKey(env)) + {Get(info, "sourceId")}
  }

  /** The view's field ids, the payload's included. */
  function FieldIds(store: Store, env: Env, info: Payload): set<Value> {
    KeySet(ListAt(store.viewToFields, Get(info, "viewId")), FieldKey(env)) + {Get(info, "fieldId")}
  }

  /** The (source, field) pairs the view's selects read, the new select's included. */
  function SelectPairs(store: Store, env: Env, info: Payload): set<Value> {
    KeySet(ListAt(store.viewToSelects, Get(info, "viewId")), SelectKey(env))
      + {Arr([Get(info, "sourceId"), Get(info, "fieldId")])}
  }

  /** Every select reads one of the view's sources and one of its fields. */
  predicate SelectsWithinView(store: Store, env: Env, info: Payload) {
    SelectPairs(store, env, info) <= Pairs(SourceIds(store, env, info), FieldIds(store, env, info))
  }

  /** Adding `x` to the keys of `ts` adds one exactly when no tuple already has it. */
  lemma WithKeySize(ts: seq<Tuple>, key: Tuple -> Value, x: Value)
    requires DistinctKeys(ts, key)
    ensures |KeySet(ts, key) + {x}| == |ts| + (if Mentions(ts, key, x) then 0 else 1)
  {
    KeySetSize(ts, key);
    if Mentions(ts, key, x) {
      var i :| 0 <= i < |ts| && key(ts[i]) == x;
      assert x in KeySet(ts, key);
    } else {
      assert x !in KeySet(ts, key);
    }
  }

  /** With distinct ids the product test compares the sizes of the pair, source and field sets. */
  lemma CountsAreSizes(store: Store, env: Env, info: Payload)
    requires DistinctKeys(ListAt(store.viewToSources, Get(info, "viewId")), SourceKey(env))
    requires DistinctKeys(ListAt(store.viewToFields, Get(info, "viewId")), FieldKey(env))
    requires DistinctKeys(ListAt(store.viewToSelects, Get(info, "viewId")), SelectKey(env))
    ensures UnionPublishable(store, env, info)
            <==> |SelectPairs(store, env, info)| == |FieldIds(store, env, info)| * |SourceIds(store, env, info)|
  {
    var v := Get(info, "viewId");
    var sources := ListAt(store.viewToSources, v);
    var fields := ListAt(store.viewToFields, v);
    var selects := ListAt(store.viewToSelects, v);
    var pair := Arr([Get(info, "sourceId"), Get(info, "fieldId")]);
    PublishedIffComplete(store, env, info);
    WithKeySize(sources, SourceKey(env), Get(info, "sourceId"));
    WithKeySize(fields, FieldKey(env), Get(info, "fieldId"));
    WithKeySize(selects, SelectKey(env), pair);
    var nS := |sources| + (if Mentions(sources, SourceKey(env), Get(info, "sourceId")) then 0 else 1);
    var nF := |fields| + (if Mentions(fields, FieldKey(env), Get(info, "fieldId")) then 0 else 1);
    var nP := |selects| + (if Mentions(selects, SelectKey(env), pair) then 0 else 1);
    assert |SourceIds(store, env, info)| == nS;
    assert |FieldIds(store, env, info)| == nF;
    assert |SelectPairs(store, env, info)| == nP;
    assert UnionPublishable(store, env, info) <==> nP == nF * nS;
  }

  /**
   * With distinct ids, and every select reading a source and a field of
   * the view, the union is published exactly when every (source, field)
   * pair of the view, the payload's included, has its select.
   */
  lemma PublishedIffCovered(store: Store, env: Env, info: Payload)
    requires DistinctKeys(ListAt(store.viewToSources, Get(info, "viewId")), SourceKey(env))
    requires DistinctKeys(ListAt(store.viewToFields, Get(info, "viewId")), FieldKey(env))
    requires DistinctKeys(ListAt(store.viewToSelects, Get(info, "viewId")), SelectKey(env))
    requires SelectsWithinView(store, env, info)
    ensures UnionPublishable(store, env, info)
            <==> Pairs(SourceIds(store, env, info), FieldIds(store, env, info)) <= SelectPairs(store, env, info)
  {
    var sources := SourceIds(store, env, info);
    var fields := FieldIds(store, env, info);
    CountsAreSizes(store, env, info);
    PairsSize(sources, fields);
    assert |sources| * |fields| == |fields| * |sources|;
    SubsetSize(SelectPairs(store, env, info), Pairs(sources, fields));
  }
}
