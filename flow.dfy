/**
 * The runtime's dataflow state: a vector of nodes, a parallel vector of
 * output relations, an append-only change log and a dirty index set.
 * Relations are abstract: `R` is a relation, `C` a relation's change set,
 * and the relation operations the flow calls are the fields of `Ops`.
 */
module Flows {
  import opened Wrappers

  type Id = string

  /** The only view kind the flow creates. */
  datatype View = Table

  datatype Node = Node(id: Id, view: View, upstream: seq<nat>, downstream: seq<nat>)

  /** One `compiler_schema()` entry: a view id, its unique fields and its other fields. */
  datatype SchemaEntry = SchemaEntry(id: Id, uniqueFields: seq<string>, otherFields: seq<string>)

  /** `Relation::with_fields`, `Relation::change` and `Relation::as_changes`. */
  datatype Ops<!R, !C> = Ops(withFields: seq<string> -> R, change: (R, C) -> R, asChanges: R -> C)

  /** The smallest index whose node has id `id`. */
  function FirstIndex(nodes: seq<Node>, id: Id): (r: Option<nat>)
    ensures r.Some? ==> r.value < |nodes| && nodes[r.value].id == id
                        && forall j :: 0 <= j < r.value ==> nodes[j].id != id
    ensures r.None? <==> forall j :: 0 <= j < |nodes| ==> nodes[j].id != id
    decreases |nodes|
  {
    if nodes == [] then None
    else if nodes[0].id == id then Some(0)
    else match FirstIndex(nodes[1..], id)
      case None => None
      case Some(i) => Some(i + 1)
  }

  /** Every id of `input` names a node. */
  predicate AllKnown<C>(nodes: seq<Node>, input: seq<(Id, C)>) {
    forall k :: 0 <= k < |input| ==> FirstIndex(nodes, input[k].0).Some?
  }

  /** The indices `change` marks dirty for `input`. */
  function Touched<C>(nodes: seq<Node>, input: seq<(Id, C)>): set<nat>
    requires AllKnown(nodes, input)
    decreases |input|
  {
    if input == [] then {}
    else Touched(nodes, input[..|input| - 1]) + {FirstIndex(nodes, input[|input| - 1].0).value}
  }

  /** The ids of `input` that name the node at index `x`. */
  predicate Names<C>(nodes: seq<Node>, input: seq<(Id, C)>, x: nat) {
    exists k :: 0 <= k < |input| && FirstIndex(nodes, input[k].0) == Some(x)
  }

  /** An index is touched exactly when some pair of the input names its node. */
  lemma {:induction false} TouchedMembers<C>(nodes: seq<Node>, input: seq<(Id, C)>, x: nat)
    requires AllKnown(nodes, input)
    ensures x in Touched(nodes, input) <==> Names(nodes, input, x)
    decreases |input|
  {
    if input != [] {
      var init := input[..|input| - 1];
      var last := input[|input| - 1];
      TouchedMembers(nodes, init, x);
      assert Names(nodes, input, x) <==> Names(nodes, init, x) || FirstIndex(nodes, last.0) == Some(x) by {
        if Names(nodes, init, x) {
          var k :| 0 <= k < |init| && FirstIndex(nodes, init[k].0) == Some(x);
          assert input[k] == init[k];
        }
        if FirstIndex(nodes, last.0) == Some(x) {
          assert FirstIndex(nodes, input[|input| - 1].0) == Some(x);
        }
        if Names(nodes, input, x) {
          var k :| 0 <= k < |input| && FirstIndex(nodes, input[k].0) == Some(x);
          if k < |init| { assert input[k] == init[k]; } else { assert input[k] == last; }
        }
      }
    }
  }

  /** The outputs once every pair of `input` has been applied, in order, to its node's relation. */
  function ApplyAll<R, C>(ops: Ops<R, C>, outputs: seq<R>, nodes: seq<Node>, input: seq<(Id, C)>): (r: seq<R>)
    requires |outputs| == |nodes| && AllKnown(nodes, input)
    ensures |r| == |outputs|
    decreases |input|
  {
    if input == [] then outputs
    else
      var prev := ApplyAll(ops, outputs, nodes, input[..|input| - 1]);
      var last := input[|input| - 1];
      var ix := FirstIndex(nodes, last.0).value;
      prev[ix := ops.change(prev[ix], last.1)]
  }

  /** A relation whose node no pair of `input` names is left as it was. */
  lemma {:induction false} ApplyAllUntouched<R, C>(ops: Ops<R, C>, outputs: seq<R>, nodes: seq<Node>,
                                                  input: seq<(Id, C)>, j: nat)
    requires |outputs| == |nodes| && AllKnown(nodes, input)
    requires j < |outputs| && j !in Touched(nodes, input)
    ensures ApplyAll(ops, outputs, nodes, input)[j] == outputs[j]
    decreases |input|
  {
    if input != [] {
      ApplyAllUntouched(ops, outputs, nodes, input[..|input| - 1], j);
    }
  }

  /** Two `change` calls in a row act as one call on the concatenated input. */
  lemma {:induction false} ApplyAllAppend<R, C>(ops: Ops<R, C>, outputs: seq<R>, nodes: seq<Node>,
                                               a: seq<(Id, C)>, b: seq<(Id, C)>)
    requires |outputs| == |nodes| && AllKnown(nodes, a) && AllKnown(nodes, b)
    ensures AllKnown(nodes, a + b)
    ensures ApplyAll(ops, outputs, nodes, a + b) == ApplyAll(ops, ApplyAll(ops, outputs, nodes, a), nodes, b)
    decreases |b|
  {
    assert AllKnown(nodes, a + b) by {
      forall k | 0 <= k < |a + b| ensures FirstIndex(nodes, (a + b)[k].0).Some? {
        if k < |a| { assert (a + b)[k] == a[k]; } else { assert (a + b)[k] == b[k - |a|]; }
      }
    }
    if b != [] {
      var b0 := b[..|b| - 1];
      assert AllKnown(nodes, b0) by {
        forall k | 0 <= k < |b0| ensures FirstIndex(nodes, b0[k].0).Some? { assert b0[k] == b[k]; }
      }
      ApplyAllAppend(ops, outputs, nodes, a, b0);
      assert (a + b)[..|a + b| - 1] == a + b0;
      assert (a + b)[|a + b| - 1] == b[|b| - 1];
    } else {
      assert a + b == a;
    }
  }

  /** Extending the input by one pair changes the named relation alone and dirties its index. */
  lemma ApplyAllStep<R, C>(ops: Ops<R, C>, outputs: seq<R>, nodes: seq<Node>, input: seq<(Id, C)>, k: nat)
    requires |outputs| == |nodes| && AllKnown(nodes, input) && k < |input|
    ensures AllKnown(nodes, input[..k]) && AllKnown(nodes, input[..k + 1])
    ensures input[..k + 1] == input[..k] + [input[k]]
    ensures var ix := FirstIndex(nodes, input[k].0).value;
      var prev := ApplyAll(ops, outputs, nodes, input[..k]);
      ApplyAll(ops, outputs, nodes, input[..k + 1]) == prev[ix := ops.change(prev[ix], input[k].1)]
      && Touched(nodes, input[..k + 1]) == Touched(nodes, input[..k]) + {ix}
  {
    var pre := input[..k + 1];
    assert AllKnown(nodes, input[..k]) by {
      forall m | 0 <= m < k ensures FirstIndex(nodes, input[..k][m].0).Some? { assert input[..k][m] == input[m]; }
    }
    assert AllKnown(nodes, pre) by {
      forall m | 0 <= m < |pre| ensures FirstIndex(nodes, pre[m].0).Some? { assert pre[m] == input[m]; }
    }
    assert pre[..k] == input[..k];
    assert pre[k] == input[k];
  }

  /** The nodes `Flow::new` builds: one empty-edged table per schema entry. */
  function NodesOf(schema: seq<SchemaEntry>): seq<Node> {
    seq(|schema|, i requires 0 <= i < |schema| => Node(schema[i].id, Table, [], []))
  }

  /** A freshly built flow finds exactly the ids its schema lists. */
  lemma NewFlowFinds(schema: seq<SchemaEntry>, id: Id)
    ensures FirstIndex(NodesOf(schema), id).Some? <==> exists i :: 0 <= i < |schema| && schema[i].id == id
    ensures FirstIndex(NodesOf(schema), id).Some? ==> schema[FirstIndex(NodesOf(schema), id).value].id == id
  {
    var nodes := NodesOf(schema);
    if exists i :: 0 <= i < |schema| && schema[i].id == id {
      var i :| 0 <= i < |schema| && schema[i].id == id;
      assert nodes[i].id == id;
    }
  }

  class Flow<R, C> {
    const ops: Ops<R, C>
    var nodes: seq<Node>
    var outputs: seq<R>
    var changes: seq<(Id, C)>
    var dirty: set<nat>

    /** Every node has its output relation, and only nodes are dirty. */
    ghost predicate Valid()
      reads this
    {
      |nodes| == |outputs| && forall ix :: ix in dirty ==> ix < |nodes|
    }

    /** `Flow::new`: one table node and one relation per schema entry, unique fields first. */
    constructor (schema: seq<SchemaEntry>, ops: Ops<R, C>)
      ensures Valid()
      ensures this.ops == ops
      ensures nodes == NodesOf(schema)
      ensures |outputs| == |schema|
      ensures forall i :: 0 <= i < |schema| ==>
                outputs[i] == ops.withFields(schema[i].uniqueFields + schema[i].otherFields)
      ensures changes == [] && dirty == {}
    {
      this.ops := ops;
      nodes := [];
      outputs := [];
      changes := [];
      dirty := {};
      new;
      var i := 0;
      while i < |schema|
        invariant 0 <= i <= |schema|
        invariant nodes == NodesOf(schema[..i])
        invariant |outputs| == i
        invariant forall j :: 0 <= j < i ==>
                    outputs[j] == ops.withFields(schema[j].uniqueFields + schema[j].otherFields)
        invariant changes == [] && dirty == {}
      {
        var entry := schema[i];
        var node := Node(entry.id, Table, [], []);
        var fields := entry.uniqueFields + entry.otherFields;
        nodes := nodes + [node];
        outputs := outputs + [ops.withFields(fields)];
        i := i + 1;
      }
      assert schema[..i] == schema;
    }

    /** `get_ix`: the position of the first node with id `id`. */
    method GetIx(id: Id) returns (r: Option<nat>)
      ensures r == FirstIndex(nodes, id)
    {
      var ix := 0;
      while ix < |nodes|
        invariant 0 <= ix <= |nodes|
        invariant forall j :: 0 <= j < ix ==> nodes[j].id != id
      {
        if nodes[ix].id == id {
          return Some(ix);
        }
        ix := ix + 1;
      }
      return None;
    }

    /**
     * `change`: applies each pair to its node's relation, marks the node
     * dirty and logs the pair. An unknown id is a panic, which callers
     * must rule out.
     */
    method Change(input: seq<(Id, C)>)
      requires Valid()
      requires AllKnown(nodes, input)
      modifies this
      ensures Valid()
      ensures nodes == old(nodes)
      ensures outputs == ApplyAll(ops, old(outputs), nodes, input)
      ensures changes == old(changes) + input
      ensures dirty == old(dirty) + Touched(nodes, input)
    {
      var k := 0;
      while k < |input|
        invariant 0 <= k <= |input|
        invariant nodes == old(nodes)
        invariant outputs == ApplyAll(ops, old(outputs), nodes, input[..k])
        invariant changes == old(changes) + input[..k]
        invariant dirty == old(dirty) + Touched(nodes, input[..k])
        invariant Valid()
      {
        var (id, delta) := input[k];
        ApplyAllStep(ops, old(outputs), nodes, input, k);
        var found := GetIx(id);
        var ix := found.value;
        match nodes[ix].view {
          case Table =>
            outputs, dirty, changes := outputs[ix := ops.change(outputs[ix], delta)], dirty + {ix}, changes + [(id, delta)];
        }
        k := k + 1;
      }
      assert input[..k] == input;
    }

    /** `as_changes`: every node's id with its relation's current contents, in node order. */
    method AsChanges() returns (r: seq<(Id, C)>)
      requires Valid()
      ensures |r| == |nodes|
      ensures forall ix :: 0 <= ix < |nodes| ==> r[ix] == (nodes[ix].id, ops.asChanges(outputs[ix]))
    {
      r := [];
      var ix := 0;
      while ix < |nodes|
        invariant 0 <= ix <= |nodes|
        invariant |r| == ix
        invariant forall j :: 0 <= j < ix ==> r[j] == (nodes[j].id, ops.asChanges(outputs[j]))
      {
        r := r + [(nodes[ix].id, ops.asChanges(outputs[ix]))];
        ix := ix + 1;
      }
    }

    /** `take_changes`: hands back the log and leaves it empty; nothing else changes. */
    method TakeChanges() returns (r: seq<(Id, C)>)
      modifies this
      ensures r == old(changes)
      ensures changes == []
      ensures nodes == old(nodes) && outputs == old(outputs) && dirty == old(dirty)
    {
      r := changes;
      changes := [];
    }
  }
}
