/**
 * The dispatch entry point of the query editor as an object whose fields
 * are the editor's local state, with the loops its cases run.
 */
module QueryEditor {
  import opened Wrappers
  import opened JsValues
  import opened Facts
  import opened Collaborators
  import opened Events
  import opened Batches
  import opened DispatchSpec

  /** `list.reduce((memo, t) => p(t) ? memo + 1 : memo, 1)`. */
  method ReduceCount(ts: seq<Tuple>, p: Tuple -> bool) returns (n: nat)
    ensures n == 1 + CountIf(ts, p)
  {
    n := 1;
    var i := 0;
    while i < |ts|
      invariant 0 <= i <= |ts|
      invariant n == 1 + CountIf(ts[..i], p)
    {
      assert ts[..i + 1][..i] == ts[..i];
      if p(ts[i]) {
        n := n + 1;
      }
      i := i + 1;
    }
    assert ts[..|ts|] == ts;
  }

  /** The three counts of `addUnionSelection` and the comparison that decides whether the union is published. */
  method UnionPublishableCheck(store: Store, env: Env, info: Payload) returns (publish: bool)
    ensures publish == UnionPublishable(store, env, info)
  {
    var v := Get(info, "viewId");
    var s := Get(info, "sourceId");
    var f := Get(info, "fieldId");
    var numSources := ReduceCount(ListAt(store.viewToSources, v), NotSource(env, s));
    var numFields := ReduceCount(ListAt(store.viewToFields, v), NotField(env, f));
    var numSelects := ReduceCount(ListAt(store.viewToSelects, v), NotSelect(env, s, f));
    publish := numSelects == numFields as int * numSources;
  }

  /** The `addUnionSelection` case: the select, then the publish decision. */
  method BuildUnionSelection(store: Store, env: Env, info: Payload) returns (b: Built)
    ensures b == UnionSelection(store, env, info)
  {
    var publish := UnionPublishableCheck(store, env, info);
    if !publish {
      b := Built(UnionSelectionBase(env, info), false);
    } else {
      b := BuildUnionPublished(store, env, info);
    }
  }

  /** The synchronizable union: the select, then every fact of the union inserted again. */
  method BuildUnionPublished(store: Store, env: Env, info: Payload) returns (b: Built)
    ensures b == UnionPublished(store, env, info)
  {
    var v := Get(info, "viewId");
    var diffs := env.addViewSelection(v, Get(info, "sourceId"), Get(info, "sourceFieldId"), Get(info, "fieldId"), Undefined);
    diffs := diffs + InsertEach("select", ListAt(store.viewToSelects, v));
    diffs := diffs + InsertEach("source", ListAt(store.viewToSources, v));
    if v !in store.blockFields {
      return Threw;
    }
    diffs := diffs + InsertEach("block field", ListAt(store.blockFields[v], Str("selection")));
    var fields := ListAt(store.viewToFields, v);
    diffs := diffs + InsertEach("field", fields);
    diffs := diffs + DisplayNames(env, fields);
    b := Built(diffs, true);
  }

  /**
   * The `constraints.map(...)` of `updateViewConstraint`: collects each
   * sibling's options and clears `complete` when one is incomplete.
   */
  method ScanSiblings(env: Env, constraints: seq<Tuple>, cid: Value, editedComplete: bool)
    returns (complete: bool, constraintOpts: seq<Option<(Value, ConstraintOpts)>>)
    ensures constraintOpts == Siblings(env, constraints, cid)
    ensures complete == (editedComplete && SiblingsComplete(env, constraintOpts))
  {
    complete := editedComplete;
    ghost var sibs := Siblings(env, constraints, cid);
    SiblingsProperties(env, constraints, cid);
    constraintOpts := [];
    var i := 0;
    while i < |constraints|
      invariant 0 <= i <= |constraints|
      invariant constraintOpts == sibs[..i]
      invariant complete == (editedComplete && SiblingsComplete(env, constraintOpts))
    {
      var id := At(constraints[i], 0);
      if id == cid {
        constraintOpts := constraintOpts + [None];
      } else {
        var siblingOpts := env.getConstraint(id);
        if !env.isConstraintComplete(siblingOpts) {
          complete := false;
        }
        constraintOpts := constraintOpts + [Some((id, siblingOpts))];
      }
      i := i + 1;
    }
    assert constraintOpts == sibs;
  }

  /** The `constraintOpts.reduce(...)` of `updateViewConstraint`: appends every sibling's update batch. */
  method AppendSiblingUpdates(env: Env, diffs: seq<Diff>, constraintOpts: seq<Option<(Value, ConstraintOpts)>>)
    returns (r: seq<Diff>)
    ensures r == diffs + SiblingUpdates(env, constraintOpts)
  {
    r := diffs;
    var j := 0;
    while j < |constraintOpts|
      invariant 0 <= j <= |constraintOpts|
      invariant r == diffs + SiblingUpdates(env, constraintOpts[..j])
    {
      assert constraintOpts[..j + 1][..j] == constraintOpts[..j];
      var pair := constraintOpts[j];
      if pair.Some? {
        r := r + env.updateViewConstraint(pair.value.0, pair.value.1);
      }
      j := j + 1;
    }
    assert constraintOpts[..j] == constraintOpts;
  }

  /** The `updateViewConstraint` case: the edit, then the completeness gate over the sibling constraints. */
  method BuildUpdateConstraint(store: Store, env: Env, info: Payload, nextId: Value) returns (b: Built)
    ensures b == UpdateConstraint(store, env, info, nextId)
  {
    var edited := EditedOpts(env, info, nextId);
    match edited {
      case None =>
        b := Threw;
      case Some(opts) =>
        b := BuildUpdateWithOpts(store, env, info, nextId, opts);
    }
  }

  method BuildUpdateWithOpts(store: Store, env: Env, info: Payload, nextId: Value, opts: ConstraintOpts) returns (b: Built)
    ensures b == UpdateWithOpts(store, env, info, nextId, opts)
  {
    var cid := Get(info, "constraintId");
    var diffs: seq<Diff> := [];
    if Truthy(Get(info, "isConstant")) {
      diffs := [Ins("constant", Arr([nextId, Get(info, "value")]))];
    }
    assert diffs == ConstantDiffs(info, nextId);
    var constraints := ListAt(store.sourceToConstraints, opts.leftSource);
    var complete, constraintOpts := ScanSiblings(env, constraints, cid, env.isConstraintComplete(opts));
    diffs := diffs + env.updateViewConstraint(cid, opts);
    if !complete {
      return Built(diffs, false);
    }
    diffs := AppendSiblingUpdates(env, diffs, constraintOpts);
    b := BuildRepublished(store, env, cid, opts, diffs);
  }

  /** The open gate of `updateViewConstraint`: the source, the calculated field and the constraint again. */
  method BuildRepublished(store: Store, env: Env, cid: Value, opts: ConstraintOpts, diffs: seq<Diff>) returns (b: Built)
    ensures b == Republished(store, env, cid, opts, diffs)
  {
    var viewId := ValueAt(store.constraintToView, cid);
    if viewId !in store.source {
      return Threw;
    }
    var out := diffs + [Ins("source", TupleAt(store.source[viewId], opts.leftSource))];
    ghost var reinserted := out;
    var calcs := if viewId in store.calculatedFieldOf then store.calculatedFieldOf[viewId] else map[];
    var calculatedFieldId := ValueAt(calcs, opts.leftSource);
    if Truthy(calculatedFieldId) {
      out := out + [Ins("calculated field", TupleAt(store.calculatedField, calculatedFieldId)),
                    Ins("display name", Arr([calculatedFieldId, NameValue(env, calculatedFieldId)]))];
    }
    assert out == reinserted + CalculatedDiffs(store, env, viewId, opts.leftSource);
    out := out + [Ins("constraint", Arr([cid, viewId]))];
    b := Built(out, true);
  }

  /** The `removeViewConstraint` case: the cascade over a primitive's constraints. */
  method BuildRemoveConstraint(store: Store, env: Env, info: Payload) returns (b: Built)
    ensures b == RemoveConstraint(store, env, info)
  {
    var diffs: seq<Diff> := [];
    var constraint := env.getConstraint(Get(info, "constraintId"));
    var calculatedId := CalculatedIdOf(store, constraint);
    if Truthy(calculatedId) {
      var constraints := ListAt(store.sourceToConstraints, constraint.leftSource);
      var i := 0;
      while i < |constraints|
        invariant 0 <= i <= |constraints|
        invariant diffs == RemoveEach(env, constraints[..i])
      {
        assert constraints[..i + 1][..i] == constraints[..i];
        diffs := diffs + env.removeViewConstraint(At(constraints[i], env.ix.constraintConstraint));
        i := i + 1;
      }
      assert constraints[..i] == constraints;
      if constraint.view !in store.source {
        return Threw;
      }
      diffs := diffs + [Rem("calculated field", TupleAt(store.calculatedField, calculatedId)),
                        Rem("source", TupleAt(store.source[constraint.view], constraint.leftSource))];
    } else {
      diffs := env.removeViewConstraint(Get(info, "constraintId"));
    }
    return Built(diffs, true);
  }

  class Editor {
    var txId: nat
    var minted: nat
    var queryEditorActive: Value
    var queryEditorInfo: Option<map<string, Value>>
    var tokenState: map<Value, map<Value, int>>
    var initialValue: Value
    /** The `executeDispatch` calls made so far, oldest first. */
    var executed: seq<Execution>
    /** The events handed on to the generic editor's `dispatch`, oldest first. */
    var forwarded: seq<Forward>

    function State(): EditorState
      reads this
    {
      EditorState(txId, minted, queryEditorActive, queryEditorInfo, tokenState, initialValue, executed, forwarded)
    }

    constructor (initialValue: Value)
      ensures State() == EditorState(0, 0, Undefined, None, map[], initialValue, [], [])
    {
      txId := 0;
      minted := 0;
      queryEditorActive := Undefined;
      queryEditorInfo := None;
      tokenState := map[];
      this.initialValue := initialValue;
      executed := [];
      forwarded := [];
    }

    /** `++localState.txId`: the id of the dispatch that starts now. */
    method NextTx() returns (tx: nat)
      modifies this
      ensures tx == old(txId) + 1
      ensures State() == old(State()).(txId := tx)
    {
      txId := txId + 1;
      tx := txId;
    }

    /** Hands out the next id of the `uuid()` oracle. */
    method Uuid(env: Env) returns (id: Value)
      modifies this
      ensures id == env.uuid(old(minted)) && minted == old(minted) + 1
      ensures State() == old(State()).(minted := old(minted) + 1)
    {
      id := env.uuid(minted);
      minted := minted + 1;
    }

    /** `eveEditor.executeDispatch(diffs, storeEvent, sendToServer)`, made by the dispatch with id `tx`. */
    method ExecuteDispatch(tx: nat, diffs: seq<Diff>, storeEvent: bool, sendToServer: bool)
      modifies this
      ensures State() == old(State()).(log := old(executed) + [Execution(tx, diffs, storeEvent, sendToServer)])
    {
      executed := executed + [Execution(tx, diffs, storeEvent, sendToServer)];
    }

    /** The cases that only change the editor's local state; `ok` is false when one throws. */
    method UpdateLocalState(k: Kind, info: Payload) returns (ok: bool)
      requires IsLocal(k)
      modifies this
      ensures ok == LocalUpdate(old(State()), k, info).Some?
      ensures ok ==> State() == LocalUpdate(old(State()), k, info).value
      ensures !ok ==> State() == old(State())
    {
      ok := true;
      match k {
        case SetQueryEditorActive =>
          queryEditorActive := Get(info, "viewId");
          queryEditorInfo := Some(map["viewId" := Get(info, "viewId"), "handler" := Get(info, "handler")]);
        case ConstraintOpSuggestions =>
          queryEditorActive := Get(info, "viewId");
          queryEditorInfo := Some(SuggestionInfo("constraint op", info));
        case FieldSuggestions =>
          queryEditorActive := Get(info, "viewId");
          queryEditorInfo := Some(SuggestionInfo("field", info));
        case EditToken =>
          var parentId := Get(info, "parentId");
          var state := if parentId in tokenState then tokenState[parentId] else map[];
          tokenState := tokenState[parentId := state[Get(info, "key") := 1]];
        case StopEditToken =>
          var parentId := Get(info, "parentId");
          if parentId !in tokenState {
            return false;
          }
          tokenState := tokenState[parentId := tokenState[parentId][Get(info, "key") := 0]];
        case ToggleConstant =>
          if queryEditorInfo.None? {
            return false;
          }
          var edInfo := queryEditorInfo.value;
          var token := if "token" in edInfo && Truthy(edInfo["token"]) then edInfo["token"] else Obj(map[]);
          queryEditorInfo := Some(edInfo["token" := MarkConstant(token)]);
      }
    }

    /**
     * The cases that build a batch from the fact store (all but the
     * aggregate block, whose nested dispatch Dispatch runs itself). Only
     * the `uuid()` counter changes.
     */
    method BuildBatch(k: Kind, info: Payload, store: Store, env: Env) returns (b: Built)
      requires IsDirectBatch(k)
      modifies this
      ensures b == Batch(store, env, k, info, env.uuid(old(minted)), initialValue)
      ensures State() == old(State()).(minted := old(minted) + Mints(k, info))
    {
      var sendToServer := true;
      var diffs: seq<Diff> := [];
      match k {
        case ExportView =>
          var queryId := Get(info, "queryId");
          var prevExport := ValueAt(store.queryToExport, queryId);
          if Truthy(prevExport) {
            diffs := [Rem("query export", Arr([queryId, prevExport]))];
          }
          diffs := diffs + [Ins("query export", Arr([queryId, Get(info, "viewId")]))];
        case AddViewBlock =>
          var queryId := QueryIdOf(env, info);
          var viewId := Uuid(env);
          diffs := env.addViewBlock(queryId, Get(info, "sourceId"), Get(info, "kind"), viewId);
        case AddUnionBlock =>
          diffs := env.addUnionBlock(QueryIdOf(env, info));
        case RemoveViewBlock =>
          diffs := env.removeViewBlock(Get(info, "viewId"));
        case AddViewSelection =>
          diffs := env.addViewSelection(Get(info, "viewId"), Get(info, "sourceId"), Get(info, "sourceFieldId"),
                                        Get(info, "fieldId"), Get(info, "isCalculated"));
        case AddUnionSelection =>
          b := BuildUnionSelection(store, env, info);
          return;
        case AddViewSource =>
          b := ViewSource(store, env, info);
          return;
        case RemoveViewSource =>
          diffs := env.removeViewSource(Get(info, "viewId"), Get(info, "sourceId"));
        case AddViewConstraint =>
          diffs := env.addViewConstraint(Get(info, "viewId"), NewConstraintOpts(info));
          sendToServer := false;
        case UpdateViewConstraint =>
          var nextId := env.uuid(minted);
          if Truthy(Get(info, "isConstant")) {
            nextId := Uuid(env);
          }
          b := BuildUpdateConstraint(store, env, info, nextId);
          return;
        case RemoveViewConstraint =>
          b := BuildRemoveConstraint(store, env, info);
          return;
        case UpdateAggregateSort =>
          b := AggregateSort(env, info);
          return;
        case UpdateAggregateLimit =>
          b := BuildAggregateLimit(store, info, env);
          return;
        case UpdateAggregateGrouping =>
          b := BuildAggregateGrouping(store, env, info);
          return;
        case AddPrimitiveSource =>
          diffs := env.addPrimitiveSource(Get(info, "viewId"), Get(info, "primitiveId"));
          sendToServer := false;
      }
      b := Built(diffs, sendToServer);
    }

    /** The `updateAggregateLimit` case; it always calls `uuid()`. */
    method BuildAggregateLimit(store: Store, info: Payload, env: Env) returns (b: Built)
      modifies this
      ensures b == AggregateLimit(store, info, env.uuid(old(minted)), initialValue)
      ensures State() == old(State()).(minted := old(minted) + 1)
    {
      var sendToServer := Truthy(Get(info, "sendToServer"));
      var table := LimitTable(info);
      var constantId := Uuid(env);
      var diffs: seq<Diff> := [];
      var index := LimitIndex(store, info);
      var viewId := Get(info, "viewId");
      var value := Get(info, "value");
      var limit: Tuple;
      if viewId !in index {
        limit := [viewId, Str("constant"), constantId];
      } else {
        limit := index[viewId];
        constantId := At(limit, 2);
        if constantId in store.constant && At(store.constant[constantId], 1) != value {
          diffs := [Rem("constant", Arr(store.constant[constantId]))];
        }
      }
      assert diffs == StaleConstant(store, info, env.uuid(old(minted)));
      if Truthy(value) {
        diffs := diffs + [Ins("constant", Arr([constantId, value])), Ins(table, Arr(limit))];
      } else {
        diffs := diffs + [Rem(table, Arr(limit))];
      }
      if sendToServer && Truthy(initialValue) && initialValue != value {
        diffs := diffs + [Rem("constant", Arr([constantId, initialValue]))];
      }
      b := Built(diffs, sendToServer);
    }

    /** The `updateAggregateGrouping` case. */
    method BuildAggregateGrouping(store: Store, env: Env, info: Payload) returns (b: Built)
      ensures b == AggregateGrouping(store, env, info)
    {
      var diffs: seq<Diff> := [];
      var viewId := Get(info, "aggregate");
      var neue := [viewId, Get(info, "field"), Get(info, "field")];
      if viewId in store.grouping {
        if !env.arraysIdentical(store.grouping[viewId], neue) {
          diffs := [Rem("aggregate grouping", Arr(store.grouping[viewId]))];
        }
      } else {
        if viewId !in store.source {
          return Threw;
        }
        var sources := store.source[viewId];
        if Str("outer") in sources {
          diffs := [Rem("source", Arr(sources[Str("outer")]))];
        }
        var innerView := Idx(TupleAt(sources, Str("inner")), env.ix.sourceView);
        if innerView.None? {
          return Threw;
        }
        diffs := diffs + [Ins("source", Arr([viewId, Str("outer"), innerView.value]))];
      }
      diffs := diffs + [Ins("aggregate grouping", Arr(neue))];
      b := Built(diffs, true);
    }

    /** `dispatch(evt, info)`; `ok` is false when the case threw a TypeError. */
    method Dispatch(evt: string, info: Payload, store: Store, env: Env) returns (ok: bool)
      modifies this
      ensures Outcome(State(), ok) == Step(old(State()), store, env, EventOf(evt), evt, info)
    {
      ok := DispatchCase(EventOf(evt), evt, info, store, env);
    }

    /** The body of `dispatch` once `switch(evt)` has selected case `k`. */
    method DispatchCase(k: Kind, evt: string, info: Payload, store: Store, env: Env) returns (ok: bool)
      modifies this
      ensures Outcome(State(), ok) == Step(old(State()), store, env, k, evt, info)
    {
      if k == Unrecognised {
        var tx := NextTx();
        forwarded := forwarded + [Forward(evt, info)];
        ok := true;
      } else if k == AddAggregateBlock {
        ok := AggregateBlockCase(info, store, env);
      } else {
        ok := HandleCase(k, info, store, env);
      }
    }

    /** `dispatch` for every recognised case but the aggregate block. */
    method HandleCase(k: Kind, info: Payload, store: Store, env: Env) returns (ok: bool)
      requires k != Unrecognised && k != AddAggregateBlock
      modifies this
      ensures Outcome(State(), ok) == Handle(old(State()), store, env, k, info)
    {
      if IsLocal(k) {
        ok := LocalCase(k, info);
      } else {
        ok := BatchCase(k, info, store, env);
      }
    }

    /** A local-state case: it executes an empty, stored and published batch unless it threw. */
    method LocalCase(k: Kind, info: Payload) returns (ok: bool)
      requires IsLocal(k)
      modifies this
      ensures Outcome(State(), ok) == LocalHandle(old(State()), k, info)
    {
      var tx := NextTx();
      ok := UpdateLocalState(k, info);
      if !ok {
        return;
      }
      ExecuteDispatch(tx, [], true, true);
    }

    /** A case that builds a batch from the store, then executes it unless it threw. */
    method BatchCase(k: Kind, info: Payload, store: Store, env: Env) returns (ok: bool)
      requires IsDirectBatch(k)
      modifies this
      ensures Outcome(State(), ok) == BatchHandle(old(State()), store, env, k, info)
    {
      var tx := NextTx();
      var b := BuildBatch(k, info, store, env);
      ok := Publish(tx, b);
    }

    /** Records the execution of a built batch under `tx`; a batch that threw records nothing. */
    method Publish(tx: nat, b: Built) returns (ok: bool)
      modifies this
      ensures Outcome(State(), ok) == Finish(old(State()), tx, b)
    {
      match b {
        case Threw =>
          ok := false;
        case Built(diffs, send) =>
          ExecuteDispatch(tx, diffs, true, send);
          ok := true;
      }
    }

    /**
     * The nested `dispatch("addPrimitiveSource", info)`: PrimitiveSourceStep
     * shows that this is exactly what dispatch does for that event.
     */
    method PrimitiveSourceCase(info: Payload, env: Env)
      modifies this
      ensures State() == PrimitiveSourceHandle(old(State()), env, info)
    {
      var tx := NextTx();
      ExecuteDispatch(tx, env.addPrimitiveSource(Get(info, "viewId"), Get(info, "primitiveId")), true, false);
    }

    /** The `addAggregateBlock` case, with its nested `addPrimitiveSource` dispatch. */
    method AggregateBlockCase(info: Payload, store: Store, env: Env) returns (ok: bool)
      modifies this
      ensures Outcome(State(), ok) == AggregateBlockStep(old(State()), store, env, info)
    {
      var tx := NextTx();
      var kind := Get(info, "kind");
      var diffs := env.addAggregateBlock(QueryIdOf(env, info), kind);
      if kind in store.primitive {
        var viewId := NestedViewId(env, diffs);
        if viewId.None? {
          return false;
        }
        PrimitiveSourceCase(PrimitiveInfo(viewId.value, kind), env);
      }
      ExecuteDispatch(tx, diffs, true, true);
      ok := true;
    }
  }
}
