/**
 * What `dispatch` promises across its cases: every call takes a fresh
 * transaction id, every recognised event that does not throw ends in one
 * `executeDispatch`, unrecognised events are handed on untouched, and the
 * aggregate block's nested primitive dispatch is recorded before the
 * outer batch.
 */
module DispatchLemmas {
  import opened Wrappers
  import opened JsValues
  import opened Facts
  import opened Collaborators
  import opened Events
  import opened Batches
  import opened DispatchSpec

  /** How far one dispatch advances the transaction counter. */
  function TxAdvance(store: Store, env: Env, k: Kind, info: Payload): nat {
    if k == AddAggregateBlock && NestedFires(store, env, info) then 2 else 1
  }

  /**
   * An `addAggregateBlock` for a primitive kind whose builder returns no
   * second diff, or one with a nullish tuple, throws reading the view id:
   * it takes one transaction id, records nothing and dispatches nothing.
   */
  lemma AggregateBlockWithoutViewId(s: EditorState, store: Store, env: Env, k: Kind, evt: string, info: Payload)
    requires k == AddAggregateBlock && Get(info, "kind") in store.primitive && !NestedFires(store, env, info)
    ensures Step(s, store, env, k, evt, info) == Outcome(s.(txId := s.txId + 1), false)
  {
  }

  /**
   * What a local-state case does to the rest of the state: the next id, no
   * `uuid()` call, nothing forwarded, and one empty execution unless it threw.
   */
  lemma LocalHandleFrame(s: EditorState, k: Kind, info: Payload)
    ensures IsLocal(k) ==>
      var o := LocalHandle(s, k, info);
      o.state.txId == s.txId + 1 && o.state.minted == s.minted && o.state.forwarded == s.forwarded
      && (o.ok ==> o.state.log == s.log + [Execution(s.txId + 1, [], true, true)])
      && (!o.ok ==> o.state.log == s.log)
  {
    if IsLocal(k) {
      var s1 := s.(txId := s.txId + 1);
      assert LocalUpdate(s1, k, info).Some? ==>
             var s2 := LocalUpdate(s1, k, info).value;
             s2.txId == s1.txId && s2.minted == s.minted && s2.forwarded == s.forwarded && s2.log == s.log;
    }
  }

  /**
   * What a batch case does to the rest of the state: the next id, the ids
   * Mints counts, nothing forwarded, and one stored execution under the new
   * id unless it threw.
   */
  lemma BatchHandleFrame(s: EditorState, store: Store, env: Env, k: Kind, info: Payload)
    ensures IsBatch(k) ==>
      var o := BatchHandle(s, store, env, k, info);
      o.state.txId == s.txId + 1 && o.state.minted == s.minted + Mints(k, info) && o.state.forwarded == s.forwarded
      && (o.ok ==> |o.state.log| == |s.log| + 1 && o.state.log[..|s.log|] == s.log
                   && o.state.log[|s.log|].txId == s.txId + 1 && o.state.log[|s.log|].storeEvent)
      && (!o.ok ==> o.state.log == s.log)
  {
  }

  /** Every recognised case but the aggregate block, local or batch: their frames together. */
  lemma HandleFrame(s: EditorState, store: Store, env: Env, k: Kind, info: Payload)
    requires k != Unrecognised && k != AddAggregateBlock
    ensures var o := Handle(s, store, env, k, info);
      o.state.txId == s.txId + 1
      && o.state.minted == s.minted + (if IsLocal(k) then 0 else Mints(k, info))
      && o.state.forwarded == s.forwarded
      && (o.ok ==> |o.state.log| == |s.log| + 1 && o.state.log[..|s.log|] == s.log
                   && o.state.log[|s.log|].txId == s.txId + 1 && o.state.log[|s.log|].storeEvent)
      && (!o.ok ==> o.state.log == s.log)
  {
    LocalHandleFrame(s, k, info);
    BatchHandleFrame(s, store, env, k, info);
  }

  /** The aggregate block takes one transaction id, two with its nested dispatch, no `uuid()` id, and forwards nothing. */
  lemma AggregateBlockFrame(s: EditorState, store: Store, env: Env, info: Payload)
    ensures var o := AggregateBlockStep(s, store, env, info);
      o.state.txId == s.txId + (if NestedFires(store, env, info) then 2 else 1)
      && o.state.minted == s.minted && o.state.forwarded == s.forwarded
  {
  }

  /** Every dispatch takes the next transaction id; the nested one takes the id after that. */
  lemma StepTxId(s: EditorState, store: Store, env: Env, k: Kind, evt: string, info: Payload)
    ensures Step(s, store, env, k, evt, info).state.txId == s.txId + TxAdvance(store, env, k, info)
  {
    if k != Unrecognised && k != AddAggregateBlock {
      HandleFrame(s, store, env, k, info);
    }
    AggregateBlockFrame(s, store, env, info);
  }

  /** An unrecognised event is forwarded unchanged and executes nothing. */
  lemma UnrecognisedForwarded(s: EditorState, store: Store, env: Env, k: Kind, evt: string, info: Payload)
    requires k == Unrecognised
    ensures Step(s, store, env, k, evt, info)
         == Outcome(s.(txId := s.txId + 1, forwarded := s.forwarded + [Forward(evt, info)]), true)
  {
  }

  /** Only unrecognised events reach the generic editor's `dispatch`. */
  lemma ForwardsOnlyUnrecognised(s: EditorState, store: Store, env: Env, k: Kind, evt: string, info: Payload)
    ensures Step(s, store, env, k, evt, info).state.forwarded
         == if k == Unrecognised then s.forwarded + [Forward(evt, info)] else s.forwarded
  {
    if k != Unrecognised && k != AddAggregateBlock {
      HandleFrame(s, store, env, k, info);
    }
    AggregateBlockFrame(s, store, env, info);
  }

  /**
   * A recognised event other than the aggregate block that does not throw
   * appends exactly one execution, stamped with the new id and stored; one
   * that throws appends nothing.
   */
  lemma RecognisedExecutesOnce(s: EditorState, store: Store, env: Env, k: Kind, evt: string, info: Payload)
    requires k != Unrecognised && k != AddAggregateBlock
    ensures var o := Step(s, store, env, k, evt, info);
      (o.ok ==> |o.state.log| == |s.log| + 1
                && o.state.log[..|s.log|] == s.log
                && o.state.log[|s.log|].txId == s.txId + 1
                && o.state.log[|s.log|].storeEvent)
      && (!o.ok ==> o.state.log == s.log)
  {
    HandleFrame(s, store, env, k, info);
  }

  /** The aggregate block with a primitive kind records the nested primitive batch first, then its own. */
  lemma NestedPrimitiveRunsFirst(s: EditorState, store: Store, env: Env, k: Kind, evt: string, info: Payload)
    requires k == AddAggregateBlock && NestedFires(store, env, info)
    ensures var o := Step(s, store, env, k, evt, info);
      var kind := Get(info, "kind");
      var diffs := env.addAggregateBlock(QueryIdOf(env, info), kind);
      var viewId := NestedViewId(env, diffs).value;
      o.ok
      && o.state.txId == s.txId + 2
      && o.state.log == s.log + [Execution(s.txId + 2, env.addPrimitiveSource(viewId, kind), true, false),
                                 Execution(s.txId + 1, diffs, true, true)]
  {
  }

  /** The aggregate block without a primitive kind publishes its own batch alone. */
  lemma PlainAggregateBlock(s: EditorState, store: Store, env: Env, k: Kind, evt: string, info: Payload)
    requires k == AddAggregateBlock && Get(info, "kind") !in store.primitive
    ensures Step(s, store, env, k, evt, info)
         == Outcome(s.(txId := s.txId + 1,
                       log := s.log + [Execution(s.txId + 1, env.addAggregateBlock(QueryIdOf(env, info), Get(info, "kind")), true, true)]),
                    true)
  {
  }

  /** `addViewConstraint` and `addPrimitiveSource` are stored but never sent to the server. */
  lemma NeverPublished(s: EditorState, store: Store, env: Env, k: Kind, evt: string, info: Payload)
    requires k == AddViewConstraint || k == AddPrimitiveSource
    ensures var o := Step(s, store, env, k, evt, info);
      o.ok && |o.state.log| == |s.log| + 1 && !o.state.log[|s.log|].sendToServer
  {
  }

  /** The local-state events leave the store alone: their execution carries no diffs and is published. */
  lemma LocalEventsExecuteEmpty(s: EditorState, store: Store, env: Env, k: Kind, evt: string, info: Payload)
    requires IsLocal(k)
    ensures var o := Step(s, store, env, k, evt, info);
      o.ok ==> o.state.log == s.log + [Execution(s.txId + 1, [], true, true)]
               && o.state.minted == s.minted
  {
    LocalHandleFrame(s, k, info);
  }

  /** `editToken` marks the key as being edited under its parent and touches no other parent. */
  lemma EditTokenMarks(s: EditorState, store: Store, env: Env, k: Kind, evt: string, info: Payload)
    requires k == EditToken
    ensures var o := Step(s, store, env, k, evt, info);
      var p := Get(info, "parentId");
      o.ok
      && p in o.state.tokens
      && o.state.tokens[p][Get(info, "key")] == 1
      && (forall q :: q in s.tokens && q != p ==> q in o.state.tokens && o.state.tokens[q] == s.tokens[q])
      && (forall k :: p in s.tokens && k in s.tokens[p] && k != Get(info, "key") ==>
            k in o.state.tokens[p] && o.state.tokens[p][k] == s.tokens[p][k])
  {
  }

  /** `stopEditToken` throws exactly when its parent has no token state, and otherwise clears the key. */
  lemma StopEditTokenClears(s: EditorState, store: Store, env: Env, k: Kind, evt: string, info: Payload)
    requires k == StopEditToken
    ensures var o := Step(s, store, env, k, evt, info);
      var p := Get(info, "parentId");
      (o.ok <==> p in s.tokens)
      && (o.ok ==> o.state.tokens == s.tokens[p := s.tokens[p][Get(info, "key") := 0]])
      && (!o.ok ==> o.state == s.(txId := s.txId + 1))
  {
  }

  /** Edit then stop on the same key leaves that key at 0. */
  lemma EditThenStop(s: EditorState, t: EditorState, store: Store, env: Env, edit: string, stop: string, info: Payload)
    requires t == Step(s, store, env, EditToken, edit, info).state
    ensures var o := Step(t, store, env, StopEditToken, stop, info);
      o.ok && o.state.tokens[Get(info, "parentId")][Get(info, "key")] == 0
  {
    EditTokenMarks(s, store, env, EditToken, edit, info);
    StopEditTokenClears(t, store, env, StopEditToken, stop, info);
  }

  /** Of two suggestion events in a row, the second one's context wins. */
  lemma SuggestionsLastWriterWins(s: EditorState, store: Store, env: Env,
                                  k1: Kind, e1: string, i1: Payload, k2: Kind, e2: string, i2: Payload)
    requires k1 == ConstraintOpSuggestions || k1 == FieldSuggestions
    requires k2 == ConstraintOpSuggestions || k2 == FieldSuggestions
    ensures var o := Step(Step(s, store, env, k1, e1, i1).state, store, env, k2, e2, i2);
      o.ok
      && o.state.active == Get(i2, "viewId")
      && o.state.edInfo == Some(SuggestionInfo(if k2 == FieldSuggestions then "field" else "constraint op", i2))
  {
  }

  /** `toggleConstant` throws without an open context; otherwise the context's token is marked constant. */
  lemma ToggleConstantMarks(s: EditorState, store: Store, env: Env, k: Kind, evt: string, info: Payload)
    requires k == ToggleConstant
    ensures var o := Step(s, store, env, k, evt, info);
      (o.ok <==> s.edInfo.Some?)
      && (o.ok ==>
            var m := s.edInfo.value;
            o.state.edInfo.Some?
            && "token" in o.state.edInfo.value
            && (forall key :: key in m && key != "token" ==>
                  key in o.state.edInfo.value && o.state.edInfo.value[key] == m[key])
            && (("token" !in m || !Truthy(m["token"])) ==>
                  o.state.edInfo.value["token"] == Obj(map["isConstant" := Bool(true)]))
            && (("token" in m && m["token"].Obj?) ==>
                  o.state.edInfo.value["token"] == Obj(m["token"].props["isConstant" := Bool(true)])))
  {
  }

  /** Only the cases that build a batch take ids from `uuid()`, as many as `Mints` says. */
  lemma StepMinted(s: EditorState, store: Store, env: Env, k: Kind, evt: string, info: Payload)
    ensures Step(s, store, env, k, evt, info).state.minted
      == s.minted + (if IsDirectBatch(k) then Mints(k, info) else 0)
  {
    if k != Unrecognised && k != AddAggregateBlock {
      HandleFrame(s, store, env, k, info);
    }
    AggregateBlockFrame(s, store, env, info);
  }

  /** The transaction ids a run of calls takes: one per call, two for a nested `addPrimitiveSource`. */
  function RunTxAdvance(store: Store, env: Env, calls: seq<Call>): nat
    decreases |calls|
  {
    if calls == [] then 0
    else
      var last := calls[|calls| - 1];
      RunTxAdvance(store, env, calls[..|calls| - 1]) + TxAdvance(store, env, EventOf(last.evt), last.info)
  }

  /** The uuids a run of calls draws: those of each call whose batch case mints. */
  function RunMints(calls: seq<Call>): nat
    decreases |calls|
  {
    if calls == [] then 0
    else
      var last := calls[|calls| - 1];
      var k := EventOf(last.evt);
      RunMints(calls[..|calls| - 1]) + (if IsDirectBatch(k) then Mints(k, last.info) else 0)
  }

  /**
   * Over a run of dispatches the transaction id grows by exactly the ids
   * the calls take, so by at least one per call.
   */
  lemma {:induction false} RunTxIdGrows(s: EditorState, store: Store, env: Env, calls: seq<Call>)
    ensures Run(s, store, env, calls).txId == s.txId + RunTxAdvance(store, env, calls)
    ensures Run(s, store, env, calls).txId >= s.txId + |calls|
    decreases |calls|
  {
    if calls != [] {
      var last := calls[|calls| - 1];
      RunTxIdGrows(s, store, env, calls[..|calls| - 1]);
      StepTxId(Run(s, store, env, calls[..|calls| - 1]), store, env, EventOf(last.evt), last.evt, last.info);
    }
  }

  /** Over a run the log only grows at its end: earlier executions are never rewritten. */
  lemma {:induction false} RunLogExtends(s: EditorState, store: Store, env: Env, calls: seq<Call>)
    ensures var r := Run(s, store, env, calls);
      |r.log| >= |s.log| && r.log[..|s.log|] == s.log
    decreases |calls|
  {
    if calls != [] {
      var last := calls[|calls| - 1];
      var mid := Run(s, store, env, calls[..|calls| - 1]);
      RunLogExtends(s, store, env, calls[..|calls| - 1]);
      StepLogExtends(mid, store, env, EventOf(last.evt), last.evt, last.info);
      assert mid.log[..|s.log|] == s.log;
    }
  }

  /** One dispatch appends to the log and never rewrites it. */
  lemma StepLogExtends(s: EditorState, store: Store, env: Env, k: Kind, evt: string, info: Payload)
    ensures var o := Step(s, store, env, k, evt, info);
      |o.state.log| >= |s.log| && o.state.log[..|s.log|] == s.log
  {
    if k == AddAggregateBlock && NestedFires(store, env, info) {
      NestedPrimitiveRunsFirst(s, store, env, k, evt, info);
    } else if k != Unrecognised && k != AddAggregateBlock {
      RecognisedExecutesOnce(s, store, env, k, evt, info);
    }
  }

  /**
   * Over a run the uuid counter advances by exactly the ids the calls'
   * own `uuid()` calls draw; it never goes back.
   */
  lemma {:induction false} RunMintedGrows(s: EditorState, store: Store, env: Env, calls: seq<Call>)
    ensures Run(s, store, env, calls).minted == s.minted + RunMints(calls)
    ensures Run(s, store, env, calls).minted >= s.minted
    decreases |calls|
  {
    if calls != [] {
      var last := calls[|calls| - 1];
      RunMintedGrows(s, store, env, calls[..|calls| - 1]);
      StepMinted(Run(s, store, env, calls[..|calls| - 1]), store, env, EventOf(last.evt), last.evt, last.info);
    }
  }
}
