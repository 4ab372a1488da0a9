/**
 * `dispatch` as a state-transition function. Each call assigns the next
 * transaction id, runs the case its event name selects and, for every
 * recognised event that does not throw, ends in one `executeDispatch`
 * call; unrecognised events are forwarded to the generic editor instead.
 */
module DispatchSpec {
  import opened Wrappers
  import opened JsValues
  import opened Facts
  import opened Collaborators
  import opened Events
  import opened Batches

  /** One `eveEditor.executeDispatch(diffs, storeEvent, sendToServer)` call, with the id of the dispatch that made it. */
  datatype Execution = Execution(txId: nat, diffs: seq<Diff>, storeEvent: bool, sendToServer: bool)

  /** One `eveEditor.dispatch(evt, info)` call. */
  datatype Forward = Forward(evt: string, info: Payload)

  /** The editor-local state `dispatch` reads and writes, and what it has sent out. */
  datatype EditorState = EditorState(
    txId: nat,                                  // localState.txId
    minted: nat,                                // how many ids uuid() has handed out
    active: Value,                              // localState.queryEditorActive
    edInfo: Option<map<string, Value>>,         // localState.queryEditorInfo
    tokens: map<Value, map<Value, int>>,        // tokenState
    initialValue: Value,                        // localState.initialValue (read only)
    log: seq<Execution>,
    forwarded: seq<Forward>
  )

  datatype Outcome = Outcome(state: EditorState, ok: bool)

  /** How many times a case calls `uuid()`. */
  function Mints(k: Kind, info: Payload): nat {
    match k
    case AddViewBlock => 1
    case UpdateViewConstraint => if Truthy(Get(info, "isConstant")) then 1 else 0
    case UpdateAggregateLimit => 1
    case _ => 0
  }

  /**
   * The batch of every case that builds one from the store; `nextId` is what
   * the case's `uuid()` call returns. The aggregate-block case's nested
   * dispatch is handled by AggregateBlockStep.
   */
  function Batch(store: Store, env: Env, k: Kind, info: Payload, nextId: Value, initialValue: Value): Built
    requires IsBatch(k)
  {
    match k
    case ExportView => Built(ExportDiffs(store, info), true)
    case AddViewBlock =>
      Built(env.addViewBlock(QueryIdOf(env, info), Get(info, "sourceId"), Get(info, "kind"), nextId), true)
    case AddAggregateBlock => Built(env.addAggregateBlock(QueryIdOf(env, info), Get(info, "kind")), true)
    case AddUnionBlock => Built(env.addUnionBlock(QueryIdOf(env, info)), true)
    case RemoveViewBlock => Built(env.removeViewBlock(Get(info, "viewId")), true)
    case AddViewSelection =>
      Built(env.addViewSelection(Get(info, "viewId"), Get(info, "sourceId"), Get(info, "sourceFieldId"),
                                 Get(info, "fieldId"), Get(info, "isCalculated")), true)
    case AddUnionSelection => UnionSelection(store, env, info)
    case AddViewSource => ViewSource(store, env, info)
    case RemoveViewSource => Built(env.removeViewSource(Get(info, "viewId"), Get(info, "sourceId")), true)
    case AddViewConstraint => Built(env.addViewConstraint(Get(info, "viewId"), NewConstraintOpts(info)), false)
    case UpdateViewConstraint => UpdateConstraint(store, env, info, nextId)
    case RemoveViewConstraint => RemoveConstraint(store, env, info)
    case UpdateAggregateSort => AggregateSort(env, info)
    case UpdateAggregateLimit => AggregateLimit(store, info, nextId, initialValue)
    case UpdateAggregateGrouping => AggregateGrouping(store, env, info)
    case AddPrimitiveSource => PrimitiveSource(env, info)
  }

  /** The `addPrimitiveSource` batch: stored, never sent to the server. */
  function PrimitiveSource(env: Env, info: Payload): Built {
    Built(env.addPrimitiveSource(Get(info, "viewId"), Get(info, "primitiveId")), false)
  }

  /** `{operation: "=", leftSource: info.leftSource, leftField: info.leftField}`. */
  function NewConstraintOpts(info: Payload): ConstraintOpts {
    ConstraintOpts(Undefined, Str("="), Get(info, "leftSource"), Get(info, "leftField"), Undefined, Undefined)
  }

  /** The suggestion context opened by `constraintOpSuggestions` and `fieldSuggestions`. */
  function SuggestionInfo(ty: string, info: Payload): map<string, Value> {
    map["type" := Str(ty), "sourceId" := Get(info, "sourceId"), "viewId" := Get(info, "viewId"),
        "fieldId" := Get(info, "fieldId"), "token" := Obj(info), "handler" := Get(info, "handler")]
  }

  /** `token.isConstant = true`; a write to a non-object is lost. */
  function MarkConstant(token: Value): Value {
    match token
    case Obj(m) => Obj(m["isConstant" := Bool(true)])
    case _ => token
  }

  /** The local-state cases; None when the case throws. */
  function LocalUpdate(s: EditorState, k: Kind, info: Payload): Option<EditorState>
    requires IsLocal(k)
  {
    match k
    case SetQueryEditorActive =>
      Some(s.(active := Get(info, "viewId"),
              edInfo := Some(map["viewId" := Get(info, "viewId"), "handler" := Get(info, "handler")])))
    case ConstraintOpSuggestions =>
      Some(s.(active := Get(info, "viewId"), edInfo := Some(SuggestionInfo("constraint op", info))))
    case FieldSuggestions =>
      Some(s.(active := Get(info, "viewId"), edInfo := Some(SuggestionInfo("field", info))))
    case EditToken =>
      var p := Get(info, "parentId");
      var state := if p in s.tokens then s.tokens[p] else map[];
      Some(s.(tokens := s.tokens[p := state[Get(info, "key") := 1]]))
    case StopEditToken =>
      var p := Get(info, "parentId");
      if p !in s.tokens then None
      else Some(s.(tokens := s.tokens[p := s.tokens[p][Get(info, "key") := 0]]))
    case ToggleConstant =>
      match s.edInfo
      case None => None
      case Some(m) =>
        var token := if "token" in m && Truthy(m["token"]) then m["token"] else Obj(map[]);
        Some(s.(edInfo := Some(m["token" := MarkConstant(token)])))
  }

  /** Records the case's `executeDispatch`, or stops when the case threw. */
  function Finish(s: EditorState, tx: nat, b: Built): Outcome {
    match b
    case Threw => Outcome(s, false)
    case Built(diffs, send) => Outcome(s.(log := s.log + [Execution(tx, diffs, true, send)]), true)
  }

  /** `diffs[1][2][code.ix("view", "view")]`: the new aggregate's view id. */
  function NestedViewId(env: Env, diffs: seq<Diff>): Option<Value> {
    if |diffs| < 2 then None else Idx(diffs[1].tuple, env.ix.viewView)
  }

  function PrimitiveInfo(viewId: Value, primitiveId: Value): Payload {
    map["viewId" := viewId, "primitiveId" := primitiveId]
  }

  /** The aggregate-block case reaches its nested `addPrimitiveSource` dispatch. */
  predicate NestedFires(store: Store, env: Env, info: Payload) {
    Get(info, "kind") in store.primitive
    && NestedViewId(env, env.addAggregateBlock(QueryIdOf(env, info), Get(info, "kind"))).Some?
  }

  /** A local-state case: the next transaction id, the update, then an empty execution. */
  function LocalHandle(s: EditorState, k: Kind, info: Payload): Outcome
    requires IsLocal(k)
  {
    var tx := s.txId + 1;
    match LocalUpdate(s.(txId := tx), k, info)
    case None => Outcome(s.(txId := tx), false)
    case Some(s2) => Finish(s2, tx, Built([], true))
  }

  /** A case that builds a batch: the next transaction id, the ids it takes, then its execution. */
  function BatchHandle(s: EditorState, store: Store, env: Env, k: Kind, info: Payload): Outcome
    requires IsBatch(k)
  {
    var tx := s.txId + 1;
    var b := Batch(store, env, k, info, env.uuid(s.minted), s.initialValue);
    Finish(s.(txId := tx, minted := s.minted + Mints(k, info)), tx, b)
  }

  /** A recognised event other than the aggregate block. */
  function Handle(s: EditorState, store: Store, env: Env, k: Kind, info: Payload): Outcome
    requires k != Unrecognised && k != AddAggregateBlock
  {
    if IsLocal(k) then LocalHandle(s, k, info) else BatchHandle(s, store, env, k, info)
  }

  /**
   * The `addAggregateBlock` case. A primitive kind makes it run the nested
   * `dispatch("addPrimitiveSource", ...)` first, under the next id; that
   * dispatch is the Handle of its case (PrimitiveSourceStep).
   */
  function AggregateBlockStep(s: EditorState, store: Store, env: Env, info: Payload): Outcome {
    var tx := s.txId + 1;
    var s1 := s.(txId := tx);
    var kind := Get(info, "kind");
    var diffs := env.addAggregateBlock(QueryIdOf(env, info), kind);
    if kind !in store.primitive then Finish(s1, tx, Built(diffs, true))
    else
      match NestedViewId(env, diffs)
      case None => Outcome(s1, false)
      case Some(viewId) =>
        Finish(PrimitiveSourceHandle(s1, env, PrimitiveInfo(viewId, kind)), tx, Built(diffs, true))
  }

  /** `dispatch("addPrimitiveSource", info)`: the next id, then the case's batch, which cannot throw. */
  function PrimitiveSourceHandle(s: EditorState, env: Env, info: Payload): EditorState {
    Finish(s.(txId := s.txId + 1), s.txId + 1, PrimitiveSource(env, info)).state
  }

  /** The nested dispatch is exactly the `addPrimitiveSource` case: it never throws, takes no id and is not published. */
  lemma PrimitiveSourceStep(s: EditorState, store: Store, env: Env, info: Payload)
    ensures var o := Handle(s, store, env, AddPrimitiveSource, info);
      o == Outcome(PrimitiveSourceHandle(s, env, info), true)
      && o.state == s.(txId := s.txId + 1,
                       log := s.log + [Execution(s.txId + 1, env.addPrimitiveSource(Get(info, "viewId"), Get(info, "primitiveId")), true, false)])
  {
  }

  /**
   * One `dispatch(evt, info)` call, where `k` is the case the name selects,
   * `EventOf(evt)`.
   */
  function Step(s: EditorState, store: Store, env: Env, k: Kind, evt: string, info: Payload): Outcome {
    if k == Unrecognised then
      Outcome(s.(txId := s.txId + 1, forwarded := s.forwarded + [Forward(evt, info)]), true)
    else if k == AddAggregateBlock then AggregateBlockStep(s, store, env, info)
    else Handle(s, store, env, k, info)
  }

  /** A sequence of top-level dispatch calls. */
  datatype Call = Call(evt: string, info: Payload)

  function Run(s: EditorState, store: Store, env: Env, calls: seq<Call>): EditorState
    decreases |calls|
  {
    if calls == [] then s
    else
      var last := calls[|calls| - 1];
      Step(Run(s, store, env, calls[..|calls| - 1]), store, env, EventOf(last.evt), last.evt, last.info).state
  }
}
