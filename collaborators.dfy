/**
 * The functions the dispatch engine calls but whose code is not part of
 * this model: the diff builders of `api.diff`, the helpers of `api.code`,
 * `uuid` and `api.arraysIdentical`. Each is an arbitrary total function,
 * so every property proved about the engine holds whatever they compute.
 */
module Collaborators {
  import opened Wrappers
  import opened JsValues
  import opened Facts

  /** Tuple positions reported by `code.ix(table, field)`. */
  datatype Schema = Schema(
    sourceSource: nat,          // code.ix("source", "source")
    sourceView: nat,            // code.ix("source", "source view")
    viewView: nat,              // code.ix("view", "view")
    viewKind: nat,              // code.ix("view", "kind")
    fieldField: nat,            // code.ix("field", "field")
    selectSource: nat,          // code.ix("select", "source")
    selectViewField: nat,       // code.ix("select", "view field")
    constraintConstraint: nat,  // code.ix("constraint", "constraint")
    sortInnerField: nat,        // code.ix("aggregate sorting", "inner field")
    sortDirection: nat          // code.ix("aggregate sorting", "direction")
  )

  /** The options object returned by `code.getConstraint` and fed to the builders. */
  datatype ConstraintOpts = ConstraintOpts(
    view: Value,
    operation: Value,
    leftSource: Value,
    leftField: Value,
    rightSource: Value,
    rightField: Value
  )

  datatype Env = Env(
    ix: Schema,
    uuid: nat -> Value,                  // the n-th id uuid() hands out
    activeItemId: Value,                 // code.activeItemId()
    name: Value -> Option<string>,       // code.name
    getConstraint: Value -> ConstraintOpts,
    isConstraintComplete: ConstraintOpts -> bool,
    arraysIdentical: (Tuple, Tuple) -> bool,
    addViewBlock: (Value, Value, Value, Value) -> seq<Diff>,
    addAggregateBlock: (Value, Value) -> seq<Diff>,
    addUnionBlock: Value -> seq<Diff>,
    removeViewBlock: Value -> seq<Diff>,
    addViewSelection: (Value, Value, Value, Value, Value) -> seq<Diff>,
    addViewSource: (Value, Value, Value) -> seq<Diff>,
    autoJoin: (Value, Value, Value) -> seq<Diff>,
    removeViewSource: (Value, Value) -> seq<Diff>,
    addViewConstraint: (Value, ConstraintOpts) -> seq<Diff>,
    updateViewConstraint: (Value, ConstraintOpts) -> seq<Diff>,
    removeViewConstraint: Value -> seq<Diff>,
    updateAggregateSort: (Value, Value, Value) -> seq<Diff>,
    addPrimitiveSource: (Value, Value) -> seq<Diff>
  )

  /** `code.name(id)` as a value: the display name, or `undefined`. */
  function NameValue(env: Env, id: Value): Value {
    match env.name(id)
    case Some(s) => Str(s)
    case None => Undefined
  }
}
