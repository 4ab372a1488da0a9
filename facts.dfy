/**
 * Diff tuples and the read-only view of the fact store that the dispatch
 * engine consults while it builds a batch.
 */
module Facts {
  import opened JsValues

  /** A fact as stored: an ordered tuple of values. */
  type Tuple = seq<Value>

  datatype Action = Inserted | Removed

  /**
   * One diff `[table, "inserted" | "removed", tuple]`. The tuple is a value
   * because the engine sometimes pushes the result of a store lookup that
   * may be `undefined`.
   */
  datatype Diff = Diff(table: string, action: Action, tuple: Value)

  function Ins(table: string, t: Value): Diff { Diff(table, Inserted, t) }
  function Rem(table: string, t: Value): Diff { Diff(table, Removed, t) }

  /**
   * The indexes `ixer.index(name)` that the dispatch engine reads, one
   * field per index name. A missing key reads as `undefined`.
   */
  datatype Store = Store(
    queryToExport: map<Value, Value>,                   // "query to export"
    primitive: map<Value, Tuple>,                       // "primitive"
    viewToSources: map<Value, seq<Tuple>>,              // "view to sources"
    viewToFields: map<Value, seq<Tuple>>,               // "view to fields"
    viewToSelects: map<Value, seq<Tuple>>,              // "view to selects"
    blockFields: map<Value, map<Value, seq<Tuple>>>,    // "view and source to block fields"
    view: map<Value, Tuple>,                            // "view"
    constraintToView: map<Value, Value>,                // "constraint to view"
    sourceToConstraints: map<Value, seq<Tuple>>,        // "source to constraints"
    source: map<Value, map<Value, Tuple>>,              // "source": view -> source id -> source
    calculatedFieldOf: map<Value, map<Value, Value>>,   // "view and source to calculated field"
    calculatedField: map<Value, Tuple>,                 // "calculated field"
    limitFrom: map<Value, Tuple>,                       // "aggregate limit from"
    limitTo: map<Value, Tuple>,                         // "aggregate limit to"
    constant: map<Value, Tuple>,                        // "constant"
    grouping: map<Value, Tuple>,                        // "aggregate grouping"
    constantToValue: map<Value, Value>,                 // "constant to value"
    fieldToCalculatedField: map<Value, Value>           // "field to calculated field"
  )

  /** `index[key]` for an index of plain values. */
  function ValueAt(m: map<Value, Value>, key: Value): Value {
    if key in m then m[key] else Undefined
  }

  /** `index[key]` for an index of tuples: the tuple as a value, or `undefined`. */
  function TupleAt(m: map<Value, Tuple>, key: Value): Value {
    if key in m then Arr(m[key]) else Undefined
  }

  /** `index[key] || []` for an index of tuple lists. */
  function ListAt(m: map<Value, seq<Tuple>>, key: Value): seq<Tuple> {
    if key in m then m[key] else []
  }
}
