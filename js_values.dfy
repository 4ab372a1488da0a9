/**
 * The dynamically typed values the query editor passes around: event
 * payloads, fact tuples and editor state are all plain JavaScript values.
 * Numbers are restricted to integers (the editor's ids and counts are).
 */
module JsValues {
  import opened Wrappers

  datatype Value =
    | Undefined
    | Null
    | Bool(b: bool)
    | Num(n: int)
    | Str(s: string)
    | Arr(items: seq<Value>)
    | Obj(props: map<string, Value>)

  /** An event payload: the object literal handed to `dispatch`. */
  type Payload = map<string, Value>

  /** JavaScript truthiness: `undefined`, `null`, `false`, `0` and `""` are falsy. */
  predicate Truthy(v: Value) {
    match v
    case Undefined => false
    case Null => false
    case Bool(b) => b
    case Num(n) => n != 0
    case Str(s) => s != ""
    case Arr(_) => true
    case Obj(_) => true
  }

  /** `info.key` on a payload object: a missing property reads as `undefined`. */
  function Get(info: Payload, key: string): (v: Value)
    ensures key !in info ==> v == Undefined
    ensures key in info ==> v == info[key]
  {
    if key in info then info[key] else Undefined
  }

  /**
   * `v.key` on an arbitrary value. Reading a property of `undefined` or
   * `null` throws a TypeError, shown as None; other non-objects yield
   * `undefined`.
   */
  function Prop(v: Value, key: string): (r: Option<Value>)
    ensures r.None? <==> v.Undefined? || v.Null?
    ensures v.Obj? && key in v.props ==> r == Some(v.props[key])
  {
    match v
    case Undefined => None
    case Null => None
    case Obj(m) => Some(if key in m then m[key] else Undefined)
    case _ => Some(Undefined)
  }

  /** `v[i]` on an arbitrary value; same throwing rule as Prop. */
  function Idx(v: Value, i: nat): (r: Option<Value>)
    ensures r.None? <==> v.Undefined? || v.Null?
    ensures v.Arr? && i < |v.items| ==> r == Some(v.items[i])
    ensures v.Arr? && i >= |v.items| ==> r == Some(Undefined)
  {
    match v
    case Undefined => None
    case Null => None
    case Arr(s) => Some(if i < |s| then s[i] else Undefined)
    case _ => Some(Undefined)
  }

  /** `t[i]` on a tuple read from the fact store: out of range is `undefined`. */
  function At(t: seq<Value>, i: nat): (v: Value)
    ensures i < |t| ==> v == t[i]
    ensures i >= |t| ==> v == Undefined
  {
    if i < |t| then t[i] else Undefined
  }
}
