/**
 * The batch each diff-producing event builds, as pure functions of the
 * fact store, the collaborators and the payload. A handler either builds
 * a batch together with its `sendToServer` flag, or throws a TypeError
 * (a property read on `undefined`), in which case `dispatch` stops before
 * `executeDispatch`.
 */
module Batches {
  import opened Wrappers
  import opened JsValues
  import opened Facts
  import opened Collaborators

  datatype Built = Built(diffs: seq<Diff>, send: bool) | Threw

  /** The batch was built and starts with `d`. */
  predicate FirstDiff(b: Built, d: Diff) {
    b.Built? && |b.diffs| > 0 && b.diffs[0] == d
  }

  /** The batch was built and ends with `d`. */
  predicate LastDiff(b: Built, d: Diff) {
    b.Built? && |b.diffs| > 0 && b.diffs[|b.diffs| - 1] == d
  }

  /** The batch was built and holds `d`. */
  predicate HasDiff(b: Built, d: Diff) {
    b.Built? && d in b.diffs
  }

  /** `info.queryId`, or the active item when the payload has none. */
  function QueryIdOf(env: Env, info: Payload): Value {
    if Get(info, "queryId") != Undefined then Get(info, "queryId") else env.activeItemId
  }

  // ---------------------------------------------------------------------
  // exportView
  // ---------------------------------------------------------------------

  function ExportDiffs(store: Store, info: Payload): seq<Diff>
  {
    var q := Get(info, "queryId");
    var prev := ValueAt(store.queryToExport, q);
    (if Truthy(prev) then [Rem("query export", Arr([q, prev]))] else [])
      + [Ins("query export", Arr([q, Get(info, "viewId")]))]
  }

  lemma ExportDiffsProperties(store: Store, info: Payload)
    ensures var r := ExportDiffs(store, info);
            var q := Get(info, "queryId");
            var prev := ValueAt(store.queryToExport, q);
            && |r| == (if Truthy(prev) then 2 else 1)
            && r[|r| - 1] == Ins("query export", Arr([q, Get(info, "viewId")]))
            && (Truthy(prev) ==> r[0] == Rem("query export", Arr([q, prev])))
            && (forall d :: d in r && d.action == Removed ==> Truthy(prev))
  {
  }

  // ---------------------------------------------------------------------
  // addUnionSelection
  // ---------------------------------------------------------------------

  /** The number of tuples that satisfy `p` (the body of the source's reduce). */
  function CountIf(ts: seq<Tuple>, p: Tuple -> bool): nat
  {
    if ts == [] then 0
    else CountIf(ts[..|ts| - 1], p) + (if p(ts[|ts| - 1]) then 1 else 0)
  }

  lemma {:induction false} CountIfProperties(ts: seq<Tuple>, p: Tuple -> bool)
    ensures var n := CountIf(ts, p);
            n <= |ts|
    ensures var n := CountIf(ts, p);
            n == |ts| <==> forall i :: 0 <= i < |ts| ==> p(ts[i])
    ensures var n := CountIf(ts, p);
            n == 0 <==> forall i :: 0 <= i < |ts| ==> !p(ts[i])
    decreases |ts|
  {
    if ts != [] {
      var init := ts[..|ts| - 1];
      CountIfProperties(init, p);
      assert forall i :: 0 <= i < |init| ==> init[i] == ts[i];
    }
  }

  /** The tuple's source id differs from `s`. */
  function NotSource(env: Env, s: Value): Tuple -> bool {
    t => At(t, env.ix.sourceSource) != s
  }

  /** The tuple's field id differs from `f`. */
  function NotField(env: Env, f: Value): Tuple -> bool {
    t => At(t, env.ix.fieldField) != f
  }

  /** The select binds a different (source, view field) pair than `(s, f)`. */
  function NotSelect(env: Env, s: Value, f: Value): Tuple -> bool {
    t => At(t, env.ix.selectSource) != s || At(t, env.ix.selectViewField) != f
  }

  /** `numSources`: the existing sources other than the payload's, plus that one. */
  function SourceCount(store: Store, env: Env, info: Payload): nat {
    1 + CountIf(ListAt(store.viewToSources, Get(info, "viewId")), NotSource(env, Get(info, "sourceId")))
  }

  /** `numFields`: the existing fields other than the payload's, plus that one. */
  function FieldCount(store: Store, env: Env, info: Payload): nat {
    1 + CountIf(ListAt(store.viewToFields, Get(info, "viewId")), NotField(env, Get(info, "fieldId")))
  }

  /** `numSelects`: the existing selects of a different (source, field) pair, plus the new one. */
  function SelectCount(store: Store, env: Env, info: Payload): nat {
    1 + CountIf(ListAt(store.viewToSelects, Get(info, "viewId")),
                NotSelect(env, Get(info, "sourceId"), Get(info, "fieldId")))
  }

  /** The union is synchronizable: every (source, field) pair has a select. */
  predicate UnionPublishable(store: Store, env: Env, info: Payload) {
    SelectCount(store, env, info) == FieldCount(store, env, info) * SourceCount(store, env, info)
  }

  /** `tuples.map(t => [table, "inserted", t])`. */
  function InsertEach(table: string, ts: seq<Tuple>): seq<Diff>
  {
    seq(|ts|, i requires 0 <= i < |ts| => Ins(table, Arr(ts[i])))
  }

  lemma InsertEachProperties(table: string, ts: seq<Tuple>)
    ensures var r := InsertEach(table, ts);
            |r| == |ts|
    ensures var r := InsertEach(table, ts);
            forall i :: 0 <= i < |ts| ==> r[i] == Ins(table, Arr(ts[i]))
    ensures var r := InsertEach(table, ts);
            forall t :: t in ts ==> Ins(table, Arr(t)) in r
  {
  }

  /** `fields.map(f => ["display name", "inserted", [id, code.name(id)]])`. */
  function DisplayNames(env: Env, fields: seq<Tuple>): seq<Diff>
  {
    seq(|fields|, i requires 0 <= i < |fields| =>
      var id := At(fields[i], env.ix.fieldField);
      Ins("display name", Arr([id, NameValue(env, id)])))
  }

  lemma DisplayNamesProperties(env: Env, fields: seq<Tuple>)
    ensures var r := DisplayNames(env, fields);
            |r| == |fields|
    ensures var r := DisplayNames(env, fields);
            forall i :: 0 <= i < |fields| ==>
      var id := At(fields[i], env.ix.fieldField);
      r[i] == Ins("display name", Arr([id, NameValue(env, id)]))
    ensures var r := DisplayNames(env, fields);
            forall t :: t in fields ==>
      var id := At(t, env.ix.fieldField);
      Ins("display name", Arr([id, NameValue(env, id)])) in r
  {
  }

  /** The select the event adds, built by `diff.addViewSelection` without `isCalculated`. */
  function UnionSelectionBase(env: Env, info: Payload): seq<Diff> {
    env.addViewSelection(Get(info, "viewId"), Get(info, "sourceId"), Get(info, "sourceFieldId"),
                         Get(info, "fieldId"), Undefined)
  }

  function UnionSelection(store: Store, env: Env, info: Payload): Built
  {
    if !UnionPublishable(store, env, info) then Built(UnionSelectionBase(env, info), false)
    else UnionPublished(store, env, info)
  }

  /** The publishing half of `addUnionSelection`: every fact of the union is re-inserted after the select. */
  function UnionPublished(store: Store, env: Env, info: Payload): Built
  {
    var v := Get(info, "viewId");
    if v !in store.blockFields then Threw
    else
      var fields := ListAt(store.viewToFields, v);
      Built(UnionSelectionBase(env, info) + InsertEach("select", ListAt(store.viewToSelects, v))
              + InsertEach("source", ListAt(store.viewToSources, v))
              + InsertEach("block field", ListAt(store.blockFields[v], Str("selection")))
              + InsertEach("field", fields)
              + DisplayNames(env, fields), true)
  }

  /** The union is published exactly when every pair has its select; otherwise only the select is stored. */
  lemma UnionSelectionProperties(store: Store, env: Env, info: Payload)
    ensures var r := UnionSelection(store, env, info);
            r.Threw? <==> UnionPublishable(store, env, info) && Get(info, "viewId") !in store.blockFields
    ensures var r := UnionSelection(store, env, info);
            r.Built? ==> (r.send <==> UnionPublishable(store, env, info))
    ensures var r := UnionSelection(store, env, info);
            r.Built? && !r.send ==> r.diffs == UnionSelectionBase(env, info)
    ensures var r := UnionSelection(store, env, info);
            r.Built? && r.send ==> r == UnionPublished(store, env, info)
  {
    UnionPublishedProperties(store, env, info);
  }

  /**
   * A published union starts with the new select and inserts again every
   * select, source, block field and field of the view, and every field's
   * display name; it throws when the view has no block fields.
   */
  lemma UnionPublishedProperties(store: Store, env: Env, info: Payload)
    ensures var r := UnionPublished(store, env, info);
            r.Threw? <==> Get(info, "viewId") !in store.blockFields
    ensures var r := UnionPublished(store, env, info);
            var base := UnionSelectionBase(env, info);
            r.Built? ==> r.send && |base| <= |r.diffs| && r.diffs[..|base|] == base
    ensures var r := UnionPublished(store, env, info);
            var v := Get(info, "viewId");
            r.Built? ==>
              && (forall t :: t in ListAt(store.viewToSelects, v) ==> HasDiff(r, Ins("select", Arr(t))))
              && (forall t :: t in ListAt(store.viewToSources, v) ==> HasDiff(r, Ins("source", Arr(t))))
              && (forall t :: t in ListAt(store.blockFields[v], Str("selection")) ==> HasDiff(r, Ins("block field", Arr(t))))
              && (forall t :: t in ListAt(store.viewToFields, v) ==> HasDiff(r, Ins("field", Arr(t))))
              && (forall t :: t in ListAt(store.viewToFields, v) ==>
                    var id := At(t, env.ix.fieldField);
                    HasDiff(r, Ins("display name", Arr([id, NameValue(env, id)]))))
  {
    var v := Get(info, "viewId");
    var fields := ListAt(store.viewToFields, v);
    InsertEachProperties("select", ListAt(store.viewToSelects, v));
    InsertEachProperties("source", ListAt(store.viewToSources, v));
    if v in store.blockFields {
      InsertEachProperties("block field", ListAt(store.blockFields[v], Str("selection")));
    }
    InsertEachProperties("field", fields);
    DisplayNamesProperties(env, fields);
  }

  // ---------------------------------------------------------------------
  // addViewSource
  // ---------------------------------------------------------------------

  /**
   * The new source's id is read from the first diff the builder returns;
   * the view's kind from the "view" index. Either read throws when there
   * is nothing to read from.
   */
  function ViewSource(store: Store, env: Env, info: Payload): Built
  {
    var v := Get(info, "viewId");
    var added := env.addViewSource(v, Get(info, "sourceId"), Get(info, "kind"));
    if |added| == 0 then Threw
    else match Idx(added[0].tuple, env.ix.sourceSource)
      case None => Threw
      case Some(newSource) =>
        var diffs := added + env.autoJoin(v, newSource, Get(info, "sourceId"));
        if v !in store.view then Threw
        else
          var kind := At(store.view[v], env.ix.viewKind);
          Built(diffs, !(kind == Str("union") && |ListAt(store.viewToSelects, v)| > 0))
  }

  lemma ViewSourceProperties(store: Store, env: Env, info: Payload)
    ensures var r := ViewSource(store, env, info);
            var v := Get(info, "viewId");
            var added := env.addViewSource(v, Get(info, "sourceId"), Get(info, "kind"));
            r.Threw? <==> |added| == 0 || added[0].tuple.Undefined? || added[0].tuple.Null? || v !in store.view
    ensures var r := ViewSource(store, env, info);
            r.Built? ==>
              var v := Get(info, "viewId");
              var added := env.addViewSource(v, Get(info, "sourceId"), Get(info, "kind"));
              && |added| <= |r.diffs| && r.diffs[..|added|] == added
              && (!r.send <==> At(store.view[v], env.ix.viewKind) == Str("union")
                               && |ListAt(store.viewToSelects, v)| > 0)
    ensures var r := ViewSource(store, env, info);
            r.Built? ==>
              var v := Get(info, "viewId");
              var added := env.addViewSource(v, Get(info, "sourceId"), Get(info, "kind"));
              r.diffs == added + env.autoJoin(v, Idx(added[0].tuple, env.ix.sourceSource).value, Get(info, "sourceId"))
  {
  }

  // ---------------------------------------------------------------------
  // updateViewConstraint
  // ---------------------------------------------------------------------

  /**
   * `[value.source[ix], value.field[ix]]` for an operand picked from a
   * field token; None when `value`, `value.field` or `value.source` is
   * `undefined` or `null`.
   */
  function OperandOf(env: Env, value: Value): (r: Option<(Value, Value)>)
  {
    match Prop(value, "field")
    case None => None
    case Some(fieldTuple) =>
      match Idx(fieldTuple, env.ix.fieldField)
      case None => None
      case Some(field) =>
        match Prop(value, "source")
        case None => None
        case Some(sourceTuple) =>
          match Idx(sourceTuple, env.ix.sourceSource)
          case None => None
          case Some(source) => Some((source, field))
  }

  /**
   * The constraint's options after the edit. `nextId` is the id the
   * constant path's `uuid()` call returns.
   */
  function EditedOpts(env: Env, info: Payload, nextId: Value): Option<ConstraintOpts>
  {
    var opts := env.getConstraint(Get(info, "constraintId"));
    var ty := Get(info, "type");
    var value := Get(info, "value");
    if !Truthy(Get(info, "isConstant")) then
      if ty == Str("left") then
        match OperandOf(env, value)
        case None => None
        case Some(o) => Some(opts.(leftField := o.1, leftSource := o.0))
      else if ty == Str("right") then
        match OperandOf(env, value)
        case None => None
        case Some(o) => Some(opts.(rightField := o.1, rightSource := o.0))
      else if ty == Str("operation") then Some(opts.(operation := value))
      else Some(opts)
    else if ty == Str("left") then Some(opts.(leftField := nextId, leftSource := Str("constant")))
    else if ty == Str("right") then Some(opts.(rightField := nextId, rightSource := Str("constant")))
    else Some(opts)
  }

  lemma EditedOptsProperties(env: Env, info: Payload, nextId: Value)
    ensures var r := EditedOpts(env, info, nextId);
            var opts := env.getConstraint(Get(info, "constraintId"));
            var ty := Get(info, "type");
            Truthy(Get(info, "isConstant")) ==>
              && r.Some?
              && (ty == Str("left") ==> r.value == opts.(leftSource := Str("constant"), leftField := nextId))
              && (ty == Str("right") ==> r.value == opts.(rightSource := Str("constant"), rightField := nextId))
              && (ty != Str("left") && ty != Str("right") ==> r.value == opts)
    ensures var r := EditedOpts(env, info, nextId);
            var opts := env.getConstraint(Get(info, "constraintId"));
            var ty := Get(info, "type");
            !Truthy(Get(info, "isConstant")) ==>
              && (ty == Str("left") ==> match OperandOf(env, Get(info, "value"))
                    case None => r.None?
                    case Some(o) => r == Some(opts.(leftSource := o.0, leftField := o.1)))
              && (ty == Str("right") ==> match OperandOf(env, Get(info, "value"))
                    case None => r.None?
                    case Some(o) => r == Some(opts.(rightSource := o.0, rightField := o.1)))
              && (ty == Str("operation") ==> r == Some(opts.(operation := Get(info, "value"))))
              && (ty != Str("left") && ty != Str("right") && ty != Str("operation") ==> r == Some(opts))
  {
  }

  /** The diff the constant path pushes first. */
  function ConstantDiffs(info: Payload, nextId: Value): seq<Diff> {
    if Truthy(Get(info, "isConstant")) then [Ins("constant", Arr([nextId, Get(info, "value")]))] else []
  }

  /**
   * `constraints.map(...)`: every constraint on the left source except the
   * edited one, with its options; the edited one maps to `undefined`.
   */
  function Siblings(env: Env, constraints: seq<Tuple>, cid: Value): seq<Option<(Value, ConstraintOpts)>>
  {
    seq(|constraints|, i requires 0 <= i < |constraints| =>
      var id := At(constraints[i], 0);
      if id == cid then None else Some((id, env.getConstraint(id))))
  }

  lemma SiblingsProperties(env: Env, constraints: seq<Tuple>, cid: Value)
    ensures var r := Siblings(env, constraints, cid);
            |r| == |constraints|
    ensures var r := Siblings(env, constraints, cid);
            forall i :: 0 <= i < |r| ==>
      (r[i].None? <==> At(constraints[i], 0) == cid)
      && (r[i].Some? ==> r[i].value == (At(constraints[i], 0), env.getConstraint(At(constraints[i], 0))))
  {
  }

  /** No sibling is incomplete (the `complete = false` of the map callback never fires). */
  predicate SiblingsComplete(env: Env, sibs: seq<Option<(Value, ConstraintOpts)>>) {
    forall i :: 0 <= i < |sibs| && sibs[i].Some? ==> env.isConstraintComplete(sibs[i].value.1)
  }

  /** `constraintOpts.reduce(...)`: the update batch of every sibling, in order. */
  function SiblingUpdates(env: Env, sibs: seq<Option<(Value, ConstraintOpts)>>): seq<Diff>
  {
    if sibs == [] then []
    else
      var last := sibs[|sibs| - 1];
      SiblingUpdates(env, sibs[..|sibs| - 1])
        + (if last.Some? then env.updateViewConstraint(last.value.0, last.value.1) else [])
  }

  lemma {:induction false} SiblingUpdatesProperties(env: Env, sibs: seq<Option<(Value, ConstraintOpts)>>)
    ensures var r := SiblingUpdates(env, sibs);
            forall i, d :: (0 <= i < |sibs| && sibs[i].Some?
                            && d in env.updateViewConstraint(sibs[i].value.0, sibs[i].value.1)) ==> d in r
    decreases |sibs|
  {
    if sibs != [] {
      var init := sibs[..|sibs| - 1];
      var r := SiblingUpdates(env, sibs);
      SiblingUpdatesProperties(env, init);
      forall i, d | 0 <= i < |sibs| && sibs[i].Some? && d in env.updateViewConstraint(sibs[i].value.0, sibs[i].value.1)
        ensures d in r
      {
        if i < |init| {
          assert init[i] == sibs[i];
          assert d in SiblingUpdates(env, init);
        }
      }
    }
  }

  /**
   * The completeness gate stated directly: the edited constraint is
   * complete and so is every other constraint on the same left source.
   */
  predicate ConstraintGate(store: Store, env: Env, cid: Value, opts: ConstraintOpts) {
    var constraints := ListAt(store.sourceToConstraints, opts.leftSource);
    && env.isConstraintComplete(opts)
    && forall i :: 0 <= i < |constraints| && At(constraints[i], 0) != cid ==>
         env.isConstraintComplete(env.getConstraint(At(constraints[i], 0)))
  }

  /** The calculated field of a primitive left source and its display name, if there is one. */
  function CalculatedDiffs(store: Store, env: Env, viewId: Value, source: Value): seq<Diff> {
    var calcs := if viewId in store.calculatedFieldOf then store.calculatedFieldOf[viewId] else map[];
    var cf := ValueAt(calcs, source);
    if Truthy(cf) then
      [Ins("calculated field", TupleAt(store.calculatedField, cf)),
       Ins("display name", Arr([cf, NameValue(env, cf)]))]
    else []
  }

  /** The `updateViewConstraint` batch: an edit that cannot be resolved throws before the gate. */
  function UpdateConstraint(store: Store, env: Env, info: Payload, nextId: Value): Built
  {
    match EditedOpts(env, info, nextId)
    case None => Threw
    case Some(opts) => UpdateWithOpts(store, env, info, nextId, opts)
  }

  /** The rest of `updateViewConstraint` once the edited options `opts` are known. */
  function UpdateWithOpts(store: Store, env: Env, info: Payload, nextId: Value, opts: ConstraintOpts): Built
  {
    var cid := Get(info, "constraintId");
    var constraints := ListAt(store.sourceToConstraints, opts.leftSource);
    var sibs := Siblings(env, constraints, cid);
    var complete := env.isConstraintComplete(opts) && SiblingsComplete(env, sibs);
    var diffs := ConstantDiffs(info, nextId) + env.updateViewConstraint(cid, opts);
    if !complete then Built(diffs, false)
    else Republished(store, env, cid, opts, diffs + SiblingUpdates(env, sibs))
  }

  /** The open gate: after `diffs`, the left source, its calculated field and the constraint are inserted again. */
  function Republished(store: Store, env: Env, cid: Value, opts: ConstraintOpts, diffs: seq<Diff>): Built
  {
    var viewId := ValueAt(store.constraintToView, cid);
    if viewId !in store.source then Threw
    else
      Built(diffs
              + [Ins("source", TupleAt(store.source[viewId], opts.leftSource))]
              + CalculatedDiffs(store, env, viewId, opts.leftSource)
              + [Ins("constraint", Arr([cid, viewId]))], true)
  }

  /**
   * The gate: the batch is published exactly when the edited constraint and
   * every sibling on its left source are complete; it starts with the new
   * constant, if any, and a published one re-inserts the source, the
   * calculated field and every sibling's update and ends with the
   * constraint's fact.
   */
  lemma UpdateWithOptsProperties(store: Store, env: Env, info: Payload, nextId: Value, opts: ConstraintOpts)
    ensures var r := UpdateWithOpts(store, env, info, nextId, opts);
            var cid := Get(info, "constraintId");
            r.Threw? <==> ConstraintGate(store, env, cid, opts) && ValueAt(store.constraintToView, cid) !in store.source
    ensures var r := UpdateWithOpts(store, env, info, nextId, opts);
            r.Built? ==> (r.send <==> ConstraintGate(store, env, Get(info, "constraintId"), opts))
    ensures var r := UpdateWithOpts(store, env, info, nextId, opts);
            r.Built? && Truthy(Get(info, "isConstant")) ==> FirstDiff(r, Ins("constant", Arr([nextId, Get(info, "value")])))
    ensures var r := UpdateWithOpts(store, env, info, nextId, opts);
            var cid := Get(info, "constraintId");
            var viewId := ValueAt(store.constraintToView, cid);
            r.Built? && r.send ==>
              && LastDiff(r, Ins("constraint", Arr([cid, viewId])))
              && viewId in store.source
              && HasDiff(r, Ins("source", TupleAt(store.source[viewId], opts.leftSource)))
              && (forall d :: d in CalculatedDiffs(store, env, viewId, opts.leftSource) ==> HasDiff(r, d))
    ensures var r := UpdateWithOpts(store, env, info, nextId, opts);
            var cid := Get(info, "constraintId");
            r.Built? && r.send ==>
              forall t, d :: (t in ListAt(store.sourceToConstraints, opts.leftSource) && At(t, 0) != cid
                              && d in env.updateViewConstraint(At(t, 0), env.getConstraint(At(t, 0)))) ==> HasDiff(r, d)
  {
    var cid := Get(info, "constraintId");
    var constraints := ListAt(store.sourceToConstraints, opts.leftSource);
    var sibs := Siblings(env, constraints, cid);
    SiblingsProperties(env, constraints, cid);
    SiblingUpdatesProperties(env, sibs);
    assert env.isConstraintComplete(opts) && SiblingsComplete(env, sibs) <==> ConstraintGate(store, env, cid, opts);
    forall t, d | t in constraints && At(t, 0) != cid
        && d in env.updateViewConstraint(At(t, 0), env.getConstraint(At(t, 0)))
      ensures d in SiblingUpdates(env, sibs)
    {
      var i :| 0 <= i < |constraints| && constraints[i] == t;
      assert sibs[i].Some?;
    }
  }

  /**
   * Every batch starts with the new constant, if any, and the edited
   * constraint's own update; a withheld batch is exactly those.
   */
  lemma UpdateWithOptsContents(store: Store, env: Env, info: Payload, nextId: Value, opts: ConstraintOpts)
    ensures var r := UpdateWithOpts(store, env, info, nextId, opts);
            var edited := ConstantDiffs(info, nextId) + env.updateViewConstraint(Get(info, "constraintId"), opts);
            r.Built? ==> |edited| <= |r.diffs| && r.diffs[..|edited|] == edited
    ensures var r := UpdateWithOpts(store, env, info, nextId, opts);
            r.Built? ==>
              forall d :: d in env.updateViewConstraint(Get(info, "constraintId"), opts) ==> HasDiff(r, d)
    ensures var r := UpdateWithOpts(store, env, info, nextId, opts);
            r.Built? && !r.send ==>
              r.diffs == ConstantDiffs(info, nextId) + env.updateViewConstraint(Get(info, "constraintId"), opts)
  {
    var cid := Get(info, "constraintId");
    var sibs := Siblings(env, ListAt(store.sourceToConstraints, opts.leftSource), cid);
    var edited := ConstantDiffs(info, nextId) + env.updateViewConstraint(cid, opts);
    var r := UpdateWithOpts(store, env, info, nextId, opts);
    if r.Built? && r.send {
      var viewId := ValueAt(store.constraintToView, cid);
      var rest := SiblingUpdates(env, sibs) + [Ins("source", TupleAt(store.source[viewId], opts.leftSource))]
                  + CalculatedDiffs(store, env, viewId, opts.leftSource) + [Ins("constraint", Arr([cid, viewId]))];
      assert r.diffs == edited + rest;
    }
  }

  /**
   * The batch itself never retracts a constant: a constant removal in it
   * can only come from a constraint update the builders return. Binding
   * an operand to a new constant leaves the old constant in place.
   */
  lemma UpdateWithOptsKeepsConstants(store: Store, env: Env, info: Payload, nextId: Value, opts: ConstraintOpts)
    ensures var r := UpdateWithOpts(store, env, info, nextId, opts);
            var cid := Get(info, "constraintId");
            var sibs := Siblings(env, ListAt(store.sourceToConstraints, opts.leftSource), cid);
            forall d :: HasDiff(r, d) && d == Rem("constant", d.tuple) ==>
              d in env.updateViewConstraint(cid, opts) || d in SiblingUpdates(env, sibs)
  {
    var cid := Get(info, "constraintId");
    var sibs := Siblings(env, ListAt(store.sourceToConstraints, opts.leftSource), cid);
    var r := UpdateWithOpts(store, env, info, nextId, opts);
    if r.Built? && r.send {
      var viewId := ValueAt(store.constraintToView, cid);
      assert r.diffs == ConstantDiffs(info, nextId) + env.updateViewConstraint(cid, opts) + SiblingUpdates(env, sibs)
                        + [Ins("source", TupleAt(store.source[viewId], opts.leftSource))]
                        + CalculatedDiffs(store, env, viewId, opts.leftSource) + [Ins("constraint", Arr([cid, viewId]))];
    }
  }

  /** `updateViewConstraint` throws exactly when the edit cannot be resolved, or the gate passes on a view with no source fact. */
  lemma UpdateConstraintProperties(store: Store, env: Env, info: Payload, nextId: Value)
    ensures UpdateConstraint(store, env, info, nextId).Threw? <==>
            match EditedOpts(env, info, nextId)
            case None => true
            case Some(opts) => ConstraintGate(store, env, Get(info, "constraintId"), opts)
                               && ValueAt(store.constraintToView, Get(info, "constraintId")) !in store.source
  {
    if EditedOpts(env, info, nextId).Some? {
      UpdateWithOptsProperties(store, env, info, nextId, EditedOpts(env, info, nextId).value);
    }
  }

  // ---------------------------------------------------------------------
  // removeViewConstraint
  // ---------------------------------------------------------------------

  /** `constraints.forEach(c => diffs = diffs.concat(diff.removeViewConstraint(c[ix])))`. */
  function RemoveEach(env: Env, constraints: seq<Tuple>): seq<Diff>
  {
    if constraints == [] then []
    else RemoveEach(env, constraints[..|constraints| - 1])
           + env.removeViewConstraint(At(constraints[|constraints| - 1], env.ix.constraintConstraint))
  }

  lemma {:induction false} RemoveEachProperties(env: Env, constraints: seq<Tuple>)
    ensures var r := RemoveEach(env, constraints);
            forall i, d :: (0 <= i < |constraints|
                            && d in env.removeViewConstraint(At(constraints[i], env.ix.constraintConstraint))) ==> d in r
    decreases |constraints|
  {
    if constraints != [] {
      var init := constraints[..|constraints| - 1];
      var r := RemoveEach(env, constraints);
      RemoveEachProperties(env, init);
      forall i, d | 0 <= i < |constraints| && d in env.removeViewConstraint(At(constraints[i], env.ix.constraintConstraint))
        ensures d in r
      {
        if i < |init| {
          assert init[i] == constraints[i];
          assert d in RemoveEach(env, init);
        }
      }
    }
  }

  /** The calculated field id of the constraint's left source, if it is a primitive. */
  function CalculatedIdOf(store: Store, c: ConstraintOpts): Value {
    var calcs := if c.view in store.calculatedFieldOf then store.calculatedFieldOf[c.view] else map[];
    ValueAt(calcs, c.leftSource)
  }

  function RemoveConstraint(store: Store, env: Env, info: Payload): Built
  {
    var c := env.getConstraint(Get(info, "constraintId"));
    var calcId := CalculatedIdOf(store, c);
    if Truthy(calcId) then
      var constraints := ListAt(store.sourceToConstraints, c.leftSource);
      if c.view !in store.source then Threw
      else
        var removals := RemoveEach(env, constraints);
        Built(removals
                + [Rem("calculated field", TupleAt(store.calculatedField, calcId)),
                   Rem("source", TupleAt(store.source[c.view], c.leftSource))], true)
    else Built(env.removeViewConstraint(Get(info, "constraintId")), true)
  }

  lemma RemoveConstraintProperties(store: Store, env: Env, info: Payload)
    ensures var r := RemoveConstraint(store, env, info);
            r.Built? ==> r.send
    ensures var r := RemoveConstraint(store, env, info);
            var c := env.getConstraint(Get(info, "constraintId"));
            !Truthy(CalculatedIdOf(store, c)) ==>
              r == Built(env.removeViewConstraint(Get(info, "constraintId")), true)
    ensures var r := RemoveConstraint(store, env, info);
            var c := env.getConstraint(Get(info, "constraintId"));
            Truthy(CalculatedIdOf(store, c)) ==>
              (r.Threw? <==> c.view !in store.source)
    ensures var r := RemoveConstraint(store, env, info);
            var c := env.getConstraint(Get(info, "constraintId"));
            var calcId := CalculatedIdOf(store, c);
            var constraints := ListAt(store.sourceToConstraints, c.leftSource);
            Truthy(calcId) && r.Built? ==>
              && |r.diffs| >= 2
              && r.diffs[|r.diffs| - 2] == Rem("calculated field", TupleAt(store.calculatedField, calcId))
              && r.diffs[|r.diffs| - 1] == Rem("source", TupleAt(store.source[c.view], c.leftSource))
              && (forall i, d :: 0 <= i < |constraints|
                    && d in env.removeViewConstraint(At(constraints[i], env.ix.constraintConstraint))
                    ==> d in r.diffs[..|r.diffs| - 2])
  {
    var c := env.getConstraint(Get(info, "constraintId"));
    var r := RemoveConstraint(store, env, info);
    if Truthy(CalculatedIdOf(store, c)) && r.Built? {
      RemoveEachProperties(env, ListAt(store.sourceToConstraints, c.leftSource));
      assert r.diffs[..|r.diffs| - 2] == RemoveEach(env, ListAt(store.sourceToConstraints, c.leftSource));
    }
  }

  // ---------------------------------------------------------------------
  // updateAggregateSort
  // ---------------------------------------------------------------------

  /** Publishes only when the new sorting tuple has both an inner field and a direction. */
  function AggregateSort(env: Env, info: Payload): Built
  {
    var d := env.updateAggregateSort(Get(info, "viewId"), Get(info, "field"), Get(info, "direction"));
    if |d| == 0 then Threw
    else
      var neue := d[0].tuple;
      match Idx(neue, env.ix.sortInnerField)
      case None => Threw
      case Some(inner) =>
        match Idx(neue, env.ix.sortDirection)
        case None => Threw
        case Some(direction) => Built(d, Truthy(inner) && Truthy(direction))
  }

  lemma AggregateSortProperties(env: Env, info: Payload)
    ensures var r := AggregateSort(env, info);
            var d := env.updateAggregateSort(Get(info, "viewId"), Get(info, "field"), Get(info, "direction"));
            r.Threw? <==> |d| == 0 || d[0].tuple.Undefined? || d[0].tuple.Null?
    ensures var r := AggregateSort(env, info);
            var d := env.updateAggregateSort(Get(info, "viewId"), Get(info, "field"), Get(info, "direction"));
            r.Built? ==>
              && r.diffs == d
              && (r.send <==> Truthy(Idx(d[0].tuple, env.ix.sortInnerField).value)
                              && Truthy(Idx(d[0].tuple, env.ix.sortDirection).value))
  {
  }

  // ---------------------------------------------------------------------
  // updateAggregateLimit
  // ---------------------------------------------------------------------

  /** `info.key === "from"` selects the "from" table, anything else the "to" table. */
  function LimitTable(info: Payload): string {
    if Get(info, "key") == Str("from") then "aggregate limit from" else "aggregate limit to"
  }

  function LimitIndex(store: Store, info: Payload): map<Value, Tuple> {
    if Get(info, "key") == Str("from") then store.limitFrom else store.limitTo
  }

  /** The limit fact: the existing one, or `[viewId, "constant", nextId]`. */
  function LimitFact(store: Store, info: Payload, nextId: Value): Tuple {
    var index := LimitIndex(store, info);
    var v := Get(info, "viewId");
    if v in index then index[v] else [v, Str("constant"), nextId]
  }

  /** The constant id: an existing limit's third element, else the fresh id. */
  function LimitConstantId(store: Store, info: Payload, nextId: Value): Value {
    var index := LimitIndex(store, info);
    var v := Get(info, "viewId");
    if v in index then At(index[v], 2) else nextId
  }

  /** The old constant's removal, when an existing limit's constant holds a different value. */
  function StaleConstant(store: Store, info: Payload, nextId: Value): seq<Diff> {
    var constantId := LimitConstantId(store, info, nextId);
    if Get(info, "viewId") in LimitIndex(store, info) && constantId in store.constant
       && At(store.constant[constantId], 1) != Get(info, "value")
    then [Rem("constant", Arr(store.constant[constantId]))]
    else []
  }

  function AggregateLimit(store: Store, info: Payload, nextId: Value, initialValue: Value): Built
  {
    var send := Truthy(Get(info, "sendToServer"));
    var constantId := LimitConstantId(store, info, nextId);
    var value := Get(info, "value");
    var limit := Arr(LimitFact(store, info, nextId));
    var table := LimitTable(info);
    var body := if Truthy(value) then [Ins("constant", Arr([constantId, value])), Ins(table, limit)]
                else [Rem(table, limit)];
    var initial := if send && Truthy(initialValue) && initialValue != value
                   then [Rem("constant", Arr([constantId, initialValue]))] else [];
    Built(StaleConstant(store, info, nextId) + body + initial, send)
  }

  lemma AggregateLimitProperties(store: Store, info: Payload, nextId: Value, initialValue: Value)
    ensures var r := AggregateLimit(store, info, nextId, initialValue);
            r.Built? && r.send == Truthy(Get(info, "sendToServer"))
    ensures var r := AggregateLimit(store, info, nextId, initialValue);
            var constantId := LimitConstantId(store, info, nextId);
            var value := Get(info, "value");
            var limit := Arr(LimitFact(store, info, nextId));
            var table := LimitTable(info);
            var stale := StaleConstant(store, info, nextId);
            var initial := r.send && Truthy(initialValue) && initialValue != value;
            && |r.diffs| == |stale| + (if Truthy(value) then 2 else 1) + (if initial then 1 else 0)
            && r.diffs[..|stale|] == stale
            && (Truthy(value) ==> r.diffs[|stale|..|stale| + 2] == [Ins("constant", Arr([constantId, value])), Ins(table, limit)])
            && (!Truthy(value) ==> r.diffs[|stale|] == Rem(table, limit))
            && (initial ==> r.diffs[|r.diffs| - 1] == Rem("constant", Arr([constantId, initialValue])))
    ensures var r := AggregateLimit(store, info, nextId, initialValue);
            forall d :: d in r.diffs && d.action == Inserted ==> Truthy(Get(info, "value"))
  {
  }

  // ---------------------------------------------------------------------
  // updateAggregateGrouping
  // ---------------------------------------------------------------------

  function AggregateGrouping(store: Store, env: Env, info: Payload): Built
  {
    var v := Get(info, "aggregate");
    var neue := [v, Get(info, "field"), Get(info, "field")];
    if v in store.grouping then
      var prev := store.grouping[v];
      Built((if env.arraysIdentical(prev, neue) then [] else [Rem("aggregate grouping", Arr(prev))])
              + [Ins("aggregate grouping", Arr(neue))], true)
    else if v !in store.source then Threw
    else
      var sources := store.source[v];
      var outer := if Str("outer") in sources then [Rem("source", Arr(sources[Str("outer")]))] else [];
      match Idx(TupleAt(sources, Str("inner")), env.ix.sourceView)
      case None => Threw
      case Some(innerView) =>
        Built(outer + [Ins("source", Arr([v, Str("outer"), innerView])), Ins("aggregate grouping", Arr(neue))], true)
  }

  lemma AggregateGroupingProperties(store: Store, env: Env, info: Payload)
    ensures var r := AggregateGrouping(store, env, info);
            var v := Get(info, "aggregate");
            r.Threw? <==> v !in store.grouping && (v !in store.source || Str("inner") !in store.source[v])
    ensures var r := AggregateGrouping(store, env, info);
            var v := Get(info, "aggregate");
            var f := Get(info, "field");
            r.Built? ==> r.send && |r.diffs| > 0 && r.diffs[|r.diffs| - 1] == Ins("aggregate grouping", Arr([v, f, f]))
    ensures var r := AggregateGrouping(store, env, info);
            var v := Get(info, "aggregate");
            var f := Get(info, "field");
            v in store.grouping ==>
              var prev := store.grouping[v];
              r == Built((if env.arraysIdentical(prev, [v, f, f]) then [] else [Rem("aggregate grouping", Arr(prev))])
                           + [Ins("aggregate grouping", Arr([v, f, f]))], true)
    ensures var r := AggregateGrouping(store, env, info);
            var v := Get(info, "aggregate");
            v !in store.grouping && r.Built? ==>
              var sources := store.source[v];
              var inner := At(sources[Str("inner")], env.ix.sourceView);
              && Ins("source", Arr([v, Str("outer"), inner])) in r.diffs
              && |r.diffs| == (if Str("outer") in sources then 3 else 2)
              && (if Str("outer") in sources then r.diffs[0] == Rem("source", Arr(sources[Str("outer")]))
                  else r.diffs[0] == Ins("source", Arr([v, Str("outer"), inner])))
  {
  }
}
