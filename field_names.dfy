/**
 * The naming helpers the query editor uses to label fields, and the
 * collection of a block's (source, field) pairs.
 */
module FieldNames {
  import opened JsValues
  import opened Facts
  import opened Collaborators

  /** `getLocalFieldName(fieldId)`: a calculated field goes by its calculation's name. */
  function LocalFieldName(store: Store, env: Env, fieldId: Value): (r: Value)
    ensures Truthy(ValueAt(store.fieldToCalculatedField, fieldId)) ==>
              r == NameValue(env, ValueAt(store.fieldToCalculatedField, fieldId))
    ensures !Truthy(ValueAt(store.fieldToCalculatedField, fieldId)) ==> r == NameValue(env, fieldId)
  {
    var calculatedId := ValueAt(store.fieldToCalculatedField, fieldId);
    if Truthy(calculatedId) then NameValue(env, calculatedId) else NameValue(env, fieldId)
  }

  /**
   * Fields produced by one calculation go by one local name, whatever
   * their own names are.
   */
  lemma CalculatedFieldsShareLocalName(store: Store, env: Env, fieldA: Value, fieldB: Value)
    requires Truthy(ValueAt(store.fieldToCalculatedField, fieldA))
    requires ValueAt(store.fieldToCalculatedField, fieldA) == ValueAt(store.fieldToCalculatedField, fieldB)
    ensures LocalFieldName(store, env, fieldA) == LocalFieldName(store, env, fieldB)
  {
  }

  /**
   * `getFieldName(viewId, sourceId, fieldId)`: a constant is shown as its
   * value, a calculated field by its calculation's name, and otherwise
   * `source.field`, falling back to the field's name and then to "field".
   */
  function FieldName(store: Store, env: Env, viewId: Value, sourceId: Value, fieldId: Value): (r: Value)
    ensures sourceId == Str("constant") ==> r == ValueAt(store.constantToValue, fieldId)
    ensures sourceId != Str("constant") && !Truthy(ValueAt(store.fieldToCalculatedField, fieldId)) ==>
              r.Str? && Truthy(r)
  {
    if sourceId == Str("constant") then ValueAt(store.constantToValue, fieldId)
    else
      var calculatedId := ValueAt(store.fieldToCalculatedField, fieldId);
      if Truthy(calculatedId) then NameValue(env, calculatedId)
      else
        var sourceName := NameValue(env, sourceId);
        var fieldName := NameValue(env, fieldId);
        if Truthy(sourceName) && Truthy(fieldName) then Str(sourceName.s + "." + fieldName.s)
        else if Truthy(fieldName) then fieldName
        else Str("field")
  }

  /**
   * Outside constants, the full label extends the local one: it is the
   * local name itself, the local name qualified by a named source, or the
   * "field" placeholder when the field has no name at all.
   */
  lemma FieldNameExtendsLocal(store: Store, env: Env, viewId: Value, sourceId: Value, fieldId: Value)
    requires sourceId != Str("constant")
    ensures var r := FieldName(store, env, viewId, sourceId, fieldId);
      var local := LocalFieldName(store, env, fieldId);
      var calculated := Truthy(ValueAt(store.fieldToCalculatedField, fieldId));
      (calculated ==> r == local)
      && (!calculated && Truthy(local) && Truthy(NameValue(env, sourceId)) ==>
            r == Str(NameValue(env, sourceId).s + "." + local.s))
      && (!calculated && Truthy(local) && !Truthy(NameValue(env, sourceId)) ==> r == local)
      && (!calculated && !Truthy(local) ==> r == Str("field"))
  {
  }

  /** A qualified label ends in the local name, after a dot. */
  lemma QualifiedLabelEndsWithLocal(store: Store, env: Env, viewId: Value, sourceId: Value, fieldId: Value)
    requires sourceId != Str("constant")
    requires !Truthy(ValueAt(store.fieldToCalculatedField, fieldId))
    requires Truthy(NameValue(env, sourceId)) && Truthy(NameValue(env, fieldId))
    ensures var r := FieldName(store, env, viewId, sourceId, fieldId);
      var suffix := "." + LocalFieldName(store, env, fieldId).s;
      |r.s| > |suffix| && r.s[|r.s| - |suffix|..] == suffix
  {
    var sn := NameValue(env, sourceId).s;
    var suffix := "." + NameValue(env, fieldId).s;
    assert (sn + suffix)[|sn|..] == suffix;
    assert sn + "." + NameValue(env, fieldId).s == sn + suffix;
  }

  /** One entry of `getBlockFields`: `{source: source, field: field}`. */
  datatype BlockField = BlockField(source: Tuple, field: Tuple)

  /** The fields of the view a source reads: `ixer.index("view to fields")[sourceViewId] || []`. */
  function SourceFields(store: Store, env: Env, source: Tuple): seq<Tuple> {
    ListAt(store.viewToFields, At(source, env.ix.sourceView))
  }

  /** Each source paired with each of its view's fields, sources in order. */
  function BlockFieldsOf(store: Store, env: Env, sources: seq<Tuple>): seq<BlockField>
    decreases |sources|
  {
    if sources == [] then []
    else
      var last := sources[|sources| - 1];
      BlockFieldsOf(store, env, sources[..|sources| - 1])
        + seq(|SourceFields(store, env, last)|, j requires 0 <= j < |SourceFields(store, env, last)| =>
                BlockField(last, SourceFields(store, env, last)[j]))
  }

  /** A pair is listed exactly when its source is one of the view's and its field one of that source's view. */
  lemma {:induction false} BlockFieldsMembers(store: Store, env: Env, sources: seq<Tuple>, p: BlockField)
    ensures p in BlockFieldsOf(store, env, sources) <==>
            p.source in sources && p.field in SourceFields(store, env, p.source)
    decreases |sources|
  {
    if sources != [] {
      var init := sources[..|sources| - 1];
      var last := sources[|sources| - 1];
      var fs := SourceFields(store, env, last);
      var tail := seq(|fs|, j requires 0 <= j < |fs| => BlockField(last, fs[j]));
      BlockFieldsMembers(store, env, init, p);
      assert p in tail <==> p.source == last && p.field in fs by {
        if p.source == last && p.field in fs {
          var j :| 0 <= j < |fs| && fs[j] == p.field;
          assert tail[j] == p;
        }
      }
      assert BlockFieldsOf(store, env, sources) == BlockFieldsOf(store, env, init) + tail;
      assert sources == init + [last];
      assert p.source in sources <==> p.source in init || p.source == last;
      if p.source == last {
        assert SourceFields(store, env, p.source) == fs;
      }
    }
  }

  /** The pair list is as long as the sources' field lists together. */
  function FieldTotal(store: Store, env: Env, sources: seq<Tuple>): nat
    decreases |sources|
  {
    if sources == [] then 0
    else FieldTotal(store, env, sources[..|sources| - 1]) + |SourceFields(store, env, sources[|sources| - 1])|
  }

  lemma {:induction false} BlockFieldsLength(store: Store, env: Env, sources: seq<Tuple>)
    ensures |BlockFieldsOf(store, env, sources)| == FieldTotal(store, env, sources)
    decreases |sources|
  {
    if sources != [] {
      BlockFieldsLength(store, env, sources[..|sources| - 1]);
    }
  }

  /** `getBlockFields(viewId)`: the `reduce` that pushes every source's pairs onto one list. */
  method GetBlockFields(store: Store, env: Env, viewId: Value) returns (memo: seq<BlockField>)
    ensures memo == BlockFieldsOf(store, env, ListAt(store.viewToSources, viewId))
  {
    var sources := ListAt(store.viewToSources, viewId);
    memo := [];
    var i := 0;
    while i < |sources|
      invariant 0 <= i <= |sources|
      invariant memo == BlockFieldsOf(store, env, sources[..i])
    {
      var source := sources[i];
      var fields := SourceFields(store, env, source);
      assert sources[..i + 1][..i] == sources[..i];
      memo := memo + seq(|fields|, j requires 0 <= j < |fields| => BlockField(source, fields[j]));
      i := i + 1;
    }
    assert sources[..i] == sources;
  }
}
