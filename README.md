# Query editor dispatch engine and runtime change log, in Dafny

This project models two pieces of a visual relational-query builder and proves properties of them.

**The dispatch engine of the query editor** (`ui/src/query-editor.ts`). `dispatch(evt, info)` takes a user action and does the following:
- assigns the next transaction id;
- builds a batch of fact insertions and removals ("diffs") from the editor's fact store (`ixer`);
- decides whether the batch may be sent to the server;
- hands the batch to `eveEditor.executeDispatch`.

Events it does not recognise are forwarded unchanged to the generic editor. Six events only update local editor state: the active block, the suggestion context and the token edit state.

The model has two layers:
- `DispatchSpec.Step` is the pure specification, a transition on an `EditorState` value. It takes the case `k` that `switch(evt)` selects, `Events.EventOf(evt)`, next to the event name itself. `Handle` covers the recognised cases except `addAggregateBlock`, and `AggregateBlockStep` covers that one, with its nested `addPrimitiveSource` dispatch.
- `QueryEditor.Editor` is a class whose fields are the editor's local state, and `Dispatch` is its method. The method's postcondition ties its new state to `Step`. Each case's loops (the union counts, the constraint-sibling scan, the removal cascade) are methods proved against the functions in `Batches`.

The helpers `coerceInput`, `getFieldName`, `getLocalFieldName` and `getBlockFields` are in `CoerceInput` and `FieldNames`.

**The runtime's change log** (`runtime/src/flow.rs`). A `Flow` holds three things:
- a vector of table nodes, with a parallel vector of output relations;
- an append-only log of `(id, changes)` pairs;
- a dirty index set.

`Flows.Flow` models it as a class with those fields. Relations are an abstract type, and the relation operations (`with_fields`, `change`, `as_changes`) are the fields of an `Ops` record.

How JavaScript is represented:
- **Values.** JavaScript values are the `JsValues.Value` datatype. Payloads are maps from property names to values. Falsiness follows JavaScript's rules.
- **Exceptions.** A property read on `undefined` or `null` throws a TypeError in the source. This is the outcome `Threw` (`ok == false`): the transaction id has already been taken, and `executeDispatch` is not reached.
- **Collaborators.** Functions the engine calls but whose code is not part of this model are arbitrary total functions in `Collaborators.Env`. These are `api.diff.*`, `code.*`, `uuid` and `api.arraysIdentical`, so every property holds whatever they compute. Only `dispatch`'s own `uuid()` calls (ui/src/query-editor.ts lines 95, 202 and 279) draw from the counter `minted`; the `n`-th such call returns `env.uuid(n)`. Ids that the `api.diff.*` builders generate, such as the source id read at line 168 or the aggregate's view id read at line 103, are functions of the builders' arguments: the model does not count them, and equal calls yield equal ids.

Where the code and the design description differ, the model follows the code:
- The six local-state events do reach `executeDispatch`, with an empty batch and both flags true. The design describes them as producing no batch.
- `storeEvent` is true for every event; no case clears it.
- Binding a constraint operand to a new constant inserts the constant but never removes the one it replaces. The design calls for a `("constant", "removed", …)` diff for the old constant. Any constant removal in such a batch comes from the builders' constraint updates (`Batches.UpdateWithOptsKeepsConstants`).
- Each recorded execution carries the transaction id of the dispatch that issued it. The code computes `txId` but does not pass it to `executeDispatch`; the model keeps it in the log only to state the order of executions.

## Model

| member | source | states |
|---|---|---|
| QueryEditor.Editor.Dispatch | ui/src/query-editor.ts:67-382 | the editor's new state and whether the call threw are exactly those of `Step` on the old state, for the case the event name selects; the nested `addPrimitiveSource` call does what a dispatch of that event does |
| QueryEditor.Editor.ExecuteDispatch | ui/src/query-editor.ts:377-379 | appends one execution, with its diffs and flags, to the log; nothing else changes |
| QueryEditor.Editor.UpdateLocalState | ui/src/query-editor.ts:327-370 | the local-state cases: succeeds exactly when `LocalUpdate` does and then takes its state; leaves the state unchanged when it throws |
| QueryEditor.Editor.NextTx | ui/src/query-editor.ts:71 | `++localState.txId`: returns the incremented id; nothing else changes |
| QueryEditor.Editor.DispatchCase | ui/src/query-editor.ts:74-379 | for the selected case, the new state and outcome are exactly those of `Step` |
| QueryEditor.Editor.HandleCase | ui/src/query-editor.ts:74-379 | a recognised case other than `addAggregateBlock` does exactly what `Handle` says |
| QueryEditor.Editor.LocalCase | ui/src/query-editor.ts:327-379 | a local-state case does exactly what `LocalHandle` says |
| QueryEditor.Editor.BatchCase | ui/src/query-editor.ts:71-379 | a batch case other than `addAggregateBlock` does exactly what `BatchHandle` says |
| QueryEditor.Editor.Publish | ui/src/query-editor.ts:377-379 | a built batch is recorded under the transaction id, with its publish flag; a batch that threw records nothing |
| QueryEditor.Editor.PrimitiveSourceCase | ui/src/query-editor.ts:322-326 | the nested `addPrimitiveSource` dispatch: takes the next id and records the primitive's batch, unpublished |
| QueryEditor.Editor.AggregateBlockCase | ui/src/query-editor.ts:98-106 | `addAggregateBlock`, nested dispatch included, does exactly what `AggregateBlockStep` says |
| QueryEditor.Editor.BuildBatch | ui/src/query-editor.ts:74-326 | each batch case yields exactly `Batch` for that event; only the uuid counter moves, by `Mints` |
| QueryEditor.Editor.Uuid | ui/src/query-editor.ts:94 | hands out the next id and advances the counter by one |
| QueryEditor.Editor.BuildAggregateLimit | ui/src/query-editor.ts:274-299 | the `updateAggregateLimit` pushes equal `AggregateLimit`; one uuid is taken |
| QueryEditor.Editor.BuildAggregateGrouping | ui/src/query-editor.ts:300-321 | the `updateAggregateGrouping` pushes equal `AggregateGrouping`, including its throws |
| QueryEditor.ReduceCount | ui/src/query-editor.ts:122-138 | the `reduce` starting at 1 equals one plus the number of tuples satisfying the test |
| QueryEditor.UnionPublishableCheck | ui/src/query-editor.ts:119-141 | the three `reduce` counts decide exactly `UnionPublishable` |
| QueryEditor.BuildUnionSelection | ui/src/query-editor.ts:117-165 | the counts and the concatenations equal `UnionSelection` |
| QueryEditor.BuildUnionPublished | ui/src/query-editor.ts:143-163 | the five concatenations equal `UnionPublished` |
| QueryEditor.ScanSiblings | ui/src/query-editor.ts:214-225 | collects every sibling constraint's options, skipping the edited one, and `complete` is the edited constraint's completeness and every sibling's |
| QueryEditor.AppendSiblingUpdates | ui/src/query-editor.ts:229-232 | appends each present sibling's update batch, in order |
| QueryEditor.BuildUpdateConstraint | ui/src/query-editor.ts:186-250 | the `updateViewConstraint` case equals `UpdateConstraint` |
| QueryEditor.BuildUpdateWithOpts | ui/src/query-editor.ts:210-248 | once the options are resolved, the sibling scan, the edited update and the gate equal `UpdateWithOpts` |
| QueryEditor.BuildRepublished | ui/src/query-editor.ts:233-244 | the pushes after a passed gate equal `Republished` |
| QueryEditor.BuildRemoveConstraint | ui/src/query-editor.ts:251-267 | the `forEach` cascade equals `RemoveConstraint` |
| Events.EventOf | ui/src/query-editor.ts:74-371 | a recognised kind is the one whose case string is the event name |
| Events.NameOfSelectsKind | ui/src/query-editor.ts:74-371 | every case string selects its own case, so no two cases share a name |
| Batches.ExportDiffsProperties | ui/src/query-editor.ts:75-92 | the new export is inserted last; the previous one is removed first exactly when it is truthy; nothing else is removed |
| Batches.CountIfProperties | ui/src/query-editor.ts:122-138 | the count is at most the length; it equals the length exactly when every tuple passes and is 0 exactly when none does |
| Batches.InsertEachProperties | ui/src/query-editor.ts:144-158 | one insertion per tuple, in order, into the named table; every tuple is inserted |
| Batches.DisplayNamesProperties | ui/src/query-editor.ts:159-163 | one display-name insertion per field, pairing its id with its name |
| Batches.UnionSelectionProperties | ui/src/query-editor.ts:117-165 | sends exactly when `numSelects == numFields * numSources`; otherwise only the selection diffs are kept; a sent batch is the published union; throws exactly when it sends and the view has no block fields |
| Batches.UnionPublishedProperties | ui/src/query-editor.ts:143-163 | the published union starts with the selection diffs and re-inserts every select, source, selection block field and field of the view, and every field's display name; throws exactly when the view has no block fields |
| Batches.ViewSourceProperties | ui/src/query-editor.ts:166-178 | throws exactly when there is no first diff, its tuple is nullish or the view is unknown; the batch is exactly the builder's diffs followed by `autoJoin` of the new source id read from the first diff; withheld exactly for a union view that already has selects |
| Batches.EditedOptsProperties | ui/src/query-editor.ts:186-210 | the constant path sets the chosen side to `"constant"` and the fresh id; the other path sets the chosen operand or operation from the picked token and fails where the token is missing |
| Batches.SiblingsProperties | ui/src/query-editor.ts:216-225 | one entry per constraint on the left source: empty for the edited one, otherwise its id and options |
| Batches.SiblingUpdatesProperties | ui/src/query-editor.ts:229-232 | contains every present sibling's update diffs |
| Batches.UpdateWithOptsContents | ui/src/query-editor.ts:200-248 | a built batch starts with the new constant, if any, followed by the edited constraint's `updateViewConstraint` diffs, and holds all of them; a withheld batch is exactly those |
| Batches.UpdateWithOptsKeepsConstants | ui/src/query-editor.ts:200-248 | every constant removal in the batch comes from the builders' constraint updates; the case itself never retracts a constant |
| Batches.UpdateWithOptsProperties | ui/src/query-editor.ts:210-248 | with the edited options resolved: sends exactly when the edited constraint and all siblings are complete; the constant path first inserts the constant; when it sends, it holds every sibling's update, the source re-insert and the calculated-field diffs, and ends in the constraint insert; throws exactly when it sends on a view with no source fact |
| Batches.UpdateConstraintProperties | ui/src/query-editor.ts:186-250 | throws exactly when the picked token cannot be read, or when the batch sends on a view with no source fact |
| Batches.RemoveEachProperties | ui/src/query-editor.ts:257-260 | contains each constraint's removal diffs |
| Batches.RemoveConstraintProperties | ui/src/query-editor.ts:251-267 | always sends; with no calculated field it is the builder's removal; otherwise every sibling's removal comes first and the calculated field and source removals come last; throws exactly when the view has no sources |
| Batches.AggregateSortProperties | ui/src/query-editor.ts:268-273 | throws exactly when the sort tuple is missing; keeps the builder's diffs; sends exactly when both the inner field and the direction are truthy |
| Batches.AggregateLimitProperties | ui/src/query-editor.ts:274-299 | sends per the payload's flag; stale-constant removal first; then the constant and limit inserts for a truthy value, or the limit removal for a falsy one; ends in the initial constant's removal exactly when sending a changed value; no insert for a falsy value |
| Batches.AggregateGroupingProperties | ui/src/query-editor.ts:300-321 | throws exactly when there is no grouping and no inner source; always ends in the new grouping and sends; an existing grouping is removed only when it differs; otherwise the outer source is re-pointed to the inner source's view, removing any old outer source first |
| DispatchSpec.PrimitiveSourceStep | ui/src/query-editor.ts:322-326 | `addPrimitiveSource` never throws, takes one id and records its batch unpublished; this is the nested dispatch of `addAggregateBlock` |
| DispatchLemmas.StepTxId | ui/src/query-editor.ts:71-105 | every dispatch takes the next transaction id; with the nested primitive dispatch, two |
| DispatchLemmas.UnrecognisedForwarded | ui/src/query-editor.ts:371-379 | an unrecognised event is forwarded unchanged and nothing is executed |
| DispatchLemmas.ForwardsOnlyUnrecognised | ui/src/query-editor.ts:371-374 | only unrecognised events reach the generic editor |
| DispatchLemmas.RecognisedExecutesOnce | ui/src/query-editor.ts:71-379 | a recognised event other than `addAggregateBlock` that does not throw appends exactly one stored execution with the new id, leaving earlier ones untouched; a throw appends nothing |
| DispatchLemmas.NestedPrimitiveRunsFirst | ui/src/query-editor.ts:98-106 | with a primitive kind, the nested primitive batch (id+2, unpublished) is recorded before the block's own batch (id+1, published) |
| DispatchLemmas.PlainAggregateBlock | ui/src/query-editor.ts:98-106 | without a primitive kind, only the block's batch is recorded, published |
| DispatchLemmas.NeverPublished | ui/src/query-editor.ts:182-185 | `addViewConstraint`, and `addPrimitiveSource` (lines 322-326), always succeed and are never sent to the server |
| DispatchLemmas.LocalEventsExecuteEmpty | ui/src/query-editor.ts:327-379 | a local-state event that succeeds executes an empty, published batch and takes no id |
| DispatchLemmas.EditTokenMarks | ui/src/query-editor.ts:356-360 | marks the key 1 under its parent, creating the parent's state if needed; other parents and keys keep their values |
| DispatchLemmas.StopEditTokenClears | ui/src/query-editor.ts:361-364 | throws exactly when the parent has no token state; otherwise sets the key to 0 |
| DispatchLemmas.EditThenStop | ui/src/query-editor.ts:356-364 | editing then stopping the same key always succeeds and leaves it at 0 |
| DispatchLemmas.SuggestionsLastWriterWins | ui/src/query-editor.ts:334-355 | after two suggestion events the context and active view are the second one's |
| DispatchLemmas.ToggleConstantMarks | ui/src/query-editor.ts:365-370 | throws exactly when no context is open; otherwise its token, or a new empty one, is marked constant and the other entries are kept |
| DispatchLemmas.StepMinted | ui/src/query-editor.ts:74-326 | a dispatch advances the uuid counter by exactly the ids its batch case draws (`addViewBlock`, the constant path of `updateViewConstraint`, `updateAggregateLimit`), and not at all for local, unrecognised or aggregate-block events; ids generated inside the `api.diff.*` builders are not drawn from the counter |
| DispatchLemmas.LocalHandleFrame | ui/src/query-editor.ts:327-379 | a local-state event takes the next transaction id, draws no uuid, forwards nothing, and records one empty published batch or, when it throws, nothing |
| DispatchLemmas.BatchHandleFrame | ui/src/query-editor.ts:71-379 | a batch event takes the next transaction id and draws its own uuids; when it does not throw it appends one stored execution under that id and keeps the earlier ones; a throw records nothing |
| DispatchLemmas.HandleFrame | ui/src/query-editor.ts:71-379 | the two frames above together, for every recognised event other than `addAggregateBlock` |
| DispatchLemmas.AggregateBlockFrame | ui/src/query-editor.ts:98-106 | `addAggregateBlock` takes one transaction id, or two when the nested dispatch runs, and draws no uuid |
| DispatchLemmas.RunMintedGrows | ui/src/query-editor.ts:74-326 | over any run of dispatches the uuid counter advances by exactly the sum of the calls' own `uuid()` draws, so it never goes back |
| DispatchLemmas.RunTxIdGrows | ui/src/query-editor.ts:71 | over a run of dispatches the transaction id grows by exactly one per call plus one per nested `addPrimitiveSource`, so by at least the number of calls |
| DispatchLemmas.AggregateBlockWithoutViewId | ui/src/query-editor.ts:98-106 | a primitive `addAggregateBlock` whose builder gives no second diff, or one with a nullish tuple, throws: one transaction id is taken and nothing is recorded or dispatched |
| DispatchLemmas.StepLogExtends | ui/src/query-editor.ts:377-379 | one dispatch only appends to the execution log |
| DispatchLemmas.RunLogExtends | ui/src/query-editor.ts:377-379 | any run of dispatches only appends to the execution log |
| SelectionCounts.CountOthers | ui/src/query-editor.ts:122-138 | with distinct keys, counting the tuples whose key differs skips exactly the one matching tuple, if there is one |
| SelectionCounts.SourceCountIsUnionSize | ui/src/query-editor.ts:121-125 | with distinct source ids, `numSources` is the number of sources once the payload's is counted in |
| SelectionCounts.FieldCountIsUnionSize | ui/src/query-editor.ts:126-130 | with distinct field ids, `numFields` is the number of fields once the payload's is counted in |
| SelectionCounts.SelectCountIsUnionSize | ui/src/query-editor.ts:131-138 | with distinct (source, field) selects, `numSelects` is the number of selects once the new one is counted in |
| SelectionCounts.PublishedIffComplete | ui/src/query-editor.ts:141-142 | with distinct ids, the union is sent exactly when the number of selects, the new one included, equals the number of sources times the number of fields, the payload's included in each |
| SelectionCounts.CountsAreSizes | ui/src/query-editor.ts:117-142 | with distinct ids, the count test compares the size of the set of selected pairs with the product of the sizes of the source-id and field-id sets |
| SelectionCounts.PublishedIffCovered | ui/src/query-editor.ts:117-165 | with distinct ids and every select's pair among the view's sources × fields, the union is sent exactly when every (source, field) pair, the payload's included, has its select |
| FieldNames.CalculatedFieldsShareLocalName | ui/src/query-editor.ts:812-819 | fields of one calculation share a local name, whatever their own names |
| FieldNames.FieldName | ui/src/query-editor.ts:792-811 | a constant shows its value; a non-calculated field always gets a non-empty string label |
| FieldNames.FieldNameExtendsLocal | ui/src/query-editor.ts:792-819 | outside constants, the label is the local name, the local name qualified by a named source, or "field" when the field has no name |
| FieldNames.QualifiedLabelEndsWithLocal | ui/src/query-editor.ts:801-804 | a qualified label ends in "." followed by the local name |
| FieldNames.BlockFieldsMembers | ui/src/query-editor.ts:1145-1154 | a (source, field) pair is listed exactly when the source is the view's and the field belongs to that source's view |
| FieldNames.BlockFieldsLength | ui/src/query-editor.ts:1145-1154 | the list is as long as all the sources' field lists together |
| FieldNames.GetBlockFields | ui/src/query-editor.ts:1145-1154 | the `reduce`/`push` loop builds exactly `BlockFieldsOf` of the view's sources |
| CoerceInput.Coerce | ui/src/query-editor.ts:41-52 | the intended reading: a whole-string integer becomes its value, a decimal stays a decimal, "true"/"false" become booleans, anything else stays text; never NaN |
| CoerceInput.CoerceAsWritten | ui/src/query-editor.ts:41-52 | as written: an integer line anywhere sends the whole input to `parseInt`, a decimal line to `parseFloat` |
| CoerceInput.ParseInt | ui/src/query-editor.ts:44 | `parseInt` always yields an integer or NaN |
| CoerceInput.ParseIntOfIntegerText | ui/src/query-editor.ts:43-44 | `parseInt` reads a whole-string integer as its value |
| CoerceInput.LeadingTextGivesNaN | ui/src/query-editor.ts:43-44 | "a\n5" yields NaN as written but stays text as intended |
| CoerceInput.TrailingTextIsDropped | ui/src/query-editor.ts:43-44 | "5\na" yields 5 as written but stays text as intended |
| CoerceInput.AgreeWithoutLineBreaks | ui/src/query-editor.ts:41-52 | on input without line breaks the code and the intended reading agree exactly |
| CoerceInput.CoerceIntText | ui/src/query-editor.ts:43-44 | typing any integer's decimal text gives back that integer |
| Flows.FirstIndex | runtime/src/flow.rs:54-56 | the smallest index whose node has the id, or none exactly when no node has it |
| Flows.Flow.GetIx | runtime/src/flow.rs:54-56 | the search loop returns `FirstIndex` |
| Flows.Flow.constructor | runtime/src/flow.rs:30-52 | one table node with no edges per schema entry, in order; each relation built from the unique fields followed by the other fields; empty log and dirty set |
| Flows.NewFlowFinds | runtime/src/flow.rs:30-56 | a new flow finds exactly the ids its schema lists |
| Flows.Flow.Change | runtime/src/flow.rs:58-72 | the nodes are unchanged; each pair is applied in order to its node's relation; the pairs are appended to the log in input order; the dirty set gains exactly the matched indices |
| Flows.TouchedMembers | runtime/src/flow.rs:58-66 | an index becomes dirty exactly when some input id names its node |
| Flows.ApplyAll | runtime/src/flow.rs:58-65 | applying changes keeps one relation per node |
| Flows.ApplyAllUntouched | runtime/src/flow.rs:58-72 | a relation whose node no input pair names is left as it was |
| Flows.ApplyAllStep | runtime/src/flow.rs:59-65 | one more pair changes only its node's relation and dirties only its index |
| Flows.ApplyAllAppend | runtime/src/flow.rs:58-72 | two `change` calls act as one call on the concatenated input |
| Flows.Flow.AsChanges | runtime/src/flow.rs:74-81 | one entry per node, in node order, with that node's id and its relation's contents |
| Flows.Flow.TakeChanges | runtime/src/flow.rs:83-86 | returns exactly the accumulated log and leaves it empty; nodes, outputs and dirty set are unchanged |

## Left out

- Rendering, and every function of `ui/src/query-editor.ts` other than `dispatch` and the four helpers above: these are view code outside the dispatch engine.
- `api.diff.*`, `code.*`, `uuid`, `api.arraysIdentical` and `eveEditor.executeDispatch`/`dispatch` are not part of this model. They are arbitrary functions in `Env`, or log entries; applying a batch to the fact store and sending it to the server are recorded as an execution, not performed.
- DispatchSpec.Run: the fact store is a fixed parameter across a run of dispatches, because the store update performed by `executeDispatch` is not modelled.
- The model compares JavaScript values by structure, not by object identity. This affects `prevExport`, the `!==` tests on constant values and `localState.initialValue`, and `constraintId === info.constraintId`; for objects the source compares references.
- `JsValues.Idx` on a string or a plain object yields `undefined`, where JavaScript reads a character or the property named by the index's text. The map-keyed indexes do not coerce keys to strings as JavaScript property names do, so `1` and `"1"` are different keys. The editor indexes arrays and passes string ids, so neither difference is reached.
- SelectionCounts.PublishedIffComplete: the count test is proved equivalent to coverage of sources × fields only when the existing selects name pairs of the view's own sources and fields (`PublishedIffCovered`); with a stale select the counts can agree while a pair is missing.
- Numbers are integers only: the editor's ids and counts are integers, and floating point is not modelled.
- CoerceInput.Coerce and CoerceInput.CoerceAsWritten: the `parseFloat` branch returns the decimal's text, not its floating-point value.
- `code.name` is taken to return a string or `undefined`; `code.getConstraint` is taken to return an options object for every id.
- `toggleConstant`: the suggestion context's token is the payload object itself, so marking it constant also changes that payload object in the source; this aliasing is not modelled. Setting `isConstant` on a truthy non-object token is modelled as having no effect.
- `sendToServer` may hold a non-boolean value in the source (`updateAggregateSort`, `updateAggregateLimit`); the model keeps its truthiness.
- The `console.log` in `updateViewConstraint` is left out (output only).
- A TypeError inside `dispatch` propagates to the caller in the source; the model stops the dispatch with `ok == false` and keeps the state reached so far.
- `runtime/src/flow.rs`: the internals of `Relation`, `BitSet` and `RefCell` borrowing, and the contents of `compiler_schema()` (the schema is the constructor's parameter).
- Flows.Flow.Change: the panic on an unknown id is a precondition, because a panic aborts the program.

## Findings

| source | as written | input that shows it | evidently intended | confidence | as-written member | corrected member |
|---|---|---|---|---|---|---|
| ui/src/query-editor.ts:43-46 | the integer and decimal patterns carry the `m` flag, so `^` and `$` also match at line breaks; one integer line sends the whole text to `parseInt` | "a\n5" gives NaN; "5\na" gives 5 | only a text that is wholly an integer (or decimal) is converted; other text is kept as text | not executed | CoerceInput.CoerceAsWritten, CoerceInput.LeadingTextGivesNaN | CoerceInput.Coerce, CoerceInput.AgreeWithoutLineBreaks |
