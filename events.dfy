/** The event names `dispatch` recognises, as a closed set of kinds. */
module Events {

  datatype Kind =
    | ExportView | AddViewBlock | AddAggregateBlock | AddUnionBlock | RemoveViewBlock
    | AddViewSelection | AddUnionSelection | AddViewSource | RemoveViewSource
    | AddViewConstraint | UpdateViewConstraint | RemoveViewConstraint
    | UpdateAggregateSort | UpdateAggregateLimit | UpdateAggregateGrouping | AddPrimitiveSource
    | SetQueryEditorActive | ConstraintOpSuggestions | FieldSuggestions
    | EditToken | StopEditToken | ToggleConstant
    | Unrecognised

  /** The `case` label of each recognised kind. */
  function NameOf(k: Kind): string {
    match k
    case ExportView => "exportView"
    case AddViewBlock => "addViewBlock"
    case AddAggregateBlock => "addAggregateBlock"
    case AddUnionBlock => "addUnionBlock"
    case RemoveViewBlock => "removeViewBlock"
    case AddViewSelection => "addViewSelection"
    case AddUnionSelection => "addUnionSelection"
    case AddViewSource => "addViewSource"
    case RemoveViewSource => "removeViewSource"
    case AddViewConstraint => "addViewConstraint"
    case UpdateViewConstraint => "updateViewConstraint"
    case RemoveViewConstraint => "removeViewConstraint"
    case UpdateAggregateSort => "updateAggregateSort"
    case UpdateAggregateLimit => "updateAggregateLimit"
    case UpdateAggregateGrouping => "updateAggregateGrouping"
    case AddPrimitiveSource => "addPrimitiveSource"
    case SetQueryEditorActive => "setQueryEditorActive"
    case ConstraintOpSuggestions => "constraintOpSuggestions"
    case FieldSuggestions => "fieldSuggestions"
    case EditToken => "editToken"
    case StopEditToken => "stopEditToken"
    case ToggleConstant => "toggleConstant"
    case Unrecognised => ""
  }

  /** The `switch(evt)` of `dispatch`: which case an event name selects. */
  function EventOf(evt: string): (k: Kind)
    ensures k != Unrecognised ==> NameOf(k) == evt
  {
    if evt == "exportView" then ExportView
    else if evt == "addViewBlock" then AddViewBlock
    else if evt == "addAggregateBlock" then AddAggregateBlock
    else if evt == "addUnionBlock" then AddUnionBlock
    else if evt == "removeViewBlock" then RemoveViewBlock
    else if evt == "addViewSelection" then AddViewSelection
    else if evt == "addUnionSelection" then AddUnionSelection
    else if evt == "addViewSource" then AddViewSource
    else if evt == "removeViewSource" then RemoveViewSource
    else if evt == "addViewConstraint" then AddViewConstraint
    else if evt == "updateViewConstraint" then UpdateViewConstraint
    else if evt == "removeViewConstraint" then RemoveViewConstraint
    else if evt == "updateAggregateSort" then UpdateAggregateSort
    else if evt == "updateAggregateLimit" then UpdateAggregateLimit
    else if evt == "updateAggregateGrouping" then UpdateAggregateGrouping
    else if evt == "addPrimitiveSource" then AddPrimitiveSource
    else if evt == "setQueryEditorActive" then SetQueryEditorActive
    else if evt == "constraintOpSuggestions" then ConstraintOpSuggestions
    else if evt == "fieldSuggestions" then FieldSuggestions
    else if evt == "editToken" then EditToken
    else if evt == "stopEditToken" then StopEditToken
    else if evt == "toggleConstant" then ToggleConstant
    else Unrecognised
  }

  /**
   * Every case label selects its own case, so no two cases share a name.
   * The kinds are taken a few at a time, in the order of the `switch`.
   */
  lemma NameOfSelectsKind(k: Kind)
    requires k != Unrecognised
    ensures EventOf(NameOf(k)) == k
  {
    match k {
      case ExportView | AddViewBlock | AddAggregateBlock => ViewBlockNamesSelect(k);
      case AddUnionBlock | RemoveViewBlock | AddViewSelection => BlockEditNamesSelect(k);
      case AddUnionSelection | AddViewSource | RemoveViewSource => SourceNamesSelect(k);
      case AddViewConstraint | UpdateViewConstraint | RemoveViewConstraint => ConstraintNamesSelect(k);
      case UpdateAggregateSort | UpdateAggregateLimit | UpdateAggregateGrouping => AggregateNamesSelect(k);
      case AddPrimitiveSource | SetQueryEditorActive => ActiveNamesSelect(k);
      case ConstraintOpSuggestions | FieldSuggestions => SuggestionNamesSelect(k);
      case EditToken | StopEditToken => TokenNamesSelect(k);
      case ToggleConstant => ToggleNameSelects(k);
    }
  }

  lemma ViewBlockNamesSelect(k: Kind)
    requires k.ExportView? || k.AddViewBlock? || k.AddAggregateBlock?
    ensures EventOf(NameOf(k)) == k
  {
  }

  lemma BlockEditNamesSelect(k: Kind)
    requires k.AddUnionBlock? || k.RemoveViewBlock? || k.AddViewSelection?
    ensures EventOf(NameOf(k)) == k
  {
  }

  lemma SourceNamesSelect(k: Kind)
    requires k.AddUnionSelection? || k.AddViewSource? || k.RemoveViewSource?
    ensures EventOf(NameOf(k)) == k
  {
  }

  lemma ConstraintNamesSelect(k: Kind)
    requires k.AddViewConstraint? || k.UpdateViewConstraint? || k.RemoveViewConstraint?
    ensures EventOf(NameOf(k)) == k
  {
  }

  lemma AggregateNamesSelect(k: Kind)
    requires k.UpdateAggregateSort? || k.UpdateAggregateLimit? || k.UpdateAggregateGrouping?
    ensures EventOf(NameOf(k)) == k
  {
  }

  lemma ActiveNamesSelect(k: Kind)
    requires k.AddPrimitiveSource? || k.SetQueryEditorActive?
    ensures EventOf(NameOf(k)) == k
  {
  }

  lemma SuggestionNamesSelect(k: Kind)
    requires k.ConstraintOpSuggestions? || k.FieldSuggestions?
    ensures EventOf(NameOf(k)) == k
  {
  }

  lemma TokenNamesSelect(k: Kind)
    requires k.EditToken? || k.StopEditToken?
    ensures EventOf(NameOf(k)) == k
  {
  }

  lemma ToggleNameSelects(k: Kind)
    requires k.ToggleConstant?
    ensures EventOf(NameOf(k)) == k
  {
  }

  /** The events that only touch the editor's local state. */
  predicate IsLocal(k: Kind) {
    || k.SetQueryEditorActive? || k.ConstraintOpSuggestions? || k.FieldSuggestions?
    || k.EditToken? || k.StopEditToken? || k.ToggleConstant?
  }

  /** The events that build a batch from the fact store. */
  predicate IsBatch(k: Kind) {
    !k.Unrecognised? && !IsLocal(k)
  }

  /** The batch events without a nested dispatch: all but the aggregate block. */
  predicate IsDirectBatch(k: Kind) {
    IsBatch(k) && !k.AddAggregateBlock?
  }
}
