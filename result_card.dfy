/**
 * The result card's editor: the title and selling points being edited (the points as one
 * text, a line per point), saving them back under the result's product id, cancelling,
 * and which controls the card offers for a result's status.
 */
module ResultCard {
  import opened Base
  import opened Types

  /** The card's local state. */
  datatype EditState = EditState(isEditing: bool, editedTitle: string, editedSellingPoints: string)

  /** What `onEdit` receives. */
  datatype EditCall = EditCall(productId: string, title: string, sellingPoints: seq<string>)

  /** The state showing the result as it is: its title, its points one per line, not editing. */
  function Shown(result: GeneratedContent): EditState
  {
    EditState(false, result.title, Join(result.sellingPoints, "\n"))
  }

  /** The edit button and the action buttons appear only for a completed result outside editing. */
  predicate OffersActions(result: GeneratedContent, s: EditState)
  {
    result.status == Completed && !s.isEditing
  }

  /** The edit button: opens the editor on what the state holds, when the card offers it. */
  function StartEdit(result: GeneratedContent, s: EditState): (r: Option<EditState>)
    ensures r.Some? <==> result.status == Completed && !s.isEditing
    ensures r.Some? ==> r.value == s.(isEditing := true)
  {
    if OffersActions(result, s) then Some(s.(isEditing := true)) else None
  }

  /**
   * `handleSaveEdit()`: the title as typed and the non-blank trimmed lines of the points,
   * in order, under the result's product id; the editor closes and keeps its text.
   */
  function SaveEdit(result: GeneratedContent, s: EditState): (r: (EditCall, EditState))
    ensures r.0.productId == result.productId && r.0.title == s.editedTitle
    ensures forall i :: 0 <= i < |r.0.sellingPoints| ==>
              r.0.sellingPoints[i] != "" && '\n' !in r.0.sellingPoints[i]
              && !IsSpace(r.0.sellingPoints[i][0]) && !IsSpace(r.0.sellingPoints[i][|r.0.sellingPoints[i]| - 1])
    ensures r.0.sellingPoints == SplitTrimmed(s.editedSellingPoints, '\n')
    ensures r.1 == s.(isEditing := false)
  {
    (EditCall(result.productId, s.editedTitle, SplitTrimmed(s.editedSellingPoints, '\n')), s.(isEditing := false))
  }

  /** `handleCancelEdit()`: the edits are dropped and the result is shown again. */
  function CancelEdit(result: GeneratedContent, s: EditState): (r: EditState)
    ensures !r.isEditing && r.editedTitle == result.title
    ensures r == Shown(result)
    ensures OffersActions(result, r) <==> result.status == Completed
  {
    EditState(false, result.title, Join(result.sellingPoints, "\n"))
  }

  /**
   * Opening the editor and saving without typing sends the result back unchanged when its
   * points are already clean lines (trimmed, non-blank, without a line break).
   */
  lemma SaveUnchanged(result: GeneratedContent)
    requires result.status == Completed
    requires forall i :: 0 <= i < |result.sellingPoints| ==>
               var p := result.sellingPoints[i];
               p != "" && '\n' !in p && !IsSpace(p[0]) && !IsSpace(p[|p| - 1])
    ensures StartEdit(result, Shown(result)).Some?
    ensures SaveEdit(result, StartEdit(result, Shown(result)).value).0
            == EditCall(result.productId, result.title, result.sellingPoints)
  {
    SplitTrimmedJoin(result.sellingPoints, '\n');
  }

  /** Saving twice sends the same points: what a save sends, shown again, parses to itself. */
  lemma SaveIdempotent(result: GeneratedContent, s: EditState)
    ensures var call := SaveEdit(result, s).0;
            SaveEdit(result, s.(editedSellingPoints := Join(call.sellingPoints, "\n"))).0 == call
  {
    SplitTrimmedIdempotent(s.editedSellingPoints, '\n');
  }

  /** A line break splits the edited text: the points of the lines above, then those below. */
  lemma SaveKeepsOrder(result: GeneratedContent, s: EditState, above: string, below: string)
    requires s.editedSellingPoints == above + "\n" + below
    ensures SaveEdit(result, s).0.sellingPoints
            == SaveEdit(result, s.(editedSellingPoints := above)).0.sellingPoints
               + SaveEdit(result, s.(editedSellingPoints := below)).0.sellingPoints
  {
    SplitTrimmedAppend(above, '\n', below);
  }
}
