/**
 * The editor's one-step undo. An AI edit of the page plan first saves the current plan as
 * the snapshot, then installs the new plan and its JSON text; handleUndo puts the
 * snapshot back and forgets it.
 *
 * JSON.stringify(plan, null, 2) is a parameter: the model only needs it to be a function.
 */
module EditorHistory {
  import opened Results
  import opened Blocks

  /** The editor state the undo touches: the plan, the JSON text shown, the snapshot. */
  datatype EditorState = EditorState(
    pagePlan: Option<ProductPlan>,
    jsonInput: string,
    previousPagePlan: Option<ProductPlan>)

  /** The JSON text shows the current plan. */
  predicate Synced(s: EditorState, stringify: ProductPlan -> string) {
    s.pagePlan.Some? ==> s.jsonInput == stringify(s.pagePlan.value)
  }

  /**
   * An edit of the plan that cannot fail once it saves the snapshot (the in-place image
   * edit): with no plan loaded it does nothing; otherwise the current plan becomes the
   * snapshot and the new plan and its text are installed.
   */
  function ApplyEdit(s: EditorState, newPlan: ProductPlan, stringify: ProductPlan -> string): (r: EditorState)
    ensures s.pagePlan.None? ==> r == s
    ensures s.pagePlan.Some? ==>
      && r.previousPagePlan == s.pagePlan
      && r.pagePlan == Some(newPlan)
      && r.jsonInput == stringify(newPlan)
  {
    if s.pagePlan.None? then s
    else EditorState(Some(newPlan), stringify(newPlan), s.pagePlan)
  }

  /** What the AI call an edit awaits gives back: the edited plan, or a thrown error. */
  datatype AiReply = Edited(plan: ProductPlan) | Threw

  /**
   * handleApplySuggestion: the snapshot is saved before the AI call is awaited. A reply
   * installs the edited plan as ApplyEdit does; a thrown call leaves the plan and its text
   * as they were, but the snapshot has already been overwritten with that same plan.
   */
  function ApplySuggestion(s: EditorState, reply: AiReply, stringify: ProductPlan -> string): (r: EditorState)
    ensures s.pagePlan.None? ==> r == s
    ensures s.pagePlan.Some? ==> r.previousPagePlan == s.pagePlan
    ensures s.pagePlan.Some? && reply.Edited? ==> r == ApplyEdit(s, reply.plan, stringify)
    ensures s.pagePlan.Some? && reply.Threw? ==> r.pagePlan == s.pagePlan && r.jsonInput == s.jsonInput
  {
    if s.pagePlan.None? then s
    else
      var saved := s.(previousPagePlan := s.pagePlan);
      match reply
      case Edited(newPlan) => saved.(pagePlan := Some(newPlan), jsonInput := stringify(newPlan))
      case Threw => saved
  }

  /**
   * handleInsertGeneratedImage: the generated image is loaded first, before the snapshot
   * is saved, so a failed load changes nothing; after it the AI insertion behaves like a
   * suggestion, a thrown call again costing the snapshot.
   */
  function InsertGeneratedImage(s: EditorState, imageLoaded: bool, reply: AiReply, stringify: ProductPlan -> string): (r: EditorState)
    ensures s.pagePlan.None? || !imageLoaded ==> r == s
    ensures s.pagePlan.Some? && imageLoaded ==> r.previousPagePlan == s.pagePlan
    ensures s.pagePlan.Some? && imageLoaded && reply.Edited? ==> r == ApplyEdit(s, reply.plan, stringify)
    ensures s.pagePlan.Some? && imageLoaded && reply.Threw? ==> r.pagePlan == s.pagePlan && r.jsonInput == s.jsonInput
  {
    if s.pagePlan.None? || !imageLoaded then s else ApplySuggestion(s, reply, stringify)
  }

  /** handleUndo: restore the snapshot and clear it; without a snapshot nothing happens. */
  function Undo(s: EditorState, stringify: ProductPlan -> string): (r: EditorState)
    ensures s.previousPagePlan.None? ==> r == s
    ensures s.previousPagePlan.Some? ==>
      && r.pagePlan == s.previousPagePlan
      && r.jsonInput == stringify(s.previousPagePlan.value)
      && r.previousPagePlan.None?
  {
    match s.previousPagePlan
    case None => s
    case Some(previous) => EditorState(Some(previous), stringify(previous), None)
  }

  /** Undo right after an edit gives back the state before it, minus the old snapshot. */
  lemma UndoRevertsEdit(s: EditorState, newPlan: ProductPlan, stringify: ProductPlan -> string)
    requires s.pagePlan.Some? && Synced(s, stringify)
    ensures Undo(ApplyEdit(s, newPlan, stringify), stringify) == s.(previousPagePlan := None)
  {
  }

  /** A second undo does nothing: the snapshot is gone after the first. */
  lemma UndoOnce(s: EditorState, stringify: ProductPlan -> string)
    ensures Undo(Undo(s, stringify), stringify) == Undo(s, stringify)
  {
  }

  /** Edits and undo keep the JSON text in step with the plan. */
  lemma StaysSynced(s: EditorState, newPlan: ProductPlan, reply: AiReply, imageLoaded: bool, stringify: ProductPlan -> string)
    requires Synced(s, stringify)
    ensures Synced(ApplyEdit(s, newPlan, stringify), stringify)
    ensures Synced(ApplySuggestion(s, reply, stringify), stringify)
    ensures Synced(InsertGeneratedImage(s, imageLoaded, reply, stringify), stringify)
    ensures Synced(Undo(s, stringify), stringify)
  {
  }

  /**
   * After an AI edit that threw, undo gives back the plan already shown and clears the
   * snapshot: the plan saved before the failed edit can no longer be restored.
   */
  lemma UndoAfterFailedSuggestion(s: EditorState, stringify: ProductPlan -> string)
    requires s.pagePlan.Some? && Synced(s, stringify)
    ensures Undo(ApplySuggestion(s, Threw, stringify), stringify) == s.(previousPagePlan := None)
    ensures s.previousPagePlan.Some? && s.previousPagePlan != s.pagePlan ==>
      Undo(ApplySuggestion(s, Threw, stringify), stringify).pagePlan != Undo(s, stringify).pagePlan
  {
  }
}
