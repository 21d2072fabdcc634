/**
 * The web client's process-wide UI store (apps/web/src/state/uiStore.ts):
 * the selected project, whether the command palette is open, which dialog
 * is open, and the decision draft that pages build up before it is saved.
 */
module UiStore {
  import opened Wrappers

  datatype DialogKind = ProjectDialog | UploadDialog | AnalyzeDialog | DecisionDialog | TaskDialog

  datatype DecisionDraft = DecisionDraft(
    title: string,
    rationale: string,
    pros: string,
    cons: string,
    risks: string,
    confidence: real,
    linkedClaimIds: seq<string>,
    citationSourceIds: seq<string>)

  /** The value the draft starts with and is reset to. */
  const EmptyDecisionDraft: DecisionDraft := DecisionDraft("", "", "", "", "", 0.6, [], [])

  /** A `Partial<DecisionDraft>`: `Some` marks a field that the partial supplies. */
  datatype DraftPatch = DraftPatch(
    title: Option<string>,
    rationale: Option<string>,
    pros: Option<string>,
    cons: Option<string>,
    risks: Option<string>,
    confidence: Option<real>,
    linkedClaimIds: Option<seq<string>>,
    citationSourceIds: Option<seq<string>>)

  /** The partial `{}`. */
  const NoFields: DraftPatch := DraftPatch(None, None, None, None, None, None, None, None)

  /** `{ ...draft, ...patch }`: every supplied field overwrites, the rest stay. */
  function Overwrite(d: DecisionDraft, p: DraftPatch): DecisionDraft {
    DecisionDraft(
      p.title.GetOr(d.title),
      p.rationale.GetOr(d.rationale),
      p.pros.GetOr(d.pros),
      p.cons.GetOr(d.cons),
      p.risks.GetOr(d.risks),
      p.confidence.GetOr(d.confidence),
      p.linkedClaimIds.GetOr(d.linkedClaimIds),
      p.citationSourceIds.GetOr(d.citationSourceIds))
  }

  /** A field the partial supplies takes the supplied value; every other field keeps its value. */
  lemma OverwriteSetsExactlySuppliedFields(d: DecisionDraft, p: DraftPatch)
    ensures var r := Overwrite(d, p);
      && (if p.title.Some? then r.title == p.title.value else r.title == d.title)
      && (if p.rationale.Some? then r.rationale == p.rationale.value else r.rationale == d.rationale)
      && (if p.pros.Some? then r.pros == p.pros.value else r.pros == d.pros)
      && (if p.cons.Some? then r.cons == p.cons.value else r.cons == d.cons)
      && (if p.risks.Some? then r.risks == p.risks.value else r.risks == d.risks)
      && (if p.confidence.Some? then r.confidence == p.confidence.value else r.confidence == d.confidence)
      && (if p.linkedClaimIds.Some? then r.linkedClaimIds == p.linkedClaimIds.value
          else r.linkedClaimIds == d.linkedClaimIds)
      && (if p.citationSourceIds.Some? then r.citationSourceIds == p.citationSourceIds.value
          else r.citationSourceIds == d.citationSourceIds)
  {
  }

  /** Overwriting with `{}` changes nothing. */
  lemma OverwriteNoFieldsIsIdentity(d: DecisionDraft)
    ensures Overwrite(d, NoFields) == d
  {
  }

  /** Overwriting with the same partial twice equals overwriting once. */
  lemma OverwriteIdempotent(d: DecisionDraft, p: DraftPatch)
    ensures Overwrite(Overwrite(d, p), p) == Overwrite(d, p)
  {
  }

  class UIStore {
    var selectedProjectId: Option<string>
    var commandPaletteOpen: bool
    var activeDialog: Option<DialogKind>
    var decisionDraft: DecisionDraft

    /** The store's initial state. */
    constructor ()
      ensures selectedProjectId == None && !commandPaletteOpen && activeDialog == None
      ensures decisionDraft == EmptyDecisionDraft
    {
      selectedProjectId := None;
      commandPaletteOpen := false;
      activeDialog := None;
      decisionDraft := EmptyDecisionDraft;
    }

    method SetSelectedProjectId(id: Option<string>)
      modifies this
      ensures selectedProjectId == id
      ensures commandPaletteOpen == old(commandPaletteOpen) && activeDialog == old(activeDialog)
      ensures decisionDraft == old(decisionDraft)
    {
      selectedProjectId := id;
    }

    method SetCommandPaletteOpen(open: bool)
      modifies this
      ensures commandPaletteOpen == open
      ensures selectedProjectId == old(selectedProjectId) && activeDialog == old(activeDialog)
      ensures decisionDraft == old(decisionDraft)
    {
      commandPaletteOpen := open;
    }

    method OpenDialog(dialog: DialogKind)
      modifies this
      ensures activeDialog == Some(dialog)
      ensures selectedProjectId == old(selectedProjectId) && commandPaletteOpen == old(commandPaletteOpen)
      ensures decisionDraft == old(decisionDraft)
    {
      activeDialog := Some(dialog);
    }

    method CloseDialog()
      modifies this
      ensures activeDialog == None
      ensures selectedProjectId == old(selectedProjectId) && commandPaletteOpen == old(commandPaletteOpen)
      ensures decisionDraft == old(decisionDraft)
    {
      activeDialog := None;
    }

    /** `setDecisionDraft(patch)`: a shallow overwrite; no appending or deduplication here. */
    method SetDecisionDraft(patch: DraftPatch)
      modifies this
      ensures decisionDraft == Overwrite(old(decisionDraft), patch)
      ensures selectedProjectId == old(selectedProjectId) && commandPaletteOpen == old(commandPaletteOpen)
      ensures activeDialog == old(activeDialog)
    {
      decisionDraft := Overwrite(decisionDraft, patch);
    }

    method ClearDecisionDraft()
      modifies this
      ensures decisionDraft == EmptyDecisionDraft
      ensures selectedProjectId == old(selectedProjectId) && commandPaletteOpen == old(commandPaletteOpen)
      ensures activeDialog == old(activeDialog)
    {
      decisionDraft := EmptyDecisionDraft;
    }
  }
}
