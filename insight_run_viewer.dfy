/**
 * The insight-run viewer page (apps/web/src/pages/InsightRunViewerPage.tsx):
 * which themes are shown, the flat list of their claims, the citations
 * drawer, and "add claim to decision draft", which merges a claim into the
 * store's draft.
 */
module InsightRunViewer {
  import opened Wrappers
  import opened Text
  import opened Lists
  import opened Types
  import opened UiStore

  /** The confidence assumed when a value is missing (`?? 0.6`). */
  const DefaultConfidence: real := 0.6

  function Max(a: real, b: real): (m: real)
    ensures m >= a && m >= b && (m == a || m == b)
  {
    if a >= b then a else b
  }

  /** The source ids of a claim's citations, in citation order (`[]` when absent). */
  function CitedSourceIds(cs: seq<CitationSnippet>): (r: seq<string>)
    ensures |r| == |cs|
    ensures forall i :: 0 <= i < |cs| ==> r[i] == cs[i].source_id
  {
    if cs == [] then [] else CitedSourceIds(cs[..|cs| - 1]) + [cs[|cs| - 1].source_id]
  }

  function ClaimSourceIds(claim: Claim): seq<string> {
    CitedSourceIds(claim.citations.GetOr([]))
  }

  /** `- statement`, the line a claim contributes to the narrative fields. */
  function NarrativeLine(claim: Claim): string {
    "- " + claim.statement
  }

  /** A narrative field with one more line: the trimmed old text, a newline, the line. */
  function AppendLine(text: string, line: string): string {
    if text != "" then Trim(text) + "\n" + line else line
  }

  /**
   * The partial that `addClaimToDecision` hands to `setDecisionDraft`:
   * deduplicated claim and source ids, a narrative line for rationale and
   * pros, the larger confidence, and the title kept unless it is empty.
   * Cons and risks are not supplied.
   */
  function MergeClaim(d: DecisionDraft, theme: Theme, claim: Claim): DraftPatch {
    DraftPatch(
      title := Some(if d.title != "" then d.title else "Decision on " + theme.title),
      rationale := Some(AppendLine(d.rationale, NarrativeLine(claim))),
      pros := Some(AppendLine(d.pros, NarrativeLine(claim))),
      cons := None,
      risks := None,
      confidence := Some(Max(d.confidence, claim.confidence.GetOr(DefaultConfidence))),
      linkedClaimIds := Some(Dedup(d.linkedClaimIds + [claim.id])),
      citationSourceIds := Some(Dedup(d.citationSourceIds + ClaimSourceIds(claim))))
  }

  /** The draft after the store applies the merged partial. */
  function Merged(d: DecisionDraft, theme: Theme, claim: Claim): DecisionDraft {
    Overwrite(d, MergeClaim(d, theme, claim))
  }

  /** Both id lists stay free of duplicates, whatever the draft held before. */
  lemma MergedIdListsAreSets(d: DecisionDraft, theme: Theme, claim: Claim)
    ensures NoDups(Merged(d, theme, claim).linkedClaimIds)
    ensures NoDups(Merged(d, theme, claim).citationSourceIds)
  {
  }

  /**
   * The claim ids become the deduplicated old list with the claim's id
   * appended when it is new; on a duplicate-free list that is exactly one
   * append or nothing.
   */
  lemma {:induction false} MergedLinkedClaimIds(d: DecisionDraft, theme: Theme, claim: Claim)
    ensures var ids := Merged(d, theme, claim).linkedClaimIds;
      && claim.id in ids
      && (forall x :: x in ids <==> x in d.linkedClaimIds || x == claim.id)
      && |Dedup(d.linkedClaimIds)| <= |ids|
      && ids[..|Dedup(d.linkedClaimIds)|] == Dedup(d.linkedClaimIds)
    ensures NoDups(d.linkedClaimIds) ==>
      Merged(d, theme, claim).linkedClaimIds
        == if claim.id in d.linkedClaimIds then d.linkedClaimIds else d.linkedClaimIds + [claim.id]
  {
    DedupKeepsPrefix(d.linkedClaimIds, [claim.id]);
    DedupSnoc(d.linkedClaimIds, claim.id);
  }

  /**
   * The source ids become the deduplicated union of the old ids (first) and
   * the claim's cited sources; a claim without citations leaves a
   * duplicate-free list as it was.
   */
  lemma {:induction false} MergedCitationSourceIds(d: DecisionDraft, theme: Theme, claim: Claim)
    ensures var ids := Merged(d, theme, claim).citationSourceIds;
      && (forall x :: x in ids <==> x in d.citationSourceIds || x in ClaimSourceIds(claim))
      && |Dedup(d.citationSourceIds)| <= |ids|
      && ids[..|Dedup(d.citationSourceIds)|] == Dedup(d.citationSourceIds)
    ensures NoDups(d.citationSourceIds) && claim.citations.GetOr([]) == [] ==>
      Merged(d, theme, claim).citationSourceIds == d.citationSourceIds
  {
    DedupKeepsPrefix(d.citationSourceIds, ClaimSourceIds(claim));
    assert ClaimSourceIds(claim) == [] ==> d.citationSourceIds + ClaimSourceIds(claim) == d.citationSourceIds;
  }

  /** Adding the same claim again leaves both id lists unchanged. */
  lemma {:induction false} MergeSameClaimTwiceKeepsIds(d: DecisionDraft, theme: Theme, claim: Claim)
    ensures var once := Merged(d, theme, claim);
      var twice := Merged(once, theme, claim);
      twice.linkedClaimIds == once.linkedClaimIds && twice.citationSourceIds == once.citationSourceIds
  {
    var once := Merged(d, theme, claim);
    MergedLinkedClaimIds(once, theme, claim);
    MergedCitationSourceIds(d, theme, claim);
    DedupAbsorbs(once.citationSourceIds, ClaimSourceIds(claim));
  }

  /** Rationale and pros gain the claim's line; cons, risks and a non-empty title are untouched. */
  lemma MergedNarrative(d: DecisionDraft, theme: Theme, claim: Claim)
    ensures var r := Merged(d, theme, claim);
      && r.rationale == (if d.rationale == "" then NarrativeLine(claim)
                         else Trim(d.rationale) + "\n" + NarrativeLine(claim))
      && r.pros == (if d.pros == "" then NarrativeLine(claim) else Trim(d.pros) + "\n" + NarrativeLine(claim))
      && r.cons == d.cons && r.risks == d.risks
      && r.title == (if d.title != "" then d.title else "Decision on " + theme.title)
  {
  }

  /**
   * The narrative merge is not idempotent: adding a claim twice to an empty
   * rationale leaves its line there twice.
   */
  lemma MergeSameClaimTwiceRepeatsLine(d: DecisionDraft, theme: Theme, claim: Claim)
    requires d.rationale == ""
    requires claim.statement != "" && !IsSpace(claim.statement[|claim.statement| - 1])
    ensures var once := Merged(d, theme, claim);
      && once.rationale == NarrativeLine(claim)
      && Merged(once, theme, claim).rationale == NarrativeLine(claim) + "\n" + NarrativeLine(claim)
  {
    var line := NarrativeLine(claim);
    assert line[|line| - 1] == claim.statement[|claim.statement| - 1];
    TrimUnpadded(line);
  }

  /** The confidence never drops and is at least the claim's. */
  lemma MergedConfidence(d: DecisionDraft, theme: Theme, claim: Claim)
    ensures Merged(d, theme, claim).confidence >= d.confidence
    ensures Merged(d, theme, claim).confidence >= claim.confidence.GetOr(DefaultConfidence)
  {
  }

  /** The confidence reached does not depend on the order the claims were added in. */
  lemma MergedConfidenceCommutes(d: DecisionDraft, t1: Theme, c1: Claim, t2: Theme, c2: Claim)
    ensures Merged(Merged(d, t1, c1), t2, c2).confidence == Merged(Merged(d, t2, c2), t1, c1).confidence
  {
  }

  /** `themes`: the payload's themes when there are any, else the separately fetched ones. */
  function ShownThemes(payloadThemes: Option<seq<Theme>>, fallbackThemes: Option<seq<Theme>>): (r: seq<Theme>)
    ensures payloadThemes.GetOr([]) != [] ==> r == payloadThemes.value
    ensures payloadThemes.GetOr([]) == [] ==> r == fallbackThemes.GetOr([])
  {
    var p := payloadThemes.GetOr([]);
    if |p| > 0 then p else fallbackThemes.GetOr([])
  }

  /** `themes.flatMap(theme => theme.claims ?? [])`. */
  function FlatClaims(themes: seq<Theme>): seq<Claim> {
    if themes == [] then [] else FlatClaims(themes[..|themes| - 1]) + themes[|themes| - 1].claims.GetOr([])
  }

  /** Flattening distributes over concatenation: claims keep theme order, then claim order. */
  lemma {:induction false} FlatClaimsAppend(a: seq<Theme>, b: seq<Theme>)
    ensures FlatClaims(a + b) == FlatClaims(a) + FlatClaims(b)
    decreases |b|
  {
    if b == [] {
      assert a + b == a;
    } else {
      var b' := b[..|b| - 1];
      FlatClaimsAppend(a, b');
      AppendLast(a, b);
      AppendAssoc(FlatClaims(a), FlatClaims(b'), b[|b| - 1].claims.GetOr([]));
    }
  }

  /**
   * The fallback query's `enabled`: it fetches the run's themes only for a
   * run with an id whose payload has no themes.
   */
  predicate FallbackEnabled(runId: Option<string>, payloadThemes: Option<seq<Theme>>) {
    runId.Some? && runId.value != "" && payloadThemes.GetOr([]) == []
  }

  /**
   * For a loaded run, what the fallback query holds matters only while that
   * query is enabled: otherwise the payload's own themes are shown.
   */
  lemma FallbackMattersOnlyWhenEnabled(runId: Option<string>, payloadThemes: Option<seq<Theme>>, f1: Option<seq<Theme>>, f2: Option<seq<Theme>>)
    requires runId.Some? && runId.value != ""
    requires !FallbackEnabled(runId, payloadThemes)
    ensures ShownThemes(payloadThemes, f1) == ShownThemes(payloadThemes, f2) == payloadThemes.value
  {
  }

  /** Nothing is shown exactly when neither the payload nor the fallback has a theme. */
  lemma ShownThemesEmptyIff(payloadThemes: Option<seq<Theme>>, fallbackThemes: Option<seq<Theme>>)
    ensures ShownThemes(payloadThemes, fallbackThemes) == [] <==> payloadThemes.GetOr([]) == [] && fallbackThemes.GetOr([]) == []
  {
  }

  /** The listed claims are the payload's claims whenever the payload has themes, in order. */
  lemma ShownClaimsFromPayload(payloadThemes: Option<seq<Theme>>, fallbackThemes: Option<seq<Theme>>)
    requires payloadThemes.GetOr([]) != []
    ensures FlatClaims(ShownThemes(payloadThemes, fallbackThemes)) == FlatClaims(payloadThemes.value)
    ensures forall i, c :: 0 <= i < |payloadThemes.value| && c in payloadThemes.value[i].claims.GetOr([]) ==>
      c in FlatClaims(ShownThemes(payloadThemes, fallbackThemes))
  {
    forall i, c | 0 <= i < |payloadThemes.value| && c in payloadThemes.value[i].claims.GetOr([])
      ensures c in FlatClaims(payloadThemes.value)
    {
      FlatClaimsContains(payloadThemes.value, i, c);
    }
  }

  /** Every claim of every shown theme appears in the flat list. */
  lemma {:induction false} FlatClaimsContains(themes: seq<Theme>, i: int, c: Claim)
    requires 0 <= i < |themes| && c in themes[i].claims.GetOr([])
    ensures c in FlatClaims(themes)
  {
    if i < |themes| - 1 {
      FlatClaimsContains(themes[..|themes| - 1], i, c);
    }
  }

  /** The page's own state: the claim shown in the citations drawer. */
  class ViewerState {
    var selectedClaim: Option<Claim>
    var drawerOpen: bool

    constructor ()
      ensures selectedClaim == None && !drawerOpen
    {
      selectedClaim := None;
      drawerOpen := false;
    }

    /** `openCitations`: a claim without citations opens nothing and changes nothing. */
    method OpenCitations(claim: Claim)
      modifies this
      ensures claim.citations.GetOr([]) == [] ==> selectedClaim == old(selectedClaim) && drawerOpen == old(drawerOpen)
      ensures claim.citations.GetOr([]) != [] ==> selectedClaim == Some(claim) && drawerOpen
    {
      if claim.citations.None? || |claim.citations.value| == 0 {
        return;
      }
      selectedClaim := Some(claim);
      drawerOpen := true;
    }

    /** The drawer's `onOpenChange`: closing it also forgets the selected claim. */
    method SetDrawerOpen(open: bool)
      modifies this
      ensures drawerOpen == open
      ensures selectedClaim == if open then old(selectedClaim) else None
    {
      drawerOpen := open;
      if !open {
        selectedClaim := None;
      }
    }
  }

  /** `addClaimToDecision`: one `setDecisionDraft` with the merged partial. */
  method AddClaimToDecision(store: UIStore, theme: Theme, claim: Claim)
    modifies store
    ensures store.decisionDraft == Merged(old(store.decisionDraft), theme, claim)
    ensures store.selectedProjectId == old(store.selectedProjectId)
    ensures store.activeDialog == old(store.activeDialog)
    ensures store.commandPaletteOpen == old(store.commandPaletteOpen)
  {
    var patch := MergeClaim(store.decisionDraft, theme, claim);
    store.SetDecisionDraft(patch);
  }
}
