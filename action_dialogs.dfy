/**
 * The modal dialogs (apps/web/src/components/ActionDialogs.tsx): the
 * decision form that is loaded from and mirrored into the store's draft,
 * and the submit guards of the task, project and upload dialogs.
 */
module ActionDialogs {
  import opened Wrappers
  import opened Text
  import opened Lists
  import opened Types
  import opened UiStore

  /** `toggleCitation`'s list update: drop every occurrence if present, else append. */
  function Toggle(ids: seq<string>, id: string): (r: seq<string>)
    ensures id in r <==> id !in ids
    ensures forall x :: x != id ==> (x in r <==> x in ids)
    ensures id !in ids ==> r == ids + [id]
    ensures id in ids ==> r == Remove(ids, id)
  {
    if id in ids then Remove(ids, id) else ids + [id]
  }

  /** Toggling an absent id twice gives back the original list. */
  lemma {:induction false} ToggleTwiceRestores(ids: seq<string>, id: string)
    requires id !in ids
    ensures Toggle(Toggle(ids, id), id) == ids
  {
    var once := ids + [id];
    assert once[..|once| - 1] == ids;
    RemoveAbsent(ids, id);
  }

  /** Toggling keeps a duplicate-free list duplicate-free. */
  lemma ToggleKeepsNoDups(ids: seq<string>, id: string)
    requires NoDups(ids)
    ensures NoDups(Toggle(ids, id))
  {
    if id in ids {
      RemoveKeepsNoDups(ids, id);
    }
  }

  /** The body of `api.createDecision`. */
  datatype DecisionCreateRequest = DecisionCreateRequest(
    project_id: string,
    title: string,
    rationale: string,
    pros: string,
    cons: string,
    risks: string,
    confidence: real,
    citation_source_ids: seq<string>,
    linked_claim_ids: seq<string>)

  /** The decision form's free-text inputs. */
  datatype TextField = TitleInput | RationaleInput | ProsInput | ConsInput | RisksInput

  /** The partial that an edit of `field` writes to the draft. */
  function EditPatch(field: TextField, value: string): DraftPatch {
    match field
    case TitleInput => NoFields.(title := Some(value))
    case RationaleInput => NoFields.(rationale := Some(value))
    case ProsInput => NoFields.(pros := Some(value))
    case ConsInput => NoFields.(cons := Some(value))
    case RisksInput => NoFields.(risks := Some(value))
  }

  /** `DecisionDialog`: its form state, and the store it reads and writes. */
  class DecisionForm {
    var title: string
    var rationale: string
    var pros: string
    var cons: string
    var risks: string
    var confidence: real
    var citationIds: seq<string>
    var linkedClaimIds: seq<string>
    const store: UIStore

    /** The form's values in the draft's shape. */
    function Values(): DecisionDraft
      reads this
    {
      DecisionDraft(title, rationale, pros, cons, risks, confidence, linkedClaimIds, citationIds)
    }

    constructor (store: UIStore)
      ensures this.store == store
      ensures Values() == EmptyDecisionDraft
    {
      this.store := store;
      title, rationale, pros, cons, risks := "", "", "", "", "";
      confidence := 0.6;
      citationIds, linkedClaimIds := [], [];
    }

    /** The prefill effect: while the decision dialog is open, every field is loaded from the draft. */
    method Prefill()
      modifies this
      ensures old(store.activeDialog) == Some(DecisionDialog) ==> Values() == store.decisionDraft
      ensures old(store.activeDialog) != Some(DecisionDialog) ==> Values() == old(Values())
    {
      if store.activeDialog == Some(DecisionDialog) {
        var d := store.decisionDraft;
        title := d.title;
        rationale := d.rationale;
        pros := d.pros;
        cons := d.cons;
        risks := d.risks;
        confidence := d.confidence;
        citationIds := d.citationSourceIds;
        linkedClaimIds := d.linkedClaimIds;
      }
    }

    /** An edit of a text input: the form field and the draft field both take the value. */
    method EditText(field: TextField, value: string)
      modifies this, store
      ensures Values() == Overwrite(old(Values()), EditPatch(field, value))
      ensures store.decisionDraft == Overwrite(old(store.decisionDraft), EditPatch(field, value))
      ensures store.activeDialog == old(store.activeDialog)
      ensures store.selectedProjectId == old(store.selectedProjectId)
    {
      match field {
        case TitleInput => title := value;
        case RationaleInput => rationale := value;
        case ProsInput => pros := value;
        case ConsInput => cons := value;
        case RisksInput => risks := value;
      }
      store.SetDecisionDraft(EditPatch(field, value));
    }

    /** An edit of the confidence input, mirrored into the draft. */
    method EditConfidence(value: real)
      modifies this, store
      ensures Values() == old(Values()).(confidence := value)
      ensures store.decisionDraft == old(store.decisionDraft).(confidence := value)
      ensures store.activeDialog == old(store.activeDialog)
      ensures store.selectedProjectId == old(store.selectedProjectId)
    {
      confidence := value;
      store.SetDecisionDraft(NoFields.(confidence := Some(value)));
    }

    /** `toggleCitation(id)`: the same toggled list goes to the form and to the draft. */
    method ToggleCitation(id: string)
      modifies this, store
      ensures citationIds == Toggle(old(citationIds), id)
      ensures Values() == old(Values()).(citationSourceIds := citationIds)
      ensures store.decisionDraft == old(store.decisionDraft).(citationSourceIds := citationIds)
      ensures store.activeDialog == old(store.activeDialog)
      ensures store.selectedProjectId == old(store.selectedProjectId)
    {
      var next := Toggle(citationIds, id);
      store.SetDecisionDraft(NoFields.(citationSourceIds := Some(next)));
      citationIds := next;
    }

    /** The submit: no request without a selected project or with a blank title. */
    function Submission(): (r: Result<DecisionCreateRequest, string>)
      reads this, store
      ensures r.Failure? <==> store.selectedProjectId.None? || IsBlank(title)
      ensures store.selectedProjectId.None? ==> r == Failure("Select a project first")
      ensures r.Success? ==> r.value.project_id == store.selectedProjectId.value
      ensures r.Success? ==> r.value.title == title && r.value.rationale == rationale && r.value.pros == pros
      ensures r.Success? ==> r.value.cons == cons && r.value.risks == risks && r.value.confidence == confidence
      ensures r.Success? ==> r.value.citation_source_ids == citationIds && r.value.linked_claim_ids == linkedClaimIds
    {
      if store.selectedProjectId.None? then Failure("Select a project first")
      else if Trim(title) == "" then Failure("Decision title is required")
      else Success(DecisionCreateRequest(store.selectedProjectId.value, title, rationale, pros, cons, risks,
                                         confidence, citationIds, linkedClaimIds))
    }

    /** After a successful create: the form resets, the draft is cleared, the dialog closes. */
    method OnCreateSuccess()
      modifies this, store
      ensures Values() == EmptyDecisionDraft
      ensures store.decisionDraft == EmptyDecisionDraft
      ensures store.activeDialog == None
      ensures store.selectedProjectId == old(store.selectedProjectId)
    {
      title, rationale, pros, cons, risks := "", "", "", "", "";
      confidence := 0.6;
      citationIds, linkedClaimIds := [], [];
      store.ClearDecisionDraft();
      store.CloseDialog();
    }

    /** Cancel or dismiss: only the dialog closes; the draft survives. */
    method Cancel()
      modifies store
      ensures store.activeDialog == None
      ensures store.decisionDraft == old(store.decisionDraft)
      ensures store.selectedProjectId == old(store.selectedProjectId)
    {
      store.CloseDialog();
    }
  }

  /** Edits made before a dismissal are what the form shows when it is opened again. */
  method EditDismissReopen(form: DecisionForm, value: string)
    modifies form, form.store
    ensures form.title == value
    ensures form.store.decisionDraft.title == value
    ensures form.Values() == form.store.decisionDraft
  {
    form.EditText(TitleInput, value);
    form.Cancel();
    form.store.OpenDialog(DecisionDialog);
    form.Prefill();
  }

  /** `TaskDialog`'s submit: no request without a project or with a blank title; empty optionals are omitted. */
  function TaskSubmission(selectedProjectId: Option<string>, title: string, status: string, owner: string, dueDate: string)
    : (r: Result<TaskCreateRequest, string>)
    ensures r.Failure? <==> selectedProjectId.None? || IsBlank(title)
    ensures r.Success? ==> r.value.project_id == selectedProjectId.value && r.value.title == title
    ensures r.Success? ==> r.value.status == status && r.value.decision_id == None
    ensures r.Success? ==> (r.value.owner == None <==> owner == "") && (owner != "" ==> r.value.owner == Some(owner))
    ensures r.Success? ==> (r.value.due_date == None <==> dueDate == "") && (dueDate != "" ==> r.value.due_date == Some(dueDate))
  {
    if selectedProjectId.None? then Failure("Select a project first")
    else if Trim(title) == "" then Failure("Task title is required")
    else Success(TaskCreateRequest(selectedProjectId.value, title, status,
                                   if owner == "" then None else Some(owner),
                                   if dueDate == "" then None else Some(dueDate),
                                   None))
  }

  datatype ProjectCreateRequest = ProjectCreateRequest(name: string, description: string)

  /** `ProjectDialog`'s submit: a blank name is rejected. */
  function ProjectSubmission(name: string, description: string): (r: Result<ProjectCreateRequest, string>)
    ensures r.Failure? <==> IsBlank(name)
    ensures r.Success? ==> r.value == ProjectCreateRequest(name, description)
  {
    if Trim(name) == "" then Failure("Project name is required") else Success(ProjectCreateRequest(name, description))
  }

  /** The fields `api.uploadSource` sends; the file itself is only named. */
  datatype UploadRequest = UploadRequest(
    projectId: string,
    fileName: string,
    kind: string,
    title: Option<string>,
    tags: seq<string>)

  /** `UploadDialog`'s submit: a project, then a file, are required; tags are the non-empty trimmed pieces. */
  function UploadSubmission(projectId: Option<string>, file: Option<string>, kind: string, title: string, tags: string)
    : (r: Result<UploadRequest, string>)
    ensures r.Failure? <==> projectId.None? || file.None?
    ensures projectId.None? ==> r == Failure("Select a project to attach the source to")
    ensures r.Success? ==> r.value.projectId == projectId.value && r.value.fileName == file.value
    ensures r.Success? ==> (r.value.title == None <==> title == "")
    ensures projectId.Some? && file.None? ==> r == Failure("Choose a file to upload")
    ensures r.Success? ==> r.value.kind == kind && r.value.tags == CommaTags(tags)
    ensures r.Success? && title != "" ==> r.value.title == Some(title)
    ensures r.Success? ==> forall k :: 0 <= k < |r.value.tags| ==> r.value.tags[k] != ""
  {
    if projectId.None? then Failure("Select a project to attach the source to")
    else if file.None? then Failure("Choose a file to upload")
    else Success(UploadRequest(projectId.value, file.value, kind, if title == "" then None else Some(title), CommaTags(tags)))
  }
}
