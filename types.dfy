/** The web client's view of the API's records (apps/web/src/lib/types.ts). */
module Types {
  import opened Wrappers

  datatype CitationSnippet = CitationSnippet(
    id: string,
    source_id: string,
    quote: Option<string>,
    location: Option<string>)

  /** `confidence` is read with a `?? 0.6` fallback, so it may be missing. */
  datatype Claim = Claim(
    id: string,
    theme_id: string,
    statement: string,
    confidence: Option<real>,
    citations: Option<seq<CitationSnippet>>)

  datatype Theme = Theme(
    id: string,
    insight_run_id: string,
    title: string,
    summary: Option<string>,
    confidence: real,
    claims: Option<seq<Claim>>)

  datatype Decision = Decision(id: string, project_id: string, title: string)

  /**
   * A task as the board receives it. The declared TypeScript type has no
   * `decision_id`; the board reads one through a cast, so it is optional here.
   */
  datatype Task = Task(
    id: string,
    project_id: string,
    title: string,
    status: string,
    owner: Option<string>,
    due_date: Option<string>,
    decision_id: Option<string>)

  /** The body of `api.createTask`; `None` is an omitted or `null` field. */
  datatype TaskCreateRequest = TaskCreateRequest(
    project_id: string,
    title: string,
    status: string,
    owner: Option<string>,
    due_date: Option<string>,
    decision_id: Option<string>)

  /**
   * The body of `api.updateTask`. `None` is a field that is omitted or sent
   * as `null`; the API cannot tell the two apart.
   */
  datatype TaskUpdateRequest = TaskUpdateRequest(
    title: Option<string>,
    status: Option<string>,
    owner: Option<string>,
    due_date: Option<string>,
    decision_id: Option<string>)

  /** A project with its creation time as a number (milliseconds). */
  datatype Project = Project(id: string, name: string, created_at: int)
}
