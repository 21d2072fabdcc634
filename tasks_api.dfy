/**
 * The task endpoints (apps/api/app/routers/tasks.py): filtered listing,
 * creation with its project and decision checks, the partial update, and
 * deletion. A request that fails commits nothing.
 */
module TasksApi {
  import opened Wrappers
  import opened Lists
  import opened Types
  import opened Db
  import TaskBoard

  const TaskNotFound := HttpError(NotFound, "Task not found")
  const ProjectNotFound := HttpError(NotFound, "Project not found")
  const DecisionNotInProject := HttpError(BadRequest, "Decision not found for project")

  /** `id` names a decision of project `projectId`. */
  predicate DecisionInProject(decisions: map<string, DecisionRow>, id: string, projectId: string) {
    id in decisions && decisions[id].project_id == projectId
  }

  /**
   * Referential integrity of task links: every task whose `decision_id` is
   * set (and not empty) points at a decision of the task's own project.
   */
  predicate LinksValid(tasks: map<string, TaskRow>, decisions: map<string, DecisionRow>) {
    forall k :: k in tasks && Truthy(tasks[k].decision_id) ==>
      DecisionInProject(decisions, tasks[k].decision_id.value, tasks[k].project_id)
  }

  /** The list filters: an absent or empty filter is not applied. */
  predicate TaskMatches(t: TaskRow, projectId: Option<string>, decisionId: Option<string>) {
    && (Truthy(projectId) ==> t.project_id == projectId.value)
    && (Truthy(decisionId) ==> t.decision_id == decisionId)
  }

  /** `list_tasks`: every matching task once, newest first. */
  method ListTasks(db: Database, projectId: Option<string>, decisionId: Option<string>) returns (r: seq<TaskRow>)
    ensures forall t :: t in r <==> t in db.tasks.Values && TaskMatches(t, projectId, decisionId)
    ensures NoDups(r)
    ensures DescendingBy(r, TaskCreatedAt)
  {
    var rows := set t | t in db.tasks.Values && TaskMatches(t, projectId, decisionId);
    r := NewestFirst(rows, TaskCreatedAt);
    FromSetNoDups(r, rows);
  }

  /**
   * The outcome of `create_task`: 404 without the project, 400 when a
   * non-empty `decision_id` is not a decision of that project, else the new
   * row, which keeps `decision_id` exactly as sent.
   */
  function CreatedTask(projects: map<string, ProjectRow>, decisions: map<string, DecisionRow>,
                       p: TaskCreateRequest, id: string, now: int): (r: Result<TaskRow, HttpError>)
    ensures r.Failure? <==>
      p.project_id !in projects || (Truthy(p.decision_id) && !DecisionInProject(decisions, p.decision_id.value, p.project_id))
    ensures p.project_id !in projects ==> r == Failure(ProjectNotFound)
    ensures p.project_id in projects && r.Failure? ==> r == Failure(DecisionNotInProject)
    ensures r.Success? ==> r.value.id == id && r.value.project_id == p.project_id && r.value.created_at == now
    ensures r.Success? ==> r.value.title == p.title && r.value.status == p.status && r.value.owner == p.owner
    ensures r.Success? ==> r.value.due_date == p.due_date && r.value.decision_id == p.decision_id
  {
    if p.project_id !in projects then Failure(ProjectNotFound)
    else if Truthy(p.decision_id) && !DecisionInProject(decisions, p.decision_id.value, p.project_id) then
      Failure(DecisionNotInProject)
    else Success(TaskRow(id, p.project_id, p.title, p.status, p.owner, p.due_date, p.decision_id, now))
  }

  /** `create_task`; `id` and `now` stand for the generated uuid and the insert time. */
  method CreateTask(db: Database, p: TaskCreateRequest, id: string, now: int) returns (r: Result<TaskRow, HttpError>)
    requires id !in db.tasks
    modifies db
    ensures db.citations == old(db.citations)
    ensures r == CreatedTask(old(db.projects), old(db.decisions), p, id, now)
    ensures r.Success? ==> db.tasks == old(db.tasks)[id := r.value]
    ensures r.Failure? ==> db.tasks == old(db.tasks)
    ensures db.projects == old(db.projects) && db.sources == old(db.sources)
    ensures db.decisions == old(db.decisions) && db.decisionCitations == old(db.decisionCitations)
  {
    if p.project_id !in db.projects {
      return Failure(ProjectNotFound);
    }
    if Truthy(p.decision_id) {
      var d := p.decision_id.value;
      if d !in db.decisions || db.decisions[d].project_id != p.project_id {
        return Failure(DecisionNotInProject);
      }
    }
    var task := TaskRow(id, p.project_id, p.title, p.status, p.owner, p.due_date, p.decision_id, now);
    db.tasks := db.tasks[id := task];
    r := Success(task);
  }

  /**
   * The outcome of `update_task` on an existing row: each field changes only
   * when the request carries a value for it; an empty `decision_id` unlinks
   * the task, any other must name a decision of the task's project.
   */
  function PatchedTask(t: TaskRow, decisions: map<string, DecisionRow>, p: TaskUpdateRequest): (r: Result<TaskRow, HttpError>)
    ensures r.Failure? <==> Truthy(p.decision_id) && !DecisionInProject(decisions, p.decision_id.value, t.project_id)
    ensures r.Failure? ==> r == Failure(DecisionNotInProject)
    ensures r.Success? ==> r.value.id == t.id && r.value.project_id == t.project_id && r.value.created_at == t.created_at
    ensures r.Success? ==> r.value.title == p.title.GetOr(t.title) && r.value.status == p.status.GetOr(t.status)
    ensures r.Success? ==> r.value.owner == (if p.owner.Some? then p.owner else t.owner)
    ensures r.Success? ==> r.value.due_date == (if p.due_date.Some? then p.due_date else t.due_date)
    ensures r.Success? && p.decision_id.None? ==> r.value.decision_id == t.decision_id
    ensures r.Success? && p.decision_id == Some("") ==> r.value.decision_id == None
    ensures r.Success? && Truthy(p.decision_id) ==> r.value.decision_id == p.decision_id
  {
    if Truthy(p.decision_id) && !DecisionInProject(decisions, p.decision_id.value, t.project_id) then
      Failure(DecisionNotInProject)
    else
      Success(t.(title := p.title.GetOr(t.title),
                 status := p.status.GetOr(t.status),
                 owner := if p.owner.Some? then p.owner else t.owner,
                 due_date := if p.due_date.Some? then p.due_date else t.due_date,
                 decision_id := if p.decision_id.None? then t.decision_id
                                else if p.decision_id.value == "" then None
                                else p.decision_id))
  }

  /** `update_task`: the row is changed field by field and stored only if no check fails. */
  method UpdateTask(db: Database, taskId: string, p: TaskUpdateRequest) returns (r: Result<TaskRow, HttpError>)
    modifies db
    ensures db.citations == old(db.citations)
    ensures taskId !in old(db.tasks) ==> r == Failure(TaskNotFound)
    ensures taskId in old(db.tasks) ==> r == PatchedTask(old(db.tasks)[taskId], old(db.decisions), p)
    ensures r.Success? ==> db.tasks == old(db.tasks)[taskId := r.value]
    ensures r.Failure? ==> db.tasks == old(db.tasks)
    ensures db.projects == old(db.projects) && db.sources == old(db.sources)
    ensures db.decisions == old(db.decisions) && db.decisionCitations == old(db.decisionCitations)
  {
    if taskId !in db.tasks {
      return Failure(TaskNotFound);
    }
    var task := db.tasks[taskId];
    if p.title.Some? {
      task := task.(title := p.title.value);
    }
    if p.status.Some? {
      task := task.(status := p.status.value);
    }
    if p.owner.Some? {
      task := task.(owner := p.owner);
    }
    if p.due_date.Some? {
      task := task.(due_date := p.due_date);
    }
    if p.decision_id.Some? {
      var d := p.decision_id.value;
      if d != "" {
        if d !in db.decisions || db.decisions[d].project_id != task.project_id {
          return Failure(DecisionNotInProject);
        }
        task := task.(decision_id := Some(d));
      } else {
        task := task.(decision_id := None);
      }
    }
    db.tasks := db.tasks[taskId := task];
    r := Success(task);
  }

  /** `delete_task`: 404 for an unknown id, else exactly that task is removed. */
  method DeleteTask(db: Database, taskId: string) returns (r: Result<(), HttpError>)
    modifies db
    ensures db.citations == old(db.citations)
    ensures r.Failure? <==> taskId !in old(db.tasks)
    ensures r.Failure? ==> r.error == TaskNotFound && db.tasks == old(db.tasks)
    ensures r.Success? ==> db.tasks == old(db.tasks) - {taskId}
    ensures db.projects == old(db.projects) && db.sources == old(db.sources)
    ensures db.decisions == old(db.decisions) && db.decisionCitations == old(db.decisionCitations)
  {
    if taskId !in db.tasks {
      return Failure(TaskNotFound);
    }
    db.tasks := db.tasks - {taskId};
    r := Success(());
  }

  /** An update that carries no field leaves the row as it was. */
  lemma EmptyPatchIsIdentity(t: TaskRow, decisions: map<string, DecisionRow>)
    ensures PatchedTask(t, decisions, TaskUpdateRequest(None, None, None, None, None)) == Success(t)
  {
  }

  /** Sending the same update twice stores what sending it once stores. */
  lemma PatchIdempotent(t: TaskRow, decisions: map<string, DecisionRow>, p: TaskUpdateRequest)
    requires PatchedTask(t, decisions, p).Success?
    ensures PatchedTask(PatchedTask(t, decisions, p).value, decisions, p) == PatchedTask(t, decisions, p)
  {
  }

  /** Creating a task keeps every task link inside its project. */
  lemma CreateKeepsLinks(projects: map<string, ProjectRow>, decisions: map<string, DecisionRow>,
                         tasks: map<string, TaskRow>, p: TaskCreateRequest, id: string, now: int)
    requires LinksValid(tasks, decisions)
    requires CreatedTask(projects, decisions, p, id, now).Success?
    ensures LinksValid(tasks[id := CreatedTask(projects, decisions, p, id, now).value], decisions)
  {
  }

  /** Updating a task keeps every task link inside its project. */
  lemma PatchKeepsLinks(tasks: map<string, TaskRow>, decisions: map<string, DecisionRow>, taskId: string, p: TaskUpdateRequest)
    requires LinksValid(tasks, decisions) && taskId in tasks
    requires PatchedTask(tasks[taskId], decisions, p).Success?
    ensures LinksValid(tasks[taskId := PatchedTask(tasks[taskId], decisions, p).value], decisions)
  {
    var t := tasks[taskId];
    var t' := PatchedTask(t, decisions, p).value;
    if p.decision_id.None? {
      assert Truthy(t'.decision_id) ==> Truthy(t.decision_id);
    }
  }

  /**
   * Clearing the owner in the board's inline editor does not clear it: the
   * board sends an empty owner as `null`, and the update ignores `null`.
   * The same holds for the due date.
   */
  lemma BoardEditKeepsOwnerAndDueDate(t: TaskRow, decisions: map<string, DecisionRow>, v: TaskBoard.EditingValues)
    requires v.owner == "" && v.due_date == ""
    ensures PatchedTask(t, decisions, TaskBoard.EditRequest(v)).Success?
    ensures PatchedTask(t, decisions, TaskBoard.EditRequest(v)).value.owner == t.owner
    ensures PatchedTask(t, decisions, TaskBoard.EditRequest(v)).value.due_date == t.due_date
    ensures PatchedTask(t, decisions, TaskBoard.EditRequest(v)).value.title == v.title
  {
  }
}
