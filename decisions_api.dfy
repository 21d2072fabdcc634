/**
 * The decision endpoints (apps/api/app/routers/decisions.py): listing,
 * creation with citation validation, full replacement on update, and
 * deletion that unlinks the decision's tasks. A request that fails commits
 * nothing.
 */
module DecisionsApi {
  import opened Wrappers
  import opened Text
  import opened Lists
  import opened Db
  import opened TasksApi

  const DecisionNotFound := HttpError(NotFound, "Decision not found")
  const UnknownSourcesPrefix: string := "Unknown sources for citations: "

  /** The body of a decision create or update. */
  datatype DecisionPayload = DecisionPayload(
    project_id: string,
    title: string,
    rationale: Option<string>,
    pros: Option<string>,
    cons: Option<string>,
    risks: Option<string>,
    confidence: Option<real>,
    citation_source_ids: seq<string>,
    linked_claim_ids: seq<string>)

  /** The distinct ids of a list. */
  function Distinct(ids: seq<string>): set<string> {
    set i | i in ids
  }

  /** The cited ids that name no source. */
  function UnknownSources(sources: map<string, SourceRow>, ids: seq<string>): (r: set<string>)
    ensures forall s :: s in r <==> s in ids && s !in sources
  {
    Distinct(ids) - sources.Keys
  }

  /** The cited ids that name a source, each once. */
  function KnownSources(sources: map<string, SourceRow>, ids: seq<string>): (r: set<string>)
    ensures forall s :: s in r <==> s in ids && s in sources
  {
    Distinct(ids) * sources.Keys
  }

  /** The source ids of a list of citation rows, in order. */
  function CitedIds(rows: seq<DecisionCitationRow>): (r: seq<string>)
    ensures |r| == |rows| && forall i :: 0 <= i < |rows| ==> r[i] == rows[i].source_id
  {
    seq(|rows|, i requires 0 <= i < |rows| => rows[i].source_id)
  }

  /** The cited ids split into those that name a source and those that do not. */
  lemma SourcesPartition(sources: map<string, SourceRow>, ids: seq<string>)
    ensures Distinct(ids) - KnownSources(sources, ids) == UnknownSources(sources, ids)
    ensures UnknownSources(sources, ids) == {} ==> KnownSources(sources, ids) == Distinct(ids)
    ensures ids == [] ==> UnknownSources(sources, ids) == {}
  {
  }

  /** The citation rows that belong to `decisionId`, in order. */
  function CitationsOf(rows: seq<DecisionCitationRow>, decisionId: string): (r: seq<DecisionCitationRow>)
    ensures forall c :: c in r <==> c in rows && c.decision_id == decisionId
  {
    if rows == [] then []
    else (if rows[0].decision_id == decisionId then [rows[0]] else []) + CitationsOf(rows[1..], decisionId)
  }

  /** The citation rows that belong to any other decision, in order. */
  function CitationsNotOf(rows: seq<DecisionCitationRow>, decisionId: string): (r: seq<DecisionCitationRow>)
    ensures forall c :: c in r <==> c in rows && c.decision_id != decisionId
  {
    if rows == [] then []
    else (if rows[0].decision_id != decisionId then [rows[0]] else []) + CitationsNotOf(rows[1..], decisionId)
  }

  /** New citation rows of `decisionId`: one per source id in `ids`, each without a note. */
  predicate CitesExactly(added: seq<DecisionCitationRow>, decisionId: string, ids: set<string>) {
    && (forall c :: c in added ==> c.decision_id == decisionId && c.note == None)
    && multiset(CitedIds(added)) == multiset(ids)
  }

  /**
   * One citation row per element of `ids`, in whatever order the set is
   * walked (`for source_id in existing_ids`).
   */
  method CitationRows(decisionId: string, ids: set<string>) returns (added: seq<DecisionCitationRow>)
    ensures CitesExactly(added, decisionId, ids)
  {
    added := [];
    var remaining := ids;
    while remaining != {}
      invariant remaining <= ids
      invariant forall c :: c in added ==> c.decision_id == decisionId && c.note == None
      invariant multiset(CitedIds(added)) + multiset(remaining) == multiset(ids)
      decreases |remaining|
    {
      var s :| s in remaining;
      assert multiset(remaining) == multiset(remaining - {s}) + multiset{s};
      assert CitedIds(added + [DecisionCitationRow(decisionId, s, None)]) == CitedIds(added) + [s];
      added := added + [DecisionCitationRow(decisionId, s, None)];
      remaining := remaining - {s};
    }
  }

  /** `detail` names exactly the ids of `missing`, each once, after the fixed prefix. */
  ghost predicate NamesUnknown(detail: string, missing: set<string>) {
    exists names: seq<string> :: multiset(names) == multiset(missing) && detail == UnknownSourcesPrefix + Join(names, ", ")
  }

  /** The 400 for unknown citations: the missing ids joined in the order the set is walked. */
  method UnknownSourcesError(missing: set<string>) returns (e: HttpError)
    ensures e.status == BadRequest && NamesUnknown(e.detail, missing)
  {
    var names: seq<string> := [];
    var remaining := missing;
    while remaining != {}
      invariant remaining <= missing
      invariant multiset(names) + multiset(remaining) == multiset(missing)
      decreases |remaining|
    {
      var s :| s in remaining;
      assert multiset(remaining) == multiset(remaining - {s}) + multiset{s};
      names := names + [s];
      remaining := remaining - {s};
    }
    e := HttpError(BadRequest, UnknownSourcesPrefix + Join(names, ", "));
  }

  /**
   * The row `create_decision` inserts. A confidence sent as `null` is left
   * out of the insert, so the column default applies.
   */
  function NewDecision(p: DecisionPayload, id: string, now: int): (d: DecisionRow)
    ensures d.confidence.Some?
    ensures p.confidence.None? ==> d.confidence == Some(DefaultDecisionConfidence)
    ensures p.confidence.Some? ==> d.confidence == p.confidence
    ensures d.id == id && d.project_id == p.project_id && d.title == p.title && d.created_at == now
    ensures d.linked_claim_ids == p.linked_claim_ids
  {
    DecisionRow(id, p.project_id, p.title, p.rationale, p.pros, p.cons, p.risks,
                Some(p.confidence.GetOr(DefaultDecisionConfidence)), p.linked_claim_ids, now)
  }

  /**
   * `create_decision`: 404 without the project; 400 naming the unknown ids
   * when a cited source is missing; otherwise the decision and one citation
   * row per distinct cited source.
   */
  method CreateDecision(db: Database, p: DecisionPayload, id: string, now: int) returns (r: Result<DecisionRow, HttpError>)
    requires id !in db.decisions
    modifies db
    ensures db.citations == old(db.citations)
    ensures p.project_id !in old(db.projects) ==> r == Failure(ProjectNotFound)
    ensures p.project_id in old(db.projects) && UnknownSources(old(db.sources), p.citation_source_ids) != {} ==>
      r.Failure? && r.error.status == BadRequest && NamesUnknown(r.error.detail, UnknownSources(old(db.sources), p.citation_source_ids))
    ensures r.Success? <==> p.project_id in old(db.projects) && UnknownSources(old(db.sources), p.citation_source_ids) == {}
    ensures r.Failure? ==> db.decisions == old(db.decisions) && db.decisionCitations == old(db.decisionCitations)
    ensures r.Success? ==> r.value == NewDecision(p, id, now) && db.decisions == old(db.decisions)[id := r.value]
    ensures r.Success? ==>
      exists added :: db.decisionCitations == old(db.decisionCitations) + added && CitesExactly(added, id, Distinct(p.citation_source_ids))
    ensures db.projects == old(db.projects) && db.sources == old(db.sources) && db.tasks == old(db.tasks)
  {
    if p.project_id !in db.projects {
      return Failure(ProjectNotFound);
    }
    var decision := NewDecision(p, id, now);
    var added: seq<DecisionCitationRow> := [];
    SourcesPartition(db.sources, p.citation_source_ids);
    if p.citation_source_ids != [] {
      var existing := KnownSources(db.sources, p.citation_source_ids);
      var missing := Distinct(p.citation_source_ids) - existing;
      if missing != {} {
        var e := UnknownSourcesError(missing);
        return Failure(e);
      }
      added := CitationRows(id, existing);
    } else {
      assert CitesExactly(added, id, Distinct(p.citation_source_ids));
    }
    ghost var before := db.decisionCitations;
    db.decisions := db.decisions[id := decision];
    db.decisionCitations := db.decisionCitations + added;
    assert db.decisionCitations == before + added;
    r := Success(decision);
  }

  /** The fields `update_decision` overwrites; `id` and `created_at` stay. */
  function UpdatedDecision(d: DecisionRow, p: DecisionPayload): (r: DecisionRow)
    ensures r.id == d.id && r.created_at == d.created_at
    ensures r.project_id == p.project_id && r.title == p.title && r.confidence == p.confidence
    ensures r.rationale == p.rationale && r.pros == p.pros && r.cons == p.cons && r.risks == p.risks
    ensures r.linked_claim_ids == p.linked_claim_ids
  {
    d.(project_id := p.project_id, title := p.title, rationale := p.rationale, pros := p.pros,
       cons := p.cons, risks := p.risks, confidence := p.confidence, linked_claim_ids := p.linked_claim_ids)
  }

  /**
   * `update_decision`: 404 for an unknown decision or project; otherwise
   * every field is overwritten and the decision's citations are replaced by
   * one row per distinct cited id that names a source. Unknown ids are
   * dropped without an error.
   */
  method UpdateDecision(db: Database, decisionId: string, p: DecisionPayload) returns (r: Result<DecisionRow, HttpError>)
    modifies db
    ensures db.citations == old(db.citations)
    ensures decisionId !in old(db.decisions) ==> r == Failure(DecisionNotFound)
    ensures decisionId in old(db.decisions) && p.project_id !in old(db.projects) ==> r == Failure(ProjectNotFound)
    ensures r.Success? <==> decisionId in old(db.decisions) && p.project_id in old(db.projects)
    ensures r.Failure? ==> db.decisions == old(db.decisions) && db.decisionCitations == old(db.decisionCitations)
    ensures r.Success? ==> r.value == UpdatedDecision(old(db.decisions)[decisionId], p)
    ensures r.Success? ==> db.decisions == old(db.decisions)[decisionId := r.value]
    ensures r.Success? ==> exists added ::
      && db.decisionCitations == CitationsNotOf(old(db.decisionCitations), decisionId) + added
      && CitesExactly(added, decisionId, KnownSources(old(db.sources), p.citation_source_ids))
    ensures db.projects == old(db.projects) && db.sources == old(db.sources) && db.tasks == old(db.tasks)
  {
    if decisionId !in db.decisions {
      return Failure(DecisionNotFound);
    }
    var decision := db.decisions[decisionId];
    decision := decision.(title := p.title, rationale := p.rationale, pros := p.pros, cons := p.cons,
                          risks := p.risks, confidence := p.confidence);
    decision := decision.(linked_claim_ids := p.linked_claim_ids);
    if p.project_id !in db.projects {
      return Failure(ProjectNotFound);
    }
    decision := decision.(project_id := p.project_id);
    var existing := KnownSources(db.sources, p.citation_source_ids);
    var kept := CitationsNotOf(db.decisionCitations, decisionId);
    var added := CitationRows(decisionId, existing);
    db.decisions := db.decisions[decisionId := decision];
    db.decisionCitations := kept + added;
    r := Success(decision);
  }

  /** Every task that pointed at `decisionId` with its link cleared; no task is removed. */
  function Unlinked(tasks: map<string, TaskRow>, decisionId: string): (r: map<string, TaskRow>)
    ensures r.Keys == tasks.Keys
    ensures forall k :: k in tasks && tasks[k].decision_id == Some(decisionId) ==> r[k] == tasks[k].(decision_id := None)
    ensures forall k :: k in tasks && tasks[k].decision_id != Some(decisionId) ==> r[k] == tasks[k]
  {
    map k | k in tasks :: if tasks[k].decision_id == Some(decisionId) then tasks[k].(decision_id := None) else tasks[k]
  }

  /** The loop of `delete_decision` that sets `decision_id = None` on each referencing task. */
  method UnlinkTasks(tasks: map<string, TaskRow>, decisionId: string) returns (r: map<string, TaskRow>)
    ensures r == Unlinked(tasks, decisionId)
  {
    var referencing := set k | k in tasks && tasks[k].decision_id == Some(decisionId);
    var remaining := referencing;
    ghost var done: set<string> := {};
    r := tasks;
    while remaining != {}
      invariant remaining <= referencing && done == referencing - remaining
      invariant PartlyUnlinked(tasks, done, r)
      decreases |remaining|
    {
      var k :| k in remaining;
      UnlinkOne(tasks, done, r, k);
      r := r[k := r[k].(decision_id := None)];
      remaining := remaining - {k};
      done := done + {k};
    }
    UnlinkedAll(tasks, decisionId, done, r);
  }

  /** `r` is `tasks` with the link of exactly the tasks in `done` cleared. */
  predicate PartlyUnlinked(tasks: map<string, TaskRow>, done: set<string>, r: map<string, TaskRow>) {
    && r.Keys == tasks.Keys
    && forall k :: k in r ==> r[k] == if k in done then tasks[k].(decision_id := None) else tasks[k]
  }

  lemma UnlinkOne(tasks: map<string, TaskRow>, done: set<string>, r: map<string, TaskRow>, k: string)
    requires PartlyUnlinked(tasks, done, r) && k in tasks && k !in done
    ensures PartlyUnlinked(tasks, done + {k}, r[k := r[k].(decision_id := None)])
  {
  }

  lemma UnlinkedAll(tasks: map<string, TaskRow>, decisionId: string, done: set<string>, r: map<string, TaskRow>)
    requires PartlyUnlinked(tasks, done, r)
    requires done == set k | k in tasks && tasks[k].decision_id == Some(decisionId)
    ensures r == Unlinked(tasks, decisionId)
  {
  }

  /**
   * `delete_decision`: 404 for an unknown id; otherwise each referencing
   * task is unlinked, then the decision and (by the cascade) its citation
   * rows are removed.
   */
  method DeleteDecision(db: Database, decisionId: string) returns (r: Result<(), HttpError>)
    modifies db
    ensures db.citations == old(db.citations)
    ensures r.Failure? <==> decisionId !in old(db.decisions)
    ensures r.Failure? ==> r.error == DecisionNotFound && db.tasks == old(db.tasks) && db.decisions == old(db.decisions)
    ensures r.Failure? ==> db.decisionCitations == old(db.decisionCitations)
    ensures r.Success? ==> db.tasks == Unlinked(old(db.tasks), decisionId)
    ensures r.Success? ==> db.decisions == old(db.decisions) - {decisionId}
    ensures r.Success? ==> db.decisionCitations == CitationsNotOf(old(db.decisionCitations), decisionId)
    ensures db.projects == old(db.projects) && db.sources == old(db.sources)
  {
    if decisionId !in db.decisions {
      return Failure(DecisionNotFound);
    }
    db.tasks := UnlinkTasks(db.tasks, decisionId);
    db.decisions := db.decisions - {decisionId};
    db.decisionCitations := CitationsNotOf(db.decisionCitations, decisionId);
    r := Success(());
  }

  /** `list_decisions`: every decision of the project (or all, without a filter) once, newest first. */
  method ListDecisions(db: Database, projectId: Option<string>) returns (r: seq<DecisionRow>)
    ensures forall d :: d in r <==> d in db.decisions.Values && (Truthy(projectId) ==> d.project_id == projectId.value)
    ensures NoDups(r)
    ensures DescendingBy(r, DecisionCreatedAt)
  {
    var rows := set d | d in db.decisions.Values && (Truthy(projectId) ==> d.project_id == projectId.value);
    r := NewestFirst(rows, DecisionCreatedAt);
    FromSetNoDups(r, rows);
  }

  /** After a delete no task points at the deleted decision. */
  lemma UnlinkedLeavesNoReference(tasks: map<string, TaskRow>, decisionId: string)
    ensures forall k :: k in Unlinked(tasks, decisionId) ==> Unlinked(tasks, decisionId)[k].decision_id != Some(decisionId)
  {
  }

  /** Deleting a decision keeps every remaining task link inside its project. */
  lemma DeleteKeepsLinks(tasks: map<string, TaskRow>, decisions: map<string, DecisionRow>, decisionId: string)
    requires LinksValid(tasks, decisions)
    ensures LinksValid(Unlinked(tasks, decisionId), decisions - {decisionId})
  {
    var r := Unlinked(tasks, decisionId);
    forall k | k in r && Truthy(r[k].decision_id)
      ensures DecisionInProject(decisions - {decisionId}, r[k].decision_id.value, r[k].project_id)
    {
      assert r[k] == tasks[k];
    }
  }

  /**
   * Moving a decision to another project is allowed, and leaves a task
   * that links to it pointing across projects.
   */
  lemma MovingDecisionBreaksLinks(tasks: map<string, TaskRow>, decisions: map<string, DecisionRow>,
                                  taskId: string, p: DecisionPayload)
    requires taskId in tasks && Truthy(tasks[taskId].decision_id)
    requires DecisionInProject(decisions, tasks[taskId].decision_id.value, tasks[taskId].project_id)
    requires p.project_id != tasks[taskId].project_id
    ensures var d := tasks[taskId].decision_id.value;
      !LinksValid(tasks, decisions[d := UpdatedDecision(decisions[d], p)])
  {
    var d := tasks[taskId].decision_id.value;
    var moved := decisions[d := UpdatedDecision(decisions[d], p)];
    assert !DecisionInProject(moved, d, tasks[taskId].project_id);
  }

  /** Each distinct cited id gets exactly one row: duplicates in the request collapse. */
  lemma CitesExactlyOnce(added: seq<DecisionCitationRow>, decisionId: string, ids: seq<string>, s: string)
    requires CitesExactly(added, decisionId, Distinct(ids))
    ensures multiset(CitedIds(added))[s] == if s in ids then 1 else 0
  {
  }
}
