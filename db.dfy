/**
 * The API's tables (apps/api/app/models.py) as in-memory maps from id to
 * row. Timestamps are integers and ids are strings the caller supplies.
 */
module Db {
  import opened Wrappers
  import opened Lists

  datatype ProjectRow = ProjectRow(id: string, name: string, description: Option<string>, created_at: int)

  datatype SourceRow = SourceRow(
    id: string,
    project_id: string,
    kind: string,
    uri: string,
    title: Option<string>,
    tags: seq<string>,
    content_ptr: string,
    created_at: int)

  datatype DecisionRow = DecisionRow(
    id: string,
    project_id: string,
    title: string,
    rationale: Option<string>,
    pros: Option<string>,
    cons: Option<string>,
    risks: Option<string>,
    confidence: Option<real>,
    linked_claim_ids: seq<string>,
    created_at: int)

  /** A decision's citation of a source; the row's own uuid is not modelled. */
  datatype DecisionCitationRow = DecisionCitationRow(decision_id: string, source_id: string, note: Option<string>)

  /**
   * An insight-run claim's citation of a source. Its `source_id` may not be
   * null, and the source's `citations` relationship has no delete cascade.
   */
  datatype CitationRow = CitationRow(id: string, claim_id: string, source_id: string)

  datatype TaskRow = TaskRow(
    id: string,
    project_id: string,
    title: string,
    status: string,
    owner: Option<string>,
    due_date: Option<string>,
    decision_id: Option<string>,
    created_at: int)

  /** The column default of `decisions.confidence`, used when an insert supplies none. */
  const DefaultDecisionConfidence: real := 0.5

  /** Python truthiness of an optional string: present and not empty. */
  predicate Truthy(s: Option<string>) {
    s.Some? && s.value != ""
  }

  function TaskCreatedAt(t: TaskRow): int {
    t.created_at
  }

  function DecisionCreatedAt(d: DecisionRow): int {
    d.created_at
  }

  function SourceCreatedAt(s: SourceRow): int {
    s.created_at
  }

  /** The database: one map per table, and the decision and insight-run citations as lists of rows. */
  class Database {
    var projects: map<string, ProjectRow>
    var sources: map<string, SourceRow>
    var decisions: map<string, DecisionRow>
    var decisionCitations: seq<DecisionCitationRow>
    var tasks: map<string, TaskRow>
    var citations: seq<CitationRow>

    constructor ()
      ensures projects == map[] && sources == map[] && decisions == map[]
      ensures decisionCitations == [] && tasks == map[] && citations == []
    {
      projects, sources, decisions, tasks := map[], map[], map[], map[];
      decisionCitations, citations := [], [];
    }
  }

  /**
   * `ORDER BY created_at DESC` over a set of rows: every row exactly once,
   * newest first. Rows created at the same time come in no particular order.
   */
  method NewestFirst<T>(rows: set<T>, key: T -> int) returns (r: seq<T>)
    ensures multiset(r) == multiset(rows)
    ensures DescendingBy(r, key)
  {
    r := [];
    var remaining := rows;
    while remaining != {}
      invariant remaining <= rows
      invariant multiset(r) + multiset(remaining) == multiset(rows)
      invariant DescendingBy(r, key)
      decreases |remaining|
    {
      var x :| x in remaining;
      assert multiset(remaining) == multiset(remaining - {x}) + multiset{x};
      r := InsertBy(r, x, key);
      remaining := remaining - {x};
    }
  }

  /** A list with the multiplicities of a set holds each element once. */
  lemma FromSetNoDups<T>(r: seq<T>, rows: set<T>)
    requires multiset(r) == multiset(rows)
    ensures NoDups(r)
    ensures forall x :: x in r <==> x in rows
  {
    forall i, j | 0 <= i < j < |r| ensures r[i] != r[j] {
      assert r == r[..j] + [r[j]] + r[j + 1..];
      assert r[..j][i] == r[i];
      assert multiset(rows)[r[i]] <= 1;
    }
    forall x ensures x in r <==> x in rows {
      assert x in r <==> multiset(r)[x] > 0;
    }
  }
}
