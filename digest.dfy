/**
 * The daily digest of a project (apps/api/app/routers/digest.py): the
 * sources of the day, the newest recent insight run, the week's decisions
 * and a snapshot of the week's tasks grouped by status. Timestamps are
 * seconds; parsing the requested date, reading the clock and printing
 * dates are parameters.
 */
module Digest {
  import opened Wrappers
  import opened Text
  import opened Lists
  import opened Db
  import opened TasksApi

  const InvalidDate := HttpError(BadRequest, "Invalid date format. Use ISO format (YYYY-MM-DD).")

  /** One day, in the seconds of the timestamps. */
  const Day := 86400

  /**
   * A theme of a run's payload. A key the payload lacks is `None`; `themes`
   * of a run is the payload's theme list when the payload is a non-empty
   * dict, and empty otherwise.
   */
  datatype PayloadTheme = PayloadTheme(title: Option<string>, summary: Option<string>)

  datatype RunRow = RunRow(id: string, project_id: string, status: string, created_at: int, themes: seq<PayloadTheme>)

  function RunCreatedAt(r: RunRow): int {
    r.created_at
  }

  /**
   * The start of the digest's day: the parsed `date` when one is given, else
   * today. `parse` stands for `fromisoformat(...).date()` at midnight and
   * yields `None` where it raises.
   */
  function DayStart(date: Option<string>, parse: string -> Option<int>, today: int): Option<int> {
    if Truthy(date) then parse(date.value) else Some(today)
  }

  /** The day's sources: created in `[start, start + 1 day)`. */
  predicate InSourceWindow(createdAt: int, start: int) {
    start <= createdAt < start + Day
  }

  /** Decisions and tasks: created at most 7 days before the day's start. */
  predicate InWeekWindow(createdAt: int, start: int) {
    createdAt >= start - 7 * Day
  }

  /** Runs: created at most 1 day before the day's start. */
  predicate InRunWindow(createdAt: int, start: int) {
    createdAt >= start - Day
  }

  /** The project's sources of the day. */
  function DaySources(sources: map<string, SourceRow>, projectId: string, start: int): set<SourceRow> {
    set s | s in sources.Values && s.project_id == projectId && InSourceWindow(s.created_at, start)
  }

  /** The project's decisions of the past week. */
  function WeekDecisions(decisions: map<string, DecisionRow>, projectId: string, start: int): set<DecisionRow> {
    set d | d in decisions.Values && d.project_id == projectId && InWeekWindow(d.created_at, start)
  }

  /** The project's tasks of the past week. */
  function WeekTasks(tasks: map<string, TaskRow>, projectId: string, start: int): set<TaskRow> {
    set t | t in tasks.Values && t.project_id == projectId && InWeekWindow(t.created_at, start)
  }

  /** The project's runs since the day before. */
  function RecentRuns(runs: set<RunRow>, projectId: string, start: int): set<RunRow> {
    set x | x in runs && x.project_id == projectId && InRunWindow(x.created_at, start)
  }

  /** `r` is the rows of `rows`, each once, newest first: what the ordered query returns. */
  predicate Listed<T>(r: seq<T>, rows: set<T>, key: T -> int) {
    multiset(r) == multiset(rows) && DescendingBy(r, key)
  }

  function SourceLine(s: SourceRow): string {
    "- " + (if Truthy(s.title) then s.title.value else s.uri) + " (`" + s.kind + "`)"
  }

  function SourceLines(ss: seq<SourceRow>): (r: seq<string>)
    ensures |r| == |ss|
  {
    if ss == [] then [] else SourceLines(ss[..|ss| - 1]) + [SourceLine(ss[|ss| - 1])]
  }

  function SourcesSection(ss: seq<SourceRow>): seq<string> {
    ["## Fresh Sources", ""]
    + (if ss == [] then ["- No new sources captured today."] else SourceLines(ss))
    + [""]
  }

  /** `themes[:3]`. */
  function FirstThree(themes: seq<PayloadTheme>): (r: seq<PayloadTheme>)
    ensures |r| <= 3 && |r| <= |themes| && r == themes[..|r|]
    ensures |themes| <= 3 ==> r == themes
  {
    if |themes| <= 3 then themes else themes[..3]
  }

  function ThemeLine(t: PayloadTheme): string {
    "  - **" + t.title.GetOr("Theme") + "** \U{2014} " + t.summary.GetOr("")
  }

  function ThemeLines(themes: seq<PayloadTheme>): (r: seq<string>)
    ensures |r| == |themes|
  {
    if themes == [] then [] else ThemeLines(themes[..|themes| - 1]) + [ThemeLine(themes[|themes| - 1])]
  }

  function RunLines(run: RunRow): seq<string> {
    ["- Run " + run.id + " completed with status **" + run.status + "**"] + ThemeLines(FirstThree(run.themes))
  }

  /** Only the newest run is described. */
  function RunsSection(runs: seq<RunRow>): seq<string> {
    ["## Insight Run Highlights", ""]
    + (if runs == [] then ["- No recent insight runs."] else RunLines(runs[0]))
    + [""]
  }

  function DecisionUpdate(d: DecisionRow, isoDate: int -> string): seq<string> {
    ["- **" + d.title + "** (" + isoDate(d.created_at) + ")"]
    + (if Truthy(d.rationale) then ["  - Rationale: " + d.rationale.value] else [])
    + (if Truthy(d.pros) then ["  - Pros: " + d.pros.value] else [])
    + (if Truthy(d.cons) then ["  - Cons: " + d.cons.value] else [])
    + (if Truthy(d.risks) then ["  - Risks: " + d.risks.value] else [])
  }

  function DecisionUpdates(ds: seq<DecisionRow>, isoDate: int -> string): seq<string> {
    if ds == [] then [] else DecisionUpdates(ds[..|ds| - 1], isoDate) + DecisionUpdate(ds[|ds| - 1], isoDate)
  }

  function DecisionsSection(ds: seq<DecisionRow>, isoDate: int -> string): seq<string> {
    ["## Decision Updates", ""]
    + (if ds == [] then ["- No decisions logged in the past week."] else DecisionUpdates(ds, isoDate))
    + [""]
  }

  /** The buckets `by_status` starts with. */
  const InitialStatuses: seq<string> := ["todo", "in_progress", "done"]

  /** The keys of `by_status` after the tasks, in insertion order. */
  function StatusOrder(tasks: seq<TaskRow>): seq<string> {
    if tasks == [] then InitialStatuses
    else
      var order := StatusOrder(tasks[..|tasks| - 1]);
      var s := tasks[|tasks| - 1].status;
      if s in order then order else order + [s]
  }

  /** The tasks of one status, in input order. */
  function WithStatus(tasks: seq<TaskRow>, status: string): seq<TaskRow> {
    if tasks == [] then []
    else
      var t := tasks[|tasks| - 1];
      WithStatus(tasks[..|tasks| - 1], status) + (if t.status == status then [t] else [])
  }

  /** The statuses of the tasks outside the initial buckets, in task order. */
  function UnknownStatuses(tasks: seq<TaskRow>): seq<string> {
    if tasks == [] then []
    else
      var s := tasks[|tasks| - 1].status;
      UnknownStatuses(tasks[..|tasks| - 1]) + (if s in InitialStatuses then [] else [s])
  }

  /**
   * The bucket order: `todo`, `in_progress`, `done`, then every other
   * status once, in the order it is first seen.
   */
  lemma {:induction false} StatusOrderShape(tasks: seq<TaskRow>)
    ensures StatusOrder(tasks) == InitialStatuses + Dedup(UnknownStatuses(tasks))
  {
    if tasks != [] {
      var init := tasks[..|tasks| - 1];
      var s := tasks[|tasks| - 1].status;
      var u := UnknownStatuses(init);
      StatusOrderShape(init);
      if s in InitialStatuses {
        assert UnknownStatuses(tasks) == u by {
          assert u + [] == u;
        }
        assert StatusOrder(tasks) == StatusOrder(init) by {
          assert s in StatusOrder(init);
        }
      } else {
        assert UnknownStatuses(tasks) == u + [s];
        DedupSnoc(u, s);
        assert s in StatusOrder(init) <==> s in Dedup(u);
      }
    }
  }

  /** No status has two buckets. */
  lemma {:induction false} StatusOrderNoDups(tasks: seq<TaskRow>)
    ensures NoDups(StatusOrder(tasks))
  {
    if tasks != [] {
      StatusOrderNoDups(tasks[..|tasks| - 1]);
    }
  }

  /** Every task's status has a bucket. */
  lemma {:induction false} StatusOrderCovers(tasks: seq<TaskRow>)
    ensures forall i :: 0 <= i < |tasks| ==> tasks[i].status in StatusOrder(tasks)
  {
    if tasks != [] {
      var init := tasks[..|tasks| - 1];
      StatusOrderCovers(init);
      forall i | 0 <= i < |tasks| ensures tasks[i].status in StatusOrder(tasks) {
        if i < |init| {
          assert tasks[i] == init[i];
        }
      }
    }
  }

  /** A bucket holds exactly the tasks of its status, in input order. */
  lemma {:induction false} WithStatusFilter(tasks: seq<TaskRow>, status: string)
    ensures forall t :: t in WithStatus(tasks, status) <==> t in tasks && t.status == status
    ensures |WithStatus(tasks, status)| <= |tasks|
  {
    if tasks != [] {
      var init := tasks[..|tasks| - 1];
      WithStatusFilter(init, status);
      assert tasks == init + [tasks[|tasks| - 1]];
    }
  }

  /** `title()` on ASCII: a letter is upper-case after a non-letter or at the start, lower-case after a letter. */
  function TitleFrom(s: string, afterLetter: bool): (r: string)
    ensures |r| == |s|
  {
    if s == [] then []
    else [if afterLetter then LowerChar(s[0]) else UpperChar(s[0])] + TitleFrom(s[1..], IsLetter(s[0]))
  }

  function TitleCase(s: string): (r: string)
    ensures |r| == |s|
  {
    TitleFrom(s, false)
  }

  /** `replace('_', ' ')`. */
  function Underscores(s: string): (r: string)
    ensures |r| == |s|
    ensures forall i :: 0 <= i < |s| ==> r[i] == (if s[i] == '_' then ' ' else s[i])
  {
    if s == [] then [] else [if s[0] == '_' then ' ' else s[0]] + Underscores(s[1..])
  }

  /** The heading of a bucket. */
  function StatusHeading(status: string): string {
    "- **" + TitleCase(Underscores(status)) + "**"
  }

  /**
   * `TitleCase` upper-cases each letter that starts a word (the first
   * character, or one after a non-letter) and lower-cases every other.
   */
  lemma {:induction false} TitleFromSpec(s: string, afterLetter: bool)
    ensures forall i :: 0 <= i < |s| ==>
      TitleFrom(s, afterLetter)[i] == (if (if i == 0 then afterLetter else IsLetter(s[i - 1])) then LowerChar(s[i]) else UpperChar(s[i]))
  {
    if s != [] {
      TitleFromSpec(s[1..], IsLetter(s[0]));
      assert TitleFrom(s, afterLetter)[0] == (if afterLetter then LowerChar(s[0]) else UpperChar(s[0]));
      forall i | 0 < i < |s|
        ensures TitleFrom(s, afterLetter)[i] == (if IsLetter(s[i - 1]) then LowerChar(s[i]) else UpperChar(s[i]))
      {
        assert TitleFrom(s, afterLetter)[i] == TitleFrom(s[1..], IsLetter(s[0]))[i - 1];
        assert s[1..][i - 1] == s[i];
        if i > 1 {
          assert s[1..][i - 2] == s[i - 1];
        }
      }
    }
  }

  function TaskItem(t: TaskRow): string {
    "  - " + t.title + (if Truthy(t.owner) then " (owner: " + t.owner.value + ")" else "")
  }

  function TaskItems(ts: seq<TaskRow>): (r: seq<string>)
    ensures |r| == |ts|
  {
    if ts == [] then [] else TaskItems(ts[..|ts| - 1]) + [TaskItem(ts[|ts| - 1])]
  }

  /** A bucket's lines: nothing when it is empty, else its heading and its tasks. */
  function BucketLines(status: string, items: seq<TaskRow>): seq<string> {
    if items == [] then [] else [StatusHeading(status)] + TaskItems(items)
  }

  function BucketsLines(order: seq<string>, tasks: seq<TaskRow>): seq<string> {
    if order == [] then []
    else
      var s := order[|order| - 1];
      BucketsLines(order[..|order| - 1], tasks) + BucketLines(s, WithStatus(tasks, s))
  }

  function SnapshotSection(tasks: seq<TaskRow>): seq<string> {
    ["## Task Snapshot", ""]
    + (if tasks == [] then ["- No tasks updated recently."] else BucketsLines(StatusOrder(tasks), tasks))
    + [""]
  }

  function Header(projectName: string, dateText: string): seq<string> {
    ["# Daily Digest \U{2014} " + projectName, "_Date: " + dateText + "_", ""]
  }

  /** Everything `daily_digest` renders from its query results. */
  function DigestLines(projectName: string, dateText: string, sources: seq<SourceRow>, runs: seq<RunRow>,
                       decisions: seq<DecisionRow>, tasks: seq<TaskRow>, isoDate: int -> string): seq<string>
  {
    Header(projectName, dateText) + SourcesSection(sources) + RunsSection(runs)
    + DecisionsSection(decisions, isoDate) + SnapshotSection(tasks)
  }

  lemma WithStatusSnoc(tasks: seq<TaskRow>, i: nat, status: string)
    requires i < |tasks|
    ensures WithStatus(tasks[..i + 1], status)
         == WithStatus(tasks[..i], status) + (if tasks[i].status == status then [tasks[i]] else [])
  {
    assert tasks[..i + 1][..i] == tasks[..i];
  }

  lemma StatusOrderSnoc(tasks: seq<TaskRow>, i: nat)
    requires i < |tasks|
    ensures StatusOrder(tasks[..i + 1])
         == if tasks[i].status in StatusOrder(tasks[..i]) then StatusOrder(tasks[..i])
            else StatusOrder(tasks[..i]) + [tasks[i].status]
  {
    assert tasks[..i + 1][..i] == tasks[..i];
  }

  /** A status no task has seen has an empty bucket. */
  lemma {:induction false} WithStatusUnseen(tasks: seq<TaskRow>, status: string)
    requires status !in StatusOrder(tasks)
    ensures WithStatus(tasks, status) == []
  {
    if tasks != [] {
      WithStatusUnseen(tasks[..|tasks| - 1], status);
    }
  }

  /**
   * The grouping loop: `by_status` is kept as its key order and a map from
   * key to bucket; `setdefault` adds a missing key at the end.
   */
  method GroupByStatus(tasks: seq<TaskRow>) returns (order: seq<string>, byStatus: map<string, seq<TaskRow>>)
    ensures order == StatusOrder(tasks)
    ensures byStatus.Keys == Elems(order)
    ensures forall s :: s in byStatus ==> byStatus[s] == WithStatus(tasks, s)
  {
    order := InitialStatuses;
    byStatus := map["todo" := [], "in_progress" := [], "done" := []];
    assert tasks[..0] == [];
    var i := 0;
    while i < |tasks|
      invariant 0 <= i <= |tasks|
      invariant order == StatusOrder(tasks[..i])
      invariant byStatus.Keys == Elems(order)
      invariant forall s :: s in byStatus ==> byStatus[s] == WithStatus(tasks[..i], s)
    {
      var t := tasks[i];
      StatusOrderSnoc(tasks, i);
      var bucket: seq<TaskRow> := [];
      if t.status in byStatus {
        bucket := byStatus[t.status];
      } else {
        WithStatusUnseen(tasks[..i], t.status);
        order := order + [t.status];
      }
      ghost var before := byStatus;
      byStatus := byStatus[t.status := bucket + [t]];
      forall s | s in byStatus ensures byStatus[s] == WithStatus(tasks[..i + 1], s) {
        WithStatusSnoc(tasks, i, s);
        if s != t.status {
          assert byStatus[s] == before[s];
        }
      }
      i := i + 1;
    }
    assert tasks[..|tasks|] == tasks;
  }

  /** The tasks of one bucket. */
  method RenderItems(items: seq<TaskRow>) returns (lines: seq<string>)
    ensures lines == TaskItems(items)
  {
    lines := [];
    var j := 0;
    while j < |items|
      invariant 0 <= j <= |items|
      invariant lines == TaskItems(items[..j])
    {
      assert items[..j + 1][..j] == items[..j];
      lines := lines + [TaskItem(items[j])];
      j := j + 1;
    }
    assert items[..|items|] == items;
  }

  lemma BucketsLinesSnoc(order: seq<string>, i: nat, tasks: seq<TaskRow>)
    requires i < |order|
    ensures BucketsLines(order[..i + 1], tasks) == BucketsLines(order[..i], tasks) + BucketLines(order[i], WithStatus(tasks, order[i]))
  {
    assert order[..i + 1][..i] == order[..i];
  }

  /** The bucket loop: each non-empty bucket's heading and its tasks, in key order. */
  method RenderBuckets(order: seq<string>, byStatus: map<string, seq<TaskRow>>, ghost tasks: seq<TaskRow>)
    returns (lines: seq<string>)
    requires forall s :: s in order ==> s in byStatus && byStatus[s] == WithStatus(tasks, s)
    ensures lines == BucketsLines(order, tasks)
  {
    lines := [];
    var i := 0;
    while i < |order|
      invariant 0 <= i <= |order|
      invariant lines == BucketsLines(order[..i], tasks)
    {
      var status := order[i];
      var items := byStatus[status];
      BucketsLinesSnoc(order, i, tasks);
      if items != [] {
        var itemLines := RenderItems(items);
        lines := lines + ([StatusHeading(status)] + itemLines);
      }
      i := i + 1;
    }
    assert order[..|order|] == order;
  }

  /** The sources section: one line per source of the day, or the placeholder. */
  method RenderSources(sources: seq<SourceRow>) returns (lines: seq<string>)
    ensures lines == SourcesSection(sources)
  {
    lines := ["## Fresh Sources", ""];
    if sources != [] {
      var i := 0;
      while i < |sources|
        invariant 0 <= i <= |sources|
        invariant lines == ["## Fresh Sources", ""] + SourceLines(sources[..i])
      {
        assert sources[..i + 1][..i] == sources[..i];
        AppendAssoc(["## Fresh Sources", ""], SourceLines(sources[..i]), [SourceLine(sources[i])]);
        lines := lines + [SourceLine(sources[i])];
        i := i + 1;
      }
      assert sources[..|sources|] == sources;
    } else {
      lines := lines + ["- No new sources captured today."];
    }
    lines := lines + [""];
  }

  /** The runs section: the newest run and at most three of its themes, or the placeholder. */
  method RenderRuns(runs: seq<RunRow>) returns (lines: seq<string>)
    ensures lines == RunsSection(runs)
  {
    lines := ["## Insight Run Highlights", ""];
    if runs != [] {
      var run := runs[0];
      lines := lines + ["- Run " + run.id + " completed with status **" + run.status + "**"];
      ghost var head := lines;
      var themes := FirstThree(run.themes);
      var i := 0;
      while i < |themes|
        invariant 0 <= i <= |themes|
        invariant lines == head + ThemeLines(themes[..i])
      {
        assert themes[..i + 1][..i] == themes[..i];
        lines := lines + [ThemeLine(themes[i])];
        i := i + 1;
      }
      assert themes[..|themes|] == themes;
    } else {
      lines := lines + ["- No recent insight runs."];
    }
    lines := lines + [""];
  }

  /** The decisions section: each decision of the week with its non-empty fields, or the placeholder. */
  method RenderDecisionUpdates(decisions: seq<DecisionRow>, isoDate: int -> string) returns (lines: seq<string>)
    ensures lines == DecisionsSection(decisions, isoDate)
  {
    lines := ["## Decision Updates", ""];
    if decisions != [] {
      var i := 0;
      while i < |decisions|
        invariant 0 <= i <= |decisions|
        invariant lines == ["## Decision Updates", ""] + DecisionUpdates(decisions[..i], isoDate)
      {
        assert decisions[..i + 1][..i] == decisions[..i];
        AppendAssoc(["## Decision Updates", ""], DecisionUpdates(decisions[..i], isoDate), DecisionUpdate(decisions[i], isoDate));
        lines := lines + DecisionUpdate(decisions[i], isoDate);
        i := i + 1;
      }
      assert decisions[..|decisions|] == decisions;
    } else {
      lines := lines + ["- No decisions logged in the past week."];
    }
    lines := lines + [""];
  }

  /** The task snapshot section. */
  method RenderSnapshot(tasks: seq<TaskRow>) returns (lines: seq<string>)
    ensures lines == SnapshotSection(tasks)
  {
    var body: seq<string>;
    if tasks != [] {
      var order, byStatus := GroupByStatus(tasks);
      body := RenderBuckets(order, byStatus, tasks);
    } else {
      body := ["- No tasks updated recently."];
    }
    lines := ["## Task Snapshot", ""] + body + [""];
  }

  /**
   * `daily_digest`: 404 for an unknown project, 400 for a date that does not
   * parse, else the digest of the day's window, built from the ordered
   * query results.
   */
  method DailyDigest(db: Database, projectId: string, date: Option<string>, parse: string -> Option<int>,
                     today: int, runs: set<RunRow>, isoDate: int -> string) returns (r: Result<string, HttpError>)
    ensures projectId !in db.projects ==> r == Failure(ProjectNotFound)
    ensures projectId in db.projects && DayStart(date, parse, today).None? ==> r == Failure(InvalidDate)
    ensures projectId in db.projects && DayStart(date, parse, today).Some? ==>
      var start := DayStart(date, parse, today).value;
      exists ss, rs, ds, ts ::
        && Listed(ss, DaySources(db.sources, projectId, start), SourceCreatedAt)
        && Listed(rs, RecentRuns(runs, projectId, start), RunCreatedAt)
        && Listed(ds, WeekDecisions(db.decisions, projectId, start), DecisionCreatedAt)
        && Listed(ts, WeekTasks(db.tasks, projectId, start), TaskCreatedAt)
        && r == Success(Document(DigestLines(db.projects[projectId].name, isoDate(start), ss, rs, ds, ts, isoDate)))
  {
    if projectId !in db.projects {
      return Failure(ProjectNotFound);
    }
    var target := DayStart(date, parse, today);
    if target.None? {
      return Failure(InvalidDate);
    }
    var start := target.value;
    var sources := NewestFirst(DaySources(db.sources, projectId, start), SourceCreatedAt);
    var decisions := NewestFirst(WeekDecisions(db.decisions, projectId, start), DecisionCreatedAt);
    var tasks := NewestFirst(WeekTasks(db.tasks, projectId, start), TaskCreatedAt);
    var recentRuns := NewestFirst(RecentRuns(runs, projectId, start), RunCreatedAt);
    assert Listed(sources, DaySources(db.sources, projectId, start), SourceCreatedAt);
    assert Listed(decisions, WeekDecisions(db.decisions, projectId, start), DecisionCreatedAt);
    assert Listed(tasks, WeekTasks(db.tasks, projectId, start), TaskCreatedAt);
    assert Listed(recentRuns, RecentRuns(runs, projectId, start), RunCreatedAt);
    var lines := Header(db.projects[projectId].name, isoDate(start));
    var section := RenderSources(sources);
    lines := lines + section;
    section := RenderRuns(recentRuns);
    lines := lines + section;
    section := RenderDecisionUpdates(decisions, isoDate);
    lines := lines + section;
    section := RenderSnapshot(tasks);
    lines := lines + section;
    assert lines == DigestLines(db.projects[projectId].name, isoDate(start), sources, recentRuns, decisions, tasks, isoDate);
    r := Success(Document(lines));
  }

  /** Each section carries its placeholder exactly when its list is empty. */
  lemma EmptySectionsShowPlaceholders(isoDate: int -> string)
    ensures SourcesSection([]) == ["## Fresh Sources", "", "- No new sources captured today.", ""]
    ensures RunsSection([]) == ["## Insight Run Highlights", "", "- No recent insight runs.", ""]
    ensures DecisionsSection([], isoDate) == ["## Decision Updates", "", "- No decisions logged in the past week.", ""]
    ensures SnapshotSection([]) == ["## Task Snapshot", "", "- No tasks updated recently.", ""]
  {
  }

  /** A non-empty list of sources yields one line per source and no placeholder. */
  lemma {:induction false} SourcesSectionLines(ss: seq<SourceRow>)
    requires ss != []
    ensures |SourcesSection(ss)| == |ss| + 3
    ensures forall i :: 0 <= i < |ss| ==> SourcesSection(ss)[i + 2] == SourceLine(ss[i])
  {
    var body := SourceLines(ss);
    assert SourcesSection(ss) == ["## Fresh Sources", ""] + body + [""];
    SourceLinesPointwise(ss);
  }

  lemma {:induction false} SourceLinesPointwise(ss: seq<SourceRow>)
    ensures forall i :: 0 <= i < |ss| ==> SourceLines(ss)[i] == SourceLine(ss[i])
  {
    if ss != [] {
      var init := ss[..|ss| - 1];
      SourceLinesPointwise(init);
      forall i | 0 <= i < |ss| ensures SourceLines(ss)[i] == SourceLine(ss[i]) {
        if i < |init| {
          assert ss[i] == init[i];
        }
      }
    }
  }

  /** A source is shown by its title, or by its uri when the title is absent or empty. */
  lemma SourceLineShowsTitleOrUri(s: SourceRow)
    ensures Truthy(s.title) ==> SourceLine(s) == "- " + s.title.value + " (`" + s.kind + "`)"
    ensures !Truthy(s.title) ==> SourceLine(s) == "- " + s.uri + " (`" + s.kind + "`)"
  {
  }

  /**
   * Only the newest run is described: the runs after it do not change the
   * section, and at most three of its themes are listed.
   */
  lemma OnlyNewestRun(run: RunRow, older: seq<RunRow>)
    ensures RunsSection([run] + older) == RunsSection([run])
    ensures |RunsSection([run] + older)| == 4 + |FirstThree(run.themes)| <= 7
  {
  }

  /** The number of task lines over the buckets of `order`. */
  function ItemCount(order: seq<string>, tasks: seq<TaskRow>): nat {
    if order == [] then 0
    else ItemCount(order[..|order| - 1], tasks) + |WithStatus(tasks, order[|order| - 1])|
  }

  /** The number of non-empty buckets of `order`. */
  function HeadingCount(order: seq<string>, tasks: seq<TaskRow>): nat {
    if order == [] then 0
    else HeadingCount(order[..|order| - 1], tasks) + (if WithStatus(tasks, order[|order| - 1]) == [] then 0 else 1)
  }

  /** The buckets' lines: one heading per non-empty bucket and one line per item. */
  lemma {:induction false} BucketsLinesLength(order: seq<string>, tasks: seq<TaskRow>)
    ensures |BucketsLines(order, tasks)| == ItemCount(order, tasks) + HeadingCount(order, tasks)
  {
    if order != [] {
      BucketsLinesLength(order[..|order| - 1], tasks);
    }
  }

  /** Adding a task adds one line to the bucket of its status for each time that status is in `order`. */
  lemma {:induction false} ItemCountSnoc(order: seq<string>, tasks: seq<TaskRow>, t: TaskRow)
    ensures ItemCount(order, tasks + [t]) == ItemCount(order, tasks) + multiset(order)[t.status]
  {
    if order != [] {
      var init := order[..|order| - 1];
      var s := order[|order| - 1];
      ItemCountSnoc(init, tasks, t);
      assert (tasks + [t])[..|tasks + [t]| - 1] == tasks;
      assert order == init + [s];
    }
  }

  lemma {:induction false} NoDupsCountsOnce(order: seq<string>, x: string)
    requires NoDups(order) && x in order
    ensures multiset(order)[x] == 1
  {
    var init := order[..|order| - 1];
    var s := order[|order| - 1];
    assert order == init + [s];
    if x == s {
      assert x !in init;
    } else {
      NoDupsCountsOnce(init, x);
    }
  }

  /**
   * The snapshot lists every task exactly once: when each status has one
   * bucket, the buckets hold as many items as there are tasks.
   */
  lemma {:induction false} EveryTaskListedOnce(order: seq<string>, tasks: seq<TaskRow>)
    requires NoDups(order)
    requires forall i :: 0 <= i < |tasks| ==> tasks[i].status in order
    ensures ItemCount(order, tasks) == |tasks|
  {
    if tasks == [] {
      ItemCountEmpty(order);
    } else {
      var init := tasks[..|tasks| - 1];
      var t := tasks[|tasks| - 1];
      assert tasks == init + [t];
      EveryTaskListedOnce(order, init);
      ItemCountSnoc(order, init, t);
      NoDupsCountsOnce(order, t.status);
    }
  }

  lemma {:induction false} ItemCountEmpty(order: seq<string>)
    ensures ItemCount(order, []) == 0
  {
    if order != [] {
      ItemCountEmpty(order[..|order| - 1]);
    }
  }

  /** The bucket order of the snapshot lists every task exactly once. */
  lemma SnapshotListsEveryTask(tasks: seq<TaskRow>)
    ensures ItemCount(StatusOrder(tasks), tasks) == |tasks|
  {
    StatusOrderNoDups(tasks);
    StatusOrderCovers(tasks);
    EveryTaskListedOnce(StatusOrder(tasks), tasks);
  }
}
