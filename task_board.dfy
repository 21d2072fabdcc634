/**
 * The task board (apps/web/src/pages/TaskBoardPage.tsx): tasks grouped by
 * decision and by status column, the sections that are rendered, the
 * per-section "add task" drafts, and the inline editor.
 */
module TaskBoard {
  import opened Wrappers
  import opened Text
  import opened Types

  /** The key of tasks without a decision, and the id of the trailing section. */
  const Unassigned: string := "unassigned"

  datatype Column = Todo | InProgress | Done

  /** The column a status is shown in: the three known statuses, anything else in To-Do. */
  function ColumnOf(status: string): Column {
    if status == "in_progress" then InProgress else if status == "done" then Done else Todo
  }

  /** `task.decision_id ?? "unassigned"`: only a missing id falls back, not an empty one. */
  function BoardKey(t: Task): (k: string)
    ensures t.decision_id.None? ==> k == Unassigned
    ensures t.decision_id.Some? ==> k == t.decision_id.value
  {
    t.decision_id.GetOr(Unassigned)
  }

  /** One board entry: a bucket per status column. */
  datatype Columns = Columns(todo: seq<Task>, inProgress: seq<Task>, done: seq<Task>)

  const EmptyColumns: Columns := Columns([], [], [])

  function Bucket(cs: Columns, c: Column): seq<Task> {
    match c
    case Todo => cs.todo
    case InProgress => cs.inProgress
    case Done => cs.done
  }

  /** `columns[status].push(task)`: one bucket grows at its end, the others stay. */
  function Push(cs: Columns, c: Column, t: Task): (r: Columns)
    ensures Bucket(r, c) == Bucket(cs, c) + [t]
    ensures forall c' :: c' != c ==> Bucket(r, c') == Bucket(cs, c')
  {
    match c
    case Todo => cs.(todo := cs.todo + [t])
    case InProgress => cs.(inProgress := cs.inProgress + [t])
    case Done => cs.(done := cs.done + [t])
  }

  /** The keys the board has an entry for: those of the tasks seen. */
  function KeysOf(tasks: seq<Task>): set<string> {
    set t | t in tasks :: BoardKey(t)
  }

  /** The tasks filed under key `k` in column `c`, in input order. */
  function ColumnTasks(tasks: seq<Task>, k: string, c: Column): (r: seq<Task>)
    ensures forall t :: t in r ==> t in tasks && BoardKey(t) == k && ColumnOf(t.status) == c
  {
    if tasks == [] then []
    else
      var t := tasks[|tasks| - 1];
      ColumnTasks(tasks[..|tasks| - 1], k, c) + (if BoardKey(t) == k && ColumnOf(t.status) == c then [t] else [])
  }

  lemma ColumnTasksSnoc(tasks: seq<Task>, t: Task, k: string, c: Column)
    ensures ColumnTasks(tasks + [t], k, c)
      == ColumnTasks(tasks, k, c) + (if BoardKey(t) == k && ColumnOf(t.status) == c then [t] else [])
  {
    assert (tasks + [t])[..|tasks|] == tasks;
  }

  /** Filing distributes over concatenation: earlier tasks stay ahead of later ones in every bucket. */
  lemma {:induction false} ColumnTasksAppend(a: seq<Task>, b: seq<Task>, k: string, c: Column)
    ensures ColumnTasks(a + b, k, c) == ColumnTasks(a, k, c) + ColumnTasks(b, k, c)
    decreases |b|
  {
    if b == [] {
      assert a + b == a;
    } else {
      var b' := b[..|b| - 1];
      var t := b[|b| - 1];
      var last := if BoardKey(t) == k && ColumnOf(t.status) == c then [t] else [];
      calc {
        ColumnTasks(a + b, k, c);
        { assert a + b == (a + b') + [t]; }
        ColumnTasks((a + b') + [t], k, c);
        { ColumnTasksSnoc(a + b', t, k, c); }
        ColumnTasks(a + b', k, c) + last;
        { ColumnTasksAppend(a, b', k, c); }
        ColumnTasks(a, k, c) + ColumnTasks(b', k, c) + last;
        { assert b == b' + [t]; ColumnTasksSnoc(b', t, k, c); }
        ColumnTasks(a, k, c) + ColumnTasks(b, k, c);
      }
    }
  }

  /**
   * Every copy of a task is filed in its own key and column, and no copy
   * anywhere else: the buckets partition the input.
   */
  lemma {:induction false} ColumnTasksPartition(tasks: seq<Task>, k: string, c: Column, t: Task)
    ensures multiset(ColumnTasks(tasks, k, c))[t]
      == if BoardKey(t) == k && ColumnOf(t.status) == c then multiset(tasks)[t] else 0
  {
    if tasks != [] {
      var init := tasks[..|tasks| - 1];
      var last := tasks[|tasks| - 1];
      ColumnTasksPartition(init, k, c, t);
      CountLast(tasks, t);
      if BoardKey(last) == k && ColumnOf(last.status) == c {
        CountSnoc(ColumnTasks(init, k, c), last, t);
      } else {
        assert ColumnTasks(init, k, c) + [] == ColumnTasks(init, k, c);
      }
    }
  }

  lemma CountLast(s: seq<Task>, t: Task)
    requires s != []
    ensures multiset(s)[t] == multiset(s[..|s| - 1])[t] + if s[|s| - 1] == t then 1 else 0
  {
    assert s == s[..|s| - 1] + [s[|s| - 1]];
    CountSnoc(s[..|s| - 1], s[|s| - 1], t);
  }

  lemma CountSnoc(s: seq<Task>, x: Task, t: Task)
    ensures multiset(s + [x])[t] == multiset(s)[t] + if x == t then 1 else 0
  {
    assert multiset(s + [x]) == multiset(s) + multiset{x};
  }

  /** A key no task carries has empty buckets. */
  lemma {:induction false} ColumnTasksOfAbsentKey(tasks: seq<Task>, k: string, c: Column)
    requires k !in KeysOf(tasks)
    ensures ColumnTasks(tasks, k, c) == []
  {
    if tasks != [] {
      var init := tasks[..|tasks| - 1];
      var t := tasks[|tasks| - 1];
      assert t in tasks;
      assert KeysOf(init) <= KeysOf(tasks) by {
        forall x | x in init ensures x in tasks {
        }
      }
      ColumnTasksOfAbsentKey(init, k, c);
    }
  }

  /** `board.get(key) ?? { todo: [], in_progress: [], done: [] }`. */
  function Lookup(board: map<string, Columns>, k: string): Columns {
    if k in board then board[k] else EmptyColumns
  }

  /** `board` files exactly `tasks`: one entry per key used, each bucket the tasks of its key and column. */
  predicate Files(board: map<string, Columns>, tasks: seq<Task>) {
    && board.Keys == KeysOf(tasks)
    && forall k, c :: k in board ==> Bucket(board[k], c) == ColumnTasks(tasks, k, c)
  }

  /** Filing one more task: the board entry of its key gains it in its column. */
  lemma FileOneMore(board: map<string, Columns>, tasks: seq<Task>, t: Task)
    requires Files(board, tasks)
    ensures Files(board[BoardKey(t) := Push(Lookup(board, BoardKey(t)), ColumnOf(t.status), t)], tasks + [t])
  {
    var key := BoardKey(t);
    var next := board[key := Push(Lookup(board, key), ColumnOf(t.status), t)];
    KeysOfSnoc(tasks, t);
    forall k, c | k in next ensures Bucket(next[k], c) == ColumnTasks(tasks + [t], k, c) {
      FileOneMoreAt(board, tasks, t, k, c);
    }
  }

  lemma KeysOfSnoc(tasks: seq<Task>, t: Task)
    ensures KeysOf(tasks + [t]) == KeysOf(tasks) + {BoardKey(t)}
  {
    assert forall x :: x in tasks + [t] <==> x in tasks || x == t;
  }

  lemma FileOneMoreAt(board: map<string, Columns>, tasks: seq<Task>, t: Task, k: string, c: Column)
    requires Files(board, tasks)
    requires k in board || k == BoardKey(t)
    ensures Bucket(board[BoardKey(t) := Push(Lookup(board, BoardKey(t)), ColumnOf(t.status), t)][k], c) == ColumnTasks(tasks + [t], k, c)
  {
    ColumnTasksSnoc(tasks, t, k, c);
    if k == BoardKey(t) && k !in board {
      ColumnTasksOfAbsentKey(tasks, k, c);
    }
  }

  /**
   * The `board` memo: one pass over the tasks that creates an entry with
   * three empty buckets on a key's first use and appends each task to the
   * bucket of its column.
   */
  method BuildBoard(tasks: seq<Task>) returns (board: map<string, Columns>)
    ensures board.Keys == KeysOf(tasks)
    ensures forall k, c :: k in board ==> Bucket(board[k], c) == ColumnTasks(tasks, k, c)
  {
    board := map[];
    var i := 0;
    while i < |tasks|
      invariant 0 <= i <= |tasks|
      invariant Files(board, tasks[..i])
    {
      FileNext(board, tasks, i);
      board := File(board, tasks[i]);
      i := i + 1;
    }
    FilesAll(board, tasks);
  }

  /** One step of the memo: the task's key gets an entry if it has none, and the task joins its column. */
  method File(board: map<string, Columns>, t: Task) returns (next: map<string, Columns>)
    ensures next == board[BoardKey(t) := Push(Lookup(board, BoardKey(t)), ColumnOf(t.status), t)]
  {
    var key := BoardKey(t);
    var columns := if key in board then board[key] else EmptyColumns;
    next := board[key := Push(columns, ColumnOf(t.status), t)];
  }

  lemma FilesAll(board: map<string, Columns>, tasks: seq<Task>)
    requires Files(board, tasks[..|tasks|])
    ensures board.Keys == KeysOf(tasks)
    ensures forall k, c :: k in board ==> Bucket(board[k], c) == ColumnTasks(tasks, k, c)
  {
    assert tasks[..|tasks|] == tasks;
  }

  lemma FileNext(board: map<string, Columns>, tasks: seq<Task>, i: nat)
    requires i < |tasks| && Files(board, tasks[..i])
    ensures Files(board[BoardKey(tasks[i]) := Push(Lookup(board, BoardKey(tasks[i])), ColumnOf(tasks[i].status), tasks[i])], tasks[..i + 1])
  {
    FileOneMore(board, tasks[..i], tasks[i]);
    assert tasks[..i + 1] == tasks[..i] + [tasks[i]];
  }

  /** Whatever key a section asks for, what it shows is exactly the filed tasks, in input order. */
  lemma LookupShowsColumnTasks(tasks: seq<Task>, board: map<string, Columns>, k: string, c: Column)
    requires board.Keys == KeysOf(tasks)
    requires forall k', c' :: k' in board ==> Bucket(board[k'], c') == ColumnTasks(tasks, k', c')
    ensures Bucket(Lookup(board, k), c) == ColumnTasks(tasks, k, c)
  {
    if k !in board {
      ColumnTasksOfAbsentKey(tasks, k, c);
    }
  }

  /** A rendered section: a decision, or the trailing "Unassigned tasks" one. */
  datatype Section = Section(id: string, title: string)

  /** `decisionSections`: the decisions in order, then exactly one unassigned section. */
  function DecisionSections(decisions: seq<Decision>): (r: seq<Section>)
    ensures |r| == |decisions| + 1
    ensures forall i :: 0 <= i < |decisions| ==> r[i] == Section(decisions[i].id, decisions[i].title)
    ensures r[|decisions|] == Section(Unassigned, "Unassigned tasks")
  {
    if decisions == [] then [Section(Unassigned, "Unassigned tasks")]
    else [Section(decisions[0].id, decisions[0].title)] + DecisionSections(decisions[1..])
  }

  /** The ids of the rendered sections: the board keys anything is shown for. */
  function SectionKeys(decisions: seq<Decision>): set<string> {
    set s | s in DecisionSections(decisions) :: s.id
  }

  lemma SectionKeysAre(decisions: seq<Decision>)
    ensures SectionKeys(decisions) == (set d | d in decisions :: d.id) + {Unassigned}
  {
    var sections := DecisionSections(decisions);
    forall x | x in SectionKeys(decisions) ensures x in (set d | d in decisions :: d.id) + {Unassigned} {
      var s :| s in sections && s.id == x;
      var i :| 0 <= i < |sections| && sections[i] == s;
      if i < |decisions| {
        assert decisions[i] in decisions;
      }
    }
    forall x | x in (set d | d in decisions :: d.id) + {Unassigned} ensures x in SectionKeys(decisions) {
      if x == Unassigned {
        assert sections[|decisions|] in sections;
      } else {
        var d :| d in decisions && d.id == x;
        var i :| 0 <= i < |decisions| && decisions[i] == d;
        assert sections[i] in sections;
      }
    }
  }

  /** A task without a decision is shown in the unassigned section, in its status column. */
  lemma {:induction false} UnlinkedTaskShownUnassigned(tasks: seq<Task>, t: Task)
    requires t in tasks && t.decision_id.None?
    ensures t in ColumnTasks(tasks, Unassigned, ColumnOf(t.status))
  {
    ColumnTasksPartition(tasks, Unassigned, ColumnOf(t.status), t);
    assert multiset(tasks)[t] > 0;
  }

  /**
   * A task whose decision id names no listed decision (and is not the word
   * "unassigned") is in no rendered section: the board files it under its
   * own key and no section reads that key.
   */
  lemma DanglingTaskHidden(tasks: seq<Task>, decisions: seq<Decision>, t: Task)
    requires t.decision_id.Some? && t.decision_id.value != Unassigned
    requires forall d :: d in decisions ==> d.id != t.decision_id.value
    ensures forall k, c :: k in SectionKeys(decisions) ==> t !in ColumnTasks(tasks, k, c)
  {
    SectionKeysAre(decisions);
  }

  /** The inline editor's values. */
  datatype EditingValues = EditingValues(title: string, owner: string, due_date: string)

  datatype EditField = TitleField | OwnerField | DueDateField

  /** `s.slice(0, n)`. */
  function Take(s: string, n: nat): (r: string)
    ensures |r| == if |s| <= n then |s| else n
    ensures r == s[..|r|]
  {
    if |s| <= n then s else s[..n]
  }

  /**
   * The update `saveEditing` sends: the title, the owner and the due date,
   * an empty owner or date as `null`; status and decision are left out.
   */
  function EditRequest(v: EditingValues): (r: TaskUpdateRequest)
    ensures r.title == Some(v.title) && r.status == None && r.decision_id == None
    ensures r.owner.None? <==> v.owner == ""
    ensures r.due_date.None? <==> v.due_date == ""
    ensures r.owner.Some? ==> r.owner.value == v.owner
    ensures r.due_date.Some? ==> r.due_date.value == v.due_date
  {
    TaskUpdateRequest(Some(v.title), None,
                      if v.owner == "" then None else Some(v.owner),
                      if v.due_date == "" then None else Some(v.due_date),
                      None)
  }

  /** The page's own state: the per-section draft titles and the task being edited. */
  class BoardPage {
    var drafts: map<string, string>
    var editingTaskId: Option<string>
    var editingValues: Option<EditingValues>

    constructor ()
      ensures drafts == map[] && editingTaskId == None && editingValues == None
    {
      drafts := map[];
      editingTaskId := None;
      editingValues := None;
    }

    /** `handleDraftChange`: only the draft of `key` changes. */
    method HandleDraftChange(key: string, value: string)
      modifies this
      ensures drafts == old(drafts)[key := value]
      ensures editingTaskId == old(editingTaskId) && editingValues == old(editingValues)
    {
      drafts := drafts[key := value];
    }

    /**
     * `handleAddTask`: without a non-blank draft or a selected project no
     * request is made and nothing changes; otherwise the trimmed title is
     * requested as a to-do under `decisionId`, and the draft is emptied.
     */
    method HandleAddTask(key: string, decisionId: Option<string>, selectedProjectId: Option<string>)
      returns (request: Option<TaskCreateRequest>)
      modifies this
      ensures request.None? <==> key !in old(drafts) || IsBlank(old(drafts)[key]) || selectedProjectId.None?
      ensures request.None? ==> drafts == old(drafts)
      ensures request.Some? ==>
        && request.value == TaskCreateRequest(selectedProjectId.value, Trim(old(drafts)[key]), "todo", None, None, decisionId)
        && request.value.title != ""
        && drafts == old(drafts)[key := ""]
      ensures editingTaskId == old(editingTaskId) && editingValues == old(editingValues)
    {
      if key !in drafts || selectedProjectId.None? {
        return None;
      }
      var title := Trim(drafts[key]);
      if title == "" {
        return None;
      }
      request := Some(TaskCreateRequest(selectedProjectId.value, title, "todo", None, None, decisionId));
      drafts := drafts[key := ""];
    }

    /** `startEditing`: the title, the owner or "", and the date part of the due date. */
    method StartEditing(task: Task)
      modifies this
      ensures editingTaskId == Some(task.id)
      ensures editingValues == Some(EditingValues(task.title, task.owner.GetOr(""), Take(task.due_date.GetOr(""), 10)))
      ensures drafts == old(drafts)
    {
      editingTaskId := Some(task.id);
      editingValues := Some(EditingValues(task.title, task.owner.GetOr(""), Take(task.due_date.GetOr(""), 10)));
    }

    /** An edit in the inline editor; it has no effect when nothing is being edited. */
    method EditValue(field: EditField, value: string)
      modifies this
      ensures old(editingValues).None? ==> editingValues == None
      ensures old(editingValues).Some? ==> editingValues == Some(match field
        case TitleField => old(editingValues).value.(title := value)
        case OwnerField => old(editingValues).value.(owner := value)
        case DueDateField => old(editingValues).value.(due_date := value))
      ensures drafts == old(drafts) && editingTaskId == old(editingTaskId)
    {
      if editingValues.Some? {
        var v := editingValues.value;
        editingValues := Some(match field
          case TitleField => v.(title := value)
          case OwnerField => v.(owner := value)
          case DueDateField => v.(due_date := value));
      }
    }

    method CancelEditing()
      modifies this
      ensures editingTaskId == None && editingValues == None
      ensures drafts == old(drafts)
    {
      editingTaskId := None;
      editingValues := None;
    }

    /**
     * `saveEditing`: with values present, an update of the title, owner and
     * due date (an empty owner or date sent as `null`), then the editor
     * closes; without values, nothing.
     */
    method SaveEditing(task: Task) returns (request: Option<(string, TaskUpdateRequest)>)
      modifies this
      ensures old(editingValues).None? ==> request.None? && editingTaskId == old(editingTaskId) && editingValues == None
      ensures old(editingValues).Some? ==>
        var v := old(editingValues).value;
        && request == Some((task.id, EditRequest(v)))
        && editingTaskId == None && editingValues == None
      ensures drafts == old(drafts)
    {
      if editingValues.None? {
        return None;
      }
      var v := editingValues.value;
      request := Some((task.id, EditRequest(v)));
      CancelEditing();
    }
  }
}
