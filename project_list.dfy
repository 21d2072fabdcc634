/**
 * The project list page (apps/web/src/pages/ProjectListPage.tsx): the
 * newest-first order of the cards, the download file names of the export
 * and the digest, and how deleting a project affects the selection.
 */
module ProjectList {
  import opened Wrappers
  import opened Lists
  import opened Types
  import opened UiStore

  /** The characters the file-name pattern keeps: ASCII letters (either case), digits, `_` and `-`. */
  predicate FileSafe(c: char) {
    'a' <= c <= 'z' || 'A' <= c <= 'Z' || '0' <= c <= '9' || c == '_' || c == '-'
  }

  /** The UTF-16 code units of a character: two for one outside the Basic Multilingual Plane. */
  function Utf16Units(c: char): nat {
    if c as int > 0xFFFF then 2 else 1
  }

  /** A string's `length` in JavaScript: its UTF-16 code units. */
  function Utf16Length(s: string): nat {
    if s == [] then 0 else Utf16Units(s[0]) + Utf16Length(s[1..])
  }

  /** What the pattern makes of one character: itself when safe, else one `-` per code unit. */
  function Replacement(c: char): (r: string)
    ensures |r| == Utf16Units(c)
    ensures FileSafe(c) ==> r == [c]
    ensures !FileSafe(c) ==> forall k :: 0 <= k < |r| ==> r[k] == '-'
  {
    if FileSafe(c) then [c] else if Utf16Units(c) == 2 then "--" else "-"
  }

  /**
   * `name.replace(/[^a-z0-9_-]/gi, "-")`. Without the `u` flag the pattern
   * matches single UTF-16 code units, so a character outside the Basic
   * Multilingual Plane, two code units, becomes two hyphens.
   */
  function Sanitize(name: string): (r: string)
    ensures |r| == Utf16Length(name)
    ensures forall k :: 0 <= k < |r| ==> FileSafe(r[k])
  {
    if name == [] then [] else Replacement(name[0]) + Sanitize(name[1..])
  }

  /** Sanitising works character by character: it distributes over concatenation. */
  lemma {:induction false} SanitizeAppend(a: string, b: string)
    ensures Sanitize(a + b) == Sanitize(a) + Sanitize(b)
    ensures forall c :: Sanitize([c]) == Replacement(c)
  {
    forall c ensures Sanitize([c]) == Replacement(c) {
      assert [c][1..] == [];
    }
    if a == [] {
      assert a + b == b;
    } else {
      assert (a + b)[1..] == a[1..] + b;
      SanitizeAppend(a[1..], b);
      AppendAssoc(Replacement(a[0]), Sanitize(a[1..]), Sanitize(b));
    }
  }

  /** The sanitised name is made of safe characters only, and sanitising it again changes nothing. */
  lemma SanitizeIsSafeAndIdempotent(name: string)
    ensures forall i :: 0 <= i < |Sanitize(name)| ==> FileSafe(Sanitize(name)[i])
    ensures Sanitize(Sanitize(name)) == Sanitize(name)
  {
    SafeFixed(Sanitize(name));
  }

  lemma {:induction false} SafeFixed(s: string)
    requires forall k :: 0 <= k < |s| ==> FileSafe(s[k])
    ensures Sanitize(s) == s
  {
    if s != [] {
      SafeFixed(s[1..]);
    }
  }

  /** A name is left as it is exactly when it is already made of safe characters. */
  lemma SanitizeFixedPoints(name: string)
    ensures Sanitize(name) == name <==> forall i :: 0 <= i < |name| ==> FileSafe(name[i])
  {
    if forall i :: 0 <= i < |name| ==> FileSafe(name[i]) {
      SafeFixed(name);
    }
  }

  /** The file stem: the sanitised name, or `project` when that is empty. */
  function FileStem(name: string): (r: string)
    ensures r != []
    ensures forall i :: 0 <= i < |r| ==> FileSafe(r[i])
    ensures name != "" ==> r == Sanitize(name)
    ensures name == "" ==> r == "project"
  {
    var s := Sanitize(name);
    if s == "" then "project" else s
  }

  /** The export download name: the stem and `.md`. */
  function ExportFileName(name: string): (r: string)
    ensures |r| == |FileStem(name)| + 3 && r[|r| - 3..] == ".md"
    ensures r[..|r| - 3] == FileStem(name)
  {
    FileStem(name) + ".md"
  }

  /** The digest download name: the stem and `-digest.md`. */
  function DigestFileName(name: string): (r: string)
    ensures |r| == |FileStem(name)| + 10 && r[|r| - 10..] == "-digest.md"
    ensures r[..|r| - 10] == FileStem(name)
  {
    FileStem(name) + "-digest.md"
  }

  /**
   * Two names that differ only in unsafe characters of the same UTF-16 width
   * download under the same file name.
   */
  lemma {:induction false} UnsafeCharactersCollide(a: string, b: string)
    requires |a| == |b| && a != ""
    requires forall i :: 0 <= i < |a| ==> (a[i] == b[i] || (!FileSafe(a[i]) && !FileSafe(b[i]) && Utf16Units(a[i]) == Utf16Units(b[i])))
    ensures ExportFileName(a) == ExportFileName(b)
  {
    SanitizeAgree(a, b);
  }

  lemma {:induction false} SanitizeAgree(a: string, b: string)
    requires |a| == |b|
    requires forall i :: 0 <= i < |a| ==> (a[i] == b[i] || (!FileSafe(a[i]) && !FileSafe(b[i]) && Utf16Units(a[i]) == Utf16Units(b[i])))
    ensures Sanitize(a) == Sanitize(b)
  {
    if a != [] {
      assert Replacement(a[0]) == Replacement(b[0]);
      SanitizeAgree(a[1..], b[1..]);
    }
  }

  function CreatedAtOf(p: Project): int {
    p.created_at
  }

  /**
   * `sorted`: a copy of the projects (none while they are loading) in
   * newest-first order. The sort is stable, as `Array.prototype.sort` is.
   */
  function Sorted(projects: Option<seq<Project>>): (r: seq<Project>)
    ensures projects.None? ==> r == []
    ensures projects.Some? ==> DescendingBy(r, CreatedAtOf) && multiset(r) == multiset(projects.value)
  {
    if projects.None? then [] else SortDescendingBy(projects.value, CreatedAtOf)
  }

  /** Projects created at the same time keep the order the list had. */
  lemma SortedKeepsTies(projects: seq<Project>, t: int)
    ensures WithKey(Sorted(Some(projects)), CreatedAtOf, t) == WithKey(projects, CreatedAtOf, t)
  {
    SortKeepsTies(projects, CreatedAtOf, t);
  }

  /** `deleteProject`'s success handler: the selection is cleared only if it was the deleted project. */
  method OnProjectDeleted(store: UIStore, projectId: string)
    modifies store
    ensures old(store.selectedProjectId) == Some(projectId) ==> store.selectedProjectId == None
    ensures old(store.selectedProjectId) != Some(projectId) ==> store.selectedProjectId == old(store.selectedProjectId)
    ensures store.activeDialog == old(store.activeDialog) && store.decisionDraft == old(store.decisionDraft)
    ensures store.commandPaletteOpen == old(store.commandPaletteOpen)
  {
    if store.selectedProjectId == Some(projectId) {
      store.SetSelectedProjectId(None);
    }
  }
}
