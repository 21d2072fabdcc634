/**
 * The command palette (apps/web/src/components/CommandPalette.tsx): the
 * fixed list of actions, the case-insensitive substring filter, the search
 * reset on close, and close-then-run selection.
 */
module CommandPalette {
  import opened Wrappers
  import opened Text
  import opened UiStore

  /** What selecting an action does: open a dialog, or navigate to a route. */
  datatype Effect = OpenDialogEffect(dialog: DialogKind) | Navigate(path: string)

  datatype CommandAction = CommandAction(
    id: string,
    title: string,  // the source's `label`
    shortcut: Option<string>,
    hint: Option<string>,
    effect: Effect)

  /** Appended to the labels of the project-scoped actions while no project is selected. */
  const SelectFirst: string := " (Select project first)"

  function Guarded(title: string, projectSelected: bool): string {
    if projectSelected then title else title + SelectFirst
  }

  predicate EndsWith(s: string, suffix: string) {
    |suffix| <= |s| && s[|s| - |suffix|..] == suffix
  }

  /**
   * `actions`: ten entries with distinct ids. Without a selected project the
   * four project-scoped labels carry the suffix, but the actions still open
   * their dialogs.
   */
  function Actions(projectSelected: bool): (r: seq<CommandAction>)
    ensures |r| == 10
  {
    [ CommandAction("new-project", "New Project", Some("N"), None, OpenDialogEffect(ProjectDialog)),
      CommandAction("upload-source", Guarded("Upload Source", projectSelected), Some("U"), None, OpenDialogEffect(UploadDialog)),
      CommandAction("start-run", Guarded("Start Insight Run", projectSelected), Some("A"), None, OpenDialogEffect(AnalyzeDialog)),
      CommandAction("record-decision", Guarded("Record Decision", projectSelected), Some("D"), None, OpenDialogEffect(DecisionDialog)),
      CommandAction("create-task", Guarded("Create Task", projectSelected), Some("T"), None, OpenDialogEffect(TaskDialog)),
      CommandAction("view-projects", "Go to Projects", None, Some("Go to dashboard"), Navigate("/")),
      CommandAction("view-library", "Go to Library", None, None, Navigate("/library")),
      CommandAction("view-runs", "Go to Insight Runs", None, None, Navigate("/runs")),
      CommandAction("view-decisions", "Go to Decisions", None, None, Navigate("/decisions")),
      CommandAction("view-tasks", "Go to Tasks", None, None, Navigate("/tasks")) ]
  }

  lemma ActionIdsDistinct(projectSelected: bool)
    ensures var r := Actions(projectSelected);
      forall i, j :: 0 <= i < j < |r| ==> r[i].id != r[j].id
  {
  }

  lemma ActionSuffix(projectSelected: bool)
    ensures var r := Actions(projectSelected);
      forall i :: 0 <= i < |r| ==> (EndsWith(r[i].title, SelectFirst) <==> !projectSelected && 1 <= i <= 4)
  {
  }

  lemma ActionEffects(projectSelected: bool)
    ensures var r := Actions(projectSelected);
      && (forall i :: 0 <= i < |r| ==> (r[i].effect.OpenDialogEffect? <==> i < 5))
      && (forall i, j :: 0 <= i < j < 5 ==> r[i].effect.dialog != r[j].effect.dialog)
  {
  }

  /** An action matches a lowercased search when its lowercased label contains it. */
  predicate Matches(a: CommandAction, needle: string) {
    Contains(Lower(a.title), needle)
  }

  /** The matching actions, in list order. */
  function Matching(actions: seq<CommandAction>, needle: string): seq<CommandAction> {
    if actions == [] then []
    else
      var a := actions[|actions| - 1];
      Matching(actions[..|actions| - 1], needle) + (if Matches(a, needle) then [a] else [])
  }

  /** `filtered`: everything for an empty search, else the matches of the lowercased search. */
  function Filter(actions: seq<CommandAction>, search: string): (r: seq<CommandAction>)
    ensures search == "" ==> r == actions
    ensures search != "" ==> r == Matching(actions, Lower(search))
  {
    if search == "" then actions else Matching(actions, Lower(search))
  }

  /**
   * Each copy of an action is kept exactly when its label contains the
   * search, case aside: the filter keeps the matches and only them.
   */
  lemma {:induction false} MatchingKeepsExactlyMatches(actions: seq<CommandAction>, needle: string, a: CommandAction)
    ensures multiset(Matching(actions, needle))[a] == if Matches(a, needle) then multiset(actions)[a] else 0
  {
    if actions != [] {
      var init := actions[..|actions| - 1];
      MatchingKeepsExactlyMatches(init, needle, a);
      assert actions == init + [actions[|actions| - 1]];
    }
  }

  /** The filter distributes over concatenation, so it keeps list order. */
  lemma {:induction false} MatchingAppend(xs: seq<CommandAction>, ys: seq<CommandAction>, needle: string)
    ensures Matching(xs + ys, needle) == Matching(xs, needle) + Matching(ys, needle)
    decreases |ys|
  {
    if ys == [] {
      assert xs + ys == xs;
    } else {
      var ys' := ys[..|ys| - 1];
      var a := ys[|ys| - 1];
      MatchingAppend(xs, ys', needle);
      assert xs + ys == (xs + ys') + [a];
      assert (xs + ys)[..|xs + ys| - 1] == xs + ys';
    }
  }

  /** A kept action's label contains the search at some position, ignoring ASCII case. */
  lemma MatchingOccurs(actions: seq<CommandAction>, search: string, a: CommandAction)
    requires search != "" && a in Filter(actions, search)
    ensures a in actions
    ensures exists i :: OccursAt(Lower(a.title), Lower(search), i)
  {
    MatchingKeepsExactlyMatches(actions, Lower(search), a);
    assert multiset(Filter(actions, search))[a] > 0;
    ContainsIff(Lower(a.title), Lower(search));
  }

  /** The palette's own search text, next to the store that holds whether it is open. */
  class Palette {
    var search: string
    const store: UIStore

    constructor (store: UIStore)
      ensures this.store == store && search == ""
    {
      this.store := store;
      search := "";
    }

    method SetSearch(value: string)
      modifies this
      ensures search == value
    {
      search := value;
    }

    /** `onOpenChange`, then the effect on `commandPaletteOpen`: closing resets the search. */
    method SetOpen(open: bool)
      modifies this, store
      ensures store.commandPaletteOpen == open
      ensures search == if open then old(search) else ""
      ensures store.activeDialog == old(store.activeDialog)
      ensures store.selectedProjectId == old(store.selectedProjectId)
      ensures store.decisionDraft == old(store.decisionDraft)
    {
      store.SetCommandPaletteOpen(open);
      if !open {
        search := "";
      }
    }

    /**
     * Clicking an action: the palette closes (and its search resets), then
     * the action runs. A dialog action opens its dialog; a navigation action
     * leaves the store's dialog alone and yields the route.
     */
    method Select(action: CommandAction) returns (route: Option<string>)
      modifies this, store
      ensures !store.commandPaletteOpen && search == ""
      ensures action.effect.OpenDialogEffect? ==> store.activeDialog == Some(action.effect.dialog) && route == None
      ensures action.effect.Navigate? ==> store.activeDialog == old(store.activeDialog) && route == Some(action.effect.path)
      ensures store.selectedProjectId == old(store.selectedProjectId)
      ensures store.decisionDraft == old(store.decisionDraft)
    {
      SetOpen(false);
      match action.effect {
        case OpenDialogEffect(dialog) =>
          store.OpenDialog(dialog);
          route := None;
        case Navigate(path) =>
          route := Some(path);
      }
    }
  }
}
