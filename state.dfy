/**
 * The editor's state as a value: every field of `Model` that the handlers read or write,
 * the task store they talk to, and the collaborators they consult. The handlers of
 * handlers.go are specified as functions over this value (modules `Sessions` and `Modes`);
 * the class `Ui.Model` implements them in place.
 */
module EditorState {
  import opened Wrappers
  import opened TaskStore
  import opened Keys
  import opened Selectors

  /** The detail view's task (`currentTaskDetail`): the attributes the edit mapping reads. */
  datatype TaskDetail = TaskDetail(id: int, priority: string, due: string, project: string, recur: string, description: string)

  /** The eleven edit modes, one per edit-mode flag (`annotating`, `descEditing`, ...). */
  datatype Mode =
    | Annotating | DescEditing | TagsEditing | DueEditing | RecurEditing | ProjEditing
    | PrioritySelecting | FilterEditing | AddingTask | Searching | HelpSearching

  /** The task each session edits (`annotateID`, `descID`, ...). */
  datatype TaskIds = TaskIds(annotate: int, desc: int, tags: int, due: int, recur: int, proj: int, priority: int)

  /** The text buffers. */
  datatype Inputs = Inputs(
    annotate: string, desc: string, tags: string, recur: string, proj: string,
    filter: string, add: string, search: string, helpSearch: string, detailSearch: string)

  /** The task snapshot from the last reload with its list-search matches, and the table
      widget's cursor. */
  datatype Table = Table(tasks: seq<int>, searchMatches: seq<Cell>, searchIndex: int, cursorRow: int, cursorCol: int)

  /** Compiled search patterns (by their source text) and the help-search results. */
  datatype Searches = Searches(
    listRegex: Option<string>, helpRegex: Option<string>, detailRegex: Option<string>,
    helpMatches: seq<int>, helpIndex: int)

  /** `modes` holds the edit modes whose flag is set. */
  datatype ModelState = ModelState(
    modes: set<Mode>,
    replaceAnnotations: bool, detailSearching: bool, detailDescEditing: bool, showTaskDetail: bool,
    ids: TaskIds,
    priorityIndex: int, dueDate: int, detailFieldIndex: int,
    currentTaskDetail: Option<TaskDetail>,
    table: Table,
    filters: seq<string>, statusMsg: string,
    inputs: Inputs,
    search: Searches,
    store: Store)

  /**
   * The collaborators the handlers call but that are defined elsewhere: the four validators
   * (an error message, or None when the value is acceptable), the regular-expression
   * compiler (its error for a pattern) and matcher, `parseTaskDate`, the text widget's key
   * handling, `getHelpLines`, `getDetailFieldCount`, and the clock reading for this event.
   */
  datatype Env = Env(
    validateDescription: string -> Option<string>,
    validateTagName: string -> Option<string>,
    validateRecurrence: string -> Option<string>,
    validatePriority: string -> Option<string>,
    regexError: string -> Option<string>,
    regexMatches: (string, string) -> bool,
    parseTaskDate: string -> Option<int>,
    inputUpdate: (string, Key) -> string,
    helpLines: seq<string>,
    detailFieldCount: Option<TaskDetail> -> int,
    today: int)

  /** The state every handler may assume and must keep: the store is consistent, the task
      list and search matches are those of the last reload, and the priority index selects
      an option. */
  predicate Wf(st: ModelState) {
    && st.table.tasks == st.store.current.ids
    && st.table.searchMatches == st.store.current.matches
    && st.table.searchIndex == st.store.current.matchIndex
    && InRange(st.priorityIndex)
  }

  /** `reload()`: the store exports the task list again. */
  function Reloaded(st: ModelState): (r: ModelState)
    requires Wf(st)
    ensures Wf(r)
  {
    var s := st.store.Reload();
    st.(store := s,
        table := st.table.(tasks := s.current.ids, searchMatches := s.current.matches, searchIndex := s.current.matchIndex))
  }

  /** One mutating store call: the state with the store having answered, and its answer. */
  function Attempt(st: ModelState, c: Call): (r: (ModelState, Option<string>))
    requires Wf(st) && !c.Export?
    ensures Wf(r.0)
    ensures r.0 == st.(store := r.0.store)
    ensures r.0.store.log == st.store.log + [c]
    ensures r.1 == (if st.store.replies == [] then None else st.store.replies[0])
    ensures |r.0.store.replies| == if st.store.replies == [] then 0 else |st.store.replies| - 1
    ensures r.0.store.replies == st.store.replies[(if st.store.replies == [] then 0 else 1)..]
    ensures r.0.store.exports == st.store.exports && r.0.store.current == st.store.current
  {
    (st.(store := st.store.Perform(c)), st.store.Reply())
  }

  /** The dispatcher's fixed priority order. */
  const DispatchOrder: seq<Mode> :=
    [Annotating, DescEditing, TagsEditing, DueEditing, RecurEditing, ProjEditing,
     PrioritySelecting, FilterEditing, AddingTask, Searching, HelpSearching]

  /** The position of a mode in `DispatchOrder`. */
  function Rank(m: Mode): (r: nat)
    ensures r < |DispatchOrder| && DispatchOrder[r] == m
  {
    match m
    case Annotating => 0
    case DescEditing => 1
    case TagsEditing => 2
    case DueEditing => 3
    case RecurEditing => 4
    case ProjEditing => 5
    case PrioritySelecting => 6
    case FilterEditing => 7
    case AddingTask => 8
    case Searching => 9
    case HelpSearching => 10
  }

  predicate Active(st: ModelState, m: Mode) {
    m in st.modes
  }

  /** The dispatcher's `switch`: the first active mode in dispatch order, if any. */
  function Route(st: ModelState): (r: Option<Mode>)
    ensures r.Some? ==> Active(st, r.value) && forall m :: Rank(m) < Rank(r.value) ==> !Active(st, m)
    ensures r.None? ==> forall m :: !Active(st, m)
  {
    var f := st.modes;
    if Annotating in f then Some(Annotating)
    else if DescEditing in f then Some(DescEditing)
    else if TagsEditing in f then Some(TagsEditing)
    else if DueEditing in f then Some(DueEditing)
    else if RecurEditing in f then Some(RecurEditing)
    else if ProjEditing in f then Some(ProjEditing)
    else if PrioritySelecting in f then Some(PrioritySelecting)
    else if FilterEditing in f then Some(FilterEditing)
    else if AddingTask in f then Some(AddingTask)
    else if Searching in f then Some(Searching)
    else if HelpSearching in f then Some(HelpSearching)
    else NoneActive(st); None
  }

  /** A mode set that holds none of the eleven modes by name holds no mode. */
  lemma NoneActive(st: ModelState)
    requires forall i :: 0 <= i < |DispatchOrder| ==> DispatchOrder[i] !in st.modes
    ensures forall m :: !Active(st, m)
  {
    forall m: Mode
      ensures !Active(st, m)
    {
      assert DispatchOrder[Rank(m)] == m;
    }
  }

  /** `clearEditingModes`: every edit-mode flag off. */
  function ClearEditingModes(st: ModelState): (r: ModelState)
    ensures forall m :: !Active(r, m)
    ensures r.(modes := st.modes) == st
  {
    st.(modes := {})
  }

  /** The number of active edit modes. */
  function ActiveCount(st: ModelState): nat {
    |st.modes|
  }
}
