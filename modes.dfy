/**
 * The edit modes that are not generic text sessions (due-date stepper, priority selector,
 * add-task, list search, help search), the dispatcher `handleEditingModes`, and the
 * detail view (`handleTaskDetailMode`, `handleDetailFieldEdit`).
 */
module Modes {
  import opened Wrappers
  import opened TaskStore
  import opened Keys
  import opened Selectors
  import opened DetailView
  import opened EditorState
  import opened Sessions

  /** `handleDueEditMode`: Enter writes the date and leaves the mode only if the store
      accepts; Esc leaves without a store call; the four direction keys step the date. */
  function DueEditMode(k: Key, st: ModelState): (r: (ModelState, Cmd))
    requires Wf(st)
    ensures Wf(r.0) && r.0.modes <= st.modes
  {
    match k
    case Enter =>
      var (sent, err) := Attempt(st, SetDueDate(st.ids.due, st.dueDate));
      if err.Some? then (sent.(statusMsg := "Error: " + err.value), ClearStatusLater)
      else
        var done := Reloaded(sent.(modes := sent.modes - {DueEditing}));
        (done, if done.showTaskDetail then DetailBlink(5) else Blink(done.ids.due))
    case Esc => (st.(modes := st.modes - {DueEditing}), NoCmd)
    case _ => (st.(dueDate := StepDate(st.dueDate, Name(k))), NoCmd)
  }

  /** `handlePriorityMode`: Enter validates and writes the selected option, leaving the mode
      only on success; Esc leaves; h/left and l/right cycle through the options. */
  function PriorityMode(k: Key, st: ModelState, env: Env): (r: (ModelState, Cmd))
    requires Wf(st)
    ensures Wf(r.0) && r.0.modes <= st.modes
  {
    if k.Enter? then
      var priority := PriorityOptions[st.priorityIndex];
      var invalid := env.validatePriority(priority);
      if invalid.Some? then (st.(statusMsg := "Error: " + invalid.value), ClearStatusLater)
      else SetPriorityThenExit(priority, st)
    else if k.Esc? then (st.(modes := st.modes - {PrioritySelecting}), NoCmd)
    else (st.(priorityIndex := CyclePriority(st.priorityIndex, Name(k))), NoCmd)
  }

  /** The selector movement of a key other than Enter and Esc. */
  function CyclePriority(i: int, key: string): (r: int)
    requires InRange(i)
    ensures InRange(r)
    ensures key == "h" || key == "left" ==> r == PriorityLeft(i)
    ensures key == "l" || key == "right" ==> r == PriorityRight(i)
    ensures key !in ["h", "left", "l", "right"] ==> r == i
  {
    if key == "h" || key == "left" then PriorityLeft(i)
    else if key == "l" || key == "right" then PriorityRight(i)
    else i
  }

  /** The store write of a validated priority. */
  function SetPriorityThenExit(priority: string, st: ModelState): (r: (ModelState, Cmd))
    requires Wf(st)
    ensures Wf(r.0) && r.0.modes <= st.modes
  {
    var (sent, err) := Attempt(st, SetPriority(st.ids.priority, priority));
    if err.Some? then (sent.(statusMsg := "Error: " + err.value), ClearStatusLater)
    else
      var done := Reloaded(sent.(modes := sent.modes - {PrioritySelecting}));
      (done, if done.showTaskDetail then DetailBlink(3) else Blink(done.ids.priority))
  }

  /** The first row of `tasks` whose ID is not among `oldIds`. */
  function FirstNew(oldIds: seq<int>, tasks: seq<int>): (r: Option<nat>)
    ensures r.Some? ==> r.value < |tasks| && tasks[r.value] !in oldIds
    ensures r.Some? ==> forall j :: 0 <= j < r.value ==> tasks[j] in oldIds
    ensures r.None? ==> forall j :: 0 <= j < |tasks| ==> tasks[j] in oldIds
  {
    if tasks == [] then None
    else if tasks[0] !in oldIds then Some(0)
    else match FirstNew(oldIds, tasks[1..])
      case None => None
      case Some(i) => Some(i + 1)
  }

  /** The row the add-task scan stops at is the one `FirstNew` names. */
  lemma {:induction false} FirstNewAt(oldIds: seq<int>, tasks: seq<int>, row: int)
    requires 0 <= row < |tasks| && tasks[row] !in oldIds
    requires forall j :: 0 <= j < row ==> tasks[j] in oldIds
    ensures FirstNew(oldIds, tasks) == Some(row)
  {
    if row > 0 {
      FirstNewAt(oldIds, tasks[1..], row - 1);
    }
  }

  /** The table column of the description, where the cursor goes after adding a task. */
  const DescriptionColumn := 7

  /** `handleAddTaskMode`: Enter hands the line to the store; on success the mode closes,
      the task list is reloaded and the cursor moves to the first row whose ID is new, on
      the description column, which blinks. */
  function AddTaskMode(k: Key, st: ModelState, env: Env): (r: (ModelState, Cmd))
    requires Wf(st)
    ensures Wf(r.0) && r.0.modes <= st.modes
  {
    match k
    case Enter =>
      var (sent, err) := Attempt(st, AddLine(st.inputs.add));
      if err.Some? then (sent.(statusMsg := "Error: " + err.value), ClearStatusLater)
      else FocusNewTask(st.table.tasks, Reloaded(sent.(modes := sent.modes - {AddingTask})))
    case Esc => (st.(modes := st.modes - {AddingTask}), NoCmd)
    case _ => (st.(inputs := st.inputs.(add := env.inputUpdate(st.inputs.add, k))), InputCmd)
  }

  /** Moving to the task that was not in the list before the add. */
  function FocusNewTask(oldIds: seq<int>, st: ModelState): (r: (ModelState, Cmd))
    requires Wf(st)
    ensures Wf(r.0) && r.0.modes <= st.modes
  {
    match FirstNew(oldIds, st.table.tasks)
    case None => (st, NoCmd)
    case Some(row) =>
      (st.(table := st.table.(cursorRow := row, cursorCol := DescriptionColumn)), Blink(st.table.tasks[row]))
  }

  /** Confirming a search pattern: an empty pattern clears the compiled pattern; one that
      does not compile clears it too and reports "Invalid regex: ..."; otherwise it is kept.
      The result is the new pattern and the new status message. */
  function ConfirmPattern(pattern: string, status: string, env: Env): (r: (Option<string>, string))
    ensures pattern == "" ==> r == (None, status)
    ensures pattern != "" && env.regexError(pattern).None? ==> r == (Some(pattern), status)
    ensures pattern != "" && env.regexError(pattern).Some? ==>
              r == (None, "Invalid regex: " + env.regexError(pattern).value)
  {
    if pattern == "" then (None, status)
    else
      match env.regexError(pattern)
      case None => (Some(pattern), status)
      case Some(e) => (None, "Invalid regex: " + e)
  }

  /** `handleSearchMode`: Enter sets the list-search pattern, closes the mode, reloads, and
      moves the cursor to the current match if there is one. */
  function SearchMode(k: Key, st: ModelState, env: Env): (r: (ModelState, Cmd))
    requires Wf(st)
    ensures Wf(r.0) && r.0.modes <= st.modes
  {
    match k
    case Enter =>
      var (re, msg) := ConfirmPattern(st.inputs.search, st.statusMsg, env);
      var done := Reloaded(st.(search := st.search.(listRegex := re), statusMsg := msg,
                               modes := st.modes - {Searching}));
      (JumpToMatch(done), NoCmd)
    case Esc => (st.(modes := st.modes - {Searching}), NoCmd)
    case _ => (st.(inputs := st.inputs.(search := env.inputUpdate(st.inputs.search, k))), InputCmd)
  }

  /** The cursor on the current list-search match, if there are matches. */
  function JumpToMatch(st: ModelState): (r: ModelState)
    requires Wf(st)
    ensures Wf(r)
  {
    if |st.table.searchMatches| > 0 then
      var c := st.table.searchMatches[st.table.searchIndex];
      st.(table := st.table.(cursorRow := c.row, cursorCol := c.col))
    else st
  }

  /** The indices of the lines that match `pattern`, in increasing order. */
  function MatchingLines(lines: seq<string>, pattern: string, matches: (string, string) -> bool): (r: seq<int>)
    ensures forall i :: 0 <= i < |r| ==> 0 <= r[i] < |lines| && matches(pattern, lines[r[i]])
    ensures forall i, j :: 0 <= i < j < |r| ==> r[i] < r[j]
    ensures forall n :: 0 <= n < |lines| && matches(pattern, lines[n]) ==> n in r
  {
    if lines == [] then []
    else
      var last := |lines| - 1;
      var earlier := MatchingLines(lines[..last], pattern, matches);
      assert forall n :: 0 <= n < last ==> lines[..last][n] == lines[n];
      earlier + (if matches(pattern, lines[last]) then [last] else [])
  }

  /** The help-search scan: the indices of the lines the pattern matches, collected in order. */
  method FindHelpMatches(lines: seq<string>, pattern: string, matches: (string, string) -> bool) returns (found: seq<int>)
    ensures found == MatchingLines(lines, pattern, matches)
  {
    found := [];
    for i := 0 to |lines|
      invariant found == MatchingLines(lines[..i], pattern, matches)
    {
      assert lines[..i + 1][..i] == lines[..i];
      if matches(pattern, lines[i]) {
        found := found + [i];
      }
    }
    assert lines[..|lines|] == lines;
  }

  /** `handleHelpSearchMode`: Enter sets the help-search pattern, closes the mode and
      recollects the matching help lines, starting at the first match. */
  function HelpSearchMode(k: Key, st: ModelState, env: Env): (r: (ModelState, Cmd))
    requires Wf(st)
    ensures Wf(r.0) && r.0.modes <= st.modes
  {
    match k
    case Enter =>
      var (re, msg) := ConfirmPattern(st.inputs.helpSearch, st.statusMsg, env);
      var found := if re.Some? then MatchingLines(env.helpLines, re.value, env.regexMatches) else [];
      var index := if re.Some? && |found| > 0 then 0 else st.search.helpIndex;
      (st.(search := st.search.(helpRegex := re, helpMatches := found, helpIndex := index), statusMsg := msg,
           modes := st.modes - {HelpSearching}), NoCmd)
    case Esc => (st.(modes := st.modes - {HelpSearching}), NoCmd)
    case _ =>
      (st.(inputs := st.inputs.(helpSearch := env.inputUpdate(st.inputs.helpSearch, k))), InputCmd)
  }

  /** The handler of an active mode. */
  function ModeStep(m: Mode, k: Key, st: ModelState, env: Env): (r: (ModelState, Cmd))
    requires Wf(st)
    ensures Wf(r.0) && r.0.modes <= st.modes
  {
    match m
    case Annotating => AnnotationMode(k, st, env)
    case DescEditing => DescriptionMode(k, st, env)
    case TagsEditing => TagsMode(k, st, env)
    case DueEditing => DueEditMode(k, st)
    case RecurEditing => RecurrenceMode(k, st, env)
    case ProjEditing => ProjectMode(k, st, env)
    case PrioritySelecting => PriorityMode(k, st, env)
    case FilterEditing => FilterMode(k, st, env)
    case AddingTask => AddTaskMode(k, st, env)
    case Searching => SearchMode(k, st, env)
    case HelpSearching => HelpSearchMode(k, st, env)
  }

  /** `handleEditingModes`: the key goes to the first active mode in dispatch order; with no
      mode active it is not handled and nothing changes. */
  function EditingModes(k: Key, st: ModelState, env: Env): (r: (bool, ModelState, Cmd))
    requires Wf(st)
    ensures Wf(r.1) && r.1.modes <= st.modes
    ensures r.0 <==> exists m :: Active(st, m)
    ensures !r.0 ==> r.1 == st && r.2 == NoCmd
    ensures r.0 ==> (r.1, r.2) == ModeStep(Route(st).value, k, st, env)
  {
    match Route(st)
    case None => (false, st, NoCmd)
    case Some(m) => var (next, cmd) := ModeStep(m, k, st, env); (true, next, cmd)
  }

  /** `getTaskAtCursor`: the ID of the task on the cursor's row, if the row holds one. */
  function CursorTask(st: ModelState): (r: Option<int>)
    ensures r.Some? <==> 0 <= st.table.cursorRow < |st.table.tasks|
    ensures r.Some? ==> r.value == st.table.tasks[st.table.cursorRow]
  {
    if 0 <= st.table.cursorRow < |st.table.tasks| then Some(st.table.tasks[st.table.cursorRow]) else None
  }

  /** `handleTaskDetailMode`. While the detail search field is open, keys go to it; otherwise
      keys move the field cursor, open the search field, or start editing the field. */
  function TaskDetailMode(k: Key, st: ModelState, env: Env): (r: (ModelState, Cmd))
    requires Wf(st)
    ensures Wf(r.0)
  {
    if st.detailSearching then DetailSearchKey(k, st, env)
    else
      var key := Name(k);
      if key == "q" || key == "esc" then (st, QuitOrEscape)
      else if key == "/" || key == "?" then
        (st.(detailSearching := true, inputs := st.inputs.(detailSearch := "")), NoCmd)
      else if key == "n" || key == "N" then (st, NoCmd)
      else if key == "up" || key == "k" then (st.(detailFieldIndex := FieldUp(st.detailFieldIndex)), NoCmd)
      else if key == "down" || key == "j" then
        (st.(detailFieldIndex := FieldDown(st.detailFieldIndex, env.detailFieldCount(st.currentTaskDetail))), NoCmd)
      else if key == "g" || key == "home" then (st.(detailFieldIndex := 0), NoCmd)
      else if key == "G" || key == "end" then
        (st.(detailFieldIndex := env.detailFieldCount(st.currentTaskDetail) - 1), NoCmd)
      else if key == "i" || key == "enter" then DetailFieldEdit(st, env)
      else (st, NoCmd)
  }

  /** The detail search field: Enter compiles the pattern and closes the field (no match is
      computed), Esc or ctrl+c closes it, any other key goes to the text widget. */
  function DetailSearchKey(k: Key, st: ModelState, env: Env): (r: (ModelState, Cmd))
    requires Wf(st)
    ensures Wf(r.0)
  {
    match k
    case Enter =>
      var (re, msg) := ConfirmPattern(st.inputs.detailSearch, st.statusMsg, env);
      (st.(search := st.search.(detailRegex := re), statusMsg := msg, detailSearching := false), NoCmd)
    case Esc => (st.(detailSearching := false), NoCmd)
    case CtrlC => (st.(detailSearching := false), NoCmd)
    case _ =>
      (st.(inputs := st.inputs.(detailSearch := env.inputUpdate(st.inputs.detailSearch, k))), InputCmd)
  }

  /** `handleDetailFieldEdit`: opens the session for the field under the cursor, after
      turning every other edit mode off; the description goes to the external editor. */
  function DetailFieldEdit(st: ModelState, env: Env): (r: (ModelState, Cmd))
    requires Wf(st)
    ensures Wf(r.0)
  {
    match st.currentTaskDetail
    case None => (st, NoCmd)
    case Some(d) => OpenEditor(TargetAt(st.detailFieldIndex, d.recur != ""), d, st, env)
  }

  /** Opening the editor for `action` on the detail task `d`. */
  function OpenEditor(action: EditAction, d: TaskDetail, st: ModelState, env: Env): (r: (ModelState, Cmd))
    requires Wf(st)
    ensures Wf(r.0)
  {
    match action
    case NoEdit => (st, NoCmd)
    case SelectPriority =>
      (st.(modes := {PrioritySelecting}, ids := st.ids.(priority := d.id),
           priorityIndex := SeedPriority(d.priority)), NoCmd)
    case EditTags =>
      (st.(modes := {TagsEditing}, ids := st.ids.(tags := d.id),
           inputs := st.inputs.(tags := "")), NoCmd)
    case StepDue =>
      (st.(modes := {DueEditing}, ids := st.ids.(due := d.id),
           dueDate := SeedDueDate(d.due, env.parseTaskDate, env.today)), NoCmd)
    case EditProject =>
      (st.(modes := {ProjEditing}, ids := st.ids.(proj := d.id),
           inputs := st.inputs.(proj := d.project)), NoCmd)
    case EditRecurrence =>
      (st.(modes := {RecurEditing}, ids := st.ids.(recur := d.id),
           inputs := st.inputs.(recur := d.recur)), NoCmd)
    case ExternalDescription => (st.(detailDescEditing := true), EditDescription(d.description))
  }
}
