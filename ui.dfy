/**
 * `Model`, the editor's state, with the key handlers of handlers.go as methods that update
 * its fields in place. Each handler is proved to leave the fields exactly as its step
 * function in `Sessions` or `Modes` prescribes, so every property proved about the step
 * functions holds of the handlers.
 *
 * Related fields are kept together: the eleven edit-mode flags as the set of modes that
 * are on, the seven target task IDs in `ids`, the ten text widgets in `inputs`, the task
 * list with its search matches and the table cursor in `table`, and the compiled search
 * patterns with the help-search results in `search`.
 */
module Ui {
  import opened Wrappers
  import opened Text
  import opened TaskStore
  import opened Keys
  import opened Tags
  import opened Selectors
  import opened DetailView
  import opened EditorState
  import opened Sessions
  import opened Modes

  class Model {
    var modes: set<Mode>
    var replaceAnnotations: bool
    var detailSearching: bool
    var detailDescEditing: bool
    var showTaskDetail: bool
    var ids: TaskIds
    var priorityIndex: int
    var dueDate: int
    var detailFieldIndex: int
    var currentTaskDetail: Option<TaskDetail>
    var table: Table
    var filters: seq<string>
    var statusMsg: string
    var inputs: Inputs
    var search: Searches
    /** The task store behind the `task` package. */
    var store: Store

    /** The fields as a value. */
    function State(): ModelState
      reads this
    {
      ModelState(modes, replaceAnnotations, detailSearching, detailDescEditing, showTaskDetail, ids,
                 priorityIndex, dueDate, detailFieldIndex, currentTaskDetail, table, filters, statusMsg,
                 inputs, search, store)
    }

    ghost predicate Valid()
      reads this
    {
      Wf(State())
    }

    /** A model over `s` with no edit mode active, showing the store's current task list. */
    constructor (s: Store)
      ensures Valid() && modes == {} && store == s && table.tasks == s.current.ids
    {
      modes := {};
      replaceAnnotations, detailSearching, detailDescEditing, showTaskDetail := false, false, false, false;
      ids := TaskIds(0, 0, 0, 0, 0, 0, 0);
      priorityIndex, dueDate, detailFieldIndex, currentTaskDetail := 0, 0, 0, None;
      table := Table(s.current.ids, s.current.matches, s.current.matchIndex, 0, 0);
      filters, statusMsg := [], "";
      inputs := Inputs("", "", "", "", "", "", "", "", "", "");
      search := Searches(None, None, None, [], 0);
      store := s;
    }

    /** One call into the `task` package. */
    method Invoke(c: Call) returns (err: Option<string>)
      requires Valid() && !c.Export?
      modifies this
      ensures (State(), err) == Attempt(old(State()), c)
    {
      err := store.Reply();
      store := store.Perform(c);
    }

    /** `reload()`. */
    method Reload()
      requires Valid()
      modifies this
      ensures State() == Reloaded(old(State()))
    {
      store := store.Reload();
      table := table.(tasks := store.current.ids, searchMatches := store.current.matches,
                      searchIndex := store.current.matchIndex);
    }

    /** `clearEditingModes()`. */
    method ClearEditingModes()
      modifies this
      ensures State() == EditorState.ClearEditingModes(old(State()))
    {
      modes := {};
    }

    /** A failed commit or store call: the error is shown and cleared two seconds later. */
    method ShowError(e: string) returns (cmd: Cmd)
      modifies this
      ensures State() == old(State()).(statusMsg := "Error: " + e) && cmd == ClearStatusLater
    {
      statusMsg := "Error: " + e;
      cmd := ClearStatusLater;
    }

    // ----- The text sessions' onEnter and onExit -----

    /** A store call followed by a reload when it succeeds. */
    method InvokeThenReload(c: Call) returns (err: Option<string>)
      requires Valid() && !c.Export?
      modifies this
      ensures (State(), err) == AttemptThenReload(old(State()), c)
    {
      err := Invoke(c);
      if err.None? {
        Reload();
      }
    }

    method CommitAnnotation(value: string) returns (err: Option<string>)
      requires Valid()
      modifies this
      ensures (State(), err) == AnnotationCommit(value, old(State()))
    {
      if !replaceAnnotations && IsBlank(value) {
        return Some("annotation cannot be empty");
      }
      if replaceAnnotations {
        err := Invoke(ReplaceAnnotations(ids.annotate, value));
        if err.Some? {
          return;
        }
        replaceAnnotations := false;
        Reload();
      } else {
        err := InvokeThenReload(Annotate(ids.annotate, value));
      }
    }

    method CommitDescription(value: string, env: Env) returns (err: Option<string>)
      requires Valid()
      modifies this
      ensures (State(), err) == DescriptionCommit(value, old(State()), env)
    {
      err := env.validateDescription(value);
      if err.Some? {
        return;
      }
      err := InvokeThenReload(SetDescription(ids.desc, value));
    }

    /** The tags `onEnter`: the buffer's tokens are planned, stopping at the first invalid
        name; then the two store calls and the reload. */
    method CommitTags(value: string, env: Env) returns (err: Option<string>)
      requires Valid()
      modifies this
      ensures (State(), err) == TagsCommit(value, old(State()), env)
    {
      var plan := CollectTags(Fields(value), env.validateTagName);
      if plan.Err? {
        return Some(plan.error);
      }
      err := ApplyTags(plan.value);
    }

    /** `AddTags` if there is anything to add, `RemoveTags` if there is anything to remove,
        stopping at a failure; then the reload. */
    method ApplyTags(plan: TagPlan) returns (err: Option<string>)
      requires Valid()
      modifies this
      ensures (State(), err) == ApplyTagPlan(plan, old(State()))
    {
      ghost var st := State();
      ghost var calls := TagCalls(ids.tags, plan);
      ghost var rest := calls;
      if plan.adds != [] {
        assert calls[0] == AddTags(ids.tags, plan.adds);
        err := Invoke(AddTags(ids.tags, plan.adds));
        if err.Some? {
          assert RunCalls(st, calls) == (State(), err);
          return;
        }
        rest := calls[1..];
      }
      assert RunCalls(st, calls) == RunCalls(State(), rest);
      ghost var mid := State();
      if plan.removes != [] {
        assert rest == [RemoveTags(ids.tags, plan.removes)];
        err := Invoke(RemoveTags(ids.tags, plan.removes));
        if err.Some? {
          assert RunCalls(mid, rest) == (State(), err);
          return;
        }
        assert rest[1..] == [];
        assert RunCalls(mid, rest) == RunCalls(State(), []);
      } else {
        assert rest == [];
      }
      Reload();
      err := None;
    }

    method CommitRecurrence(value: string, env: Env) returns (err: Option<string>)
      requires Valid()
      modifies this
      ensures (State(), err) == RecurrenceCommit(value, old(State()), env)
    {
      err := env.validateRecurrence(value);
      if err.Some? {
        return;
      }
      err := InvokeThenReload(SetRecurrence(ids.recur, value));
    }

    method CommitFilter(value: string) returns (err: Option<string>)
      requires Valid()
      modifies this
      ensures (State(), err) == FilterCommit(value, old(State()))
    {
      filters := Fields(value);
      Reload();
      err := None;
    }

    /** The `onEnter` of session `s`. */
    method Commit(s: TextSession, value: string, env: Env) returns (err: Option<string>)
      requires Valid()
      modifies this
      ensures (State(), err) == Sessions.Commit(s, value, old(State()), env)
    {
      match s
      case AnnotationSession => err := CommitAnnotation(value);
      case DescriptionSession => err := CommitDescription(value, env);
      case TagsSession => err := CommitTags(value, env);
      case RecurrenceSession => err := CommitRecurrence(value, env);
      case ProjectSession => err := Invoke(SetProject(ids.proj, value));
      case FilterSession => err := CommitFilter(value);
    }

    /** The `onExit` of session `s`. */
    method OnExit(s: TextSession)
      requires Valid()
      modifies this
      ensures State() == Exit(s, old(State()))
    {
      modes := Closed(s, modes);
      if s == AnnotationSession {
        replaceAnnotations := false;
      } else if s == ProjectSession {
        Reload();
      }
    }

    /** `handleTextInput`. */
    method HandleTextInput(s: TextSession, k: Key, env: Env) returns (cmd: Cmd)
      requires Valid()
      modifies this
      ensures (State(), cmd) == TextInput(s, k, old(State()), env)
    {
      if k.Enter? {
        var err := Commit(s, Buffer(s, State()), env);
        if err.Some? {
          cmd := ShowError(err.value);
          return;
        }
        OnExit(s);
        cmd := NoCmd;
      } else if k.Esc? {
        OnExit(s);
        cmd := NoCmd;
      } else {
        inputs := WithBuffer(s, inputs, env.inputUpdate(Buffer(s, State()), k));
        cmd := InputCmd;
      }
    }

    method HandleAnnotationMode(k: Key, env: Env) returns (cmd: Cmd)
      requires Valid()
      modifies this
      ensures (State(), cmd) == AnnotationMode(k, old(State()), env)
    {
      cmd := HandleTextInput(AnnotationSession, k, env);
      if k.Enter? && inputs.annotate != "" {
        cmd := Blink(ids.annotate);
      }
    }

    method HandleDescriptionMode(k: Key, env: Env) returns (cmd: Cmd)
      requires Valid()
      modifies this
      ensures (State(), cmd) == DescriptionMode(k, old(State()), env)
    {
      cmd := HandleTextInput(DescriptionSession, k, env);
      if k.Enter? {
        cmd := Blink(ids.desc);
      }
    }

    method HandleTagsMode(k: Key, env: Env) returns (cmd: Cmd)
      requires Valid()
      modifies this
      ensures (State(), cmd) == TagsMode(k, old(State()), env)
    {
      cmd := HandleTextInput(TagsSession, k, env);
      if k.Enter? {
        cmd := if showTaskDetail then DetailBlink(4) else Blink(ids.tags);
      }
    }

    method HandleRecurrenceMode(k: Key, env: Env) returns (cmd: Cmd)
      requires Valid()
      modifies this
      ensures (State(), cmd) == RecurrenceMode(k, old(State()), env)
    {
      cmd := HandleTextInput(RecurrenceSession, k, env);
      if k.Enter? {
        if showTaskDetail && currentTaskDetail.Some? && currentTaskDetail.value.recur != "" {
          cmd := DetailBlink(8);
        } else {
          cmd := Blink(ids.recur);
        }
      }
    }

    method HandleProjectMode(k: Key, env: Env) returns (cmd: Cmd)
      requires Valid()
      modifies this
      ensures (State(), cmd) == ProjectMode(k, old(State()), env)
    {
      cmd := HandleTextInput(ProjectSession, k, env);
      if k.Enter? {
        cmd := if showTaskDetail then DetailBlink(FieldProject) else Blink(ids.proj);
      }
    }

    method HandleFilterMode(k: Key, env: Env) returns (cmd: Cmd)
      requires Valid()
      modifies this
      ensures (State(), cmd) == FilterMode(k, old(State()), env)
    {
      cmd := HandleTextInput(FilterSession, k, env);
    }
  
    // ----- The other edit modes -----

    /** `handleDueEditMode`. */
    method HandleDueEditMode(k: Key) returns (cmd: Cmd)
      requires Valid()
      modifies this
      ensures (State(), cmd) == DueEditMode(k, old(State()))
    {
      if k.Enter? {
        var err := Invoke(SetDueDate(ids.due, dueDate));
        if err.Some? {
          cmd := ShowError(err.value);
          return;
        }
        modes := modes - {DueEditing};
        Reload();
        cmd := if showTaskDetail then DetailBlink(5) else Blink(ids.due);
      } else if k.Esc? {
        modes := modes - {DueEditing};
        cmd := NoCmd;
      } else {
        var key := Name(k);
        if key == "h" || key == "left" {
          dueDate := dueDate - 1;
        } else if key == "l" || key == "right" {
          dueDate := dueDate + 1;
        } else if key == "k" || key == "up" {
          dueDate := dueDate - 7;
        } else if key == "j" || key == "down" {
          dueDate := dueDate + 7;
        }
        cmd := NoCmd;
      }
    }

    /** `handlePriorityMode`. */
    method HandlePriorityMode(k: Key, env: Env) returns (cmd: Cmd)
      requires Valid()
      modifies this
      ensures (State(), cmd) == PriorityMode(k, old(State()), env)
    {
      if k.Enter? {
        var priority := PriorityOptions[priorityIndex];
        var err := env.validatePriority(priority);
        if err.Some? {
          cmd := ShowError(err.value);
          return;
        }
        err := Invoke(SetPriority(ids.priority, priority));
        if err.Some? {
          cmd := ShowError(err.value);
          return;
        }
        modes := modes - {PrioritySelecting};
        Reload();
        cmd := if showTaskDetail then DetailBlink(3) else Blink(ids.priority);
      } else if k.Esc? {
        modes := modes - {PrioritySelecting};
        cmd := NoCmd;
      } else {
        var key := Name(k);
        if key == "h" || key == "left" {
          priorityIndex := (priorityIndex + |PriorityOptions| - 1) % |PriorityOptions|;
        } else if key == "l" || key == "right" {
          priorityIndex := (priorityIndex + 1) % |PriorityOptions|;
        }
        cmd := NoCmd;
      }
    }

    /** `handleAddTaskMode`. */
    method HandleAddTaskMode(k: Key, env: Env) returns (cmd: Cmd)
      requires Valid()
      modifies this
      ensures (State(), cmd) == AddTaskMode(k, old(State()), env)
    {
      if k.Enter? {
        var before := table.tasks;
        var oldIds: set<int> := {};
        for i := 0 to |before|
          invariant forall x :: x in oldIds <==> x in before[..i]
        {
          assert before[..i + 1] == before[..i] + [before[i]];
          oldIds := oldIds + {before[i]};
        }
        assert before[..|before|] == before;
        var err := Invoke(AddLine(inputs.add));
        if err.Some? {
          cmd := ShowError(err.value);
          return;
        }
        modes := modes - {AddingTask};
        Reload();
        cmd := FocusFirstNew(before, oldIds);
      } else if k.Esc? {
        modes := modes - {AddingTask};
        cmd := NoCmd;
      } else {
        inputs := inputs.(add := env.inputUpdate(inputs.add, k));
        cmd := InputCmd;
      }
    }

    /** The scan for the first task whose ID was not in the list before the add: the cursor
        goes to its description column and the task blinks. */
    method FocusFirstNew(before: seq<int>, oldIds: set<int>) returns (cmd: Cmd)
      requires Valid()
      requires forall x :: x in oldIds ==> x in before
      requires forall x :: x in before ==> x in oldIds
      modifies this
      ensures (State(), cmd) == FocusNewTask(before, old(State()))
    {
      var tasks := table.tasks;
      assert forall x :: x in oldIds ==> x in before;
      var row := -1;
      var newId := 0;
      var i := 0;
      while i < |tasks|
        invariant 0 <= i <= |tasks| && row == -1
        invariant forall j :: 0 <= j < i ==> tasks[j] in before
      {
        if tasks[i] !in oldIds {
          newId, row := tasks[i], i;
          break;
        }
        i := i + 1;
      }
      if row >= 0 {
        FirstNewAt(before, tasks, row);
        table := table.(cursorRow := row, cursorCol := DescriptionColumn);
        cmd := Blink(newId);
      } else {
        cmd := NoCmd;
      }
    }

    /** The compiled-pattern update of a confirmed search: `regex` and the status message. */
    method CompilePattern(pattern: string, env: Env) returns (regex: Option<string>)
      modifies this
      ensures (regex, statusMsg) == ConfirmPattern(pattern, old(statusMsg), env)
      ensures State() == old(State()).(statusMsg := statusMsg)
    {
      if pattern != "" {
        var invalid := env.regexError(pattern);
        if invalid.None? {
          regex := Some(pattern);
        } else {
          regex := None;
          statusMsg := "Invalid regex: " + invalid.value;
        }
      } else {
        regex := None;
      }
    }

    /** `handleSearchMode`. */
    method HandleSearchMode(k: Key, env: Env) returns (cmd: Cmd)
      requires Valid()
      modifies this
      ensures (State(), cmd) == SearchMode(k, old(State()), env)
    {
      if k.Enter? {
        var regex := CompilePattern(inputs.search, env);
        search := search.(listRegex := regex);
        modes := modes - {Searching};
        Reload();
        JumpToCurrentMatch();
        cmd := NoCmd;
      } else if k.Esc? {
        modes := modes - {Searching};
        cmd := NoCmd;
      } else {
        inputs := inputs.(search := env.inputUpdate(inputs.search, k));
        cmd := InputCmd;
      }
    }

    /** The cursor moves to the current list-search match, if there is one. */
    method JumpToCurrentMatch()
      requires Valid()
      modifies this
      ensures State() == JumpToMatch(old(State()))
    {
      if |table.searchMatches| > 0 {
        var current := table.searchMatches[table.searchIndex];
        table := table.(cursorRow := current.row, cursorCol := current.col);
      }
    }

    /** `handleHelpSearchMode`. */
    method HandleHelpSearchMode(k: Key, env: Env) returns (cmd: Cmd)
      requires Valid()
      modifies this
      ensures (State(), cmd) == HelpSearchMode(k, old(State()), env)
    {
      if k.Enter? {
        var regex := CompilePattern(inputs.helpSearch, env);
        modes := modes - {HelpSearching};
        var found: seq<int> := [];
        var index := search.helpIndex;
        if regex.Some? {
          found := FindHelpMatches(env.helpLines, regex.value, env.regexMatches);
          if |found| > 0 {
            index := 0;
          }
        }
        search := search.(helpRegex := regex, helpMatches := found, helpIndex := index);
        cmd := NoCmd;
      } else if k.Esc? {
        modes := modes - {HelpSearching};
        cmd := NoCmd;
      } else {
        inputs := inputs.(helpSearch := env.inputUpdate(inputs.helpSearch, k));
        cmd := InputCmd;
      }
    }

    /** `handleEditingModes`. */
    method HandleEditingModes(k: Key, env: Env) returns (handled: bool, cmd: Cmd)
      requires Valid()
      modifies this
      ensures (handled, State(), cmd) == EditingModes(k, old(State()), env)
    {
      var route := Route(State());
      if route.None? {
        return false, NoCmd;
      }
      handled := true;
      cmd := Dispatch(route.value, k, env);
    }

    /** The `case` of `handleEditingModes` for mode `m`: its handler. */
    method Dispatch(m: Mode, k: Key, env: Env) returns (cmd: Cmd)
      requires Valid()
      modifies this
      ensures (State(), cmd) == ModeStep(m, k, old(State()), env)
    {
      match m
      case Annotating => cmd := HandleAnnotationMode(k, env);
      case DescEditing => cmd := HandleDescriptionMode(k, env);
      case TagsEditing => cmd := HandleTagsMode(k, env);
      case DueEditing => cmd := HandleDueEditMode(k);
      case RecurEditing => cmd := HandleRecurrenceMode(k, env);
      case ProjEditing => cmd := HandleProjectMode(k, env);
      case PrioritySelecting => cmd := HandlePriorityMode(k, env);
      case FilterEditing => cmd := HandleFilterMode(k, env);
      case AddingTask => cmd := HandleAddTaskMode(k, env);
      case Searching => cmd := HandleSearchMode(k, env);
      case HelpSearching => cmd := HandleHelpSearchMode(k, env);
    }

    // ----- The detail view -----

    /** `getTaskAtCursor`: the task on the cursor's row, if the row holds one. */
    function TaskAtCursor(): (r: Option<int>)
      reads this
      ensures r.Some? <==> 0 <= table.cursorRow < |table.tasks|
      ensures r.Some? ==> r.value == table.tasks[table.cursorRow]
    {
      CursorTask(State())
    }

    /** `handleTaskDetailMode`. */
    method HandleTaskDetailMode(k: Key, env: Env) returns (cmd: Cmd)
      requires Valid()
      modifies this
      ensures (State(), cmd) == TaskDetailMode(k, old(State()), env)
    {
      if detailSearching {
        cmd := HandleDetailSearchKey(k, env);
        return;
      }
      var key := Name(k);
      cmd := NoCmd;
      if key == "q" || key == "esc" {
        cmd := QuitOrEscape;
      } else if key == "/" || key == "?" {
        detailSearching := true;
        inputs := inputs.(detailSearch := "");
      } else if key == "n" || key == "N" {
      } else if key == "up" || key == "k" {
        if detailFieldIndex > 0 {
          detailFieldIndex := detailFieldIndex - 1;
        }
      } else if key == "down" || key == "j" {
        var maxFields := env.detailFieldCount(currentTaskDetail);
        if detailFieldIndex < maxFields - 1 {
          detailFieldIndex := detailFieldIndex + 1;
        }
      } else if key == "g" || key == "home" {
        detailFieldIndex := 0;
      } else if key == "G" || key == "end" {
        detailFieldIndex := env.detailFieldCount(currentTaskDetail) - 1;
      } else if key == "i" || key == "enter" {
        cmd := HandleDetailFieldEdit(env);
      }
    }

    /** The detail view's search field. */
    method HandleDetailSearchKey(k: Key, env: Env) returns (cmd: Cmd)
      requires Valid()
      modifies this
      ensures (State(), cmd) == DetailSearchKey(k, old(State()), env)
    {
      if k.Enter? {
        var regex := CompilePattern(inputs.detailSearch, env);
        search := search.(detailRegex := regex);
        detailSearching := false;
      } else if k.Esc? || k.CtrlC? {
        detailSearching := false;
      } else {
        inputs := inputs.(detailSearch := env.inputUpdate(inputs.detailSearch, k));
        cmd := InputCmd;
        return;
      }
      cmd := NoCmd;
    }

    /** `handleDetailFieldEdit`. */
    method HandleDetailFieldEdit(env: Env) returns (cmd: Cmd)
      requires Valid()
      modifies this
      ensures (State(), cmd) == DetailFieldEdit(old(State()), env)
    {
      if currentTaskDetail.None? {
        return NoCmd;
      }
      var d := currentTaskDetail.value;
      var action := LocateEditAction(detailFieldIndex, d.recur != "");
      cmd := OpenEditor(action, d, env);
    }

    /** The edit session `action` on the detail task `d`, every other edit mode off. */
    method OpenEditor(action: EditAction, d: TaskDetail, env: Env) returns (cmd: Cmd)
      requires Valid()
      modifies this
      ensures (State(), cmd) == Modes.OpenEditor(action, d, old(State()), env)
    {
      cmd := NoCmd;
      match action
      case NoEdit =>
      case SelectPriority =>
        OpenPrioritySelector(d, env);
      case EditTags =>
        ClearEditingModes();
        ids := ids.(tags := d.id);
        modes := {TagsEditing};
        inputs := inputs.(tags := "");
      case StepDue =>
        OpenDueEditor(d, env);
      case EditProject =>
        ClearEditingModes();
        ids := ids.(proj := d.id);
        modes := {ProjEditing};
        inputs := inputs.(proj := if d.project != "" then d.project else "");
      case EditRecurrence =>
        ClearEditingModes();
        ids := ids.(recur := d.id);
        modes := {RecurEditing};
        inputs := inputs.(recur := d.recur);
      case ExternalDescription =>
        detailDescEditing := true;
        cmd := EditDescription(d.description);
    }

    /** The priority selector on `d`, its cursor on `d`'s priority. */
    method OpenPrioritySelector(d: TaskDetail, env: Env)
      requires Valid()
      modifies this
      ensures State() == Modes.OpenEditor(SelectPriority, d, old(State()), env).0
    {
      ClearEditingModes();
      ids := ids.(priority := d.id);
      modes := {PrioritySelecting};
      priorityIndex := match d.priority case "H" => 0 case "M" => 1 case "L" => 2 case _ => 3;
    }

    /** The due-date editor on `d`, its date parsed from `d`'s due date or today. */
    method OpenDueEditor(d: TaskDetail, env: Env)
      requires Valid()
      modifies this
      ensures State() == Modes.OpenEditor(StepDue, d, old(State()), env).0
    {
      ids := ids.(due := d.id);
      if d.due != "" {
        var parsed := env.parseTaskDate(d.due);
        dueDate := if parsed.Some? then parsed.value else env.today;
      } else {
        dueDate := env.today;
      }
      ClearEditingModes();
      modes := {DueEditing};
    }
  }
}
