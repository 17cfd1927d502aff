/**
 * What the handlers promise, stated over the step functions of `Sessions` and `Modes`:
 * the edit-session contract, the per-attribute rules, the dispatcher, and the detail view.
 */
module Properties {
  import opened Wrappers
  import opened Text
  import opened TaskStore
  import opened Keys
  import opened Tags
  import opened Selectors
  import opened DetailView
  import opened EditorState
  import opened Sessions
  import opened Modes

  // ----- The generic edit session -----

  /** A session's exit turns off its own flag and no other. */
  lemma ExitClosesOnlyItsSession(s: TextSession, st: ModelState)
    requires Wf(st)
    ensures Exit(s, st).modes == Closed(s, st.modes)
    ensures Buffer(s, Exit(s, st)) == Buffer(s, st)
  {
  }

  /** A commit that fails leaves the session open with its text, and shows the error. */
  lemma FailedCommitKeepsSession(s: TextSession, st: ModelState, env: Env)
    requires Wf(st) && IsOpen(s, st)
    requires Commit(s, Buffer(s, st), st, env).1.Some?
    ensures var r := TextInput(s, Enter, st, env);
            && IsOpen(s, r.0)
            && r.0.modes == st.modes
            && Buffer(s, r.0) == Buffer(s, st)
            && r.0.statusMsg == "Error: " + Commit(s, Buffer(s, st), st, env).1.value
            && r.1 == ClearStatusLater
  {
  }

  /** A commit that succeeds closes the session and leaves every other mode as it was. */
  lemma SuccessfulCommitCloses(s: TextSession, st: ModelState, env: Env)
    requires Wf(st) && IsOpen(s, st)
    requires Commit(s, Buffer(s, st), st, env).1.None?
    ensures var r := TextInput(s, Enter, st, env);
            && !IsOpen(s, r.0)
            && r.0.modes == Closed(s, st.modes)
            && r.0.statusMsg == st.statusMsg
            && r.1 == NoCmd
  {
    var c := Commit(s, Buffer(s, st), st, env);
    assert TextInput(s, Enter, st, env) == (Exit(s, c.0), NoCmd);
  }

  /** A commit that sends the single call `c`: the answer is the store's reply, and the log
      grows by `c`, followed by a reload exactly when the call succeeded. */
  predicate SendsThenReloads(st: ModelState, r: (ModelState, Option<string>), c: Call) {
    && r.1 == st.store.Reply()
    && r.0.store.log == st.store.log + [c] + (if r.1.None? then [Export] else [])
  }

  /** Outside replace mode a non-blank annotation is sent with `Annotate`. */
  lemma AnnotationCommitSends(value: string, st: ModelState, env: Env)
    requires Wf(st) && !st.replaceAnnotations && !IsBlank(value)
    ensures SendsThenReloads(st, Commit(AnnotationSession, value, st, env), Annotate(st.ids.annotate, value))
  {
  }

  /** A description the validator accepts is sent with `SetDescription`. */
  lemma DescriptionCommitSends(value: string, st: ModelState, env: Env)
    requires Wf(st) && env.validateDescription(value).None?
    ensures SendsThenReloads(st, Commit(DescriptionSession, value, st, env), SetDescription(st.ids.desc, value))
  {
  }

  /** A recurrence the validator accepts is sent with `SetRecurrence`. */
  lemma RecurrenceCommitSends(value: string, st: ModelState, env: Env)
    requires Wf(st) && env.validateRecurrence(value).None?
    ensures SendsThenReloads(st, Commit(RecurrenceSession, value, st, env), SetRecurrence(st.ids.recur, value))
  {
  }

  /** Esc closes the session without committing: the store is not called, except for the
      reload the project session does on exit. */
  lemma EscClosesWithoutCommit(s: TextSession, st: ModelState, env: Env)
    requires Wf(st) && IsOpen(s, st)
    ensures var r := TextInput(s, Esc, st, env);
            && !IsOpen(s, r.0)
            && r.0.store.log == st.store.log + (if s == ProjectSession then [Export] else [])
            && r.0.store.replies == st.store.replies
            && r.1 == NoCmd
  {
    ExitClosesOnlyItsSession(s, st);
  }

  /** Any other key only edits the session's text. */
  lemma OtherKeysEditText(s: TextSession, k: Key, st: ModelState, env: Env)
    requires Wf(st) && !k.Enter? && !k.Esc?
    ensures var r := TextInput(s, k, st, env);
            && r.0 == st.(inputs := WithBuffer(s, st.inputs, env.inputUpdate(Buffer(s, st), k)))
            && r.0.modes == st.modes
            && r.0.store == st.store
            && Buffer(s, r.0) == env.inputUpdate(Buffer(s, st), k)
            && (forall o :: o != s ==> Buffer(o, r.0) == Buffer(o, st))
            && r.1 == InputCmd
  {
  }

  // ----- Annotations -----

  /** Outside replace mode a blank annotation is refused before the store is called. */
  lemma BlankAnnotationRefused(st: ModelState, env: Env)
    requires Wf(st) && Annotating in st.modes && !st.replaceAnnotations && IsBlank(st.inputs.annotate)
    ensures var r := AnnotationMode(Enter, st, env);
            && r.0.store == st.store
            && Annotating in r.0.modes
            && r.0.statusMsg == "Error: annotation cannot be empty"
            && r.1 == if st.inputs.annotate == "" then ClearStatusLater else Blink(st.ids.annotate)
  {
    var refused := (st, Some("annotation cannot be empty"));
    assert AnnotationCommit(st.inputs.annotate, st) == refused;
    assert Commit(AnnotationSession, Buffer(AnnotationSession, st), st, env) == refused;
    assert "Error: " + "annotation cannot be empty" == "Error: annotation cannot be empty";
    assert TextInput(AnnotationSession, Enter, st, env) ==
           (st.(statusMsg := "Error: annotation cannot be empty"), ClearStatusLater);
  }

  /** In replace mode the text, even blank, replaces the annotations; a success reloads,
      clears the replace sub-mode and closes the session, a failure keeps both. */
  lemma ReplaceModeCommit(st: ModelState, env: Env)
    requires Wf(st) && Annotating in st.modes && st.replaceAnnotations
    ensures var r := AnnotationMode(Enter, st, env);
            var sent := ReplaceAnnotations(st.ids.annotate, st.inputs.annotate);
            && (st.store.Reply().Some? ==>
                  r.0.store.log == st.store.log + [sent] && Annotating in r.0.modes && r.0.replaceAnnotations)
            && (st.store.Reply().None? ==>
                  r.0.store.log == st.store.log + [sent, Export] && Annotating !in r.0.modes && !r.0.replaceAnnotations)
  {
  }

  /** Leaving the annotation session always leaves replace mode too. */
  lemma AnnotationExitClearsReplace(k: Key, st: ModelState, env: Env)
    requires Wf(st) && Annotating in st.modes
    ensures var r := AnnotationMode(k, st, env);
            Annotating !in r.0.modes ==> !r.0.replaceAnnotations
  {
  }

  // ----- Tags -----

  /** A tag edit with an invalid name calls nothing, and that happens exactly when some
      word of the text is classified invalid. */
  lemma InvalidTagCallsNothing(value: string, i: nat, st: ModelState, env: Env)
    requires Wf(st)
    requires i < |Fields(value)| && Classify(Fields(value)[i], env.validateTagName).Invalid?
    ensures PlanTags(Fields(value), env.validateTagName).Err?
    ensures TagsCommit(value, st, env).0 == st
    ensures TagsCommit(value, st, env).1 == Some(PlanTags(Fields(value), env.validateTagName).error)
  {
    PlanTagsFailsIffInvalid(Fields(value), env.validateTagName);
  }

  /** When every store call succeeds, a validated tag edit adds, then removes, then reloads. */
  lemma TagCallOrder(value: string, plan: TagPlan, st: ModelState, env: Env)
    requires Wf(st) && st.store.replies == []
    requires PlanTags(Fields(value), env.validateTagName) == Ok(plan)
    ensures TagsCommit(value, st, env).1.None?
    ensures TagsCommit(value, st, env).0.store.log == st.store.log + TagCalls(st.ids.tags, plan) + [Export]
  {
  }

  /** A failing `AddTags` stops the edit before `RemoveTags` and before the reload. */
  lemma FailedAddStopsTags(value: string, plan: TagPlan, st: ModelState, env: Env)
    requires Wf(st) && st.store.Reply().Some?
    requires PlanTags(Fields(value), env.validateTagName) == Ok(plan) && plan.adds != []
    ensures TagsCommit(value, st, env).1 == st.store.Reply()
    ensures TagsCommit(value, st, env).0.store.log == st.store.log + [AddTags(st.ids.tags, plan.adds)]
  {
  }

  /** When `AddTags` succeeds and `RemoveTags` then fails, the edit stops there: both calls
      were sent, no reload follows, and the error is the store's second reply. */
  lemma FailedRemoveSkipsReload(value: string, plan: TagPlan, st: ModelState, env: Env)
    requires Wf(st) && |st.store.replies| >= 2
    requires st.store.replies[0].None? && st.store.replies[1].Some?
    requires PlanTags(Fields(value), env.validateTagName) == Ok(plan) && plan.adds != [] && plan.removes != []
    ensures TagsCommit(value, st, env).1 == st.store.replies[1]
    ensures TagsCommit(value, st, env).0.store.log
            == st.store.log + [AddTags(st.ids.tags, plan.adds), RemoveTags(st.ids.tags, plan.removes)]
  {
    var calls := TagCalls(st.ids.tags, plan);
    assert calls == [AddTags(st.ids.tags, plan.adds), RemoveTags(st.ids.tags, plan.removes)];
    var first := Attempt(st, calls[0]);
    assert first.1.None? && first.0.store.replies == st.store.replies[1..];
    var second := Attempt(first.0, calls[1]);
    assert second.1 == st.store.replies[1];
    assert calls[1..][0] == calls[1];
    assert RunCalls(first.0, calls[1..]) == second;
    assert RunCalls(st, calls) == second;
  }

  // ----- Project and filter -----

  /** The project session reloads on exit, not on commit: a successful Enter sends the
      project and then reloads once; a failed one sends it and does not reload. */
  lemma ProjectReloadOnExit(st: ModelState, env: Env)
    requires Wf(st) && ProjEditing in st.modes
    ensures var r := ProjectMode(Enter, st, env);
            var sent := SetProject(st.ids.proj, st.inputs.proj);
            && (st.store.Reply().None? ==> r.0.store.log == st.store.log + [sent, Export] && ProjEditing !in r.0.modes)
            && (st.store.Reply().Some? ==> r.0.store.log == st.store.log + [sent] && ProjEditing in r.0.modes)
  {
  }

  /** Confirming a filter never fails; the filters are the text's words, so a blank text
      clears them, and no non-space character is lost. */
  lemma FilterConfirm(st: ModelState, env: Env)
    requires Wf(st) && FilterEditing in st.modes
    ensures var r := FilterMode(Enter, st, env);
            && FilterEditing !in r.0.modes
            && r.0.filters == Fields(st.inputs.filter)
            && Concat(r.0.filters) == NonSpace(st.inputs.filter)
            && (r.0.filters == [] <==> IsBlank(st.inputs.filter))
            && r.0.store.log == st.store.log + [Export]
  {
    FieldsKeepNonSpace(st.inputs.filter);
    BlankIffNoFields(st.inputs.filter);
  }

  // ----- Description and recurrence -----

  /** A description the validator refuses calls nothing: the editor stays open with the
      error in the status line, and the row still blinks. */
  lemma InvalidDescriptionCallsNothing(st: ModelState, env: Env)
    requires Wf(st) && DescEditing in st.modes
    requires env.validateDescription(Buffer(DescriptionSession, st)).Some?
    ensures var r := DescriptionMode(Enter, st, env);
            && r.0 == st.(statusMsg := "Error: " + env.validateDescription(Buffer(DescriptionSession, st)).value)
            && r.0.store == st.store && DescEditing in r.0.modes
            && r.1 == Blink(st.ids.desc)
  {
  }

  /** A recurrence the validator refuses calls nothing: the editor stays open with the
      error in the status line. */
  lemma InvalidRecurrenceCallsNothing(st: ModelState, env: Env)
    requires Wf(st) && RecurEditing in st.modes
    requires env.validateRecurrence(Buffer(RecurrenceSession, st)).Some?
    ensures var r := RecurrenceMode(Enter, st, env);
            && r.0 == st.(statusMsg := "Error: " + env.validateRecurrence(Buffer(RecurrenceSession, st)).value)
            && r.0.store == st.store && RecurEditing in r.0.modes
  {
  }

  // ----- Due date -----

  /** Esc leaves the due-date stepper without calling the store. */
  lemma DueEscCallsNothing(st: ModelState)
    requires Wf(st) && DueEditing in st.modes
    ensures DueEditMode(Esc, st).0.store == st.store
    ensures DueEditing !in DueEditMode(Esc, st).0.modes
  {
  }

  /** Enter writes the stepped date; a failure keeps the stepper open with its date, a
      success reloads, closes it and blinks the due field (detail view) or the row. */
  lemma DueConfirm(st: ModelState)
    requires Wf(st) && DueEditing in st.modes
    ensures var r := DueEditMode(Enter, st);
            && r.0.store.log[..|st.store.log|+1] == st.store.log + [SetDueDate(st.ids.due, st.dueDate)]
            && (st.store.Reply().Some? ==>
                  r.0.store.log == st.store.log + [SetDueDate(st.ids.due, st.dueDate)]
                  && DueEditing in r.0.modes && r.0.dueDate == st.dueDate
                  && r.0.statusMsg == "Error: " + st.store.Reply().value && r.1 == ClearStatusLater)
            && (st.store.Reply().None? ==>
                  DueEditing !in r.0.modes
                  && r.0.store.log == st.store.log + [SetDueDate(st.ids.due, st.dueDate), Export]
                  && r.1 == if st.showTaskDetail then DetailBlink(5) else Blink(st.ids.due))
  {
  }

  /** The stepper keys move the date by a day or a week and touch nothing else. */
  lemma DueKeysStep(name: string, st: ModelState)
    requires Wf(st) && DueEditing in st.modes
    ensures var r := DueEditMode(Press(name), st);
            && r.0 == st.(dueDate := StepDate(st.dueDate, name))
            && (name in ["l", "right"] ==> r.0.dueDate == st.dueDate + 1)
            && (name in ["h", "left"] ==> r.0.dueDate == st.dueDate - 1)
            && (name in ["j", "down"] ==> r.0.dueDate == st.dueDate + 7)
            && (name in ["k", "up"] ==> r.0.dueDate == st.dueDate - 7)
            && (name !in ["h", "left", "l", "right", "k", "up", "j", "down"] ==> r.0 == st)
  {
  }

  // ----- Priority -----

  /** Seeding the selector with an option and reading the option back is the identity. */
  lemma PrioritySeedRoundTrip(i: int)
    requires InRange(i)
    ensures SeedPriority(PriorityOptions[i]) == i
  {
  }

  /** Left and right keys keep the selection in range and undo each other. */
  lemma PriorityKeysCycle(i: int)
    requires InRange(i)
    ensures InRange(CyclePriority(i, "left")) && InRange(CyclePriority(i, "right"))
    ensures CyclePriority(CyclePriority(i, "left"), "right") == i
    ensures CyclePriority(CyclePriority(i, "h"), "l") == i
  {
    PriorityLeftRightInverse(PriorityLeft(i));
  }

  /** A priority the validator refuses is not sent; the selector stays open. */
  lemma InvalidPriorityCallsNothing(st: ModelState, env: Env)
    requires Wf(st) && PrioritySelecting in st.modes
    requires env.validatePriority(PriorityOptions[st.priorityIndex]).Some?
    ensures var r := PriorityMode(Enter, st, env);
            r.0.store == st.store && PrioritySelecting in r.0.modes && r.1 == ClearStatusLater
  {
  }

  /** Enter on a priority the validator accepts sends it. A store failure keeps the
      selector open on the same option with the error shown and does not reload; a success
      reloads, closes the selector and blinks the priority field or the row. */
  lemma PriorityConfirm(st: ModelState, env: Env)
    requires Wf(st) && PrioritySelecting in st.modes
    requires env.validatePriority(PriorityOptions[st.priorityIndex]).None?
    ensures var r := PriorityMode(Enter, st, env);
            var sent := SetPriority(st.ids.priority, PriorityOptions[st.priorityIndex]);
            && (st.store.Reply().Some? ==>
                  r.0.store.log == st.store.log + [sent]
                  && r.0.modes == st.modes && r.0.priorityIndex == st.priorityIndex
                  && r.0.statusMsg == "Error: " + st.store.Reply().value && r.1 == ClearStatusLater)
            && (st.store.Reply().None? ==>
                  r.0.store.log == st.store.log + [sent, Export]
                  && r.0.modes == st.modes - {PrioritySelecting}
                  && r.1 == if st.showTaskDetail then DetailBlink(3) else Blink(st.ids.priority))
  {
  }

  /** Opening the selector on a task of priority "M" from the detail view, pressing right
      and confirming sends priority "L" and closes the selector. */
  lemma MediumThenRightSendsLow(d: TaskDetail, st: ModelState, env: Env)
    requires Wf(st) && st.currentTaskDetail == Some(d) && d.priority == "M"
    requires st.detailFieldIndex == 3 && !st.detailSearching && st.store.replies == []
    requires env.validatePriority("L").None?
    ensures var editing := TaskDetailMode(Enter, st, env).0;
            var moved := EditingModes(Press("right"), editing, env).1;
            var confirmed := EditingModes(Enter, moved, env).1;
            && editing.modes == {PrioritySelecting}
            && moved.priorityIndex == 2
            && confirmed.store.log == st.store.log + [SetPriority(d.id, "L"), Export]
            && confirmed.modes == {}
  {
    FixedPositions(d.recur != "");
    assert TaskDetailMode(Enter, st, env) == OpenEditor(SelectPriority, d, st, env);
    var editing := TaskDetailMode(Enter, st, env).0;
    assert editing.modes == {PrioritySelecting} && editing.priorityIndex == 1;
    RightThenConfirm(editing, env);
  }

  /** With only the selector open on "M", right moves it to "L" and Enter sends "L". */
  lemma RightThenConfirm(editing: ModelState, env: Env)
    requires Wf(editing) && editing.modes == {PrioritySelecting} && editing.priorityIndex == 1
    requires editing.store.replies == [] && env.validatePriority("L").None?
    ensures var moved := EditingModes(Press("right"), editing, env).1;
            var confirmed := EditingModes(Enter, moved, env).1;
            && moved.priorityIndex == 2
            && confirmed.store.log == editing.store.log + [SetPriority(editing.ids.priority, "L"), Export]
            && confirmed.modes == {}
  {
    var moved := EditingModes(Press("right"), editing, env).1;
    assert Route(editing) == Some(PrioritySelecting);
    assert moved == editing.(priorityIndex := 2);
    assert Route(moved) == Some(PrioritySelecting);
    assert PriorityOptions[moved.priorityIndex] == "L";
    assert EditingModes(Enter, moved, env).1 == SetPriorityThenExit("L", moved).0;
  }

  // ----- Adding a task -----

  /** A successful add closes the mode, reloads, and puts the cursor on the description
      column of the first row whose task was not in the list before, which blinks. */
  lemma AddTaskFocusesNewRow(st: ModelState, env: Env)
    requires Wf(st) && AddingTask in st.modes && st.store.Reply().None?
    ensures var r := AddTaskMode(Enter, st, env);
            && AddingTask !in r.0.modes
            && r.0.store.log == st.store.log + [AddLine(st.inputs.add), Export]
            && match FirstNew(st.table.tasks, r.0.table.tasks)
               case Some(row) =>
                 && r.0.table.cursorRow == row && r.0.table.cursorCol == DescriptionColumn
                 && r.0.table.tasks[row] !in st.table.tasks && r.1 == Blink(r.0.table.tasks[row])
               case None =>
                 && (forall i :: 0 <= i < |r.0.table.tasks| ==> r.0.table.tasks[i] in st.table.tasks)
                 && r.1 == NoCmd
  {
  }

  /** After an add that blinks a row, the task under the cursor is the blinking task, and it
      was not in the list before the add. */
  lemma NewTaskUnderCursor(st: ModelState, env: Env)
    requires Wf(st) && AddingTask in st.modes
    ensures var r := AddTaskMode(Enter, st, env);
            r.1.Blink? ==> CursorTask(r.0) == Some(r.1.id) && r.1.id !in st.table.tasks
  {
    if st.store.Reply().None? {
      AddTaskFocusesNewRow(st, env);
    } else {
      AddTaskFailureKeepsMode(st, env);
    }
  }

  /** A failed add keeps the mode open with its text and calls no reload. */
  lemma AddTaskFailureKeepsMode(st: ModelState, env: Env)
    requires Wf(st) && AddingTask in st.modes && st.store.Reply().Some?
    ensures var r := AddTaskMode(Enter, st, env);
            && AddingTask in r.0.modes && r.0.inputs == st.inputs
            && r.0.store.log == st.store.log + [AddLine(st.inputs.add)]
            && r.0.statusMsg == "Error: " + st.store.Reply().value && r.1 == ClearStatusLater
  {
  }

  // ----- Searching -----

  /** Confirming a list search closes the mode and reloads; an empty pattern clears the
      search, an invalid one clears it and reports the error; with matches, the cursor is on
      the current one. */
  lemma SearchConfirm(st: ModelState, env: Env)
    requires Wf(st) && Searching in st.modes
    ensures var r := SearchMode(Enter, st, env);
            var p := st.inputs.search;
            && Searching !in r.0.modes
            && r.0.store.log == st.store.log + [Export]
            && (p == "" ==> r.0.search.listRegex.None? && r.0.statusMsg == st.statusMsg)
            && (p != "" && env.regexError(p).Some? ==>
                  r.0.search.listRegex.None? && r.0.statusMsg == "Invalid regex: " + env.regexError(p).value)
            && (p != "" && env.regexError(p).None? ==> r.0.search.listRegex == Some(p))
            && (r.0.table.searchMatches != [] ==>
                  Cell(r.0.table.cursorRow, r.0.table.cursorCol) == r.0.table.searchMatches[r.0.table.searchIndex])
  {
  }

  /** Confirming a help search with a valid pattern lists exactly the matching help lines,
      in order, and starts at the first of them. */
  lemma HelpSearchConfirm(st: ModelState, env: Env)
    requires Wf(st) && HelpSearching in st.modes
    requires st.inputs.helpSearch != "" && env.regexError(st.inputs.helpSearch).None?
    ensures var r := HelpSearchMode(Enter, st, env);
            var found := r.0.search.helpMatches;
            && HelpSearching !in r.0.modes
            && r.0.search.helpRegex == Some(st.inputs.helpSearch)
            && (forall n :: 0 <= n < |env.helpLines| ==>
                  (n in found <==> env.regexMatches(st.inputs.helpSearch, env.helpLines[n])))
            && (forall i :: 0 <= i < |found| ==> 0 <= found[i] < |env.helpLines|)
            && (forall i, j :: 0 <= i < j < |found| ==> found[i] < found[j])
            && (found != [] ==> r.0.search.helpIndex == 0)
  {
  }

  /** A help search whose pattern is empty or invalid clears the matches. */
  lemma HelpSearchCleared(st: ModelState, env: Env)
    requires Wf(st) && HelpSearching in st.modes
    requires st.inputs.helpSearch == "" || env.regexError(st.inputs.helpSearch).Some?
    ensures var r := HelpSearchMode(Enter, st, env);
            r.0.search.helpRegex.None? && r.0.search.helpMatches == [] && r.0.search.helpIndex == st.search.helpIndex
  {
  }

  // ----- Dispatcher -----

  /** The dispatcher never opens a mode, so a state with at most one mode keeps at most one. */
  lemma AtMostOneModeKept(k: Key, st: ModelState, env: Env)
    requires Wf(st) && ActiveCount(st) <= 1
    ensures ActiveCount(EditingModes(k, st, env).1) <= 1
  {
    SubsetNoLarger(EditingModes(k, st, env).1.modes, st.modes);
  }

  lemma {:induction false} SubsetNoLarger(a: set<Mode>, b: set<Mode>)
    requires a <= b
    ensures |a| <= |b|
    decreases |b|
  {
    if b != {} {
      var m :| m in b;
      SubsetNoLarger(a - {m}, b - {m});
    }
  }

  // ----- Detail view -----

  /** The field cursor stays on a field; home and end go to the first and last field. */
  lemma DetailCursorInRange(k: Key, st: ModelState, env: Env)
    requires Wf(st) && !st.detailSearching
    requires 0 <= st.detailFieldIndex < env.detailFieldCount(st.currentTaskDetail)
    ensures var r := TaskDetailMode(k, st, env);
            0 <= r.0.detailFieldIndex < env.detailFieldCount(st.currentTaskDetail)
    ensures Name(k) in ["g", "home"] ==> TaskDetailMode(k, st, env).0.detailFieldIndex == 0
    ensures Name(k) in ["G", "end"] ==>
              TaskDetailMode(k, st, env).0.detailFieldIndex == env.detailFieldCount(st.currentTaskDetail) - 1
  {
    NavigationInRange(st.detailFieldIndex, env.detailFieldCount(st.currentTaskDetail));
  }

  /** The edit mode an action opens. */
  function ModeFor(a: EditAction): Option<Mode> {
    match a
    case SelectPriority => Some(PrioritySelecting)
    case EditTags => Some(TagsEditing)
    case StepDue => Some(DueEditing)
    case EditProject => Some(ProjEditing)
    case EditRecurrence => Some(RecurEditing)
    case _ => None
  }

  /** Editing a field from the detail view opens exactly one edit mode, the field's, on the
      detail task, with the selector, date or text seeded from the task. */
  lemma DetailEditOpensOneMode(d: TaskDetail, st: ModelState, env: Env)
    requires Wf(st) && st.currentTaskDetail == Some(d) && !st.detailSearching
    requires ModeFor(TargetAt(st.detailFieldIndex, d.recur != "")).Some?
    ensures var r := TaskDetailMode(Enter, st, env);
            var a := TargetAt(st.detailFieldIndex, d.recur != "");
            && r.0.modes == {ModeFor(a).value}
            && ActiveCount(r.0) == 1
            && r.0.store == st.store
            && r.1 == NoCmd
            && (a == SelectPriority ==> r.0.ids.priority == d.id && PriorityOptions[r.0.priorityIndex] == (if d.priority in PriorityOptions then d.priority else ""))
            && (a == EditTags ==> r.0.ids.tags == d.id && r.0.inputs.tags == "")
            && (a == StepDue ==> r.0.ids.due == d.id && r.0.dueDate == SeedDueDate(d.due, env.parseTaskDate, env.today))
            && (a == EditProject ==> r.0.ids.proj == d.id && r.0.inputs.proj == d.project)
            && (a == EditRecurrence ==> r.0.ids.recur == d.id && r.0.inputs.recur == d.recur)
  {
    var a := TargetAt(st.detailFieldIndex, d.recur != "");
    assert TaskDetailMode(Enter, st, env) == OpenEditor(a, d, st, env);
    match a
    case SelectPriority =>
    case EditTags =>
    case StepDue =>
    case EditProject =>
    case EditRecurrence =>
  }

  /** The description field goes to the external editor and opens no edit mode. */
  lemma DetailDescriptionExternal(d: TaskDetail, st: ModelState, env: Env)
    requires Wf(st) && st.currentTaskDetail == Some(d) && !st.detailSearching
    requires st.detailFieldIndex == (if d.recur != "" then 10 else 9)
    ensures var r := TaskDetailMode(Enter, st, env);
            r.0.modes == st.modes && r.0.detailDescEditing && r.1 == EditDescription(d.description)
  {
    DescriptionSlot(st.detailFieldIndex, d.recur != "");
  }

  /** Fields that are not editable, and an empty detail view, leave everything as it was. */
  lemma DetailReadOnlyFields(st: ModelState, env: Env)
    requires Wf(st) && !st.detailSearching
    requires st.currentTaskDetail.None? ||
             TargetAt(st.detailFieldIndex, st.currentTaskDetail.value.recur != "") == NoEdit
    ensures TaskDetailMode(Enter, st, env) == (st, NoCmd)
  {
  }
}
