# Task Samurai key handlers, modelled in Dafny

Task Samurai is a terminal front end for Taskwarrior. This project models the modal keystroke
state machine in `internal/ui/handlers.go`. The `Model` holds eleven edit-mode flags:
annotating, description, tags, due date, recurrence, project, priority, filter, add-task,
list search and help search. A key press goes to the first active mode in a fixed order.
Each mode either edits a text buffer, or commits it through the `task` package (which runs
Taskwarrior), or leaves the mode. The detail view has its own field cursor. Enter on a
field there opens the matching edit mode.

How the model is built:

- `EditorState.ModelState` is every field the handlers read or write, as one value. It also
  holds the task store.
- `Sessions` and `Modes` hold pure step functions. Each maps a key and a state to the next
  state and the UI command it returns (`Cmd`).
- `Ui.Model` is a class with the same state as fields. Its methods are the handlers, which
  update the fields in place. Every method is proved to produce exactly the step function's
  state and command.
- `Properties` proves what the handlers promise about those step functions.
- The source's loops are methods with invariants, each proved equal to a declarative
  definition:
  - the tag-token loop (`Tags.CollectTags`, against `Tags.PlanTags`);
  - the help-line scan (`Modes.FindHelpMatches`, against `Modes.MatchingLines`);
  - the search for the newly added task (`Ui.Model.FocusFirstNew`, against `Modes.FirstNew`).
- The running-offset walk over the detail fields is a pure function,
  `DetailView.LocateEditAction`, proved equal to the per-position table `DetailView.TargetAt`.
- The `task` package is a `TaskStore.Store`:
  - it logs every call in order;
  - it answers each mutating call from a script of replies, where `Some(message)` is a failure
    and an exhausted script means success;
  - `reload()` yields the next scripted export snapshot.

  So one initial store covers every sequence of successes and failures.
- The functions the handlers call but this model does not define are fields of `Env`:
  - the four validators;
  - regular-expression compile errors and matching;
  - `parseTaskDate`;
  - the text widget's key handling;
  - `getHelpLines` and `getDetailFieldCount`;
  - the time of the event (`time.Now`).
- Dates are day numbers.

Points where the model follows the code rather than its comments or its documentation:

- Search failure. When a pattern does not compile, the code sets the compiled regex to nil
  (`handlers.go:382`, `:431`, `:555`), so a failed search clears the previous one, and the
  model does the same.
- Description position. The comment at `handlers.go:730` gives 10 or 11, but the code reaches
  the description field at position 9, or 10 when the task recurs. The model uses the code's
  9/10 (`DetailView.DescriptionSlot`).
- Recurrence blink. After a recurrence edit in the detail view, the code blinks detail field 8
  (`handlers.go:220`), while the recurrence field is at position 9 (`DetailView.RecurrenceSlot`).
  The model keeps 8.
- Description and tags blink on every Enter, whether or not the commit succeeded. Annotations
  blink on Enter whenever the buffer is non-empty.

## Model

| member | source | states |
|---|---|---|
| Text.Fields | internal/ui/handlers.go:105 | `strings.Fields`: every returned word is non-empty and has no white space |
| Text.FieldsOfJoin | internal/ui/handlers.go:105 | Splitting words joined by single spaces gives back exactly those words, so a word of several characters stays one field |
| Text.FieldsKeepNonSpace | internal/ui/handlers.go:300 | Joining the fields of a text gives back exactly its non-space characters, in order |
| Text.BlankIffNoFields | internal/ui/handlers.go:47 | A text has no fields exactly when `strings.TrimSpace` leaves it empty |
| Tags.Classify | internal/ui/handlers.go:107-126 | A token is a removal exactly when it is "-" followed by a valid name, and then removes that name; an addition exactly when it does not start with "-" and, less one leading "+", is a valid non-empty name, and then adds that name; ignored exactly when it is "-", "+" or ""; otherwise invalid, with the remove or add error message of the source |
| Tags.PlanTags | internal/ui/handlers.go:105-127 | A successful plan holds only valid non-empty names, at most one per token |
| Tags.ClassifyNamed | internal/ui/handlers.go:107-126 | For a valid name n, "-n" removes n, "+n" adds n, and plain "n" adds n when n starts with neither sign |
| Tags.PlanTagsNames | internal/ui/handlers.go:105-127 | An accepted tag edit adds exactly the names of the addition tokens and removes exactly the names of the removal tokens, each in typing order |
| Tags.CollectTags | internal/ui/handlers.go:106-127 | The token loop, including its early return on the first invalid name, computes exactly the declarative plan |
| Tags.PlanTagsAppend | internal/ui/handlers.go:107-127 | Tokens are processed independently and in order: the plan of a concatenation joins the two plans, and the left error wins |
| Tags.PrefixErrorPersists | internal/ui/handlers.go:111-112 | Once a prefix of the tokens fails, the whole edit fails with that error; later tokens are never looked at |
| Tags.PlanTagsFailsIffInvalid | internal/ui/handlers.go:111-122 | The tag edit is rejected exactly when some token names an invalid tag |
| Tags.BareSignIgnored | internal/ui/handlers.go:108-120 | Inserting a bare "-" or "+" token anywhere does not change the plan |
| Tags.UrgentOldExample | internal/ui/handlers.go:105-125 | The text "+urgent -old" adds "urgent" and removes "old" |
| Selectors.PriorityLeft | internal/ui/handlers.go:289-290 | h/left moves one option back and wraps from the first to the last |
| Selectors.PriorityRight | internal/ui/handlers.go:291-292 | l/right moves one option forward and wraps from the last to the first |
| Selectors.PriorityLeftRightInverse | internal/ui/handlers.go:288-293 | Left and right undo each other on every in-range index |
| Selectors.SeedPriority | internal/ui/handlers.go:641-650 | The selector starts on the task's own priority when it is H, M or L, and on the "none" option otherwise |
| Selectors.StepDateRoundTrip | internal/ui/handlers.go:185-194 | A day step or a week step followed by the opposite step returns to the same date |
| Selectors.SeedDueDate | internal/ui/handlers.go:670-679 | The stepper starts on the task's due date when it has one that parses, and on today otherwise |
| DetailView.DetailFields | internal/ui/handlers.go:626-731 | The edit mapping walks 10 field positions, or 11 when the task recurs |
| DetailView.LocateEditAction | internal/ui/handlers.go:626-742 | The running-offset walk over the field positions picks the same action as the declarative field list |
| DetailView.FixedPositions | internal/ui/handlers.go:629-742 | ID, UUID, status, start and entry are read-only; priority, tags, due and project sit at 3, 4, 5 and 7 whether or not the task recurs; the annotation positions after the description open nothing |
| DetailView.RecurrenceSlot | internal/ui/handlers.go:716-728 | The recurrence field is editable exactly when the task recurs, and then it is at position 9 |
| DetailView.DescriptionSlot | internal/ui/handlers.go:730-739 | The description field is at position 9, or 10 when the task recurs, and nowhere else |
| DetailView.FieldUp | internal/ui/handlers.go:589-593 | up/k moves one field back and never goes below the first field |
| DetailView.FieldDown | internal/ui/handlers.go:594-599 | down/j moves one field on and never goes past the last field |
| DetailView.NavigationInRange | internal/ui/handlers.go:589-605 | Up, down, home and end keep the field cursor on a field |
| EditorState.Route | internal/ui/handlers.go:485-522 | The dispatcher picks an active mode with no active mode ahead of it in dispatch order; with none active it picks nothing |
| EditorState.ClearEditingModes | internal/ui/handlers.go:636 | After `clearEditingModes` no edit mode is active, and nothing but the mode flags changes |
| EditorState.Attempt | internal/ui/handlers.go:52-57 | A store call is appended to the log; the answer is the head of the reply script (success once it is exhausted), which shrinks by one; the export script, the current snapshot and the rest of the state are unchanged |
| Sessions.RunCalls | internal/ui/handlers.go:128-137 | The store calls run in order until one fails. The run succeeds exactly when none of the replies the calls consume is a failure, and then the log grows by exactly the calls. On failure it grows by the calls up to and including the first one the store refused, and the error is that call's reply |
| Sessions.TagCalls | internal/ui/handlers.go:128-137 | A tag edit sends `AddTags` with the whole add list exactly when it is non-empty and `RemoveTags` with the whole remove list exactly when it is non-empty, additions first, and nothing else |
| Sessions.Commit | internal/ui/handlers.go:45-63 | A commit (`onEnter`) never changes the mode flags, the text buffers or the status line |
| Modes.CyclePriority | internal/ui/handlers.go:288-293 | h/left moves left, l/right moves right, and any other key leaves the selection where it is. The selection stays in range |
| Modes.FirstNew | internal/ui/handlers.go:332-340 | The row found holds a task that was not there before, and every earlier row holds an old task. When no row is found, every task is old |
| Modes.FirstNewAt | internal/ui/handlers.go:334-340 | The first row whose task is new is the row the search finds |
| Modes.ConfirmPattern | internal/ui/handlers.go:373-388 | An empty pattern clears the search. A pattern that does not compile clears it and reports "Invalid regex: ...". A valid one becomes the search |
| Modes.MatchingLines | internal/ui/handlers.go:441-449 | The help matches are the indices of exactly the matching help lines, in increasing order |
| Modes.FindHelpMatches | internal/ui/handlers.go:442-449 | The help-line scan collects exactly the declarative list of matching lines |
| Modes.EditingModes | internal/ui/handlers.go:485-522 | A key is handled exactly when some mode is active, and then the first active mode handles it. An unhandled key changes nothing. No handler turns a mode on |
| Modes.CursorTask | internal/ui/handlers.go:535-541 | There is a task at the cursor exactly when the cursor row is inside the task list, and then it is the task on that row |
| Ui.Model.Invoke | internal/ui/handlers.go:52 | A store call changes the fields exactly as `Attempt` does |
| Ui.Model.Reload | internal/ui/handlers.go:61 | `reload()` replaces the task list and search matches with the store's next export |
| Ui.Model.ClearEditingModes | internal/ui/handlers.go:636 | Every edit-mode flag is turned off |
| Ui.Model.CommitAnnotation | internal/ui/handlers.go:45-63 | The annotation commit updates the fields as `Sessions.AnnotationCommit` prescribes |
| Ui.Model.CommitDescription | internal/ui/handlers.go:80-89 | The description commit updates the fields as `Sessions.DescriptionCommit` prescribes |
| Ui.Model.CommitTags | internal/ui/handlers.go:104-140 | The tag commit updates the fields as `Sessions.TagsCommit` prescribes |
| Ui.Model.ApplyTags | internal/ui/handlers.go:128-139 | `AddTags` and then `RemoveTags`, stopping at the first failure, then the reload, as `Sessions.ApplyTagPlan` prescribes |
| Ui.Model.CommitRecurrence | internal/ui/handlers.go:200-209 | The recurrence commit updates the fields as `Sessions.RecurrenceCommit` prescribes |
| Ui.Model.CommitFilter | internal/ui/handlers.go:299-303 | The filter commit updates the fields as `Sessions.FilterCommit` prescribes |
| Ui.Model.OnExit | internal/ui/handlers.go:65-68 | A session's exit updates the fields as `Sessions.Exit` prescribes |
| Ui.Model.HandleTextInput | internal/ui/handlers.go:17-41 | `handleTextInput` updates the fields and returns the command as `Sessions.TextInput` prescribes |
| Ui.Model.HandleAnnotationMode | internal/ui/handlers.go:44-76 | `handleAnnotationMode` behaves as `Sessions.AnnotationMode` prescribes |
| Ui.Model.HandleDescriptionMode | internal/ui/handlers.go:79-100 | `handleDescriptionMode` behaves as `Sessions.DescriptionMode` prescribes |
| Ui.Model.HandleTagsMode | internal/ui/handlers.go:103-155 | `handleTagsMode` behaves as `Sessions.TagsMode` prescribes |
| Ui.Model.HandleDueEditMode | internal/ui/handlers.go:158-196 | `handleDueEditMode` behaves as `Modes.DueEditMode` prescribes |
| Ui.Model.HandleRecurrenceMode | internal/ui/handlers.go:199-228 | `handleRecurrenceMode` behaves as `Sessions.RecurrenceMode` prescribes |
| Ui.Model.HandleProjectMode | internal/ui/handlers.go:231-250 | `handleProjectMode` behaves as `Sessions.ProjectMode` prescribes |
| Ui.Model.HandlePriorityMode | internal/ui/handlers.go:253-295 | `handlePriorityMode` behaves as `Modes.PriorityMode` prescribes |
| Ui.Model.HandleFilterMode | internal/ui/handlers.go:298-310 | `handleFilterMode` behaves as `Sessions.FilterMode` prescribes |
| Ui.Model.HandleAddTaskMode | internal/ui/handlers.go:313-365 | `handleAddTaskMode` behaves as `Modes.AddTaskMode` prescribes; the loop that collects the old IDs keeps exactly the IDs of the old list |
| Ui.Model.FocusFirstNew | internal/ui/handlers.go:331-351 | The scan for the first new task, and the cursor move and blink, match `Modes.FocusNewTask` |
| Ui.Model.CompilePattern | internal/ui/handlers.go:373-388 | Compiling the pattern changes only the status line, and yields the regex that `Modes.ConfirmPattern` prescribes |
| Ui.Model.HandleSearchMode | internal/ui/handlers.go:368-414 | `handleSearchMode` behaves as `Modes.SearchMode` prescribes |
| Ui.Model.JumpToCurrentMatch | internal/ui/handlers.go:392-400 | The cursor moves to the current search match, as `Modes.JumpToMatch` prescribes |
| Ui.Model.HandleHelpSearchMode | internal/ui/handlers.go:417-466 | `handleHelpSearchMode` behaves as `Modes.HelpSearchMode` prescribes |
| Ui.Model.HandleEditingModes | internal/ui/handlers.go:485-522 | `handleEditingModes` returns whether the key was handled, and updates the fields as `Modes.EditingModes` prescribes |
| Ui.Model.Dispatch | internal/ui/handlers.go:489-519 | Each case of the dispatcher's switch runs its mode's handler, as `Modes.ModeStep` prescribes |
| Ui.Model.TaskAtCursor | internal/ui/handlers.go:535-541 | `getTaskAtCursor` on the model's fields: a task exactly when the cursor row lies inside the table, and then the task on that row (it is `Modes.CursorTask` of the current state) |
| Ui.Model.HandleTaskDetailMode | internal/ui/handlers.go:544-612 | `handleTaskDetailMode` behaves as `Modes.TaskDetailMode` prescribes |
| Ui.Model.HandleDetailSearchKey | internal/ui/handlers.go:545-571 | The detail search field behaves as `Modes.DetailSearchKey` prescribes |
| Ui.Model.HandleDetailFieldEdit | internal/ui/handlers.go:615-743 | `handleDetailFieldEdit` behaves as `Modes.DetailFieldEdit` prescribes |
| Ui.Model.OpenEditor | internal/ui/handlers.go:635-739 | Opening the editor for a field behaves as `Modes.OpenEditor` prescribes |
| Ui.Model.OpenPrioritySelector | internal/ui/handlers.go:635-653 | Opening the priority selector behaves as `Modes.OpenEditor` prescribes for a priority field |
| Ui.Model.OpenDueEditor | internal/ui/handlers.go:669-684 | Opening the due-date stepper behaves as `Modes.OpenEditor` prescribes for a due field |
| Properties.ExitClosesOnlyItsSession | internal/ui/handlers.go:65-68 | A session's exit turns off exactly its own flag and keeps its text |
| Properties.FailedCommitKeepsSession | internal/ui/handlers.go:19-27 | A failed commit keeps the session open with its text and flags, shows "Error: " and the message, and asks for the status to clear later |
| Properties.SuccessfulCommitCloses | internal/ui/handlers.go:28-31 | A successful commit closes the session, keeps every other flag and the status line, and returns no command |
| Properties.AnnotationCommitSends | internal/ui/handlers.go:45-62 | Outside replace mode a non-blank annotation is sent with `Annotate`; the error is the store's reply, and the log grows by that call followed by a reload exactly when it succeeded |
| Properties.DescriptionCommitSends | internal/ui/handlers.go:79-90 | A description the validator accepts is sent with `SetDescription`; the error is the store's reply, and the log grows by that call followed by a reload exactly when it succeeded |
| Properties.RecurrenceCommitSends | internal/ui/handlers.go:199-210 | A recurrence the validator accepts is sent with `SetRecurrence`; the error is the store's reply, and the log grows by that call followed by a reload exactly when it succeeded |
| Properties.EscClosesWithoutCommit | internal/ui/handlers.go:32-36 | Esc closes the session without a store call; only the project session reloads on exit |
| Properties.OtherKeysEditText | internal/ui/handlers.go:38-40 | Any other key replaces the session's text by the text widget's update of it; every other part of the state, the other buffers included, is unchanged |
| Properties.BlankAnnotationRefused | internal/ui/handlers.go:47-48 | Outside replace mode a blank annotation is refused before the store is called; the blink follows whether the text is non-empty |
| Properties.ReplaceModeCommit | internal/ui/handlers.go:51-55 | In replace mode the text, even blank, replaces the annotations. A success reloads and leaves replace mode; a failure stays in both |
| Properties.AnnotationExitClearsReplace | internal/ui/handlers.go:65-68 | Leaving the annotation session always leaves replace mode |
| Properties.InvalidTagCallsNothing | internal/ui/handlers.go:111-122 | A tag edit with an invalid token is rejected: nothing is called and the plan's error is returned |
| Properties.TagCallOrder | internal/ui/handlers.go:128-138 | When the store accepts every call, the tag edit adds, then removes, then reloads |
| Properties.FailedAddStopsTags | internal/ui/handlers.go:129-131 | A failing `AddTags` stops the edit before `RemoveTags` and before the reload |
| Properties.FailedRemoveSkipsReload | internal/ui/handlers.go:128-138 | When `AddTags` succeeds and `RemoveTags` fails, both calls are sent, no reload follows, and the error is the store's reply to `RemoveTags` |
| Properties.ProjectReloadOnExit | internal/ui/handlers.go:232-239 | The project is sent on Enter and the reload happens on exit: once after a success, never after a failure |
| Properties.FilterConfirm | internal/ui/handlers.go:299-302 | Confirming a filter never fails. The filters are the text's words, so a blank text clears them and no non-space character is lost |
| Properties.InvalidDescriptionCallsNothing | internal/ui/handlers.go:79-101 | A description the validator refuses calls nothing: the editor stays open, the status line reads "Error: " and the reason, and the row still blinks |
| Properties.InvalidRecurrenceCallsNothing | internal/ui/handlers.go:199-229 | A recurrence the validator refuses calls nothing: the editor stays open and the status line reads "Error: " and the reason |
| Properties.DueEscCallsNothing | internal/ui/handlers.go:179-182 | Esc leaves the due-date stepper without a store call |
| Properties.DueConfirm | internal/ui/handlers.go:160-178 | Enter sends the stepped date. A failure logs only that call and keeps the stepper and its date; a success logs the call and a reload, closes the stepper and blinks the due field or the row |
| Properties.DueKeysStep | internal/ui/handlers.go:185-195 | The stepper keys move the date by a day or a week and change nothing else |
| Properties.PrioritySeedRoundTrip | internal/ui/handlers.go:641-650 | Seeding the selector with an option's own name selects that option |
| Properties.PriorityKeysCycle | internal/ui/handlers.go:288-293 | Left and right keep the selection in range and undo each other |
| Properties.InvalidPriorityCallsNothing | internal/ui/handlers.go:256-262 | A priority the validator refuses is not sent, and the selector stays open |
| Properties.PriorityConfirm | internal/ui/handlers.go:255-283 | Enter on an accepted option sends `SetPriority` with it. A store failure logs only that call, keeps the selector open on the same option, shows "Error: " and the message, and does not reload. A success logs the call and a reload, closes the selector and blinks field 3 or the row |
| Properties.MediumThenRightSendsLow | internal/ui/handlers.go:253-295 | From the detail view, on a task with priority M: opening the selector, pressing right and confirming sends "L" and closes the selector |
| Properties.RightThenConfirm | internal/ui/handlers.go:255-292 | With only the selector open on "M", right moves to "L" and Enter sends "L" |
| Properties.AddTaskFocusesNewRow | internal/ui/handlers.go:316-357 | A successful add closes the mode and reloads. The cursor goes to the description column of the first row whose task is new, and that task blinks |
| Properties.NewTaskUnderCursor | internal/ui/handlers.go:331-349 | After an add that blinks a row, the task at the cursor is the blinking task, and it was not in the list before |
| Properties.AddTaskFailureKeepsMode | internal/ui/handlers.go:321-327 | A failed add keeps the mode and its text, shows the error and does not reload |
| Properties.SearchConfirm | internal/ui/handlers.go:368-401 | Confirming a list search closes the mode and reloads. An empty or invalid pattern clears the search; when there are matches the cursor is on the current one |
| Properties.HelpSearchConfirm | internal/ui/handlers.go:417-453 | A valid help search lists exactly the matching help lines, each a line index in range, in increasing order, and starts at the first of them |
| Properties.HelpSearchCleared | internal/ui/handlers.go:420-442 | A help search whose pattern is empty or invalid clears the matches and keeps the match index |
| Properties.AtMostOneModeKept | internal/ui/handlers.go:485-522 | A state with at most one active mode still has at most one after any key |
| Properties.DetailCursorInRange | internal/ui/handlers.go:589-605 | The detail field cursor stays on a field; home and end go to the first and the last field |
| Properties.DetailEditOpensOneMode | internal/ui/handlers.go:635-726 | Editing a field from the detail view opens exactly the field's edit mode on the detail task, seeded from that task, and calls nothing |
| Properties.DetailDescriptionExternal | internal/ui/handlers.go:731-738 | The description field goes to the external editor and opens no edit mode |
| Properties.DetailReadOnlyFields | internal/ui/handlers.go:616-618 | Read-only fields, and a detail view with no task, change nothing |

## Left out

- Bubble Tea commands are abstract `Cmd` values: `tea.Tick` status clearing, the blink commands, and `editDescriptionCmd`. Timers, `startBlink`, `startDetailBlink` and `handleBlinkingState` are not modelled.
- `updateTableHeight` and `updateSelectionHighlight` only lay out the screen and are not modelled.
- The text widgets (`textinput.Model`) are string buffers. Their handling of forwarded keys is the `Env.inputUpdate` function; the `Focus()` and `Blur()` calls are not modelled.
- `TaskStore.ValidSnapshot`: a reloaded task list is taken to have its current search match inside the match list whenever there are matches. `handleSearchMode` indexes `searchMatches[searchIndex]` without a check (`handlers.go:395`), and `Properties.SearchConfirm` relies on this.
- The `task` package and Taskwarrior are the scripted `Store`. Error message texts returned by the store are opaque strings.
- `reload()` is a scripted export snapshot. How tasks are sorted and filtered, and how list-search matches are recomputed, are not modelled. The task shown in the detail view is not refreshed by a reload.
- `compileAndCacheRegex` is `Env.regexError` and `Env.regexMatches`. A compiled regex is represented by its pattern text, and the regex cache is not modelled.
- Dates are day numbers. `time.Now()` is `Env.today`, and formatting dates as ISO 8601 calendar dates for `SetDueDate` is not modelled.
- `handleQuitOrEscape` is the command `QuitOrEscape`; its effects are not part of this model.
- `getSelectedTaskID` and `handleBlinkingState` are not among the handlers modelled.
- `priorityOptions` and `fieldProject` are defined outside `handlers.go`. They are taken as the options H, M, L and none, and as position 7, which the comment at `handlers.go:623` gives.
- `Ui.Model` groups related fields into records, and the eleven edit-mode flags are the set of active modes. With one field per flag the proofs are too expensive for the verifier. Each flag's value is still exactly that mode's membership in the set.
- `Ui.Model.HandleSearchMode` and `Ui.Model.HandleHelpSearchMode` take the compiled pattern's error from `Env.regexError`. They do not model `regexp` syntax.
