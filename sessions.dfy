/**
 * The generic text-field edit session (`handleTextInput`) and the six attributes edited
 * through it: annotation, description, tags, recurrence, project and filter. Each session
 * is the one Enter/Esc/forward procedure with its own commit and exit step.
 */
module Sessions {
  import opened Wrappers
  import opened Text
  import opened TaskStore
  import opened Keys
  import opened Tags
  import opened EditorState

  datatype TextSession =
    | AnnotationSession | DescriptionSession | TagsSession | RecurrenceSession | ProjectSession | FilterSession

  /** The session's text buffer. */
  function Buffer(s: TextSession, st: ModelState): string {
    var b := st.inputs;
    match s
    case AnnotationSession => b.annotate
    case DescriptionSession => b.desc
    case TagsSession => b.tags
    case RecurrenceSession => b.recur
    case ProjectSession => b.proj
    case FilterSession => b.filter
  }

  /** The buffers after the text widget has handled a key for session `s`. */
  function WithBuffer(s: TextSession, b: Inputs, v: string): Inputs {
    match s
    case AnnotationSession => b.(annotate := v)
    case DescriptionSession => b.(desc := v)
    case TagsSession => b.(tags := v)
    case RecurrenceSession => b.(recur := v)
    case ProjectSession => b.(proj := v)
    case FilterSession => b.(filter := v)
  }

  /** The session's edit-mode flag. */
  function ModeOf(s: TextSession): Mode {
    match s
    case AnnotationSession => Annotating
    case DescriptionSession => DescEditing
    case TagsSession => TagsEditing
    case RecurrenceSession => RecurEditing
    case ProjectSession => ProjEditing
    case FilterSession => FilterEditing
  }

  predicate IsOpen(s: TextSession, st: ModelState) {
    Active(st, ModeOf(s))
  }

  /** The edit-mode flags with the session's flag off. */
  function Closed(s: TextSession, f: set<Mode>): set<Mode> {
    f - {ModeOf(s)}
  }

  /** The session's `onExit`: its flag off (and the replace sub-mode for annotations); the
      project session reloads here rather than on commit. */
  function Exit(s: TextSession, st: ModelState): (r: ModelState)
    requires Wf(st)
    ensures Wf(r)
  {
    var closed := st.(modes := Closed(s, st.modes));
    match s
    case AnnotationSession => closed.(replaceAnnotations := false)
    case ProjectSession => Reloaded(closed)
    case _ => closed
  }

  /** A store call that reloads the task list when it succeeds. */
  function AttemptThenReload(st: ModelState, c: Call): (r: (ModelState, Option<string>))
    requires Wf(st) && !c.Export?
    ensures Wf(r.0) && r.0.modes == st.modes && r.0.inputs == st.inputs
  {
    var (sent, err) := Attempt(st, c);
    if err.Some? then (sent, err) else (Reloaded(sent), None)
  }

  /** Annotation `onEnter`: a blank annotation is refused unless the replace sub-mode is on;
      replacing clears that sub-mode once the store accepts. */
  function AnnotationCommit(value: string, st: ModelState): (r: (ModelState, Option<string>))
    requires Wf(st)
    ensures Wf(r.0) && r.0.modes == st.modes && r.0.inputs == st.inputs
  {
    if !st.replaceAnnotations && IsBlank(value) then (st, Some("annotation cannot be empty"))
    else if st.replaceAnnotations then
      var (sent, err) := Attempt(st, ReplaceAnnotations(st.ids.annotate, value));
      if err.Some? then (sent, err) else (Reloaded(sent.(replaceAnnotations := false)), None)
    else
      AttemptThenReload(st, Annotate(st.ids.annotate, value))
  }

  /** Description `onEnter`: validate, then `SetDescription`. */
  function DescriptionCommit(value: string, st: ModelState, env: Env): (r: (ModelState, Option<string>))
    requires Wf(st)
    ensures Wf(r.0) && r.0.modes == st.modes && r.0.inputs == st.inputs
  {
    match env.validateDescription(value)
    case Some(e) => (st, Some(e))
    case None => AttemptThenReload(st, SetDescription(st.ids.desc, value))
  }

  /** Tags `onEnter`: plan the tokens, then `AddTags` if there is anything to add and
      `RemoveTags` if there is anything to remove, in that order, stopping at a failure. */
  function TagsCommit(value: string, st: ModelState, env: Env): (r: (ModelState, Option<string>))
    requires Wf(st)
    ensures Wf(r.0) && r.0.modes == st.modes && r.0.inputs == st.inputs
  {
    match PlanTags(Fields(value), env.validateTagName)
    case Err(e) => (st, Some(e))
    case Ok(plan) => ApplyTagPlan(plan, st)
  }

  /** The store calls a validated tag plan makes, in order: `AddTags` only when there is
      something to add, then `RemoveTags` only when there is something to remove. */
  function TagCalls(id: int, plan: TagPlan): (calls: seq<Call>)
    ensures forall i :: 0 <= i < |calls| ==> calls[i] == AddTags(id, plan.adds) || calls[i] == RemoveTags(id, plan.removes)
    ensures AddTags(id, plan.adds) in calls <==> plan.adds != []
    ensures RemoveTags(id, plan.removes) in calls <==> plan.removes != []
    ensures |calls| == (if plan.adds != [] then 1 else 0) + (if plan.removes != [] then 1 else 0)
    ensures plan.adds != [] ==> calls[0] == AddTags(id, plan.adds)
  {
    (if plan.adds != [] then [AddTags(id, plan.adds)] else [])
    + (if plan.removes != [] then [RemoveTags(id, plan.removes)] else [])
  }

  /** The reply script fails for the first time at its `n`-th reply, with `err`: the
      `n - 1` replies before it are successes. */
  predicate FirstFailure(replies: seq<Option<string>>, n: nat, err: Option<string>) {
    0 < n <= |replies| && replies[n - 1] == err && err.Some?
    && forall j :: 0 <= j < n - 1 ==> replies[j].None?
  }

  /** None of the first `k` replies of the script is a failure (an exhausted script
      succeeds). */
  predicate NoFailureWithin(replies: seq<Option<string>>, k: nat) {
    forall j :: 0 <= j < k && j < |replies| ==> replies[j].None?
  }

  /** Mutating store calls made one after another until one fails. On success the log has
      grown by exactly `calls`; on failure by the calls up to and including the first one
      the store refused, whose reply is the error, and no call after it is made. */
  function RunCalls(st: ModelState, calls: seq<Call>): (r: (ModelState, Option<string>))
    requires Wf(st) && forall i :: 0 <= i < |calls| ==> !calls[i].Export?
    ensures Wf(r.0) && r.0.modes == st.modes && r.0.inputs == st.inputs && r.0.statusMsg == st.statusMsg
    ensures r.1.None? ==> r.0.store.log == st.store.log + calls
    ensures r.1.Some? ==> exists n :: 0 < n <= |calls| && r.0.store.log == st.store.log + calls[..n]
                                      && FirstFailure(st.store.replies, n, r.1)
    ensures r.1.None? <==> NoFailureWithin(st.store.replies, |calls|)
    ensures st.store.replies == [] ==> r.1.None?
    decreases |calls|
  {
    if calls == [] then (st, None)
    else
      var (sent, err) := Attempt(st, calls[0]);
      if err.Some? then
        assert sent.store.log == st.store.log + calls[..1];
        assert FirstFailure(st.store.replies, 1, err);
        (sent, err)
      else
        var rest := RunCalls(sent, calls[1..]);
        ExtendedLog(st.store.log, calls, rest.0.store.log, st.store.replies, rest.1);
        assert NoFailureWithin(st.store.replies, |calls|) ==> NoFailureWithin(sent.store.replies, |calls| - 1);
        assert NoFailureWithin(sent.store.replies, |calls| - 1) ==> NoFailureWithin(st.store.replies, |calls|) by {
          if NoFailureWithin(sent.store.replies, |calls| - 1) {
            forall j | 0 <= j < |calls| && j < |st.store.replies| ensures st.store.replies[j].None? {
              if j > 0 { assert st.store.replies[j] == sent.store.replies[j - 1]; }
            }
          }
        }
        rest
  }

  /** The log and reply arithmetic of `RunCalls`' recursive case, after a first call that
      succeeded. */
  lemma ExtendedLog(log: seq<Call>, calls: seq<Call>, after: seq<Call>, replies: seq<Option<string>>, err: Option<string>)
    requires calls != []
    requires err.None? ==> after == log + [calls[0]] + calls[1..]
    requires err.Some? ==> replies != [] && replies[0].None?
    requires err.Some? ==> exists n :: 0 < n <= |calls[1..]| && after == log + [calls[0]] + calls[1..][..n]
                                       && FirstFailure(replies[1..], n, err)
    ensures err.None? ==> after == log + calls
    ensures err.Some? ==> exists n :: 0 < n <= |calls| && after == log + calls[..n] && FirstFailure(replies, n, err)
  {
    if err.None? {
      assert [calls[0]] + calls[1..] == calls;
    } else {
      var n :| 0 < n <= |calls[1..]| && after == log + [calls[0]] + calls[1..][..n] && FirstFailure(replies[1..], n, err);
      assert [calls[0]] + calls[1..][..n] == calls[..n + 1];
      assert forall j :: 0 < j < n ==> replies[j] == replies[1..][j - 1];
      assert FirstFailure(replies, n + 1, err);
    }
  }

  /** The store calls of a tag plan that passed validation, then a reload if all succeeded. */
  function ApplyTagPlan(plan: TagPlan, st: ModelState): (r: (ModelState, Option<string>))
    requires Wf(st)
    ensures Wf(r.0) && r.0.modes == st.modes && r.0.inputs == st.inputs && r.0.statusMsg == st.statusMsg
  {
    var (sent, err) := RunCalls(st, TagCalls(st.ids.tags, plan));
    if err.Some? then (sent, err) else (Reloaded(sent), None)
  }

  /** Recurrence `onEnter`: validate, then `SetRecurrence`. */
  function RecurrenceCommit(value: string, st: ModelState, env: Env): (r: (ModelState, Option<string>))
    requires Wf(st)
    ensures Wf(r.0) && r.0.modes == st.modes && r.0.inputs == st.inputs
  {
    match env.validateRecurrence(value)
    case Some(e) => (st, Some(e))
    case None => AttemptThenReload(st, SetRecurrence(st.ids.recur, value))
  }

  /** Project `onEnter`: `SetProject`, with no validation and no reload. */
  function ProjectCommit(value: string, st: ModelState): (r: (ModelState, Option<string>))
    requires Wf(st)
    ensures Wf(r.0) && r.0.modes == st.modes && r.0.inputs == st.inputs
  {
    Attempt(st, SetProject(st.ids.proj, value))
  }

  /** Filter `onEnter`: the filter list becomes the buffer's fields and the task list is
      reloaded; it never fails. */
  function FilterCommit(value: string, st: ModelState): (r: (ModelState, Option<string>))
    requires Wf(st)
    ensures Wf(r.0) && r.0.modes == st.modes && r.0.inputs == st.inputs
    ensures r.1.None? && r.0.filters == Fields(value)
  {
    (Reloaded(st.(filters := Fields(value))), None)
  }

  /** A session's `onEnter`. No commit touches an edit-mode flag or a buffer. */
  function Commit(s: TextSession, value: string, st: ModelState, env: Env): (r: (ModelState, Option<string>))
    requires Wf(st)
    ensures Wf(r.0) && r.0.modes == st.modes && r.0.inputs == st.inputs && r.0.statusMsg == st.statusMsg
  {
    match s
    case AnnotationSession => AnnotationCommit(value, st)
    case DescriptionSession => DescriptionCommit(value, st, env)
    case TagsSession => TagsCommit(value, st, env)
    case RecurrenceSession => RecurrenceCommit(value, st, env)
    case ProjectSession => ProjectCommit(value, st)
    case FilterSession => FilterCommit(value, st)
  }

  /**
   * `handleTextInput`. Enter commits the buffer: a failure keeps the session open with its
   * buffer and shows "Error: ..." for two seconds; a success runs the session's exit. Esc
   * runs the exit without committing. Any other key goes to the text widget.
   */
  function TextInput(s: TextSession, k: Key, st: ModelState, env: Env): (r: (ModelState, Cmd))
    requires Wf(st)
    ensures Wf(r.0) && r.0.modes <= st.modes
  {
    match k
    case Enter =>
      var (committed, err) := Commit(s, Buffer(s, st), st, env);
      if err.Some? then (committed.(statusMsg := "Error: " + err.value), ClearStatusLater)
      else (Exit(s, committed), NoCmd)
    case Esc => (Exit(s, st), NoCmd)
    case _ => (st.(inputs := WithBuffer(s, st.inputs, env.inputUpdate(Buffer(s, st), k))), InputCmd)
  }

  /** `handleAnnotationMode`: on Enter a row blink is requested whenever the buffer is
      non-empty, whether or not the commit succeeded. */
  function AnnotationMode(k: Key, st: ModelState, env: Env): (r: (ModelState, Cmd))
    requires Wf(st)
    ensures Wf(r.0) && r.0.modes <= st.modes
  {
    var (next, cmd) := TextInput(AnnotationSession, k, st, env);
    if k.Enter? && next.inputs.annotate != "" then (next, Blink(next.ids.annotate)) else (next, cmd)
  }

  /** `handleDescriptionMode`: any Enter requests a row blink. */
  function DescriptionMode(k: Key, st: ModelState, env: Env): (r: (ModelState, Cmd))
    requires Wf(st)
    ensures Wf(r.0) && r.0.modes <= st.modes
  {
    var (next, cmd) := TextInput(DescriptionSession, k, st, env);
    if k.Enter? then (next, Blink(next.ids.desc)) else (next, cmd)
  }

  /** `handleTagsMode`: any Enter requests a blink of the tags field (detail view) or row. */
  function TagsMode(k: Key, st: ModelState, env: Env): (r: (ModelState, Cmd))
    requires Wf(st)
    ensures Wf(r.0) && r.0.modes <= st.modes
  {
    var (next, cmd) := TextInput(TagsSession, k, st, env);
    if k.Enter? then (next, if next.showTaskDetail then DetailBlink(4) else Blink(next.ids.tags))
    else (next, cmd)
  }

  /** `handleRecurrenceMode`: Enter blinks detail field 8 when the detail task recurs,
      otherwise the row. */
  function RecurrenceMode(k: Key, st: ModelState, env: Env): (r: (ModelState, Cmd))
    requires Wf(st)
    ensures Wf(r.0) && r.0.modes <= st.modes
  {
    var (next, cmd) := TextInput(RecurrenceSession, k, st, env);
    if k.Enter? then
      if next.showTaskDetail && next.currentTaskDetail.Some? && next.currentTaskDetail.value.recur != ""
      then (next, DetailBlink(8))
      else (next, Blink(next.ids.recur))
    else (next, cmd)
  }

  /** `fieldProject`, the project field's position in the detail view. */
  const FieldProject := 7

  /** `handleProjectMode`: any Enter requests a blink of the project field or row. */
  function ProjectMode(k: Key, st: ModelState, env: Env): (r: (ModelState, Cmd))
    requires Wf(st)
    ensures Wf(r.0) && r.0.modes <= st.modes
  {
    var (next, cmd) := TextInput(ProjectSession, k, st, env);
    if k.Enter? then (next, if next.showTaskDetail then DetailBlink(FieldProject) else Blink(next.ids.proj))
    else (next, cmd)
  }

  /** `handleFilterMode`: the generic session alone. */
  function FilterMode(k: Key, st: ModelState, env: Env): (r: (ModelState, Cmd))
    requires Wf(st)
    ensures Wf(r.0) && r.0.modes <= st.modes
  {
    TextInput(FilterSession, k, st, env)
  }
}
