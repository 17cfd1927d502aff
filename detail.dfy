/**
 * The detail view's field list and its edit mapping (`handleDetailFieldEdit`), and the
 * field cursor's movement (`handleTaskDetailMode`). The source finds the field under the
 * cursor by counting positions with a running offset; `DetailFields` is the ordered field
 * list that offset walks, given declaratively.
 */
module DetailView {

  datatype Field =
    | IdField | UuidField | StatusField | PriorityField | TagsField | DueField
    | StartField | ProjectField | EntryField | RecurField | DescriptionField

  /** The fields the edit mapping walks, in display order; recurrence only when the task
      has one. Annotations follow and are not editable. */
  function DetailFields(hasRecur: bool): (fields: seq<Field>)
    ensures |fields| == if hasRecur then 11 else 10
  {
    [IdField, UuidField, StatusField, PriorityField, TagsField, DueField, StartField, ProjectField, EntryField]
    + (if hasRecur then [RecurField] else [])
    + [DescriptionField]
  }

  /** What "enter" on a field opens. */
  datatype EditAction =
    | NoEdit | SelectPriority | EditTags | StepDue | EditProject | EditRecurrence | ExternalDescription

  function ActionOf(f: Field): EditAction {
    match f
    case PriorityField => SelectPriority
    case TagsField => EditTags
    case DueField => StepDue
    case ProjectField => EditProject
    case RecurField => EditRecurrence
    case DescriptionField => ExternalDescription
    case _ => NoEdit
  }

  /** The action for the field at `index`; positions outside the list open nothing. */
  function TargetAt(index: int, hasRecur: bool): EditAction {
    var fields := DetailFields(hasRecur);
    if 0 <= index < |fields| then ActionOf(fields[index]) else NoEdit
  }

  /** The source's running-offset walk over the field positions, proved to agree with the
      declarative field list. */
  method LocateEditAction(index: int, hasRecur: bool) returns (a: EditAction)
    ensures a == TargetAt(index, hasRecur)
  {
    if index <= 2 {
      return NoEdit;
    }
    var fieldPos := 3;
    if index == fieldPos {
      return SelectPriority;
    }
    fieldPos := fieldPos + 1;
    if index == fieldPos {
      return EditTags;
    }
    fieldPos := fieldPos + 1;
    if index == fieldPos {
      return StepDue;
    }
    fieldPos := fieldPos + 1;
    if index == fieldPos {
      return NoEdit;
    }
    fieldPos := fieldPos + 1;
    if index == fieldPos {
      return EditProject;
    }
    fieldPos := fieldPos + 1;
    if index == fieldPos {
      return NoEdit;
    }
    fieldPos := fieldPos + 1;
    if hasRecur {
      if index == fieldPos {
        return EditRecurrence;
      }
      fieldPos := fieldPos + 1;
    }
    if index == fieldPos {
      return ExternalDescription;
    }
    return NoEdit;
  }

  /** ID, UUID, status, start and entry open nothing; priority, tags, due and project sit
      at fixed positions whatever the task's recurrence; the annotations after the
      description open nothing. */
  lemma FixedPositions(hasRecur: bool)
    ensures forall i :: i <= 2 ==> TargetAt(i, hasRecur) == NoEdit
    ensures forall i :: i > (if hasRecur then 10 else 9) ==> TargetAt(i, hasRecur) == NoEdit
    ensures TargetAt(6, hasRecur) == NoEdit && TargetAt(8, hasRecur) == NoEdit
    ensures TargetAt(3, hasRecur) == SelectPriority
    ensures TargetAt(4, hasRecur) == EditTags
    ensures TargetAt(5, hasRecur) == StepDue
    ensures TargetAt(7, hasRecur) == EditProject
  {
  }

  /** The recurrence slot exists only when the task recurs, and then it is position 9. */
  lemma RecurrenceSlot(index: int, hasRecur: bool)
    ensures TargetAt(index, hasRecur) == EditRecurrence <==> hasRecur && index == 9
  {
  }

  /** The optional recurrence slot pushes the description from position 9 to 10. */
  lemma DescriptionSlot(index: int, hasRecur: bool)
    ensures TargetAt(index, hasRecur) == ExternalDescription <==> index == (if hasRecur then 10 else 9)
  {
  }

  /** Up ("up"/"k"): one field back, never past the first. */
  function FieldUp(i: int): (r: int)
    ensures i > 0 ==> r == i - 1
    ensures i <= 0 ==> r == i
  {
    if i > 0 then i - 1 else i
  }

  /** Down ("down"/"j"): one field on, never past the last of `count`. */
  function FieldDown(i: int, count: int): (r: int)
    ensures i < count - 1 ==> r == i + 1
    ensures i >= count - 1 ==> r == i
  {
    if i < count - 1 then i + 1 else i
  }

  /** Up, down, home (0) and end (count - 1) keep the cursor on a field. */
  lemma NavigationInRange(i: int, count: int)
    requires 1 <= count && 0 <= i < count
    ensures 0 <= FieldUp(i) < count
    ensures 0 <= FieldDown(i, count) < count
    ensures 0 <= count - 1 < count
  {
  }
}
