/**
 * The two edit modes that are not text fields: the cyclic priority selector
 * (`handlePriorityMode`, and its seeding in `handleDetailFieldEdit`) and the due-date
 * stepper (`handleDueEditMode`, seeded in `handleDetailFieldEdit`). Dates are day numbers.
 */
module Selectors {
  import opened Wrappers

  /** `priorityOptions`: High, Medium, Low, none. */
  const PriorityOptions: seq<string> := ["H", "M", "L", ""]

  predicate InRange(i: int) {
    0 <= i < |PriorityOptions|
  }

  /** "h"/"left": one option back, wrapping from the first to the last. */
  function PriorityLeft(i: int): (r: int)
    requires InRange(i)
    ensures InRange(r)
    ensures i > 0 ==> r == i - 1
    ensures i == 0 ==> r == |PriorityOptions| - 1
  {
    (i + |PriorityOptions| - 1) % |PriorityOptions|
  }

  /** "l"/"right": one option forward, wrapping from the last to the first. */
  function PriorityRight(i: int): (r: int)
    requires InRange(i)
    ensures InRange(r)
    ensures i < |PriorityOptions| - 1 ==> r == i + 1
    ensures i == |PriorityOptions| - 1 ==> r == 0
  {
    (i + 1) % |PriorityOptions|
  }

  /** Left and right undo each other. */
  lemma PriorityLeftRightInverse(i: int)
    requires InRange(i)
    ensures PriorityRight(PriorityLeft(i)) == i
    ensures PriorityLeft(PriorityRight(i)) == i
  {
  }

  /** The selector's starting index for a task's current priority. */
  function SeedPriority(p: string): (i: int)
    ensures InRange(i)
    ensures p in PriorityOptions ==> PriorityOptions[i] == p
    ensures p !in PriorityOptions[..3] ==> i == 3
  {
    match p
    case "H" => 0
    case "M" => 1
    case "L" => 2
    case _ => 3
  }

  /** The due-date stepper: h/left and l/right move by one day, k/up and j/down by a week,
      any other key leaves the date alone. */
  function StepDate(day: int, key: string): int {
    match key
    case "h" => day - 1
    case "left" => day - 1
    case "l" => day + 1
    case "right" => day + 1
    case "k" => day - 7
    case "up" => day - 7
    case "j" => day + 7
    case "down" => day + 7
    case _ => day
  }

  lemma StepDateRoundTrip(day: int)
    ensures StepDate(StepDate(day, "l"), "h") == day
    ensures StepDate(StepDate(day, "right"), "left") == day
    ensures StepDate(StepDate(day, "j"), "k") == day
    ensures StepDate(StepDate(day, "down"), "up") == day
  {
  }

  /** The stepper's starting date: the task's due date when it has one that parses,
      otherwise today. */
  function SeedDueDate(due: string, parse: string -> Option<int>, today: int): (day: int)
    ensures due != "" && parse(due).Some? ==> day == parse(due).value
    ensures due == "" || parse(due).None? ==> day == today
  {
    if due != "" then
      match parse(due)
      case Some(d) => d
      case None => today
    else today
  }
}
