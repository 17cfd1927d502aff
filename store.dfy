/**
 * The external task store reached through the `task` package (`task.Annotate`,
 * `task.SetDueDate`, ..., and the export behind `reload()`). Its behaviour is not part of
 * this model: a `Store` value records every call made to it, in order, and answers them
 * from a script, so that every possible sequence of successes and failures is covered by
 * some initial store.
 */
module TaskStore {
  import opened Wrappers

  /** A (row, column) position in the task table. */
  datatype Cell = Cell(row: int, col: int)

  /** What one `reload()` yields: the task IDs in table order and the list-search matches
      (with the current match index) recomputed over the refreshed table. */
  datatype Snapshot = Snapshot(ids: seq<int>, matches: seq<Cell>, matchIndex: int)

  /** A snapshot whose match index selects a match whenever there are matches. */
  type ValidSnapshot = s: Snapshot | s.matches != [] ==> 0 <= s.matchIndex < |s.matches|
    witness Snapshot([], [], 0)

  /** One call into the store. `SetDueDate` carries the day number that the source renders as
      an ISO 8601 calendar date; `Export` is the reload of the task list. */
  datatype Call =
    | Annotate(id: int, text: string)
    | ReplaceAnnotations(id: int, text: string)
    | SetDescription(id: int, text: string)
    | AddTags(id: int, tags: seq<string>)
    | RemoveTags(id: int, tags: seq<string>)
    | SetDueDate(id: int, day: int)
    | SetRecurrence(id: int, spec: string)
    | SetProject(id: int, name: string)
    | SetPriority(id: int, value: string)
    | AddLine(line: string)
    | Export

  /**
   * `log`: every call made so far. `replies`: the outcomes of the next mutating calls
   * (`Some(message)` is a failure); once exhausted every call succeeds. `exports`: the
   * snapshots the next reloads yield; once exhausted a reload yields `current` again.
   */
  datatype Store = Store(log: seq<Call>, replies: seq<Option<string>>, exports: seq<ValidSnapshot>, current: ValidSnapshot) {

    /** The outcome of the next mutating call. */
    function Reply(): Option<string> {
      if replies == [] then None else replies[0]
    }

    /** The store after it has answered the mutating call `c`. */
    function Perform(c: Call): Store
      requires !c.Export?
    {
      this.(log := log + [c], replies := if replies == [] then [] else replies[1..])
    }

    /** The store after a reload: the next scripted snapshot becomes current. */
    function Reload(): Store {
      if exports == [] then this.(log := log + [Export])
      else this.(log := log + [Export], exports := exports[1..], current := exports[0])
    }
  }
}
