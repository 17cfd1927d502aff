/** Keystrokes and the commands a handler hands back to the event loop. */
module Keys {

  /** A key message: the three key types the handlers test by type, and every other key by
      its `String()` form ("h", "left", "up", "home", "/", ...). */
  datatype Key = Enter | Esc | CtrlC | Press(name: string)

  /** `msg.String()`. */
  function Name(k: Key): string {
    match k
    case Enter => "enter"
    case Esc => "esc"
    case CtrlC => "ctrl+c"
    case Press(n) => n
  }

  /**
   * The command a handler returns, reduced to what it requests: nothing, the 2-second
   * status clear, a blink of a table row (by task ID) or of a detail field (by index), the
   * external description editor, whatever the text widget returned for a forwarded key, or
   * the quit/escape handling of the detail view.
   */
  datatype Cmd =
    | NoCmd
    | ClearStatusLater
    | Blink(id: int)
    | DetailBlink(field: int)
    | EditDescription(text: string)
    | InputCmd
    | QuitOrEscape
}
