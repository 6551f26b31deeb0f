/** The key-to-action mapper (src/input.rs). */
module Input {
  import opened Wrappers
  import opened Actions

  /** The key codes a terminal reports. `F(n)` is a function key; `Other` stands for the
      remaining codes (media keys, lock keys, bare modifiers), none of which is mapped. */
  datatype KeyCode =
    | Backspace | Enter | Left | Right | Up | Down | Home | End | PageUp | PageDown
    | Tab | BackTab | Delete | Insert | F(n: nat) | Char(c: char) | Null | Esc | Other

  datatype Modifier = Shift | Control | Alt | Super | Hyper | Meta

  /** A key press: its code and the modifiers held down. */
  datatype KeyEvent = KeyEvent(code: KeyCode, modifiers: set<Modifier>)

  /** `handle_key_event`: 'q' and Ctrl+'c' quit, 'j' and Up move up, 'k' and Down move down,
      Enter selects, Esc goes back; every other key, plain 'c' included, does nothing.
      No key toggles the supergraph, ticks or renders. */
  function HandleKeyEvent(key: KeyEvent): (r: Option<Action>)
    ensures r == Some(Quit) <==>
              key.code == Char('q') || (key.code == Char('c') && Control in key.modifiers)
    ensures r == Some(NavigateUp) <==> key.code == Char('j') || key.code == Up
    ensures r == Some(NavigateDown) <==> key.code == Char('k') || key.code == Down
    ensures r == Some(Select) <==> key.code == Enter
    ensures r == Some(Back) <==> key.code == Esc
    ensures r.Some? ==> r.value !in {ToggleSupergraph, Tick, Render}
  {
    match key.code
    case Char('q') => Some(Quit)
    case Char('j') => Some(NavigateUp)
    case Up => Some(NavigateUp)
    case Char('k') => Some(NavigateDown)
    case Down => Some(NavigateDown)
    case Enter => Some(Select)
    case Esc => Some(Back)
    case Char('c') => if Control in key.modifiers then Some(Quit) else None
    case _ => None
  }

  /** Modifiers matter for 'c' alone: for every other code, the same action results
      whatever is held down. */
  lemma ModifiersMatterOnlyForC(code: KeyCode, m: set<Modifier>, m': set<Modifier>)
    requires code != Char('c')
    ensures HandleKeyEvent(KeyEvent(code, m)) == HandleKeyEvent(KeyEvent(code, m'))
  {
  }
}
