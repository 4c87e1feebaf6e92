/**
 * Keyboard input and the key bindings of the application: which key
 * quits, which moves the cursor and which asks for a panel transition.
 */
module Keys {
  /** crossterm's key codes, with every code the application does not bind folded into `OtherKey`. */
  datatype KeyCode = Char(ch: char) | Esc | Tab | Enter | Up | Down | Left | Right | OtherKey

  datatype Modifier = Shift | Control | Alt | Super | Hyper | Meta

  /** A key press: its code and the set of modifiers held with it. */
  datatype KeyEvent = KeyEvent(code: KeyCode, modifiers: set<Modifier>)

  /** The application events a key can post on the event channel. */
  datatype AppEvent = Quit | Select | Next

  /** What a key does: post an application event, move the active cursor, or nothing. */
  datatype KeyAction = Send(event: AppEvent) | MoveUp | MoveDown | Ignore

  /** Esc and `q` always quit; `c` or `C` quit only when CONTROL is the one modifier held. */
  predicate IsQuitKey(key: KeyEvent)
  {
    || key.code == Esc
    || key.code == Char('q')
    || ((key.code == Char('c') || key.code == Char('C')) && key.modifiers == {Control})
  }

  /** The key bindings, arm by arm in the order they are tried. */
  function Dispatch(key: KeyEvent): (a: KeyAction)
    ensures a == Send(Quit) <==> IsQuitKey(key)
    ensures a == Send(Next) <==> key.code == Tab
    ensures a == Send(Select) <==> key.code == Enter
    ensures a == MoveUp <==> key.code == Up || key.code == Char('k')
    ensures a == MoveDown <==> key.code == Down || key.code == Char('j')
    ensures key.code in {Left, Right, Char('h'), Char('l'), OtherKey} ==> a == Ignore
  {
    var code := key.code;
    if code == Esc || code == Char('q') then Send(Quit)
    else if (code == Char('c') || code == Char('C')) && key.modifiers == {Control} then Send(Quit)
    else if code == Tab then Send(Next)
    else if code == Up || code == Char('k') then MoveUp
    else if code == Down || code == Char('j') then MoveDown
    else if code == Left || code == Char('h') then Ignore
    else if code == Right || code == Char('l') then Ignore
    else if code == Enter then Send(Select)
    else Ignore
  }

  /** Ctrl+Shift+C is not a quit key: the modifier set must be exactly CONTROL. */
  lemma ControlShiftCDoesNotQuit(ch: char)
    requires ch == 'c' || ch == 'C'
    ensures Dispatch(KeyEvent(Char(ch), {Control, Shift})) == Ignore
  {
    assert {Control, Shift} != {Control} by { assert Shift in {Control, Shift}; }
  }
}
