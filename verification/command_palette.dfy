/**
 * Keyboard dispatch of the command palette (`handleKeyDown`): Cmd+K on a Mac,
 * Ctrl+K elsewhere, opens the palette; while it is open, the arrow keys,
 * Enter and Escape navigate, select and close. Each handled key pushes one
 * event to the palette component and suppresses the browser's default action.
 */
module CommandPalette {
  import opened Wrappers

  datatype Direction = Down | Up

  /** The events pushed to the palette component. */
  datatype PaletteEvent = Open | Navigate(direction: Direction) | Select | Close

  /** The parts of a `keydown` event the handler reads. */
  datatype KeyDown = KeyDown(metaKey: bool, ctrlKey: bool, key: string)

  /** What one keydown does: the event pushed, if any, and whether `preventDefault` is called. */
  datatype Response = Response(pushed: Option<PaletteEvent>, preventDefault: bool)

  /** The modifier that counts: Cmd (`metaKey`) on a Mac, Ctrl (`ctrlKey`) elsewhere. */
  function ModifierHeld(isMac: bool, e: KeyDown): bool
  {
    if isMac then e.metaKey else e.ctrlKey
  }

  /** The open/close shortcut: the modifier together with the key exactly "k". */
  predicate IsOpenShortcut(isMac: bool, e: KeyDown)
  {
    ModifierHeld(isMac, e) && e.key == "k"
  }

  /** The palette is open exactly when its `data-open` attribute is the string "true". */
  predicate IsOpen(openAttr: Option<string>)
  {
    openAttr == Some("true")
  }

  /**
   * `handleKeyDown`. `isMac` stands for the platform test and `openAttr` for
   * the palette element's `data-open` attribute. At most one event is pushed
   * (the result is an option), `preventDefault` is called exactly when one is,
   * the shortcut opens whatever the palette's state, a closed palette ignores
   * every other key, and an open one maps ArrowDown, ArrowUp, Enter and Escape
   * to navigate down, navigate up, select and close, and nothing else to
   * anything.
   */
  function HandleKeyDown(isMac: bool, e: KeyDown, openAttr: Option<string>): (r: Response)
    ensures r.preventDefault <==> r.pushed.Some?
    ensures IsOpenShortcut(isMac, e) ==> r.pushed == Some(Open)
    ensures !IsOpenShortcut(isMac, e) && !IsOpen(openAttr) ==> r.pushed == None
    ensures !IsOpenShortcut(isMac, e) && IsOpen(openAttr) ==>
      (r.pushed == Some(Navigate(Down)) <==> e.key == "ArrowDown") &&
      (r.pushed == Some(Navigate(Up)) <==> e.key == "ArrowUp") &&
      (r.pushed == Some(Select) <==> e.key == "Enter") &&
      (r.pushed == Some(Close) <==> e.key == "Escape") &&
      (r.pushed == None <==> e.key !in {"ArrowDown", "ArrowUp", "Enter", "Escape"})
    ensures r.pushed == Some(Open) ==> IsOpenShortcut(isMac, e)
  {
    if ModifierHeld(isMac, e) && e.key == "k" then
      Response(Some(Open), true)
    else if openAttr != Some("true") then
      Response(None, false)
    else if e.key == "ArrowDown" then
      Response(Some(Navigate(Down)), true)
    else if e.key == "ArrowUp" then
      Response(Some(Navigate(Up)), true)
    else if e.key == "Enter" then
      Response(Some(Select), true)
    else if e.key == "Escape" then
      Response(Some(Close), true)
    else
      Response(None, false)
  }

  /**
   * Only the platform's modifier is read: on a Mac the Ctrl flag, elsewhere
   * the Cmd flag, never changes the response.
   */
  lemma OtherModifierIgnored(isMac: bool, e: KeyDown, openAttr: Option<string>, other: bool)
    ensures isMac ==> HandleKeyDown(isMac, e.(ctrlKey := other), openAttr) == HandleKeyDown(isMac, e, openAttr)
    ensures !isMac ==> HandleKeyDown(isMac, e.(metaKey := other), openAttr) == HandleKeyDown(isMac, e, openAttr)
  {
  }

  /**
   * The shortcut is checked before the open gate: it does not toggle, and on
   * an already open palette it pushes `open` again, as on a closed one.
   */
  lemma ShortcutOnOpenPaletteReopens(isMac: bool, e: KeyDown)
    requires IsOpenShortcut(isMac, e)
    ensures HandleKeyDown(isMac, e, Some("true")) == HandleKeyDown(isMac, e, None)
    ensures HandleKeyDown(isMac, e, Some("true")) == Response(Some(Open), true)
  {
  }
}
