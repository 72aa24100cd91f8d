/**
 * The Cmd/Ctrl+K listener: whether a key event opens the palette, closes it
 * or is ignored, and what that does to the palette's reducer state.
 */
module CommandPaletteShortcut {
  import opened CommandPaletteContext

  /** The event target's tag name and its `contentEditable` property. */
  datatype Target = Target(tagName: string, contentEditable: string)

  datatype KeyEvent = KeyEvent(metaKey: bool, ctrlKey: bool, key: string, target: Target)

  datatype Decision = Ignore | OpenPalette | ClosePalette

  /** Cmd or Ctrl held, and the key is `k` in either case. */
  predicate IsShortcut(e: KeyEvent)
  {
    (e.metaKey || e.ctrlKey) && (e.key == "k" || e.key == "K")
  }

  /**
   * `handleKeyDown`, given whether the target counts as a place where the
   * user types: ignores anything but the shortcut, ignores it in such a
   * place while the palette is closed, and otherwise toggles.
   */
  function HandleKeyDown(isOpen: bool, e: KeyEvent, inputLike: bool): (d: Decision)
    ensures !IsShortcut(e) ==> d == Ignore
    ensures IsShortcut(e) && isOpen ==> d == ClosePalette
    ensures IsShortcut(e) && !isOpen ==> d == if inputLike then Ignore else OpenPalette
  {
    if !IsShortcut(e) then Ignore
    else if inputLike && !isOpen then Ignore
    else if isOpen then ClosePalette
    else OpenPalette
  }

  /** The callback a decision calls, applied to the reducer state. */
  function Apply(state: State, d: Decision): State
  {
    match d
    case Ignore => state
    case OpenPalette => Reduce(state, Open)
    case ClosePalette => Reduce(state, Close)
  }

  /** Whenever the shortcut acts, it flips the palette's visibility; when it does not, nothing changes. */
  lemma ShortcutToggles(state: State, e: KeyEvent, inputLike: bool)
    ensures var d := HandleKeyDown(state.isOpen, e, inputLike);
      d == Ignore || Apply(state, d).isOpen == !state.isOpen
    ensures var d := HandleKeyDown(state.isOpen, e, inputLike);
      d == Ignore <==> !IsShortcut(e) || (inputLike && !state.isOpen)
    ensures var d := HandleKeyDown(state.isOpen, e, inputLike);
      d == Ignore ==> Apply(state, d) == state
  {
  }

  /** An open palette is closed by the shortcut from any target, to the initial state. */
  lemma ShortcutClosesFromAnywhere(state: State, e: KeyEvent, inputLike: bool)
    requires IsShortcut(e) && state.isOpen
    ensures Apply(state, HandleKeyDown(state.isOpen, e, inputLike)) == InitialState
  {
  }

  // ---------------------------------------------------------------------------
  // Which targets count as input-like
  // ---------------------------------------------------------------------------

  /** The test as written: INPUT, TEXTAREA, or any non-empty `contentEditable` other than "false". */
  predicate IsInputLikeAsWritten(t: Target)
  {
    t.tagName == "INPUT" || t.tagName == "TEXTAREA" || (t.contentEditable != "" && t.contentEditable != "false")
  }

  /** What the DOM reports for an element with no `contenteditable` attribute, such as the page body. */
  const PageBody := Target("BODY", "inherit")

  /**
   * As written, every element without a `contenteditable` attribute reports
   * "inherit" and so counts as input-like: Cmd+K on the page never opens
   * the closed palette.
   */
  lemma AsWrittenNeverOpensFromPage(e: KeyEvent)
    requires e.target.contentEditable == "inherit"
    ensures IsInputLikeAsWritten(e.target)
    ensures HandleKeyDown(false, e, IsInputLikeAsWritten(e.target)) == Ignore
  {
  }

  /** The evident intent: a form field, or an element that is editable ("true" or "plaintext-only"). */
  predicate IsInputLike(t: Target)
  {
    t.tagName == "INPUT" || t.tagName == "TEXTAREA" || t.contentEditable == "true" || t.contentEditable == "plaintext-only"
  }

  /** The listener with the intended test. */
  function Decide(isOpen: bool, e: KeyEvent): (d: Decision)
    ensures IsShortcut(e) && !isOpen && !IsInputLike(e.target) ==> d == OpenPalette
    ensures IsShortcut(e) && !isOpen && IsInputLike(e.target) ==> d == Ignore
    ensures IsShortcut(e) && isOpen ==> d == ClosePalette
    ensures !IsShortcut(e) ==> d == Ignore
  {
    HandleKeyDown(isOpen, e, IsInputLike(e.target))
  }

  /** With the intended test, Cmd+K on any element that is neither a form field nor editable opens the palette. */
  lemma IntendedOpensFromPage(e: KeyEvent)
    requires IsShortcut(e)
    requires e.target.tagName != "INPUT" && e.target.tagName != "TEXTAREA"
    requires e.target.contentEditable == "inherit" || e.target.contentEditable == "false"
    ensures Decide(false, e) == OpenPalette
    ensures Apply(InitialState, Decide(false, e)).isOpen
  {
  }

  /** Both tests agree on form fields and on elements explicitly editable or not. */
  lemma TestsAgreeOnExplicitValues(t: Target)
    requires t.contentEditable in {"true", "false", "plaintext-only"}
    ensures IsInputLike(t) == IsInputLikeAsWritten(t)
  {
  }
}
