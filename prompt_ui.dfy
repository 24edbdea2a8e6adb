/** The single shared prompt (`PromptUI`): one text line that any component
    may show under its own name, and that only its current owner, or an
    anonymous caller, may hide.

    The prompt's shown state is the root's `activeSelf`; its text and
    anchored position are kept as values. The delayed hide of a pickup
    message is a separate call made when its timer runs out. */
module PromptDisplay {
  import opened GameData

  datatype Display = Display(owner: Option<Owner>, shown: bool, text: string, at: Vec2)

  /** `Show(msg, owner[, pos])`: the caller becomes the owner and its text
      is shown at `at`. */
  function ShowOn(d: Display, msg: string, owner: Option<Owner>, at: Vec2): (r: Display)
    ensures r.shown && r.owner == owner && r.text == msg && r.at == at
  {
    Display(owner, true, msg, at)
  }

  /** `Hide(owner)`: honoured only from the current owner or from a null
      caller, and then the prompt is hidden and has no owner; any other
      caller changes nothing. The text and position stay. */
  function HideOn(d: Display, owner: Option<Owner>): (r: Display)
    ensures owner == d.owner || owner.None? ==> !r.shown && r.owner.None?
    ensures owner != d.owner && owner.Some? ==> r == d
    ensures r.text == d.text && r.at == d.at
  {
    if owner == d.owner || owner.None? then d.(shown := false, owner := None) else d
  }

  /** A later `Show` by another component takes the prompt over: the first
      component's `Hide` then leaves the second one's text shown. */
  lemma TakeOver(d: Display, a: Owner, b: Owner, m1: string, m2: string, p1: Vec2, p2: Vec2)
    requires a != b
    ensures var r := HideOn(ShowOn(ShowOn(d, m1, Some(a), p1), m2, Some(b), p2), Some(a));
            r.shown && r.owner == Some(b) && r.text == m2 && r.at == p2
  {
  }

  /** The owner's own `Hide` always hides what it showed, and a second
      `Hide` from anyone other than a null caller is then a no-op. */
  lemma OwnHideHides(d: Display, a: Owner, b: Owner, m: string, p: Vec2)
    ensures var r := HideOn(ShowOn(d, m, Some(a), p), Some(a));
            !r.shown && r.owner.None? && HideOn(r, Some(b)) == r
  {
  }

  /** The delayed `Hide(null)` of a pickup message hides whatever is shown
      when it fires, even a prompt another component showed in between. */
  lemma PickupExpiryHidesLaterPrompt(d: Display, msg: string, other: Owner, m: string, p1: Vec2, p2: Vec2)
    ensures var r := HideOn(ShowOn(ShowOn(d, msg, None, p1), m, Some(other), p2), None);
            !r.shown && r.owner.None?
  {
  }

  /** What a component's `PromptOp` does to the prompt, the component being
      the owner; `HideLater` is the owner's hide once its delay is over. */
  function Apply(d: Display, owner: Owner, at: Vec2, op: PromptOp): (r: Display)
    ensures op.ShowPrompt? ==> r == ShowOn(d, op.text, Some(owner), at)
    ensures !op.ShowPrompt? ==> r == HideOn(d, Some(owner))
  {
    match op
    case ShowPrompt(text) => ShowOn(d, text, Some(owner), at)
    case HidePrompt => HideOn(d, Some(owner))
    case HideLater => HideOn(d, Some(owner))
  }

  /** A notice a component shows and later hides never hides a prompt
      another component showed before the delay ran out. */
  lemma NoticeKeepsOtherPrompt(d: Display, a: Owner, b: Owner, notice: string, m: string, p1: Vec2, p2: Vec2)
    requires a != b
    ensures var shown := Apply(d, a, p1, ShowPrompt(notice));
            var r := Apply(ShowOn(shown, m, Some(b), p2), a, p1, HideLater);
            r.shown && r.owner == Some(b) && r.text == m
  {
  }

  class PromptUI {
    const anchoredPos: Vec2
    var currentOwner: Option<Owner>
    var rootActive: bool
    var promptText: string
    var position: Vec2

    function View(): Display
      reads this
    {
      Display(currentOwner, rootActive, promptText, position)
    }

    /** The scene starts with the prompt hidden and unowned. */
    constructor (anchoredPos: Vec2)
      ensures this.anchoredPos == anchoredPos
      ensures currentOwner.None? && !rootActive && promptText == "" && position == anchoredPos
    {
      this.anchoredPos := anchoredPos;
      currentOwner := None;
      rootActive := false;
      promptText := "";
      position := anchoredPos;
    }

    /** `Show(msg, owner)` at the default position. */
    method Show(msg: string, owner: Option<Owner>)
      modifies this
      ensures View() == ShowOn(old(View()), msg, owner, anchoredPos)
    {
      currentOwner := owner;
      position := anchoredPos;
      promptText := msg;
      rootActive := true;
    }

    /** `Show(msg, owner, anchoredPos)` at a given position. */
    method ShowAt(msg: string, owner: Option<Owner>, at: Vec2)
      modifies this
      ensures View() == ShowOn(old(View()), msg, owner, at)
    {
      currentOwner := owner;
      promptText := msg;
      position := at;
      rootActive := true;
    }

    method Hide(owner: Option<Owner>)
      modifies this
      ensures View() == HideOn(old(View()), owner)
    {
      if owner == currentOwner || owner.None? {
        rootActive := false;
        currentOwner := None;
      }
    }

    /** `ShowPickupMessage`: the message is shown without an owner; its
        timer later calls `PickupExpired`. */
    method ShowPickupMessage(msg: string)
      modifies this
      ensures View() == ShowOn(old(View()), msg, None, anchoredPos)
    {
      Show(msg, None);
    }

    /** The end of a pickup message's delay: an anonymous hide. */
    method PickupExpired()
      modifies this
      ensures View() == HideOn(old(View()), None)
    {
      Hide(None);
    }
  }
}
