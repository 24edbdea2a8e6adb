/** The panel stack (`GlobalUIManager`): which full-screen panel is open,
    which panels are shown, and what opening and closing asks of the
    player lock and the pause menu.

    Panels are opaque identities; a panel argument that may be null is an
    `Option`. Whether a panel is shown (`activeSelf`) is the `active` set.
    The player lock, the pause menu's blocking flag, its input lock and its
    toggle belong to other managers, so the manager returns them as calls;
    whether the game is paused is a parameter. */
module GlobalUI {
  import opened GameData

  type PanelId = nat

  /** The requests the panel stack makes of the player lock, the pause
      menu and the HUD. */
  datatype UiCall =
    | LockPlayer
    | UnlockPlayer
    | BlockPause(on: bool)
    | ShowHud
    | LockInputFor(seconds: real)
    | TogglePause

  /** The stack (top last) and the shown panels. */
  datatype Screen = Screen(stack: seq<PanelId>, active: set<PanelId>)

  /** How long the pause menu ignores input after the last panel closes. */
  const CloseInputLock: real := 0.25

  /** The invariant the operations keep: at most one panel is stacked, and
      a stacked panel is shown and is neither the pause menu nor excluded. */
  predicate Good(s: Screen, pause: PanelId, excluded: seq<PanelId>)
  {
    |s.stack| <= 1 &&
    forall p :: p in s.stack ==> p in s.active && p != pause && p !in excluded
  }

  /** `OpenPanel`: null does nothing; the pause menu is only shown; while a
      panel is stacked nothing else opens; an excluded panel is only shown;
      a hidden normal panel is shown and pushed, which (the stack being
      empty at that point) locks the player and blocks the pause menu. */
  function Open(s: Screen, panel: Option<PanelId>, pause: PanelId, excluded: seq<PanelId>)
    : (r: (Screen, seq<UiCall>))
    ensures Good(s, pause, excluded) ==> Good(r.0, pause, excluded)
    ensures panel.None? ==> r == (s, [])
    ensures panel.Some? && panel.value != pause && |s.stack| > 0 ==> r == (s, [])
    ensures r.0.stack != s.stack <==>
              panel.Some? && panel.value != pause && s.stack == [] &&
              panel.value !in excluded && panel.value !in s.active
    ensures r.0.stack != s.stack ==>
              r.0.stack == [panel.value] && r.1 == [LockPlayer, BlockPause(true)]
    ensures r.0.stack == s.stack ==> r.1 == []
    ensures panel.Some? ==> r.0.active == s.active + {panel.value} || r.0 == s
    ensures panel.Some? && (panel.value == pause || panel.value in excluded) && (panel.value == pause || s.stack == []) ==>
              r.0.active == s.active + {panel.value}
  {
    if panel.None? then (s, [])
    else
      var p := panel.value;
      if p == pause then (s.(active := s.active + {p}), [])
      else if |s.stack| > 0 then (s, [])
      else if p in excluded then (s.(active := s.active + {p}), [])
      else if p !in s.active then
        (Screen(s.stack + [p], s.active + {p}), [LockPlayer, BlockPause(true)])
      else (s, [])
  }

  /** The calls of the tail of `ClosePanel`: with the stack empty and the
      game not paused, the HUD is shown, the player unlocked, the pause
      menu unblocked and its input locked for a moment. */
  function Release(stack: seq<PanelId>, paused: bool): (r: seq<UiCall>)
    ensures r != [] <==> stack == [] && !paused
    ensures r != [] ==> UnlockPlayer in r && BlockPause(false) in r
  {
    if |stack| == 0 && !paused then [ShowHud, UnlockPlayer, BlockPause(false), LockInputFor(CloseInputLock)]
    else []
  }

  /** `ClosePanel`: null does nothing; the pause menu and excluded panels
      are only hidden; a shown normal panel is hidden and popped if it is
      the top; and then, whether or not the panel was shown, an empty stack
      releases the player unless the game is paused. */
  function Close(s: Screen, panel: Option<PanelId>, pause: PanelId, excluded: seq<PanelId>, paused: bool)
    : (r: (Screen, seq<UiCall>))
    ensures Good(s, pause, excluded) ==> Good(r.0, pause, excluded)
    ensures panel.None? ==> r == (s, [])
    ensures panel.Some? ==> r.0.active == s.active - {panel.value}
    ensures r.0.stack != s.stack <==>
              panel.Some? && panel.value != pause && panel.value !in excluded && panel.value in s.active &&
              |s.stack| > 0 && s.stack[|s.stack| - 1] == panel.value
    ensures r.0.stack != s.stack ==> r.0.stack == s.stack[..|s.stack| - 1]
    ensures panel.Some? && panel.value != pause && panel.value !in excluded ==>
              (r.0.stack == [] && !paused ==> UnlockPlayer in r.1) &&
              (r.0.stack != [] ==> UnlockPlayer !in r.1)
  {
    if panel.None? then (s, [])
    else
      var p := panel.value;
      if p == pause then (s.(active := s.active - {p}), [])
      else if p in excluded then (s.(active := s.active - {p}), [])
      else
        var hidden :=
          if p in s.active then
            var st := if |s.stack| > 0 && s.stack[|s.stack| - 1] == p then s.stack[..|s.stack| - 1] else s.stack;
            (Screen(st, s.active - {p}), [BlockPause(|st| > 0)])
          else (s, []);
        (hidden.0, hidden.1 + Release(hidden.0.stack, paused))
  }

  /** `HandleEscape`: the top panel is closed if there is one, else the
      pause menu is toggled. */
  function Escape(s: Screen, pause: PanelId, excluded: seq<PanelId>, paused: bool): (r: (Screen, seq<UiCall>))
  {
    if |s.stack| > 0 then Close(s, Some(s.stack[|s.stack| - 1]), pause, excluded, paused)
    else (s, [TogglePause])
  }

  /** Escape with a panel open closes exactly that panel and never toggles
      pause; with none open it only toggles pause. */
  lemma EscapeClosesTopOrPauses(s: Screen, pause: PanelId, excluded: seq<PanelId>, paused: bool)
    requires Good(s, pause, excluded)
    ensures var r := Escape(s, pause, excluded, paused);
            Good(r.0, pause, excluded) &&
            (s.stack != [] ==> r.0.stack == [] && s.stack[0] !in r.0.active &&
                               r.0.active == s.active - {s.stack[0]} && TogglePause !in r.1 &&
                               (!paused <==> UnlockPlayer in r.1)) &&
            (s.stack == [] ==> r == (s, [TogglePause]))
  {
    if s.stack != [] {
      var r := Close(s, Some(s.stack[0]), pause, excluded, paused);
      assert s.stack[|s.stack| - 1] == s.stack[0];
      assert r.0.stack == [];
    }
  }

  /** `CloseAllPanels`: every stacked panel is hidden, the stack emptied,
      the player unlocked and the pause menu unblocked. */
  function CloseAll(s: Screen): (r: (Screen, seq<UiCall>))
    ensures r.0.stack == []
    ensures forall p :: p in r.0.active <==> p in s.active && p !in s.stack
    ensures r.1 == [UnlockPlayer, BlockPause(false)]
  {
    (Screen([], s.active - set p | p in s.stack), [UnlockPlayer, BlockPause(false)])
  }

  /** Opening a panel, then closing it, leaves the stack as it was and
      releases the player. */
  lemma OpenThenCloseReleases(s: Screen, p: PanelId, pause: PanelId, excluded: seq<PanelId>)
    requires Good(s, pause, excluded) && s.stack == [] && p != pause && p !in excluded && p !in s.active
    ensures var o := Open(s, Some(p), pause, excluded);
            var c := Close(o.0, Some(p), pause, excluded, false);
            o.0.stack == [p] && LockPlayer in o.1 &&
            c.0 == s && UnlockPlayer in c.1
  {
    var o := Open(s, Some(p), pause, excluded);
    assert o.0.active - {p} == s.active;
  }

  class GlobalUIManager {
    const pauseMenuPanel: PanelId
    const excludedPanels: seq<PanelId>
    var uiStack: seq<PanelId>
    var active: set<PanelId>

    function State(): Screen
      reads this
    {
      Screen(uiStack, active)
    }

    ghost predicate Valid()
      reads this
    {
      Good(State(), pauseMenuPanel, excludedPanels)
    }

    /** The scene starts with the panels in `shown` shown and none
        stacked. */
    constructor (pauseMenuPanel: PanelId, excludedPanels: seq<PanelId>, shown: set<PanelId>)
      ensures Valid()
      ensures this.pauseMenuPanel == pauseMenuPanel && this.excludedPanels == excludedPanels
      ensures uiStack == [] && active == shown
    {
      this.pauseMenuPanel := pauseMenuPanel;
      this.excludedPanels := excludedPanels;
      uiStack := [];
      active := shown;
    }

    /** `IsAnyPanelOpen`: with the invariant, exactly one panel open. */
    function IsAnyPanelOpen(): (b: bool)
      reads this
      ensures Valid() ==> (b <==> |uiStack| == 1)
    {
      |uiStack| > 0
    }

    method OpenPanel(panel: Option<PanelId>) returns (calls: seq<UiCall>)
      requires Valid()
      modifies this`uiStack, this`active
      ensures Valid()
      ensures (State(), calls) == Open(old(State()), panel, pauseMenuPanel, excludedPanels)
    {
      calls := [];
      if panel.None? {
        return;
      }
      var p := panel.value;
      if p == pauseMenuPanel {
        active := active + {p};
        return;
      }
      if |uiStack| > 0 {
        return;
      }
      if p in excludedPanels {
        active := active + {p};
        return;
      }
      if p !in active {
        active := active + {p};
        uiStack := uiStack + [p];
        if |uiStack| == 1 {
          calls := calls + [LockPlayer];
        }
        calls := calls + [BlockPause(|uiStack| > 0)];
        assert calls == [LockPlayer, BlockPause(true)];
      }
    }

    method ClosePanel(panel: Option<PanelId>, paused: bool) returns (calls: seq<UiCall>)
      requires Valid()
      modifies this`uiStack, this`active
      ensures Valid()
      ensures (State(), calls) == Close(old(State()), panel, pauseMenuPanel, excludedPanels, paused)
    {
      calls := [];
      if panel.None? {
        return;
      }
      var p := panel.value;
      if p == pauseMenuPanel {
        active := active - {p};
        return;
      }
      if p in excludedPanels {
        active := active - {p};
        return;
      }
      if p in active {
        active := active - {p};
        if |uiStack| > 0 && uiStack[|uiStack| - 1] == p {
          uiStack := uiStack[..|uiStack| - 1];
        }
        calls := calls + [BlockPause(|uiStack| > 0)];
      }
      assert State() == Close(old(State()), panel, pauseMenuPanel, excludedPanels, paused).0;
      assert calls == if old(p in active) then [BlockPause(|uiStack| > 0)] else [];
      assert calls + [] == calls;
      if |uiStack| == 0 {
        if paused {
          return;
        }
        calls := calls + Release(uiStack, paused);
      }
    }

    method HandleEscape(paused: bool) returns (calls: seq<UiCall>)
      requires Valid()
      modifies this`uiStack, this`active
      ensures Valid()
      ensures (State(), calls) == Escape(old(State()), pauseMenuPanel, excludedPanels, paused)
    {
      if |uiStack| > 0 {
        calls := ClosePanel(Some(uiStack[|uiStack| - 1]), paused);
        return;
      }
      calls := [TogglePause];
    }

    method CloseAllPanels() returns (calls: seq<UiCall>)
      requires Valid()
      modifies this`uiStack, this`active
      ensures Valid()
      ensures (State(), calls) == CloseAll(old(State()))
    {
      var i := 0;
      while i < |uiStack|
        invariant 0 <= i <= |uiStack| && uiStack == old(uiStack)
        invariant forall p :: p in active <==> p in old(active) && p !in uiStack[..i]
      {
        assert uiStack[..i + 1] == uiStack[..i] + [uiStack[i]];
        active := active - {uiStack[i]};
        i := i + 1;
      }
      assert uiStack[..i] == uiStack;
      assert active == old(active) - set p | p in uiStack;
      uiStack := [];
      calls := [UnlockPlayer, BlockPause(false)];
    }
  }
}
