/**
  Level 3: a placeholder screen. It clears the window magenta, or green while
  H is held, and leaves for the menu or the settings while M or F1 is held.
  It keeps no state of its own.
*/
module Level3 {
  import opened Input
  import opened GameStates

  /** The colour the window is cleared to. */
  datatype Colour = Magenta | Green

  /** Magenta, overdrawn with green while H is held. */
  function ClearColour(f: Frame): (c: Colour)
    ensures c == Green <==> H in f.held
  {
    if H in f.held then Green else Magenta
  }

  /** F1 opens the settings while held; they will return to level 3. */
  function SettingsCheck(g: Globals, f: Frame): (r: Globals)
    ensures F1 in f.held ==> r == Globals(Settings, Playing3)
    ensures F1 !in f.held ==> r == g
  {
    if F1 in f.held then Globals(Settings, Playing3) else g
  }

  /** One frame: M, then F1. */
  function Level3Next(g: Globals, f: Frame): Globals {
    SettingsCheck(HeldGoesTo(g, M in f.held, Menu), f)
  }

  /**
    F1 beats M because it is checked later, and only F1 touches
    `previousState`; no other key changes the state.
  */
  lemma Level3Order(g: Globals, f: Frame)
    ensures var r := Level3Next(g, f);
      && r.state == (if F1 in f.held then Settings else if M in f.held then Menu else g.state)
      && r.previousState == (if F1 in f.held then Playing3 else g.previousState)
  {
  }

  /** H only changes the colour: the frame's transition is the same with or without it. */
  lemma HLeavesStateAlone(g: Globals, f: Frame)
    ensures Level3Next(g, f) == Level3Next(g, f.(held := f.held - {H}))
    ensures ClearColour(f.(held := f.held - {H})) == Magenta
  {
  }

  /**
    There is no edge detection and no latch: a key held over several frames
    has the same effect as on the first, so a second identical frame
    changes nothing more.
  */
  lemma HeldKeysSettle(g: Globals, f: Frame)
    ensures Level3Next(Level3Next(g, f), f) == Level3Next(g, f)
  {
  }

  /** One call of the handler: the new globals and the colour the window was cleared to. */
  method Handle(f: Frame, g: Globals) returns (g': Globals, clear: Colour)
    ensures g' == Level3Next(g, f)
    ensures clear == ClearColour(f)
  {
    clear := Magenta;
    var state := g.state;
    var previousState := g.previousState;
    if M in f.held {
      state := Menu;
    }
    if F1 in f.held {
      previousState := Playing3;
      state := Settings;
    }
    if H in f.held {
      clear := Green;
    }
    g' := Globals(state, previousState);
  }
}
