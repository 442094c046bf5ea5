/**
  The screen shown before each level: the level's title and controls, and
  the keys that start the level, go back to the menu or open the settings.
  One handler serves all three pre-level screens and shares its statics
  between them.
*/
module PreLevel {
  import opened Input
  import opened GameStates

  /** The heading for the level about to start. */
  function Title(nextLevel: GameState): (title: string)
    ensures title == "Unknown Level" <==> nextLevel !in {Playing, Playing2, Playing3}
  {
    if nextLevel == Playing then "Level 1: Fast Lines"
    else if nextLevel == Playing2 then "Level 2: Dark Maze"
    else if nextLevel == Playing3 then "Level 3: A Silent Drive"
    else "Unknown Level"
  }

  /**
    The instruction lines under the heading: for each of the three levels a
    "Controls:" header, the level's own keys, and the two keys every
    pre-level screen honours; otherwise a single line.
  */
  function Instructions(nextLevel: GameState): (lines: seq<string>)
    ensures |lines| >= 1
    ensures nextLevel in {Playing, Playing2, Playing3} ==>
      && |lines| >= 3
      && lines[0] == "Controls:"
      && lines[|lines| - 2..] == ["M - Return to Menu", "F1 - Open Settings"]
    ensures nextLevel !in {Playing, Playing2, Playing3} <==> |lines| == 1
  {
    if nextLevel == Playing then ["Controls:", "M - Return to Menu", "F1 - Open Settings"]
    else if nextLevel == Playing2 then ["Controls:", "W/A/S/D - Move", "Enter - Next level (when at exit)", "M - Return to Menu", "F1 - Open Settings"]
    else if nextLevel == Playing3 then ["Controls:", "A/D - Steer", "W/S - Speed up/slow down", "R - Restart (when game over)", "M - Return to Menu", "F1 - Open Settings"]
    else ["Press ENTER to continue"]
  }

  /**
    For the three levels the instructions open with the "Controls:" header
    and close with the two keys every pre-level screen honours; the three
    titles differ from each other.
  */
  lemma KnownLevelScreens(k: int, j: int)
    requires 1 <= k <= 3 && 1 <= j <= 3
    ensures var lines := Instructions(LevelOf(k));
      && lines[0] == "Controls:"
      && lines[|lines| - 2..] == ["M - Return to Menu", "F1 - Open Settings"]
    ensures k != j ==> Title(LevelOf(k)) != Title(LevelOf(j))
  {
  }

  /** The handler's statics and the two globals it assigns. */
  datatype PreLevelVars = PreLevelVars(state: GameState, previousState: GameState, enterPressed: bool, initialFrame: bool)

  /** On the first frame after entry the Enter latch is seeded from the key's current state. */
  function EntryLatch(v: PreLevelVars, f: Frame): (r: PreLevelVars)
    ensures !r.initialFrame && r.state == v.state && r.previousState == v.previousState
    ensures r.enterPressed == if v.initialFrame then Enter in f.held else v.enterPressed
  {
    if v.initialFrame then v.(enterPressed := Enter in f.held, initialFrame := false) else v
  }

  /** Enter (press edge) starts the level; leaving re-arms the entry latch. */
  function PreLevelEnter(v: PreLevelVars, nextLevel: GameState, f: Frame): (r: PreLevelVars)
    ensures r.enterPressed == (Enter in f.held) && r.previousState == v.previousState
    ensures Enter in f.held && !v.enterPressed ==> r.state == nextLevel && r.initialFrame
    ensures !(Enter in f.held && !v.enterPressed) ==> r.state == v.state && r.initialFrame == v.initialFrame
  {
    var e := Press(v.enterPressed, Enter in f.held);
    var v1 := v.(enterPressed := e.latch);
    if e.fires then v1.(state := nextLevel, initialFrame := true) else v1
  }

  /** M, while held, goes back to the menu. */
  function PreLevelMenu(v: PreLevelVars, f: Frame): (r: PreLevelVars)
    ensures r.enterPressed == v.enterPressed && r.previousState == v.previousState
    ensures M in f.held ==> r.state == Menu && r.initialFrame
    ensures M !in f.held ==> r == v
  {
    if M in f.held then v.(state := Menu, initialFrame := true) else v
  }

  /** F1, while held, opens the settings, which will return to the state reached so far. */
  function PreLevelF1(v: PreLevelVars, f: Frame): (r: PreLevelVars)
    ensures r.enterPressed == v.enterPressed
    ensures F1 in f.held ==> r.state == Settings && r.previousState == v.state && r.initialFrame
    ensures F1 !in f.held ==> r == v
  {
    if F1 in f.held then v.(previousState := v.state, state := Settings, initialFrame := true) else v
  }

  /** One frame of a pre-level screen: entry latch, Enter, M, F1, in this order. */
  function PreLevelNext(v: PreLevelVars, nextLevel: GameState, f: Frame): PreLevelVars {
    PreLevelF1(PreLevelMenu(PreLevelEnter(EntryLatch(v, f), nextLevel, f), f), f)
  }

  /**
    An Enter still held from the previous screen does not start the level
    on the first frame: the state only changes through M or F1.
  */
  lemma HeldEnterIgnoredOnEntry(v: PreLevelVars, nextLevel: GameState, f: Frame)
    requires v.initialFrame && Enter in f.held
    ensures var r := PreLevelNext(v, nextLevel, f);
      && r.state in {v.state, Menu, Settings}
      && (M !in f.held && F1 !in f.held ==> r.state == v.state && !r.initialFrame && r.enterPressed)
  {
  }

  /** A fresh Enter press after the first frame starts the level. */
  lemma EnterStartsLevel(v: PreLevelVars, nextLevel: GameState, f: Frame)
    requires !v.initialFrame && !v.enterPressed && Enter in f.held && M !in f.held && F1 !in f.held
    ensures PreLevelNext(v, nextLevel, f).state == nextLevel
  {
  }

  /**
    The screen only leads to the level, the menu or the settings, and F1
    records as `previousState` whatever the earlier checks of the frame set.
  */
  lemma PreLevelTargets(v: PreLevelVars, nextLevel: GameState, f: Frame)
    ensures PreLevelNext(v, nextLevel, f).state in {v.state, nextLevel, Menu, Settings}
    ensures F1 in f.held ==>
      var enterFires := Enter in f.held && !v.initialFrame && !v.enterPressed;
      PreLevelNext(v, nextLevel, f).previousState ==
        if M in f.held then Menu else if enterFires then nextLevel else v.state
  {
  }

  /**
    While the screen is showing (its state is neither the next level nor a
    place it leads to), the entry latch is re-armed exactly when the frame
    leaves the screen.
  */
  lemma LeavingRearmsEntry(v: PreLevelVars, nextLevel: GameState, f: Frame)
    requires v.state != nextLevel && v.state != Menu && v.state != Settings
    ensures var r := PreLevelNext(v, nextLevel, f);
      r.initialFrame <==> r.state != v.state
  {
  }

  /** The statics `enterPressed` and `initialFrame`, shared by the three pre-level screens. */
  class PreLevelScreen {
    var enterPressed: bool
    var initialFrame: bool

    function Vars(g: Globals): PreLevelVars
      reads this
    {
      PreLevelVars(g.state, g.previousState, enterPressed, initialFrame)
    }

    constructor ()
      ensures !enterPressed && initialFrame
    {
      enterPressed := false;
      initialFrame := true;
    }

    /** One call of the handler for the screen before `nextLevel`. */
    method Handle(f: Frame, nextLevel: GameState, g: Globals) returns (g': Globals)
      modifies this
      ensures Vars(g') == PreLevelNext(old(Vars(g)), nextLevel, f)
    {
      var currentState := g.state;
      var previousState := g.previousState;
      if initialFrame {
        enterPressed := Enter in f.held;
        initialFrame := false;
      }
      if Enter in f.held {
        if !enterPressed {
          currentState := nextLevel;
          enterPressed := true;
          initialFrame := true;
        }
      } else {
        enterPressed := false;
      }
      if M in f.held {
        currentState := Menu;
        initialFrame := true;
      }
      if F1 in f.held {
        previousState := currentState;
        currentState := Settings;
        initialFrame := true;
      }
      g' := Globals(currentState, previousState);
    }
  }
}
