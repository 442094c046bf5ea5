/**
  The settings screen: a three-entry menu (VSync, Framerate Limit, Back)
  driven by mouse and keyboard, the global framerate choice it edits, and
  its ways back to the screen that opened it.
*/
module SettingsScreen {
  import opened Input
  import opened GameStates

  /** The framerate limits on offer; 0 stands for "unlimited". */
  const FramerateOptions: seq<int> := [0, 30, 60, 120, 144, 240]
  /** How many framerate limits there are. */
  const RateCount := |FramerateOptions|

  /** The global `framerateIndex` starts at 60 frames per second. */
  const DefaultFramerateIndex := 2
  const EntryCount := 3

  /** The framerate index one step up, stopping at the last option. */
  function RaiseRate(index: int): (r: int)
    ensures 0 <= index < RateCount ==> 0 <= r < RateCount
    ensures index < RateCount - 1 ==> r == index + 1
    ensures index >= RateCount - 1 ==> r == index
  {
    if index < RateCount - 1 then index + 1 else index
  }

  /** The framerate index one step down, stopping at the first option. */
  function LowerRate(index: int): (r: int)
    ensures 0 <= index < RateCount ==> 0 <= r < RateCount
    ensures index > 0 ==> r == index - 1
    ensures index <= 0 ==> r == index
  {
    if index > 0 then index - 1 else index
  }

  /**
    The screen's statics, the global `framerateIndex`, and `state`; the
    global `previousState` is only read, so it is a parameter of each step.
  */
  datatype SettingsVars = SettingsVars(
    state: GameState, selected: int, vsyncEnabled: bool, framerateIndex: int,
    upPressed: bool, downPressed: bool, leftPressed: bool, rightPressed: bool, enterPressed: bool,
    mouseLeftPressed: bool, mouseRightPressed: bool)

  /** The pointer over an entry selects it. */
  function SettingsHover(v: SettingsVars, f: Frame): (r: SettingsVars)
    ensures HoveredEntry(f, EntryCount).Some? ==> r == v.(selected := HoveredEntry(f, EntryCount).value)
    ensures HoveredEntry(f, EntryCount).None? ==> r == v
    ensures InRange(v) ==> InRange(r)
  {
    var h := HoveredEntry(f, EntryCount);
    if h.Some? then v.(selected := h.value) else v
  }

  /**
    Left click (press edge): toggles VSync, raises the framerate or goes to
    the MENU, depending on the selected entry.
  */
  function LeftClick(v: SettingsVars, f: Frame): (r: SettingsVars)
    ensures r == v.(mouseLeftPressed := f.mouseLeft, vsyncEnabled := r.vsyncEnabled, framerateIndex := r.framerateIndex, state := r.state)
    ensures !(f.mouseLeft && !v.mouseLeftPressed) ==> r == v.(mouseLeftPressed := f.mouseLeft)
    ensures r.framerateIndex != v.framerateIndex ==> v.selected == 1
    ensures r.state == v.state || (r.state == Menu && v.selected == 2)
    ensures f.mouseLeft && !v.mouseLeftPressed ==>
      && r.vsyncEnabled == (v.vsyncEnabled != (v.selected == 0))
      && r.framerateIndex == (if v.selected == 1 then RaiseRate(v.framerateIndex) else v.framerateIndex)
      && r.state == (if v.selected == 2 then Menu else v.state)
    ensures InRange(v) ==> InRange(r)
  {
    var e := Press(v.mouseLeftPressed, f.mouseLeft);
    v.(mouseLeftPressed := e.latch,
       vsyncEnabled := if e.fires && v.selected == 0 then !v.vsyncEnabled else v.vsyncEnabled,
       framerateIndex := if e.fires && v.selected == 1 then RaiseRate(v.framerateIndex) else v.framerateIndex,
       state := if e.fires && v.selected == 2 then Menu else v.state)
  }

  /** Right click (press edge) on the framerate entry lowers the framerate. */
  function RightClick(v: SettingsVars, f: Frame): (r: SettingsVars)
    ensures r == v.(mouseRightPressed := f.mouseRight, framerateIndex := r.framerateIndex)
    ensures !(f.mouseRight && !v.mouseRightPressed) ==> r == v.(mouseRightPressed := f.mouseRight)
    ensures r.framerateIndex != v.framerateIndex ==> v.selected == 1
    ensures f.mouseRight && !v.mouseRightPressed ==>
      r.framerateIndex == if v.selected == 1 then LowerRate(v.framerateIndex) else v.framerateIndex
    ensures InRange(v) ==> InRange(r)
  {
    var e := Press(v.mouseRightPressed, f.mouseRight);
    v.(mouseRightPressed := e.latch,
       framerateIndex := if e.fires && v.selected == 1 then LowerRate(v.framerateIndex) else v.framerateIndex)
  }

  /** W (press edge) moves the cursor up, wrapping around. */
  function SettingsUp(v: SettingsVars, f: Frame): (r: SettingsVars)
    ensures r == v.(upPressed := W in f.held, selected := r.selected)
    ensures !(W in f.held && !v.upPressed) ==> r == v.(upPressed := W in f.held)
    ensures W in f.held && !v.upPressed && 0 <= v.selected < EntryCount ==>
      r.selected == (v.selected + EntryCount - 1) % EntryCount
    ensures InRange(v) ==> InRange(r)
  {
    var e := Press(v.upPressed, W in f.held);
    v.(upPressed := e.latch, selected := if e.fires then CRem(v.selected - 1 + EntryCount, EntryCount) else v.selected)
  }

  /** S (press edge) moves the cursor down, wrapping around. */
  function SettingsDown(v: SettingsVars, f: Frame): (r: SettingsVars)
    ensures r == v.(downPressed := S in f.held, selected := r.selected)
    ensures !(S in f.held && !v.downPressed) ==> r == v.(downPressed := S in f.held)
    ensures S in f.held && !v.downPressed && 0 <= v.selected < EntryCount ==>
      r.selected == (v.selected + 1) % EntryCount
    ensures InRange(v) ==> InRange(r)
  {
    var e := Press(v.downPressed, S in f.held);
    v.(downPressed := e.latch, selected := if e.fires then CRem(v.selected + 1, EntryCount) else v.selected)
  }

  /** A (press edge) on the framerate entry lowers the framerate. */
  function KeyLeft(v: SettingsVars, f: Frame): (r: SettingsVars)
    ensures r == v.(leftPressed := A in f.held, framerateIndex := r.framerateIndex)
    ensures !(A in f.held && !v.leftPressed) ==> r == v.(leftPressed := A in f.held)
    ensures r.framerateIndex != v.framerateIndex ==> v.selected == 1
    ensures A in f.held && !v.leftPressed ==>
      r.framerateIndex == if v.selected == 1 then LowerRate(v.framerateIndex) else v.framerateIndex
    ensures InRange(v) ==> InRange(r)
  {
    var e := Press(v.leftPressed, A in f.held);
    v.(leftPressed := e.latch, framerateIndex := if e.fires && v.selected == 1 then LowerRate(v.framerateIndex) else v.framerateIndex)
  }

  /** D (press edge) on the framerate entry raises the framerate. */
  function KeyRight(v: SettingsVars, f: Frame): (r: SettingsVars)
    ensures r == v.(rightPressed := D in f.held, framerateIndex := r.framerateIndex)
    ensures !(D in f.held && !v.rightPressed) ==> r == v.(rightPressed := D in f.held)
    ensures r.framerateIndex != v.framerateIndex ==> v.selected == 1
    ensures D in f.held && !v.rightPressed ==>
      r.framerateIndex == if v.selected == 1 then RaiseRate(v.framerateIndex) else v.framerateIndex
    ensures InRange(v) ==> InRange(r)
  {
    var e := Press(v.rightPressed, D in f.held);
    v.(rightPressed := e.latch, framerateIndex := if e.fires && v.selected == 1 then RaiseRate(v.framerateIndex) else v.framerateIndex)
  }

  /** Enter (press edge): toggles VSync, or on Back returns to `previous`. */
  function SettingsEnter(v: SettingsVars, previous: GameState, f: Frame): (r: SettingsVars)
    ensures r == v.(enterPressed := Enter in f.held, vsyncEnabled := r.vsyncEnabled, state := r.state)
    ensures !(Enter in f.held && !v.enterPressed) ==> r == v.(enterPressed := Enter in f.held)
    ensures r.state == v.state || (r.state == previous && v.selected == 2)
    ensures Enter in f.held && !v.enterPressed ==>
      && r.vsyncEnabled == (v.vsyncEnabled != (v.selected == 0))
      && r.state == (if v.selected == 2 then previous else v.state)
    ensures InRange(v) ==> InRange(r)
  {
    var e := Press(v.enterPressed, Enter in f.held);
    v.(enterPressed := e.latch,
       vsyncEnabled := if e.fires && v.selected == 0 then !v.vsyncEnabled else v.vsyncEnabled,
       state := if e.fires && v.selected == 2 then previous else v.state)
  }

  /** Escape, while held (no edge detection), returns to `previous`. */
  function SettingsEscape(v: SettingsVars, previous: GameState, f: Frame): (r: SettingsVars)
    ensures r == v.(state := if Escape in f.held then previous else v.state)
  {
    if Escape in f.held then v.(state := previous) else v
  }

  /**
    One frame of the settings screen: hover, left click, right click, W, S,
    A, D, Enter, Escape, in this order.
  */
  function SettingsNext(v: SettingsVars, previous: GameState, f: Frame): SettingsVars {
    var v1 := RightClick(LeftClick(SettingsHover(v, f), f), f);
    var v2 := KeyRight(KeyLeft(SettingsDown(SettingsUp(v1, f), f), f), f);
    SettingsEscape(SettingsEnter(v2, previous, f), previous, f)
  }

  /** Both the cursor and the framerate index stay in range. */
  ghost predicate InRange(v: SettingsVars) {
    0 <= v.selected < EntryCount && 0 <= v.framerateIndex < RateCount
  }

  lemma SettingsKeepsRanges(v: SettingsVars, previous: GameState, f: Frame)
    requires InRange(v)
    ensures InRange(SettingsNext(v, previous, f))
  {
  }

  /**
    The screen is left only for the MENU (left click on Back) or for
    `previous` (Enter on Back, Escape); Escape always wins.
  */
  lemma SettingsExits(v: SettingsVars, previous: GameState, f: Frame)
    ensures SettingsNext(v, previous, f).state in {v.state, Menu, previous}
    ensures Escape in f.held ==> SettingsNext(v, previous, f).state == previous
  {
  }

  /**
    The framerate changes only through the framerate entry: without a
    cursor move in the frame, it stays put unless that entry is selected.
  */
  lemma FramerateNeedsItsEntry(v: SettingsVars, previous: GameState, f: Frame)
    requires HoveredEntry(f, EntryCount) == None && W !in f.held && S !in f.held
    requires v.selected != 1
    ensures SettingsNext(v, previous, f).framerateIndex == v.framerateIndex
  {
  }

  /** Each latch flag ends the frame equal to whether its key or button is down. */
  lemma SettingsLatchesFollowInput(v: SettingsVars, previous: GameState, f: Frame)
    ensures var r := SettingsNext(v, previous, f);
      && r.upPressed == (W in f.held) && r.downPressed == (S in f.held)
      && r.leftPressed == (A in f.held) && r.rightPressed == (D in f.held) && r.enterPressed == (Enter in f.held)
      && r.mouseLeftPressed == f.mouseLeft && r.mouseRightPressed == f.mouseRight
  {
  }

  /**
    Enter pressed on the VSync entry toggles VSync and stays on the screen;
    releasing it and pressing it again toggles it back.
  */
  lemma EnterTogglesVsync(v: SettingsVars, previous: GameState)
    requires v.selected == 0 && !v.enterPressed && !v.mouseLeftPressed && !v.mouseRightPressed
    ensures var once := SettingsNext(v, previous, Frame({Enter}, false, false, None));
      var released := SettingsNext(once, previous, Frame({}, false, false, None));
      once.vsyncEnabled == !v.vsyncEnabled && once.state == v.state
      && SettingsNext(released, previous, Frame({Enter}, false, false, None)).vsyncEnabled == v.vsyncEnabled
  {
  }

  /** A frame whose only input is key `k` held down, or nothing at all. */
  function KeyOnly(k: Key): Frame { Frame({k}, false, false, None) }
  function Idle(): Frame { Frame({}, false, false, None) }

  /**
    W and S undo each other: a W press and then an S press return the
    cursor to its entry; three W presses, each released before the next,
    go round the three entries.
  */
  lemma SettingsCursorCycles(v: SettingsVars)
    requires InRange(v) && !v.upPressed && !v.downPressed
    ensures var up := SettingsUp(v, KeyOnly(W));
      && up.selected == (v.selected + EntryCount - 1) % EntryCount
      && SettingsDown(up, KeyOnly(S)).selected == v.selected
    ensures var once := SettingsUp(SettingsUp(v, KeyOnly(W)), Idle());
      var twice := SettingsUp(SettingsUp(once, KeyOnly(W)), Idle());
      SettingsUp(twice, KeyOnly(W)).selected == v.selected
  {
  }

  /**
    A left click on the VSync entry toggles VSync and stays on the screen;
    releasing the button and clicking again toggles it back. A left click
    on Back goes to the MENU, whatever screen opened the settings.
  */
  lemma LeftClickTogglesVsync(v: SettingsVars, previous: GameState)
    requires !v.mouseLeftPressed && !v.enterPressed
    ensures v.selected == 0 ==>
      var click := Frame({}, true, false, None);
      var once := SettingsNext(v, previous, click);
      var released := SettingsNext(once, previous, Idle());
      && once.vsyncEnabled == !v.vsyncEnabled && once.state == v.state
      && SettingsNext(released, previous, click).vsyncEnabled == v.vsyncEnabled
    ensures v.selected == 2 ==> SettingsNext(v, previous, Frame({}, true, false, None)).state == Menu
  {
  }

  /** The statics of `handleSettingsState` and the global `framerateIndex`. */
  class Settings {
    var selected: int
    var vsyncEnabled: bool
    var framerateIndex: int
    var upPressed: bool
    var downPressed: bool
    var leftPressed: bool
    var rightPressed: bool
    var enterPressed: bool
    var mouseLeftPressed: bool
    var mouseRightPressed: bool

    function Vars(state: GameState): SettingsVars
      reads this
    {
      SettingsVars(state, selected, vsyncEnabled, framerateIndex,
        upPressed, downPressed, leftPressed, rightPressed, enterPressed, mouseLeftPressed, mouseRightPressed)
    }

    /** The initial values: first entry, VSync off, 60 frames per second, nothing latched. */
    constructor ()
      ensures selected == 0 && !vsyncEnabled && framerateIndex == DefaultFramerateIndex
      ensures FramerateOptions[framerateIndex] == 60
      ensures !upPressed && !downPressed && !leftPressed && !rightPressed && !enterPressed
      ensures !mouseLeftPressed && !mouseRightPressed
    {
      selected := 0;
      vsyncEnabled := false;
      framerateIndex := DefaultFramerateIndex;
      upPressed, downPressed, leftPressed, rightPressed, enterPressed := false, false, false, false, false;
      mouseLeftPressed, mouseRightPressed := false, false;
    }

    /** One call of the handler: the new `state` is returned. */
    method Handle(f: Frame, previous: GameState, state: GameState) returns (next: GameState)
      modifies this
      ensures Vars(next) == SettingsNext(old(Vars(state)), previous, f)
    {
      next := PointerStep(f, state);
      KeysStep(f, next);
      next := EnterStep(f, previous, next);
      if Escape in f.held {
        next := previous;
      }
    }

    /** The hover and the two mouse buttons. */
    method PointerStep(f: Frame, state: GameState) returns (next: GameState)
      modifies this
      ensures Vars(next) == RightClick(LeftClick(SettingsHover(old(Vars(state)), f), f), f)
    {
      HoverStep(f, state);
      next := LeftClickStep(f, state);
      RightClickStep(f, next);
    }

    /** W, S, A and D. */
    method KeysStep(f: Frame, ghost state: GameState)
      modifies this
      ensures Vars(state) == KeyRight(KeyLeft(SettingsDown(SettingsUp(old(Vars(state)), f), f), f), f)
    {
      UpStep(f, state);
      DownStep(f, state);
      LeftKeyStep(f, state);
      RightKeyStep(f, state);
    }

    method HoverStep(f: Frame, ghost state: GameState)
      modifies this
      ensures Vars(state) == SettingsHover(old(Vars(state)), f)
    {
      var h := HoveredEntry(f, EntryCount);
      if h.Some? {
        selected := h.value;
      }
    }

    method LeftClickStep(f: Frame, state: GameState) returns (next: GameState)
      modifies this
      ensures Vars(next) == LeftClick(old(Vars(state)), f)
    {
      next := state;
      if f.mouseLeft && !mouseLeftPressed {
        mouseLeftPressed := true;
        if selected == 0 {
          vsyncEnabled := !vsyncEnabled;
        } else if selected == 1 {
          if framerateIndex < RateCount - 1 {
            framerateIndex := framerateIndex + 1;
          }
        } else if selected == 2 {
          next := Menu;
        }
      } else if !f.mouseLeft {
        mouseLeftPressed := false;
      }
    }

    method RightClickStep(f: Frame, ghost state: GameState)
      modifies this
      ensures Vars(state) == RightClick(old(Vars(state)), f)
    {
      if f.mouseRight && !mouseRightPressed {
        mouseRightPressed := true;
        if selected == 1 {
          if framerateIndex > 0 {
            framerateIndex := framerateIndex - 1;
          }
        }
      } else if !f.mouseRight {
        mouseRightPressed := false;
      }
    }

    method UpStep(f: Frame, ghost state: GameState)
      modifies this
      ensures Vars(state) == SettingsUp(old(Vars(state)), f)
    {
      if W in f.held {
        if !upPressed {
          selected := CRem(selected - 1 + EntryCount, EntryCount);
          upPressed := true;
        }
      } else {
        upPressed := false;
      }
    }

    method DownStep(f: Frame, ghost state: GameState)
      modifies this
      ensures Vars(state) == SettingsDown(old(Vars(state)), f)
    {
      if S in f.held {
        if !downPressed {
          selected := CRem(selected + 1, EntryCount);
          downPressed := true;
        }
      } else {
        downPressed := false;
      }
    }

    method LeftKeyStep(f: Frame, ghost state: GameState)
      modifies this
      ensures Vars(state) == KeyLeft(old(Vars(state)), f)
    {
      if A in f.held {
        if !leftPressed {
          if selected == 1 && framerateIndex > 0 {
            framerateIndex := framerateIndex - 1;
          }
          leftPressed := true;
        }
      } else {
        leftPressed := false;
      }
    }

    method RightKeyStep(f: Frame, ghost state: GameState)
      modifies this
      ensures Vars(state) == KeyRight(old(Vars(state)), f)
    {
      if D in f.held {
        if !rightPressed {
          if selected == 1 && framerateIndex < RateCount - 1 {
            framerateIndex := framerateIndex + 1;
          }
          rightPressed := true;
        }
      } else {
        rightPressed := false;
      }
    }

    method EnterStep(f: Frame, previous: GameState, state: GameState) returns (next: GameState)
      modifies this
      ensures Vars(next) == SettingsEnter(old(Vars(state)), previous, f)
    {
      next := state;
      if Enter in f.held {
        if !enterPressed {
          if selected == 0 {
            vsyncEnabled := !vsyncEnabled;
          } else if selected == 2 {
            next := previous;
          }
          enterPressed := true;
        }
      } else {
        enterPressed := false;
      }
    }
  }
}
