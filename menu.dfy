/**
  The main loop of the game: the main-menu step it runs itself while the
  state is MENU, the background-music rule, and the choice of the handler
  that draws and updates each other screen.
*/
module MainLoop {
  import opened Input
  import opened GameStates

  /** The menu entries, top to bottom. */
  const MenuOptions: seq<string> := ["Start", "Settings", "Exit"]
  const OptionCount := 3

  /** The menu cursor moved one entry up, wrapping from the first entry to the last. */
  function CursorUp(selected: int): (r: int)
    ensures 0 <= selected < OptionCount ==> 0 <= r < OptionCount && (r + 1) % OptionCount == selected
  {
    CRem(selected - 1 + OptionCount, OptionCount)
  }

  /** The menu cursor moved one entry down, wrapping from the last entry to the first. */
  function CursorDown(selected: int): (r: int)
    ensures 0 <= selected < OptionCount ==> 0 <= r < OptionCount && r == (selected + 1) % OptionCount
  {
    CRem(selected + 1, OptionCount)
  }

  /** Up and down undo each other, and three steps in one direction come back. */
  lemma CursorCycles(selected: int)
    requires 0 <= selected < OptionCount
    ensures CursorDown(CursorUp(selected)) == selected && CursorUp(CursorDown(selected)) == selected
    ensures CursorUp(CursorUp(CursorUp(selected))) == selected
    ensures CursorDown(CursorDown(CursorDown(selected))) == selected
  {
  }

  /**
    The menu's part of the loop state: `state` and the global
    `previousState`, the cursor, whether the window is still open, and the
    five latch flags of the edge detectors.
  */
  datatype MenuVars = MenuVars(
    state: GameState, previousState: GameState, selected: int, windowOpen: bool,
    mouseLeftPressed: bool, wPressed: bool, sPressed: bool, enterPressed: bool, f1Pressed: bool)

  /** Activating the selected entry: Start, Settings or Exit (the switch has no default). */
  function Activate(v: MenuVars): (r: MenuVars)
    ensures r.selected == v.selected
    ensures r.mouseLeftPressed == v.mouseLeftPressed && r.wPressed == v.wPressed && r.sPressed == v.sPressed
    ensures r.enterPressed == v.enterPressed && r.f1Pressed == v.f1Pressed
    ensures v.selected == 0 ==> r == v.(state := PreLevel1)
    ensures v.selected == 1 ==> r == v.(state := Settings, previousState := Menu)
    ensures v.selected == 2 ==> r == v.(state := Exit, windowOpen := false)
    ensures !(0 <= v.selected < OptionCount) ==> r == v
  {
    if v.selected == 0 then v.(state := PreLevel1)
    else if v.selected == 1 then v.(previousState := Menu, state := Settings)
    else if v.selected == 2 then v.(state := Exit, windowOpen := false)
    else v
  }

  /** The pointer over an entry selects it. */
  function MenuHover(v: MenuVars, f: Frame): (r: MenuVars)
    ensures HoveredEntry(f, OptionCount).Some? ==> r == v.(selected := HoveredEntry(f, OptionCount).value)
    ensures HoveredEntry(f, OptionCount).None? ==> r == v
    ensures 0 <= v.selected < OptionCount ==> 0 <= r.selected < OptionCount
  {
    var h := HoveredEntry(f, OptionCount);
    if h.Some? then v.(selected := h.value) else v
  }

  /** A left click (press edge) activates the selected entry. */
  function MenuClick(v: MenuVars, f: Frame): (r: MenuVars)
    ensures f.mouseLeft && !v.mouseLeftPressed ==> r == Activate(v.(mouseLeftPressed := true))
    ensures r.selected == v.selected
    ensures !(f.mouseLeft && !v.mouseLeftPressed) ==> r == v.(mouseLeftPressed := f.mouseLeft)
  {
    var e := Press(v.mouseLeftPressed, f.mouseLeft);
    var v1 := v.(mouseLeftPressed := e.latch);
    if e.fires then Activate(v1) else v1
  }

  /** W (press edge) moves the cursor up. */
  function MenuUp(v: MenuVars, f: Frame): (r: MenuVars)
    ensures r == v.(wPressed := W in f.held, selected := r.selected)
    ensures !(W in f.held && !v.wPressed) ==> r == v.(wPressed := W in f.held)
    ensures W in f.held && !v.wPressed ==> r.selected == CursorUp(v.selected)
    ensures 0 <= v.selected < OptionCount ==> 0 <= r.selected < OptionCount
  {
    var e := Press(v.wPressed, W in f.held);
    v.(wPressed := e.latch, selected := if e.fires then CursorUp(v.selected) else v.selected)
  }

  /** S (press edge) moves the cursor down. */
  function MenuDown(v: MenuVars, f: Frame): (r: MenuVars)
    ensures r == v.(sPressed := S in f.held, selected := r.selected)
    ensures !(S in f.held && !v.sPressed) ==> r == v.(sPressed := S in f.held)
    ensures S in f.held && !v.sPressed ==> r.selected == CursorDown(v.selected)
    ensures 0 <= v.selected < OptionCount ==> 0 <= r.selected < OptionCount
  {
    var e := Press(v.sPressed, S in f.held);
    v.(sPressed := e.latch, selected := if e.fires then CursorDown(v.selected) else v.selected)
  }

  /** Enter (press edge) activates the selected entry. */
  function MenuEnter(v: MenuVars, f: Frame): (r: MenuVars)
    ensures Enter in f.held && !v.enterPressed ==> r == Activate(v.(enterPressed := true))
    ensures r.selected == v.selected
    ensures !(Enter in f.held && !v.enterPressed) ==> r == v.(enterPressed := Enter in f.held)
  {
    var e := Press(v.enterPressed, Enter in f.held);
    var v1 := v.(enterPressed := e.latch);
    if e.fires then Activate(v1) else v1
  }

  /** F1 (press edge) opens the settings, which will return to the menu. */
  function MenuF1(v: MenuVars, f: Frame): (r: MenuVars)
    ensures r == v.(f1Pressed := F1 in f.held, previousState := r.previousState, state := r.state)
    ensures F1 in f.held && !v.f1Pressed ==> r.state == Settings && r.previousState == Menu
    ensures !(F1 in f.held && !v.f1Pressed) ==> r == v.(f1Pressed := F1 in f.held)
  {
    var e := Press(v.f1Pressed, F1 in f.held);
    var v1 := v.(f1Pressed := e.latch);
    if e.fires then v1.(previousState := Menu, state := Settings) else v1
  }

  /**
    One frame of the menu: hover, click, W, S, Enter and F1, checked in this
    order, so a later check overrides the state an earlier one set.
  */
  function MenuNext(v: MenuVars, f: Frame): MenuVars {
    MenuF1(MenuEnter(MenuDown(MenuUp(MenuClick(MenuHover(v, f), f), f), f), f), f)
  }

  /** The cursor stays on one of the three entries. */
  lemma MenuKeepsCursor(v: MenuVars, f: Frame)
    requires 0 <= v.selected < OptionCount
    ensures 0 <= MenuNext(v, f).selected < OptionCount
  {
    var v2 := MenuClick(MenuHover(v, f), f);
    assert 0 <= v2.selected < OptionCount;
    var v4 := MenuDown(MenuUp(v2, f), f);
    assert 0 <= v4.selected < OptionCount;
  }

  /**
    From the menu the loop goes only to PRELEVEL1, SETTINGS or EXIT (or
    stays); SETTINGS is always entered with `previousState == MENU`,
    `previousState` is otherwise kept, and EXIT is always accompanied by closing the window. (The converse fails: a
    click on Exit closes the window, and an Enter press in the same frame can
    still activate another entry.)
  */
  lemma MenuTargets(v: MenuVars, f: Frame)
    requires v.state == Menu
    ensures MenuReach(v.previousState, MenuNext(v, f))
  {
    ClickReaches(v.previousState, MenuHover(v, f), f);
    KeysReach(v.previousState, MenuClick(MenuHover(v, f), f), f);
  }

  /** The keyboard half of a menu frame keeps the loop within the menu's targets. */
  lemma KeysReach(previous: GameState, v: MenuVars, f: Frame)
    requires MenuReach(previous, v)
    ensures MenuReach(previous, MenuF1(MenuEnter(MenuDown(MenuUp(v, f), f), f), f))
  {
    EnterReaches(previous, MenuDown(MenuUp(v, f), f), f);
    F1Reaches(previous, MenuEnter(MenuDown(MenuUp(v, f), f), f), f);
  }

  lemma ClickReaches(previous: GameState, v: MenuVars, f: Frame)
    requires MenuReach(previous, v)
    ensures MenuReach(previous, MenuClick(v, f))
  {
    if f.mouseLeft && !v.mouseLeftPressed {
      ActivateReaches(previous, v.(mouseLeftPressed := true));
    }
  }

  lemma EnterReaches(previous: GameState, v: MenuVars, f: Frame)
    requires MenuReach(previous, v)
    ensures MenuReach(previous, MenuEnter(v, f))
  {
    if Enter in f.held && !v.enterPressed {
      ActivateReaches(previous, v.(enterPressed := true));
    }
  }

  lemma F1Reaches(previous: GameState, v: MenuVars, f: Frame)
    requires MenuReach(previous, v)
    ensures MenuReach(previous, MenuF1(v, f))
  {
  }

  lemma ActivateReaches(previous: GameState, v: MenuVars)
    requires MenuReach(previous, v)
    ensures MenuReach(previous, Activate(v))
  {
  }

  /** Where a menu frame can leave the loop, given the `previousState` it started with. */
  ghost predicate MenuReach(previous: GameState, r: MenuVars) {
    && (r.state == Menu || r.state == PreLevel1 || r.state == Settings || r.state == Exit)
    && (r.state == Settings ==> r.previousState == Menu)
    && (r.previousState == previous || r.previousState == Menu)
    && (r.state == Exit ==> !r.windowOpen)
  }

  /** Each latch flag ends the frame equal to whether its key or button is down. */
  lemma MenuLatchesFollowInput(v: MenuVars, f: Frame)
    ensures var r := MenuNext(v, f);
      && r.mouseLeftPressed == f.mouseLeft && r.wPressed == (W in f.held) && r.sPressed == (S in f.held)
      && r.enterPressed == (Enter in f.held) && r.f1Pressed == (F1 in f.held)
  {
  }

  /** A frame in which the only input is the left button going down, or Enter going down. */
  function ClickOnly(): Frame { Frame({}, true, false, None) }
  function EnterOnly(): Frame { Frame({Enter}, false, false, None) }

  /** Activating an entry by click or by Enter has the same effect on the game. */
  lemma ClickAndEnterAgree(v: MenuVars)
    requires !v.mouseLeftPressed && !v.enterPressed
    ensures var c := MenuNext(v, ClickOnly());
      var e := MenuNext(v, EnterOnly());
      c.state == e.state && c.previousState == e.previousState && c.windowOpen == e.windowOpen && c.selected == e.selected
    ensures MenuNext(v, ClickOnly()).state == Activate(v).state
  {
    var a := Activate(v);
    var c2 := MenuClick(MenuHover(v, ClickOnly()), ClickOnly());
    assert c2 == a.(mouseLeftPressed := true);
    var e2 := MenuClick(MenuHover(v, EnterOnly()), EnterOnly());
    assert e2 == v;
    var c5 := MenuEnter(MenuDown(MenuUp(c2, ClickOnly()), ClickOnly()), ClickOnly());
    assert c5 == a.(mouseLeftPressed := true, wPressed := false, sPressed := false);
    var e5 := MenuEnter(MenuDown(MenuUp(e2, EnterOnly()), EnterOnly()), EnterOnly());
    assert e5 == a.(wPressed := false, sPressed := false, enterPressed := true);
  }

  /** The F1 press edge wins over everything else in the frame. */
  lemma MenuF1OpensSettings(v: MenuVars, f: Frame)
    requires F1 in f.held && !v.f1Pressed
    ensures MenuNext(v, f).state == Settings && MenuNext(v, f).previousState == Menu
  {
  }

  const PiecebyPiece := "Sounds/PiecebyPiece.mp3"
  const PiecebyPiece2 := "Sounds/PiecebyPiece2.mp3"

  /** The background music a state calls for. */
  function DesiredSong(s: GameState): (song: string)
    ensures song == PiecebyPiece2 <==> s in {Playing, Playing2, Playing3}
    ensures song == PiecebyPiece <==> s !in {Playing, Playing2, Playing3}
  {
    if s == Introduction then PiecebyPiece
    else if s == Menu then PiecebyPiece
    else if s == Playing then PiecebyPiece2
    else if s == Playing2 then PiecebyPiece2
    else if s == Playing3 then PiecebyPiece2
    else PiecebyPiece
  }

  /** The music is reopened exactly when the desired song is not the one loaded. */
  predicate Reopens(currentSong: string, desired: string) {
    desired != currentSong
  }

  /**
    `currentSong` after the music rule: a reopened song becomes current if
    it loads (`loads`, the result of opening the file) and is cleared if it
    does not.
  */
  function NextSong(currentSong: string, desired: string, loads: bool): string {
    if Reopens(currentSong, desired) then (if loads then desired else "") else currentSong
  }

  /**
    The loop retries the desired song in the next frame exactly when it
    tried in this one and the file failed to load; once loaded, a song is
    not reopened while the state keeps calling for it.
  */
  lemma MusicRetriesOnlyAfterFailure(currentSong: string, s: GameState, loads: bool)
    ensures var d := DesiredSong(s);
      Reopens(NextSong(currentSong, d, loads), d) <==> Reopens(currentSong, d) && !loads
  {
  }

  /** What the loop does with the frame after the menu step and the music rule. */
  datatype Handler =
    | IntroductionHandler
    | MenuScreen
    | PreLevelHandler(nextLevel: GameState)
    | PlayingHandler
    | Playing2Handler
    | Playing3Handler
    | SettingsHandler
    | NoHandler

  /** The handler the loop calls for a state; pre-level screens are told which level follows. */
  function HandlerFor(s: GameState): (h: Handler)
    ensures h.PreLevelHandler? <==> s in {PreLevel1, PreLevel2, PreLevel3}
    ensures h == NoHandler <==> s == Exit
  {
    if s == Introduction then IntroductionHandler
    else if s == Menu then MenuScreen
    else if s == PreLevel1 then PreLevelHandler(Playing)
    else if s == Playing then PlayingHandler
    else if s == PreLevel2 then PreLevelHandler(Playing2)
    else if s == Playing2 then Playing2Handler
    else if s == PreLevel3 then PreLevelHandler(Playing3)
    else if s == Playing3 then Playing3Handler
    else if s == Settings then SettingsHandler
    else NoHandler
  }

  /** PRELEVELk is handed to the pre-level handler with PLAYINGk as the level that follows. */
  lemma PreLevelDispatch(k: int)
    requires 1 <= k <= 3
    ensures HandlerFor(PreLevelOf(k)) == PreLevelHandler(LevelOf(k))
  {
  }

  /** The loop's variables that live across frames. */
  class Game {
    var state: GameState
    var previousState: GameState
    var selected: int
    var windowOpen: bool
    var mouseLeftPressed: bool
    var wPressed: bool
    var sPressed: bool
    var enterPressed: bool
    var f1Pressed: bool
    var currentSong: string

    function Vars(): MenuVars
      reads this
    {
      MenuVars(state, previousState, selected, windowOpen, mouseLeftPressed, wPressed, sPressed, enterPressed, f1Pressed)
    }

    /** The game opens on the introduction with the first menu entry selected and no song loaded. */
    constructor ()
      ensures state == Introduction && previousState == Menu && selected == 0 && windowOpen
      ensures !mouseLeftPressed && !wPressed && !sPressed && !enterPressed && !f1Pressed
      ensures currentSong == ""
    {
      state := Introduction;
      previousState := Menu;
      selected := 0;
      windowOpen := true;
      mouseLeftPressed := false;
      wPressed, sPressed, enterPressed, f1Pressed := false, false, false, false;
      currentSong := "";
    }

    /** The menu step, run only while the state is MENU. */
    method MenuFrame(f: Frame)
      modifies this
      ensures Vars() == if old(state) == Menu then MenuNext(old(Vars()), f) else old(Vars())
      ensures currentSong == old(currentSong)
    {
      if state == Menu {
        HoverStep(f);
        ClickStep(f);
        UpStep(f);
        DownStep(f);
        EnterStep(f);
        F1Step(f);
      }
    }

    method HoverStep(f: Frame)
      modifies this
      ensures Vars() == MenuHover(old(Vars()), f) && currentSong == old(currentSong)
    {
      var h := HoveredEntry(f, OptionCount);
      if h.Some? {
        selected := h.value;
      }
    }

    method ClickStep(f: Frame)
      modifies this
      ensures Vars() == MenuClick(old(Vars()), f) && currentSong == old(currentSong)
    {
      if f.mouseLeft && !mouseLeftPressed {
        mouseLeftPressed := true;
        ActivateSelected();
      } else if !f.mouseLeft {
        mouseLeftPressed := false;
      }
    }

    method UpStep(f: Frame)
      modifies this
      ensures Vars() == MenuUp(old(Vars()), f) && currentSong == old(currentSong)
    {
      if W in f.held {
        if !wPressed {
          selected := CRem(selected - 1 + OptionCount, OptionCount);
          wPressed := true;
        }
      } else {
        wPressed := false;
      }
    }

    method DownStep(f: Frame)
      modifies this
      ensures Vars() == MenuDown(old(Vars()), f) && currentSong == old(currentSong)
    {
      if S in f.held {
        if !sPressed {
          selected := CRem(selected + 1, OptionCount);
          sPressed := true;
        }
      } else {
        sPressed := false;
      }
    }

    method EnterStep(f: Frame)
      modifies this
      ensures Vars() == MenuEnter(old(Vars()), f) && currentSong == old(currentSong)
    {
      if Enter in f.held {
        if !enterPressed {
          ActivateSelected();
          enterPressed := true;
        }
      } else {
        enterPressed := false;
      }
    }

    method F1Step(f: Frame)
      modifies this
      ensures Vars() == MenuF1(old(Vars()), f) && currentSong == old(currentSong)
    {
      if F1 in f.held {
        if !f1Pressed {
          previousState := Menu;
          state := Settings;
          f1Pressed := true;
        }
      } else {
        f1Pressed := false;
      }
    }

    /** The `switch (selected)` shared by the click and the Enter key. */
    method ActivateSelected()
      modifies this
      ensures Vars() == Activate(old(Vars()))
      ensures currentSong == old(currentSong)
    {
      if selected == 0 {
        state := PreLevel1;
      } else if selected == 1 {
        previousState := Menu;
        state := Settings;
      } else if selected == 2 {
        state := Exit;
        windowOpen := false;
      }
    }

    /** The music rule; `loads` is whether opening the desired file succeeds. */
    method UpdateMusic(loads: bool)
      modifies this
      ensures currentSong == NextSong(old(currentSong), DesiredSong(state), loads)
      ensures Vars() == old(Vars())
    {
      var desiredSong := DesiredSong(state);
      if desiredSong != currentSong {
        if loads {
          currentSong := desiredSong;
        } else {
          currentSong := "";
        }
      }
    }

    /**
      One turn of the loop: the menu step, the music rule, then the handler
      the (possibly new) state calls for.
    */
    method Turn(f: Frame, loads: bool) returns (handler: Handler)
      modifies this
      ensures Vars() == if old(state) == Menu then MenuNext(old(Vars()), f) else old(Vars())
      ensures currentSong == NextSong(old(currentSong), DesiredSong(state), loads)
      ensures handler == HandlerFor(state)
    {
      MenuFrame(f);
      UpdateMusic(loads);
      handler := HandlerFor(state);
    }
  }
}
