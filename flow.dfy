/**
  The screen graph the game's states form: for every state, the states its
  handler can move to in one frame, and for every handler a proof that a
  frame started in its state stays in that state or moves along an edge.
*/
module Flow {
  import opened Input
  import opened GameStates
  import MainLoop
  import SettingsScreen
  import PreLevel
  import IntroductionScreen
  import Level1
  import Level2
  import Level3

  /**
    The states the handler of `s` can switch to in one frame, with
    `previous` the state the settings will return to.
  */
  function Successors(s: GameState, previous: GameState): (next: set<GameState>)
    ensures next == {} <==> s == Exit
    ensures s != Settings && s != Exit ==> Settings in next
  {
    if s == Introduction then {Menu, Settings}
    else if s == Menu then {PreLevel1, Settings, Exit}
    else if s == PreLevel1 then {Playing, Menu, Settings}
    else if s == PreLevel2 then {Playing2, Menu, Settings}
    else if s == PreLevel3 then {Playing3, Menu, Settings}
    else if s == Playing then {PreLevel2, PreLevel1, Menu, Settings}
    else if s == Playing2 then {PreLevel3, Menu, Settings}
    else if s == Playing3 then {Menu, Settings}
    else if s == Settings then {Menu, previous}
    else {}
  }

  /**
    The main line of play: introduction, menu, then each pre-level screen
    and its level in turn, and back to the menu after the third level.
  */
  lemma MainLine()
    ensures var line := [Introduction, Menu, PreLevel1, Playing, PreLevel2, Playing2, PreLevel3, Playing3, Menu];
      forall i :: 0 <= i < |line| - 1 ==> line[i + 1] in Successors(line[i], Menu)
  {
  }

  lemma IntroductionFlow(v: IntroductionScreen.IntroVars, f: Frame)
    requires v.state == Introduction
    ensures var r := IntroductionScreen.IntroNext(v, f);
      r.state == Introduction || r.state in Successors(Introduction, v.previousState)
  {
    if v.initialized {
      IntroductionScreen.IntroTransitions(v, f);
    } else {
      IntroductionScreen.EntryFrameIsQuiet(v, f);
    }
  }

  lemma MenuFlow(v: MainLoop.MenuVars, f: Frame)
    requires v.state == Menu
    ensures var r := MainLoop.MenuNext(v, f);
      r.state == Menu || r.state in Successors(Menu, v.previousState)
  {
    MainLoop.MenuTargets(v, f);
  }

  /** The screen before level k leads to level k, the menu or the settings. */
  lemma PreLevelFlow(k: int, v: PreLevel.PreLevelVars, f: Frame)
    requires 1 <= k <= 3 && v.state == PreLevelOf(k)
    ensures MainLoop.HandlerFor(v.state) == MainLoop.PreLevelHandler(LevelOf(k))
    ensures var r := PreLevel.PreLevelNext(v, LevelOf(k), f);
      r.state == v.state || r.state in Successors(v.state, v.previousState)
  {
    MainLoop.PreLevelDispatch(k);
    PreLevel.PreLevelTargets(v, LevelOf(k), f);
  }

  lemma Level1Flow(v: Level1.Level1Vars, f: Frame, draw: nat)
    requires v.state == Playing && draw < |Level1.Candidates()|
    ensures var r := Level1.Level1Next(v, f, draw);
      r.state == Playing || r.state in Successors(Playing, v.previousState)
  {
    Level1.Level1Order(v, f, draw);
  }

  lemma Level2Flow(g: Globals, f: Frame, atExit: bool)
    requires g.state == Playing2
    ensures var r := Level2.Level2Next(g, f, atExit);
      r.state == Playing2 || r.state in Successors(Playing2, g.previousState)
  {
    Level2.Level2Order(g, f, atExit);
  }

  lemma Level3Flow(g: Globals, f: Frame)
    requires g.state == Playing3
    ensures var r := Level3.Level3Next(g, f);
      r.state == Playing3 || r.state in Successors(Playing3, g.previousState)
  {
    Level3.Level3Order(g, f);
  }

  /** The settings go back to the menu or to the state that opened them. */
  lemma SettingsFlow(v: SettingsScreen.SettingsVars, previous: GameState, f: Frame)
    requires v.state == Settings
    ensures var r := SettingsScreen.SettingsNext(v, previous, f);
      r.state == Settings || r.state in Successors(Settings, previous)
  {
    SettingsScreen.SettingsExits(v, previous, f);
  }
}
