/**
  The introduction screen the game opens on: fourteen lines of text, each
  drawn in a style chosen from its position and wording, and the keys that
  lead on to the menu or into the settings.
*/
module IntroductionScreen {
  import opened Input
  import opened GameStates

  /**
    The fourteen lines of the introduction, in order. Each non-empty line is
    written as its first word followed by the rest: the verifier does not
    look inside a literal of sixty characters, and the split lets it see
    how each line begins.
  */
  const IntroLines: seq<string> := [
    "Welcome" + " to Setting Puzzles",
    "",
    "A" + " journey through three unique challenges that explore",
    "the" + " boundaries between settings and gameplay.",
    "",
    "Each" + " level presents a different perspective on how",
    "configuration" + " options can become part of the experience.",
    "",
    "Level" + " 1: Text flows and speed - where reading becomes reactive",
    "Level" + " 2: Navigation through space - where paths define possibility",
    "Level" + " 3: A drive with choices - where silence speaks volumes",
    "",
    "This" + " is not just a game with settings,",
    "but" + " an exploration of settings as narrative."
  ]

  /** `text.find(prefix) == 0`: the text begins with the prefix. */
  predicate StartsWith(text: string, prefix: string) {
    |prefix| <= |text| && text[..|prefix|] == prefix
  }

  /** How a line is drawn: bold yellow, bold green, italic orange or plain light blue. */
  datatype LineStyle = Header | LevelLine | Conclusion | Body

  /**
    The style of line `i` of `count` lines. The rules are tried in order: the
    first line, a line starting with "Level", one of the last two lines.
    `count - 2` is computed on an unsigned size, so for fewer than two
    lines it wraps around and no line is a conclusion.
  */
  function StyleOf(i: nat, text: string, count: nat): (style: LineStyle)
    ensures style == Header <==> i == 0
    ensures style == LevelLine <==> i != 0 && StartsWith(text, "Level")
    ensures style == Conclusion <==> i != 0 && !StartsWith(text, "Level") && count >= 2 && i >= count - 2
  {
    if i == 0 then Header
    else if StartsWith(text, "Level") then LevelLine
    else if count >= 2 && i >= count - 2 then Conclusion
    else Body
  }

  /**
    The introduction has fourteen lines; exactly lines 8, 9 and 10 begin
    with "Level", and the styles come out as header, body, three level
    lines, body, and a two-line conclusion.
  */
  lemma IntroductionLayout()
    ensures |IntroLines| == 14
    ensures forall i :: 0 <= i < 14 ==> (StartsWith(IntroLines[i], "Level") <==> 8 <= i <= 10)
    ensures forall i :: 0 <= i < 14 ==>
      StyleOf(i, IntroLines[i], 14) ==
        if i == 0 then Header
        else if 8 <= i <= 10 then LevelLine
        else if i >= 12 then Conclusion
        else Body
  {
    forall i | 0 <= i < 14
      ensures StartsWith(IntroLines[i], "Level") <==> 8 <= i <= 10
    {
      LevelPrefix(i);
    }
  }

  /** Line `i` begins with "Level" exactly when it is one of the three level lines. */
  lemma LevelPrefix(i: int)
    requires 0 <= i < 14
    ensures StartsWith(IntroLines[i], "Level") <==> 8 <= i <= 10
  {
    if i !in {1, 4, 7, 8, 9, 10, 11} {
      assert IntroLines[i][0] != 'L';
    }
  }

  /** The handler's statics and the two globals it assigns. */
  datatype IntroVars = IntroVars(
    state: GameState, previousState: GameState,
    initialized: bool, enterPressed: bool, escPressed: bool, f1Pressed: bool)

  /** Enter or Space counts as one "continue" key. */
  predicate ContinueHeld(f: Frame) {
    Enter in f.held || Space in f.held
  }

  /** On entry every latch is seeded from the keys currently held. */
  function IntroEntry(v: IntroVars, f: Frame): (r: IntroVars)
    ensures r.initialized && r.state == v.state && r.previousState == v.previousState
    ensures !v.initialized ==> r.enterPressed == ContinueHeld(f) && r.escPressed == (Escape in f.held) && r.f1Pressed == (F1 in f.held)
    ensures v.initialized ==> r == v
  {
    if !v.initialized then
      v.(enterPressed := ContinueHeld(f), escPressed := Escape in f.held, f1Pressed := F1 in f.held, initialized := true)
    else v
  }

  /** Enter or Space (press edge) continues to the menu and resets the screen. */
  function IntroContinue(v: IntroVars, f: Frame): (r: IntroVars)
    ensures r == v.(enterPressed := ContinueHeld(f), state := r.state, initialized := r.initialized)
    ensures ContinueHeld(f) && !v.enterPressed ==> r.state == Menu && !r.initialized
    ensures !(ContinueHeld(f) && !v.enterPressed) ==> r == v.(enterPressed := ContinueHeld(f))
  {
    var e := Press(v.enterPressed, ContinueHeld(f));
    var v1 := v.(enterPressed := e.latch);
    if e.fires then v1.(state := Menu, initialized := false) else v1
  }

  /** Escape (press edge) skips to the menu and resets the screen. */
  function IntroSkip(v: IntroVars, f: Frame): (r: IntroVars)
    ensures r == v.(escPressed := Escape in f.held, state := r.state, initialized := r.initialized)
    ensures Escape in f.held && !v.escPressed ==> r.state == Menu && !r.initialized
    ensures !(Escape in f.held && !v.escPressed) ==> r == v.(escPressed := Escape in f.held)
  {
    var e := Press(v.escPressed, Escape in f.held);
    var v1 := v.(escPressed := e.latch);
    if e.fires then v1.(state := Menu, initialized := false) else v1
  }

  /** F1 (press edge) opens the settings, which will return here; the screen is not reset. */
  function IntroSettings(v: IntroVars, f: Frame): (r: IntroVars)
    ensures r == v.(f1Pressed := F1 in f.held, state := r.state, previousState := r.previousState)
    ensures F1 in f.held && !v.f1Pressed ==> r.state == Settings && r.previousState == Introduction
    ensures !(F1 in f.held && !v.f1Pressed) ==> r == v.(f1Pressed := F1 in f.held)
  {
    var e := Press(v.f1Pressed, F1 in f.held);
    var v1 := v.(f1Pressed := e.latch);
    if e.fires then v1.(previousState := Introduction, state := Settings) else v1
  }

  /** One frame of the introduction: entry seeding, continue, skip, settings, in this order. */
  function IntroNext(v: IntroVars, f: Frame): IntroVars {
    IntroSettings(IntroSkip(IntroContinue(IntroEntry(v, f), f), f), f)
  }

  /**
    Keys held while the screen is entered do nothing on the entry frame:
    the state and `previousState` are kept and every latch is set.
  */
  lemma EntryFrameIsQuiet(v: IntroVars, f: Frame)
    requires !v.initialized
    ensures var r := IntroNext(v, f);
      r.state == v.state && r.previousState == v.previousState && r.initialized
  {
  }

  /**
    After entry, a continue or skip press leads to the menu and resets the
    screen unless a simultaneous F1 press opens the settings, which
    remember INTRODUCTION and leave the screen initialised.
  */
  lemma IntroTransitions(v: IntroVars, f: Frame)
    requires v.initialized
    ensures var r := IntroNext(v, f);
      var leave := (ContinueHeld(f) && !v.enterPressed) || (Escape in f.held && !v.escPressed);
      var settings := F1 in f.held && !v.f1Pressed;
      && (settings ==> r.state == Settings && r.previousState == Introduction && r.initialized == !leave)
      && (!settings && leave ==> r.state == Menu && !r.initialized && r.previousState == v.previousState)
      && (!settings && !leave ==> r.state == v.state && r.initialized && r.previousState == v.previousState)
  {
  }

  /** The handler's statics apart from the font and the animation clock. */
  class IntroScreen {
    var initialized: bool
    var enterPressed: bool
    var escPressed: bool
    var f1Pressed: bool

    function Vars(g: Globals): IntroVars
      reads this
    {
      IntroVars(g.state, g.previousState, initialized, enterPressed, escPressed, f1Pressed)
    }

    constructor ()
      ensures !initialized && !enterPressed && !escPressed && !f1Pressed
    {
      initialized := false;
      enterPressed, escPressed, f1Pressed := false, false, false;
    }

    /** One call of the handler. */
    method Handle(f: Frame, g: Globals) returns (g': Globals)
      modifies this
      ensures Vars(g') == IntroNext(old(Vars(g)), f)
    {
      EntryStep(f, g);
      var g1 := ContinueStep(f, g);
      var g2 := SkipStep(f, g1);
      g' := SettingsStep(f, g2);
    }

    method EntryStep(f: Frame, ghost g: Globals)
      modifies this
      ensures Vars(g) == IntroEntry(old(Vars(g)), f)
    {
      if !initialized {
        enterPressed := Enter in f.held || Space in f.held;
        escPressed := Escape in f.held;
        f1Pressed := F1 in f.held;
        initialized := true;
      }
    }

    method ContinueStep(f: Frame, g: Globals) returns (g': Globals)
      modifies this
      ensures Vars(g') == IntroContinue(old(Vars(g)), f)
    {
      g' := g;
      if Enter in f.held || Space in f.held {
        if !enterPressed {
          g' := g'.(state := Menu);
          initialized := false;
          enterPressed := true;
        }
      } else {
        enterPressed := false;
      }
    }

    method SkipStep(f: Frame, g: Globals) returns (g': Globals)
      modifies this
      ensures Vars(g') == IntroSkip(old(Vars(g)), f)
    {
      g' := g;
      if Escape in f.held {
        if !escPressed {
          g' := g'.(state := Menu);
          initialized := false;
          escPressed := true;
        }
      } else {
        escPressed := false;
      }
    }

    method SettingsStep(f: Frame, g: Globals) returns (g': Globals)
      modifies this
      ensures Vars(g') == IntroSettings(old(Vars(g)), f)
    {
      g' := g;
      if F1 in f.held {
        if !f1Pressed {
          g' := Globals(Settings, Introduction);
          f1Pressed := true;
        }
      } else {
        f1Pressed := false;
      }
    }
  }
}
