/**
  Level 1: a message scrolls across the screen naming a letter key chosen at
  random; pressing that key advances to the screen before level 2. The
  letter is drawn from A..Z minus the keys the level reserves for
  navigation.
*/
module Level1 {
  import opened Input
  import opened GameStates

  /**
    The one-character label of a key: the character `'A' + (key - A)`,
    narrowed to the 8-bit `char` of the program.
  */
  function KeyToString(k: Key): (s: string)
    ensures |s| == 1 && s[0] as int < 256
    ensures A <= k <= Z ==> s[0] as int == 'A' as int + (k - A)
  {
    [((('A' as int) + (k - A)) % 256) as char]
  }

  /** The key whose label is the capital letter `c`, if `c` is one. */
  function LetterKey(c: char): (k: Option<Key>)
    ensures k.Some? <==> 'A' <= c <= 'Z'
    ensures k.Some? ==> A <= k.value <= Z
  {
    if 'A' <= c <= 'Z' then Some(A + (c as int - 'A' as int)) else None
  }

  /** Labels and letters are inverse to each other on A..Z. */
  lemma LabelRoundTrip(k: Key, c: char)
    ensures A <= k <= Z ==> LetterKey(KeyToString(k)[0]) == Some(k)
    ensures 'A' <= c <= 'Z' ==> KeyToString(LetterKey(c).value) == [c]
  {
  }

  /** The keys a level-1 letter may never be: menu, settings and back. */
  const Reserved: set<Key> := {M, F1, Escape}

  /** The keys of `A .. hi - 1` that are not reserved, in increasing order. */
  function Filtered(hi: int): seq<Key>
    decreases hi - A
  {
    if hi <= A then []
    else Filtered(hi - 1) + (if hi - 1 in Reserved then [] else [hi - 1])
  }

  /** The list the level draws its letter from. */
  function Candidates(): seq<Key> {
    Filtered(Z + 1)
  }

  /** The filtered keys below `hi` are exactly the non-reserved keys of that range, strictly increasing. */
  lemma {:induction false} FilteredKeys(hi: int)
    requires A <= hi <= Z + 1
    ensures forall k :: k in Filtered(hi) <==> A <= k < hi && k !in Reserved
    ensures |Filtered(hi)| == (hi - A) - (if hi > M then 1 else 0)
    ensures forall i, j :: 0 <= i < j < |Filtered(hi)| ==> Filtered(hi)[i] < Filtered(hi)[j]
    decreases hi - A
  {
    if hi > A {
      FilteredKeys(hi - 1);
      assert hi - 1 in Reserved <==> hi - 1 == M;
      var prev := Filtered(hi - 1);
      var all := Filtered(hi);
      forall i, j | 0 <= i < j < |all|
        ensures all[i] < all[j]
      {
        if j >= |prev| {
          assert all[j] == hi - 1 && all[i] == prev[i] && prev[i] in prev;
        }
      }
    }
  }

  /** Among the letters only M is reserved. */
  lemma ReservedLetters(k: Key)
    requires A <= k <= Z
    ensures k in Reserved <==> k == M
  {
  }

  /** Twenty-five letters: every letter from A to Z except M. */
  lemma CandidateLetters()
    ensures |Candidates()| == 25
    ensures forall k :: k in Candidates() <==> A <= k <= Z && k !in Reserved
    ensures forall k :: A <= k <= Z ==> (k in Candidates() <==> k != M)
  {
    FilteredKeys(Z + 1);
    forall k | A <= k <= Z
      ensures k in Candidates() <==> k != M
    {
      ReservedLetters(k);
    }
  }

  /** The candidates are listed in increasing key order, so none is listed twice. */
  lemma CandidateOrder()
    ensures forall i, j :: 0 <= i < j < |Candidates()| ==> Candidates()[i] < Candidates()[j]
  {
    FilteredKeys(Z + 1);
  }

  /** The scrolling text that names the key to press. */
  function Message(k: Key): (msg: string)
    ensures |msg| == 14 && msg[..12] == "NextLevel = " && msg[13] == ' '
    ensures msg[12..13] == KeyToString(k)
  {
    "NextLevel = " + KeyToString(k) + " "
  }

  /** For a candidate key the message shows a capital letter, and that letter names the key. */
  lemma MessageNamesKey(k: Key)
    requires k in Candidates()
    ensures 'A' <= Message(k)[12] <= 'Z' && Message(k)[12] != 'M'
    ensures LetterKey(Message(k)[12]) == Some(k)
  {
    CandidateLetters();
  }

  /** The handler's statics (apart from font and scrolling) and the two globals it assigns. */
  datatype Level1Vars = Level1Vars(
    state: GameState, previousState: GameState,
    keyChosen: bool, randomKey: Key,
    keyPressed: bool, escPressed: bool, mPressed: bool, f1Pressed: bool)

  /** With no key chosen, the candidate at the drawn index becomes the key. */
  function ChooseKey(v: Level1Vars, draw: nat): (r: Level1Vars)
    requires draw < |Candidates()|
    ensures r.keyChosen
    ensures v.keyChosen ==> r == v
    ensures !v.keyChosen ==> r == v.(keyChosen := true, randomKey := Candidates()[draw])
  {
    if !v.keyChosen then v.(randomKey := Candidates()[draw], keyChosen := true) else v
  }

  /** Pressing the named key (press edge) leads to the screen before level 2. */
  function KeyStage(v: Level1Vars, f: Frame): (r: Level1Vars)
    ensures r == v.(keyPressed := v.randomKey in f.held, state := r.state, keyChosen := r.keyChosen)
    ensures v.randomKey in f.held && !v.keyPressed ==> r.state == PreLevel2 && !r.keyChosen
    ensures !(v.randomKey in f.held && !v.keyPressed) ==> r == v.(keyPressed := v.randomKey in f.held)
  {
    var e := Press(v.keyPressed, v.randomKey in f.held);
    var v1 := v.(keyPressed := e.latch);
    if e.fires then v1.(state := PreLevel2, keyChosen := false) else v1
  }

  /** Escape (press edge) goes back to the screen before level 1. */
  function EscapeStage(v: Level1Vars, f: Frame): (r: Level1Vars)
    ensures r == v.(escPressed := Escape in f.held, state := r.state, keyChosen := r.keyChosen)
    ensures Escape in f.held && !v.escPressed ==> r.state == PreLevel1 && !r.keyChosen
    ensures !(Escape in f.held && !v.escPressed) ==> r == v.(escPressed := Escape in f.held)
  {
    var e := Press(v.escPressed, Escape in f.held);
    var v1 := v.(escPressed := e.latch);
    if e.fires then v1.(state := PreLevel1, keyChosen := false) else v1
  }

  /** M (press edge) goes back to the menu. */
  function MenuStage(v: Level1Vars, f: Frame): (r: Level1Vars)
    ensures r == v.(mPressed := M in f.held, state := r.state, keyChosen := r.keyChosen)
    ensures M in f.held && !v.mPressed ==> r.state == Menu && !r.keyChosen
    ensures !(M in f.held && !v.mPressed) ==> r == v.(mPressed := M in f.held)
  {
    var e := Press(v.mPressed, M in f.held);
    var v1 := v.(mPressed := e.latch);
    if e.fires then v1.(state := Menu, keyChosen := false) else v1
  }

  /** F1 (press edge) opens the settings, which will return to the state reached so far. */
  function SettingsStage(v: Level1Vars, f: Frame): (r: Level1Vars)
    ensures r == v.(f1Pressed := F1 in f.held, state := r.state, previousState := r.previousState, keyChosen := r.keyChosen)
    ensures F1 in f.held && !v.f1Pressed ==> r.state == Settings && r.previousState == v.state && !r.keyChosen
    ensures !(F1 in f.held && !v.f1Pressed) ==> r == v.(f1Pressed := F1 in f.held)
  {
    var e := Press(v.f1Pressed, F1 in f.held);
    var v1 := v.(f1Pressed := e.latch);
    if e.fires then v1.(previousState := v.state, state := Settings, keyChosen := false) else v1
  }

  /** One frame of level 1: choose a key if needed, then the key, Escape, M and F1 checks, in this order. */
  function Level1Next(v: Level1Vars, f: Frame, draw: nat): Level1Vars
    requires draw < |Candidates()|
  {
    SettingsStage(MenuStage(EscapeStage(KeyStage(ChooseKey(v, draw), f), f), f), f)
  }

  /**
    A chosen key is always a candidate: after every frame the key in force
    is a candidate, hence a letter that is not reserved, and it is the one
    drawn this frame exactly when no key was chosen before.
  */
  lemma KeyAlwaysCandidate(v: Level1Vars, f: Frame, draw: nat)
    requires draw < |Candidates()| && (v.keyChosen ==> v.randomKey in Candidates())
    ensures var r := Level1Next(v, f, draw);
      && r.randomKey in Candidates() && r.randomKey !in Reserved
      && r.randomKey == if v.keyChosen then v.randomKey else Candidates()[draw]
  {
    CandidateLetters();
  }

  /**
    The last check that fires decides the state: F1 over M over Escape over
    the named key; F1 records the state the earlier checks produced.
  */
  lemma Level1Order(v: Level1Vars, f: Frame, draw: nat)
    requires draw < |Candidates()|
    ensures var key := ChooseKey(v, draw).randomKey;
      var keyFires := key in f.held && !v.keyPressed;
      var escFires := Escape in f.held && !v.escPressed;
      var mFires := M in f.held && !v.mPressed;
      var f1Fires := F1 in f.held && !v.f1Pressed;
      var before := if mFires then Menu else if escFires then PreLevel1 else if keyFires then PreLevel2 else v.state;
      var r := Level1Next(v, f, draw);
      && r.state == (if f1Fires then Settings else before)
      && r.previousState == (if f1Fires then before else v.previousState)
      && (r.keyChosen <==> !(keyFires || escFires || mFires || f1Fires))
  {
  }

  /**
    While level 1 is being played, the key stays chosen exactly as long as
    the level goes on, so leaving the level always makes the next visit
    draw a fresh key.
  */
  lemma LeavingRedraws(v: Level1Vars, f: Frame, draw: nat)
    requires draw < |Candidates()| && v.state == Playing
    ensures var r := Level1Next(v, f, draw);
      r.keyChosen <==> r.state == Playing
  {
    Level1Order(v, f, draw);
  }

  /** Every latch afterwards records whether its key is down in this frame. */
  lemma Level1LatchesFollowInput(v: Level1Vars, f: Frame, draw: nat)
    requires draw < |Candidates()|
    ensures var r := Level1Next(v, f, draw);
      && r.keyPressed == (ChooseKey(v, draw).randomKey in f.held)
      && r.escPressed == (Escape in f.held) && r.mPressed == (M in f.held) && r.f1Pressed == (F1 in f.held)
  {
  }

  /** The handler's statics apart from the font, the scroll positions and the clock. */
  class Level1Screen {
    var candidateKeys: seq<Key>
    var keyChosen: bool
    var randomKey: Key
    var keyPressed: bool
    var escPressed: bool
    var mPressed: bool
    var f1Pressed: bool

    /** The candidate list is either not built yet or complete. */
    predicate Valid()
      reads this
    {
      candidateKeys == [] || candidateKeys == Candidates()
    }

    function Vars(g: Globals): Level1Vars
      reads this
    {
      Level1Vars(g.state, g.previousState, keyChosen, randomKey, keyPressed, escPressed, mPressed, f1Pressed)
    }

    /** `randomKey` starts as the unknown key (-1), with no key chosen and no key latched. */
    constructor ()
      ensures Valid() && candidateKeys == []
      ensures !keyChosen && randomKey == -1
      ensures !keyPressed && !escPressed && !mPressed && !f1Pressed
    {
      candidateKeys := [];
      keyChosen := false;
      randomKey := -1;
      keyPressed, escPressed, mPressed, f1Pressed := false, false, false, false;
    }

    /** Fills the candidate list from A to Z, skipping reserved keys, when it is empty. */
    method BuildCandidates()
      requires Valid()
      modifies this
      ensures candidateKeys == Candidates()
      ensures keyChosen == old(keyChosen) && randomKey == old(randomKey)
      ensures keyPressed == old(keyPressed) && escPressed == old(escPressed)
      ensures mPressed == old(mPressed) && f1Pressed == old(f1Pressed)
    {
      if |candidateKeys| == 0 {
        var k := A;
        while k <= Z
          invariant A <= k <= Z + 1
          invariant candidateKeys == Filtered(k)
          invariant keyChosen == old(keyChosen) && randomKey == old(randomKey)
          invariant keyPressed == old(keyPressed) && escPressed == old(escPressed)
          invariant mPressed == old(mPressed) && f1Pressed == old(f1Pressed)
        {
          if k !in Reserved {
            candidateKeys := candidateKeys + [k];
          }
          k := k + 1;
        }
      }
    }

    /**
      One call of the handler, with `draw` the index the uniform distribution
      produced; returns the new globals and the text that scrolls this frame.
    */
    method Handle(f: Frame, draw: nat, g: Globals) returns (g': Globals, message: string)
      requires Valid() && draw < |Candidates()|
      modifies this
      ensures Valid() && candidateKeys == Candidates()
      ensures Vars(g') == Level1Next(old(Vars(g)), f, draw)
      ensures message == Message(ChooseKey(old(Vars(g)), draw).randomKey)
    {
      BuildCandidates();
      ChooseStep(draw, g);
      message := "NextLevel = " + KeyToString(randomKey) + " ";
      var g1 := KeyStep(f, g);
      var g2 := EscapeStep(f, g1);
      var g3 := MenuStep(f, g2);
      g' := SettingsStep(f, g3);
    }

    /** Draws the key from the candidate list when none is chosen. */
    method ChooseStep(draw: nat, ghost g: Globals)
      requires candidateKeys == Candidates() && draw < |Candidates()|
      modifies this
      ensures candidateKeys == Candidates()
      ensures Vars(g) == ChooseKey(old(Vars(g)), draw)
    {
      if !keyChosen {
        randomKey := candidateKeys[draw];
        keyChosen := true;
      }
    }

    method KeyStep(f: Frame, g: Globals) returns (g': Globals)
      modifies this
      ensures candidateKeys == old(candidateKeys)
      ensures Vars(g') == KeyStage(old(Vars(g)), f)
    {
      g' := g;
      if randomKey in f.held {
        if !keyPressed {
          g' := g'.(state := PreLevel2);
          keyChosen := false;
          keyPressed := true;
        }
      } else {
        keyPressed := false;
      }
    }

    method EscapeStep(f: Frame, g: Globals) returns (g': Globals)
      modifies this
      ensures candidateKeys == old(candidateKeys)
      ensures Vars(g') == EscapeStage(old(Vars(g)), f)
    {
      g' := g;
      if Escape in f.held {
        if !escPressed {
          g' := g'.(state := PreLevel1);
          keyChosen := false;
          escPressed := true;
        }
      } else {
        escPressed := false;
      }
    }

    method MenuStep(f: Frame, g: Globals) returns (g': Globals)
      modifies this
      ensures candidateKeys == old(candidateKeys)
      ensures Vars(g') == MenuStage(old(Vars(g)), f)
    {
      g' := g;
      if M in f.held {
        if !mPressed {
          g' := g'.(state := Menu);
          keyChosen := false;
          mPressed := true;
        }
      } else {
        mPressed := false;
      }
    }

    method SettingsStep(f: Frame, g: Globals) returns (g': Globals)
      modifies this
      ensures candidateKeys == old(candidateKeys)
      ensures Vars(g') == SettingsStage(old(Vars(g)), f)
    {
      g' := g;
      if F1 in f.held {
        if !f1Pressed {
          g' := Globals(Settings, g.state);
          keyChosen := false;
          f1Pressed := true;
        }
      } else {
        f1Pressed := false;
      }
    }
  }
}
