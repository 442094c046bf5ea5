/**
  The screens of the game and the two globals every handler may assign:
  the current screen and the screen SETTINGS returns to.
*/
module GameStates {
  /**
    An unscoped enumeration: each state is the integer given by its
    position in the declaration, from INTRODUCTION = 0 to EXIT = 9.
  */
  newtype GameState = n: int | 0 <= n < 10

  const Introduction: GameState := 0
  const Menu: GameState := 1
  const PreLevel1: GameState := 2
  const PreLevel2: GameState := 3
  const PreLevel3: GameState := 4
  const Playing: GameState := 5
  const Playing2: GameState := 6
  const Playing3: GameState := 7
  const Settings: GameState := 8
  const Exit: GameState := 9

  /** The enumerators in declaration order. */
  const AllStates: seq<GameState> :=
    [Introduction, Menu, PreLevel1, PreLevel2, PreLevel3, Playing, Playing2, Playing3, Settings, Exit]

  /** The ten enumerators are pairwise distinct and every state is one of them. */
  lemma EnumeratorsExhaustive(s: GameState)
    ensures |AllStates| == 10
    ensures forall i :: 0 <= i < |AllStates| ==> AllStates[i] as int == i
    ensures s in AllStates && AllStates[s as int] == s
  {
  }

  /** The pre-level screen that introduces level `k`. */
  function PreLevelOf(k: int): (s: GameState)
    requires 1 <= k <= 3
    ensures s as int == k + 1
    ensures s in {PreLevel1, PreLevel2, PreLevel3}
  {
    if k == 1 then PreLevel1 else if k == 2 then PreLevel2 else PreLevel3
  }

  /** The play screen of level `k`. */
  function LevelOf(k: int): (s: GameState)
    requires 1 <= k <= 3
    ensures s as int == k + 4
    ensures s in {Playing, Playing2, Playing3}
  {
    if k == 1 then Playing else if k == 2 then Playing2 else Playing3
  }

  /** `state` (passed by reference to every handler) and the global `previousState`. */
  datatype Globals = Globals(state: GameState, previousState: GameState)

  /**
    A level-triggered check of the levels: while its key is held the state
    becomes `target`, on every frame, and `previousState` is kept.
  */
  function HeldGoesTo(g: Globals, held: bool, target: GameState): (r: Globals)
    ensures r.previousState == g.previousState
    ensures held ==> r.state == target
    ensures !held ==> r == g
  {
    if held then g.(state := target) else g
  }
}
