# FS1.1 maze game: a Dafny model of its screens and maze generator

FS1.1 is a small SFML game. It has an introduction, a main menu, a settings screen, a "pre-level" screen before each of three levels, and the three levels:

- Level 1 asks for a randomly chosen letter key.
- Level 2 is a maze the player walks through to the exit.
- Level 3 is a placeholder.

The whole game is one loop. Each frame it:

1. runs the menu step when the state is `MENU`;
2. picks the background song for the state;
3. calls the handler of the current `GameState`.

Each handler reads the keyboard and mouse, assigns the global `state` and sometimes `previousState` (the screen that SETTINGS returns to), and keeps its own "was pressed last frame" latches in function-local statics.

The model follows that structure.

- `GameStates` (`states.dfy`) is the `GameState` enumeration. It is an integer newtype with one constant per enumerator, plus the pair of globals every handler assigns.
- `Input` (`input.dfy`) is what a handler can observe in one frame: the keys held, the two mouse buttons, and the menu entry under the pointer. It also holds the edge-detection rule all the latches share.
- Each screen is its own module:
  - `MainLoop` (`menu.dfy`) is the main loop: menu step, music rule and dispatch;
  - `SettingsScreen` (`settings.dfy`);
  - `PreLevel` (`prelevel.dfy`);
  - `IntroductionScreen` (`intro.dfy`);
  - `Level1` (`level1.dfy`);
  - `Level2` (`level2.dfy`);
  - `Level3` (`level3.dfy`).

  A screen's frame is a pure function over a record of its globals and statics, composed of one function per block of the handler in source order. A class holds the same statics as mutable fields. Its `Handle` method runs the block sequence imperatively and is proved equal to the pure function.
- `Flow` (`flow.dfy`) is the screen graph. For every state it gives the states the state's handler can move to, and it proves each handler stays on that graph.
- `Grid` (`grid.dfy`) holds the maze vocabulary: cells with four walls, positions, passages, and the box of all cells. It also holds the proof of the randomised depth-first backtracker: spanning tree, stack chain and termination measure.
- `MazeGrid` (`maze.dfy`) is the `Maze` class. Its fields are the maze's width, height, cell size, player cell, and a `width × height` array of cells stored row-major, as in the source's `grid[y][x]`.
  - Generation is imperative: a stack loop over the array, with the random neighbour picked by a nondeterministic choice.
  - It is proved to visit every cell, keep each wall consistent between the two cells that share it, keep the outer border closed, and open exactly the passages of a spanning tree plus the exit passages.
  - The loop makes exactly `2·w·h − 1` iterations.

## Model

| member | source | states |
|---|---|---|
| GameStates.EnumeratorsExhaustive | FS1.1/GameState.h:8-78 | the ten enumerators are distinct, numbered 0..9 in declaration order, and every state is one of them |
| GameStates.PreLevelOf | FS1.1/GameState.h:28-38 | the pre-level screen of level k is PRELEVEL1..3, enumerator k+1 |
| GameStates.LevelOf | FS1.1/GameState.h:47-59 | the play screen of level k is PLAYING..PLAYING3, enumerator k+4 |
| GameStates.HeldGoesTo | FS1.1/Playingstate2.cpp:124-126 | the level-triggered checks of levels 2 and 3 (M to MENU, H to PRELEVEL3): while the key is held the state becomes the target and `previousState` is kept; otherwise nothing changes |
| Input.HoveredEntry | FS1.1/SettingsState.cpp:52-57 | an entry is hovered iff the pointer is over one of the `count` entries, and it is that entry |
| Input.Press | FS1.1/FS1.1.cpp:275-285 | the shared latch rule: an action fires iff the key is down and was not down last frame, and the latch becomes "down" |
| Input.FiringsBoundedByReleases | FS1.1/FS1.1.cpp:275-285 | over any run of frames a latched action fires at most once per release, plus once if it starts unlatched |
| Input.HoldingFiresOnce | FS1.1/FS1.1.cpp:275-285 | holding a key for n frames fires its action exactly once, or never if it was already latched |
| Input.CRem | FS1.1/FS1.1.cpp:278 | C++ `%`: the mathematical remainder on non-negative operands; on any operands `a == n·CDiv(a, n) + r` for the quotient truncated toward zero, so a negative operand gives a remainder in (−n, 0] |
| MainLoop.CursorUp | FS1.1/FS1.1.cpp:278 | W moves the cursor to the previous of the three entries, wrapping; the result is in range and one step before it is the old entry |
| MainLoop.CursorDown | FS1.1/FS1.1.cpp:291 | S moves the cursor to the next of the three entries, wrapping, and stays in range |
| MainLoop.CursorCycles | FS1.1/FS1.1.cpp:275-298 | up and down are inverse, and three moves in one direction return to the start |
| MainLoop.Activate | FS1.1/FS1.1.cpp:260-267 | entry 0 goes to PRELEVEL1, entry 1 to SETTINGS remembering MENU, entry 2 to EXIT closing the window; nothing else changes |
| MainLoop.MenuHover | FS1.1/FS1.1.cpp:242-250 | the entry under the pointer becomes the selected one and nothing else changes; with no entry under the pointer nothing changes |
| MainLoop.MenuClick | FS1.1/FS1.1.cpp:254-271 | a left-click edge sets the latch and activates the selected entry (`Activate`); otherwise only the click latch follows the button |
| MainLoop.MenuUp | FS1.1/FS1.1.cpp:275-285 | a W edge moves the cursor to `CursorUp(selected)` (one up, wrapping to the last entry); otherwise only the W latch follows the key |
| MainLoop.MenuDown | FS1.1/FS1.1.cpp:288-298 | an S edge moves the cursor to `CursorDown(selected)` (one down, wrapping to the first entry); otherwise only the S latch follows the key |
| MainLoop.MenuEnter | FS1.1/FS1.1.cpp:302-320 | an Enter edge sets the latch and activates the selected entry (`Activate`); otherwise only the Enter latch changes |
| MainLoop.MenuF1 | FS1.1/FS1.1.cpp:324-334 | an F1 edge opens SETTINGS with MENU as the state to return to; otherwise only the F1 latch changes |
| MainLoop.MenuKeepsCursor | FS1.1/FS1.1.cpp:233-335 | a menu frame keeps the cursor within the three entries |
| MainLoop.MenuTargets | FS1.1/FS1.1.cpp:233-335 | a menu frame leaves the state at MENU or moves to PRELEVEL1, SETTINGS (remembering MENU) or EXIT (closing the window) |
| MainLoop.ActivateReaches | FS1.1/FS1.1.cpp:260-267 | activating any entry lands in one of the menu's targets |
| MainLoop.MenuLatchesFollowInput | FS1.1/FS1.1.cpp:233-335 | after a menu frame every latch equals whether its key or button is down |
| MainLoop.ClickAndEnterAgree | FS1.1/FS1.1.cpp:254-320 | clicking an entry and pressing Enter on it have the same effect on state, previous state, window and cursor |
| MainLoop.MenuF1OpensSettings | FS1.1/FS1.1.cpp:324-334 | an F1 edge wins over every other input of the frame: SETTINGS, remembering MENU |
| MainLoop.DesiredSong | FS1.1/FS1.1.cpp:339-354 | the second song plays in the three level states and the first song everywhere else |
| MainLoop.MusicRetriesOnlyAfterFailure | FS1.1/FS1.1.cpp:357-372 | the song is reopened next frame iff it was reopened this frame and failed to load; a loaded song is not reopened |
| MainLoop.HandlerFor | FS1.1/FS1.1.cpp:384-428 | the pre-level handler runs exactly in the three pre-level states, and nothing runs in EXIT |
| MainLoop.PreLevelDispatch | FS1.1/FS1.1.cpp:401-420 | the pre-level screen of level k is called with level k's play state as its next level |
| MainLoop.Game.constructor | FS1.1/FS1.1.cpp:134-205 | the loop starts in INTRODUCTION with MENU as previous state, cursor on the first entry, window open, all latches released and no song loaded |
| MainLoop.Game.MenuFrame | FS1.1/FS1.1.cpp:233-335 | the menu step changes the loop's variables as the menu frame function says when the state is MENU, and changes nothing otherwise |
| MainLoop.Game.HoverStep | FS1.1/FS1.1.cpp:242-250 | the hover block updates the fields as `MenuHover` |
| MainLoop.Game.ClickStep | FS1.1/FS1.1.cpp:254-271 | the click block updates the fields as `MenuClick` |
| MainLoop.Game.UpStep | FS1.1/FS1.1.cpp:275-285 | the W block updates the fields as `MenuUp` |
| MainLoop.Game.DownStep | FS1.1/FS1.1.cpp:288-298 | the S block updates the fields as `MenuDown` |
| MainLoop.Game.EnterStep | FS1.1/FS1.1.cpp:302-320 | the Enter block updates the fields as `MenuEnter` |
| MainLoop.Game.F1Step | FS1.1/FS1.1.cpp:324-334 | the F1 block updates the fields as `MenuF1` |
| MainLoop.Game.ActivateSelected | FS1.1/FS1.1.cpp:260-267 | the entry switch updates the fields as `Activate` |
| MainLoop.Game.UpdateMusic | FS1.1/FS1.1.cpp:339-372 | the current song becomes the desired one if it had to be reopened and loaded, is cleared if loading failed, and stays otherwise; nothing else changes |
| MainLoop.Game.Turn | FS1.1/FS1.1.cpp:233-428 | one loop iteration: the menu step, the music rule, and the handler chosen for the resulting state |
| SettingsScreen.RaiseRate | FS1.1/SettingsState.cpp:71-74 | below the last option the index rises by exactly one; at the last option it stays; the result stays in range |
| SettingsScreen.LowerRate | FS1.1/SettingsState.cpp:87-90 | above the first option the index falls by exactly one; at the first option it stays; the result stays in range |
| SettingsScreen.SettingsHover | FS1.1/SettingsState.cpp:52-57 | the entry under the pointer becomes the selected one and nothing else changes; with no entry under the pointer nothing changes |
| SettingsScreen.LeftClick | FS1.1/SettingsState.cpp:64-81 | on a left-click edge VSync flips exactly when entry 0 is selected, the rate is `RaiseRate` of the old one exactly on entry 1, and the state becomes MENU exactly on entry 2; otherwise only the latch follows the button |
| SettingsScreen.RightClick | FS1.1/SettingsState.cpp:84-94 | on a right-click edge the rate becomes `LowerRate` of the old one on entry 1 and is kept otherwise; without an edge only the latch follows the button |
| SettingsScreen.SettingsUp | FS1.1/SettingsState.cpp:99-105 | a W edge moves a cursor in range to `(selected + 2) % 3`, one up with wrap-around; otherwise only the W latch follows the key; the cursor stays in range |
| SettingsScreen.SettingsDown | FS1.1/SettingsState.cpp:107-113 | an S edge moves a cursor in range to `(selected + 1) % 3`, one down with wrap-around; otherwise only the S latch follows the key; the cursor stays in range |
| SettingsScreen.KeyLeft | FS1.1/SettingsState.cpp:115-121 | on an A edge the rate becomes `LowerRate` of the old one on entry 1 and is kept otherwise; without an edge only the A latch changes |
| SettingsScreen.KeyRight | FS1.1/SettingsState.cpp:123-129 | on a D edge the rate becomes `RaiseRate` of the old one on entry 1 and is kept otherwise; without an edge only the D latch changes |
| SettingsScreen.SettingsEnter | FS1.1/SettingsState.cpp:131-142 | on an Enter edge VSync flips exactly when entry 0 is selected and the state becomes the previous state exactly on entry 2; otherwise only the latch changes |
| SettingsScreen.SettingsEscape | FS1.1/SettingsState.cpp:144-146 | holding Escape returns to the previous state, with no latch |
| SettingsScreen.SettingsKeepsRanges | FS1.1/SettingsState.cpp:6-147 | a settings frame keeps the cursor and the framerate index within their option lists |
| SettingsScreen.SettingsExits | FS1.1/SettingsState.cpp:6-147 | the settings screen leads only to MENU or to the previous state, and Escape always returns to the previous state |
| SettingsScreen.FramerateNeedsItsEntry | FS1.1/SettingsState.cpp:64-129 | when the framerate entry is not selected and the cursor does not move, the framerate does not change |
| SettingsScreen.SettingsLatchesFollowInput | FS1.1/SettingsState.cpp:6-147 | after a settings frame every latch equals whether its key or button is down |
| SettingsScreen.LeftClickTogglesVsync | FS1.1/SettingsState.cpp:64-81 | a click on the VSync entry flips it and stays on the screen, release and click again flips it back, and a click on "Back" goes to MENU |
| SettingsScreen.SettingsCursorCycles | FS1.1/SettingsState.cpp:99-113 | W then S brings the cursor back, and three W presses (released in between) go once round the three entries |
| SettingsScreen.EnterTogglesVsync | FS1.1/SettingsState.cpp:131-142 | Enter on the VSync entry toggles it and stays on the screen; release and press again toggles it back |
| SettingsScreen.Settings.constructor | FS1.1/SettingsState.cpp:3-13 | the statics start with the cursor on VSync, VSync off, 60 fps and all latches released |
| SettingsScreen.Settings.Handle | FS1.1/SettingsState.cpp:6-147 | one call of the handler changes the statics and the state as the settings frame function |
| SettingsScreen.Settings.PointerStep | FS1.1/SettingsState.cpp:52-94 | the mouse part of the handler: hover, then left click, then right click |
| SettingsScreen.Settings.KeysStep | FS1.1/SettingsState.cpp:99-129 | the W, S, A and D blocks in source order |
| SettingsScreen.Settings.HoverStep | FS1.1/SettingsState.cpp:52-57 | the hover block updates the statics as `SettingsHover` |
| SettingsScreen.Settings.LeftClickStep | FS1.1/SettingsState.cpp:64-81 | the left-click block updates the statics and the state as `LeftClick` |
| SettingsScreen.Settings.RightClickStep | FS1.1/SettingsState.cpp:84-94 | the right-click block updates the statics as `RightClick` |
| SettingsScreen.Settings.UpStep | FS1.1/SettingsState.cpp:99-105 | the W block updates the statics as `SettingsUp` |
| SettingsScreen.Settings.DownStep | FS1.1/SettingsState.cpp:107-113 | the S block updates the statics as `SettingsDown` |
| SettingsScreen.Settings.LeftKeyStep | FS1.1/SettingsState.cpp:115-121 | the A block updates the statics as `KeyLeft` |
| SettingsScreen.Settings.RightKeyStep | FS1.1/SettingsState.cpp:123-129 | the D block updates the statics as `KeyRight` |
| SettingsScreen.Settings.EnterStep | FS1.1/SettingsState.cpp:131-142 | the Enter block updates the statics and the state as `SettingsEnter` |
| PreLevel.Title | FS1.1/PreLevelState.cpp:27-61 | the title is "Unknown Level" exactly when the next level is not one of the three play states |
| PreLevel.Instructions | FS1.1/PreLevelState.cpp:27-61 | for the three levels the lines open with "Controls:" and end with the M and F1 keys; any other state gets exactly one line |
| PreLevel.KnownLevelScreens | FS1.1/PreLevelState.cpp:27-61 | each level's screen starts its instructions with "Controls:" and ends with the menu and settings lines, and the three titles differ |
| PreLevel.EntryLatch | FS1.1/PreLevelState.cpp:16-19 | on the first frame the Enter latch takes the key's current state, so an Enter held on arrival does not fire |
| PreLevel.PreLevelEnter | FS1.1/PreLevelState.cpp:96-105 | an Enter edge starts the next level and re-arms the entry frame; otherwise the state stays |
| PreLevel.PreLevelMenu | FS1.1/PreLevelState.cpp:108-111 | holding M goes to MENU and re-arms the entry frame; otherwise nothing changes |
| PreLevel.PreLevelF1 | FS1.1/PreLevelState.cpp:112-117 | holding F1 opens SETTINGS, remembering the current state, and re-arms the entry frame |
| PreLevel.HeldEnterIgnoredOnEntry | FS1.1/PreLevelState.cpp:16-19 | an Enter held when the screen appears cannot start the level |
| PreLevel.EnterStartsLevel | FS1.1/PreLevelState.cpp:96-105 | a fresh Enter press after the first frame, with no M or F1, starts the level |
| PreLevel.PreLevelTargets | FS1.1/PreLevelState.cpp:96-117 | the screen leads only to its level, MENU or SETTINGS; F1 records the state the earlier checks of the frame set |
| PreLevel.LeavingRearmsEntry | FS1.1/PreLevelState.cpp:16-117 | the entry latch is re-armed exactly when the frame leaves the screen |
| PreLevel.PreLevelScreen.constructor | FS1.1/PreLevelState.cpp:7-8 | the statics start with Enter released and the entry frame armed |
| PreLevel.PreLevelScreen.Handle | FS1.1/PreLevelState.cpp:3-117 | one call of the handler changes statics and globals as the pre-level frame function |
| IntroductionScreen.StyleOf | FS1.1/IntroductionState.cpp:93-104 | the first line is the header; lines starting "Level" are level lines; the last two other lines are the conclusion; the rest are body |
| IntroductionScreen.IntroductionLayout | FS1.1/IntroductionState.cpp:63-78 | the text has 14 lines; exactly lines 8 to 10 name a level; the styles fall as the layout promises |
| IntroductionScreen.IntroEntry | FS1.1/IntroductionState.cpp:23-33 | the first call latches Enter/Space, Escape and F1 as currently held; later calls are unaffected |
| IntroductionScreen.IntroContinue | FS1.1/IntroductionState.cpp:144-154 | an Enter-or-Space edge goes to MENU and resets the screen; otherwise only that latch changes |
| IntroductionScreen.IntroSkip | FS1.1/IntroductionState.cpp:157-167 | an Escape edge goes to MENU and resets the screen; otherwise only that latch changes |
| IntroductionScreen.IntroSettings | FS1.1/IntroductionState.cpp:170-181 | an F1 edge opens SETTINGS remembering INTRODUCTION; otherwise only that latch changes |
| IntroductionScreen.EntryFrameIsQuiet | FS1.1/IntroductionState.cpp:23-33 | the screen's first frame never changes state, so keys held on arrival are ignored |
| IntroductionScreen.IntroTransitions | FS1.1/IntroductionState.cpp:144-181 | after entry, continue or skip goes to MENU and resets, unless a simultaneous F1 opens SETTINGS, which remembers INTRODUCTION |
| IntroductionScreen.IntroScreen.constructor | FS1.1/IntroductionState.cpp:14-19 | the statics start uninitialised with every latch released |
| IntroductionScreen.IntroScreen.Handle | FS1.1/IntroductionState.cpp:23-181 | one call of the handler changes statics and globals as the introduction frame function |
| IntroductionScreen.IntroScreen.EntryStep | FS1.1/IntroductionState.cpp:23-33 | the initialisation block updates the statics as `IntroEntry` |
| IntroductionScreen.IntroScreen.ContinueStep | FS1.1/IntroductionState.cpp:144-154 | the continue block updates statics and globals as `IntroContinue` |
| IntroductionScreen.IntroScreen.SkipStep | FS1.1/IntroductionState.cpp:157-167 | the skip block updates statics and globals as `IntroSkip` |
| IntroductionScreen.IntroScreen.SettingsStep | FS1.1/IntroductionState.cpp:170-181 | the F1 block updates statics and globals as `IntroSettings` |
| Level1.KeyToString | FS1.1/PlayingState.cpp:7-12 | a key's label is one character; for a letter key it is that capital letter |
| Level1.LetterKey | FS1.1/PlayingState.cpp:7-12 | a character names a letter key exactly when it is a capital letter |
| Level1.LabelRoundTrip | FS1.1/PlayingState.cpp:7-12 | the label of a letter key reads back as that key, and the key of a capital letter is labelled by that letter |
| Level1.FilteredKeys | FS1.1/PlayingState.cpp:56-68 | the candidate loop keeps exactly the keys from A below the bound that are not reserved, in increasing order |
| Level1.CandidateLetters | FS1.1/PlayingState.cpp:56-68 | the candidates are the 25 letters other than M |
| Level1.CandidateOrder | FS1.1/PlayingState.cpp:56-68 | the candidates are in strictly increasing key order |
| Level1.Message | FS1.1/PlayingState.cpp:92-95 | the message is "NextLevel = " followed by the key's label and a space |
| Level1.MessageNamesKey | FS1.1/PlayingState.cpp:92-95 | for any candidate, the message names a capital letter other than M that reads back as the key |
| Level1.ChooseKey | FS1.1/PlayingState.cpp:71-77 | a key is drawn from the candidates only when none is chosen; a chosen key is kept |
| Level1.KeyStage | FS1.1/PlayingState.cpp:153-162 | a press edge of the chosen key goes to PRELEVEL2 and forgets the key; otherwise only its latch changes |
| Level1.EscapeStage | FS1.1/PlayingState.cpp:165-174 | an Escape edge goes back to PRELEVEL1 and forgets the key; otherwise only its latch changes |
| Level1.MenuStage | FS1.1/PlayingState.cpp:177-186 | an M edge goes to MENU and forgets the key; otherwise only its latch changes |
| Level1.SettingsStage | FS1.1/PlayingState.cpp:189-199 | an F1 edge opens SETTINGS remembering the current state and forgets the key; otherwise only its latch changes |
| Level1.KeyAlwaysCandidate | FS1.1/PlayingState.cpp:71-77 | the key asked for is always a candidate and never the reserved M |
| Level1.Level1Order | FS1.1/PlayingState.cpp:153-199 | the last check that fires decides the state (F1 over M over Escape over the key), F1 records the earlier result, and the key is kept iff nothing fired |
| Level1.LeavingRedraws | FS1.1/PlayingState.cpp:153-199 | the key stays chosen exactly as long as the level goes on |
| Level1.Level1LatchesFollowInput | FS1.1/PlayingState.cpp:153-199 | after a frame every latch equals whether its key is down |
| Level1.Level1Screen.constructor | FS1.1/PlayingState.cpp:32-45 | the statics start with no candidates, no key chosen (key Unknown) and all latches released |
| Level1.Level1Screen.BuildCandidates | FS1.1/PlayingState.cpp:56-68 | the loop fills the candidate list with exactly the candidate letters, touching nothing else |
| Level1.Level1Screen.Handle | FS1.1/PlayingState.cpp:56-199 | one call changes statics and globals as the level-1 frame function and shows the message for the chosen key |
| Level1.Level1Screen.ChooseStep | FS1.1/PlayingState.cpp:71-77 | the draw block updates the statics as `ChooseKey` |
| Level1.Level1Screen.KeyStep | FS1.1/PlayingState.cpp:153-162 | the key block updates statics and globals as `KeyStage` |
| Level1.Level1Screen.EscapeStep | FS1.1/PlayingState.cpp:165-174 | the Escape block updates statics and globals as `EscapeStage` |
| Level1.Level1Screen.MenuStep | FS1.1/PlayingState.cpp:177-186 | the M block updates statics and globals as `MenuStage` |
| Level1.Level1Screen.SettingsStep | FS1.1/PlayingState.cpp:189-199 | the F1 block updates statics and globals as `SettingsStage` |
| Level2.MazeDimensions | FS1.1/Playingstate2.cpp:9-28 | one column per 40 pixels and one row per 36, clamped to 10..100 columns and 8..75 rows, with each clamp's threshold exact |
| Level2.DimensionsMonotone | FS1.1/Playingstate2.cpp:9-28 | a larger resolution never yields a smaller maze |
| Level2.CellSize | FS1.1/Playingstate2.cpp:42 | the cell size is the largest for which the whole maze fits in the window |
| Level2.MazeMatchesDims | FS1.1/Playingstate2.cpp:46 | a maze built for `d.x·cs × d.y·cs` pixels with cell size cs has exactly d's columns and rows |
| Level2.SettingsCheck | FS1.1/Playingstate2.cpp:129-133 | holding F1 opens SETTINGS remembering PLAYING2 |
| Level2.ExitCheck | FS1.1/Playingstate2.cpp:136-138 | Enter leads on to PRELEVEL3 only while the player is at the exit |
| Level2.Level2Order | FS1.1/Playingstate2.cpp:124-143 | the frame's result: H or Enter-at-exit over F1 over M, and only F1 changes the previous state |
| Level2.EnterNeedsExit | FS1.1/Playingstate2.cpp:136-143 | the level is left for PRELEVEL3 exactly when H is held or Enter is held at the exit |
| Level2.Level2Screen.constructor | FS1.1/Playingstate2.cpp:37-47 | the statics start with the current dimensions, the cell size that fits them and an ungenerated maze of that size |
| Level2.Level2Screen.Handle | FS1.1/Playingstate2.cpp:33-143 | the maze is rebuilt exactly when regeneration is requested or the dimensions changed, is generated, the player cell follows the pixel position, and the globals follow the frame function with the real exit test |
| Level2.Level2Screen.Regenerate | FS1.1/Playingstate2.cpp:53-64 | a new maze is built and generated exactly when regeneration is requested or the dimensions changed; the remembered dimensions are the current ones |
| Level2.Level2Screen.Rebuild | FS1.1/Playingstate2.cpp:55-63 | a fresh maze of the given dimensions and cell size replaces the old one and is generated |
| Level2.Level2Screen.GenerateOnce | FS1.1/Playingstate2.cpp:68-72 | the maze is generated on the first call and left alone afterwards |
| Level3.ClearColour | FS1.1/PlayingState3.cpp:6-20 | the window is cleared green exactly while H is held, magenta otherwise |
| Level3.SettingsCheck | FS1.1/PlayingState3.cpp:13-17 | holding F1 opens SETTINGS remembering PLAYING3 |
| Level3.Level3Order | FS1.1/PlayingState3.cpp:4-23 | F1 beats M, and only F1 changes the previous state |
| Level3.HLeavesStateAlone | FS1.1/PlayingState3.cpp:18-20 | H changes only the colour, never the transition |
| Level3.HeldKeysSettle | FS1.1/PlayingState3.cpp:4-23 | with no latches, repeating a frame changes nothing more |
| Level3.Handle | FS1.1/PlayingState3.cpp:4-23 | one call gives the frame function's globals and the clear colour |
| Flow.Successors | FS1.1/GameState.h:80-83 | only EXIT has no successor, and every state but SETTINGS and EXIT can open SETTINGS |
| Flow.MainLine | FS1.1/GameState.h:80-83 | introduction, menu, each pre-level screen and level in turn, then the menu again, is a path of the graph |
| Flow.IntroductionFlow | FS1.1/IntroductionState.cpp:23-181 | an introduction frame stays or follows an edge of the graph |
| Flow.MenuFlow | FS1.1/FS1.1.cpp:233-335 | a menu frame stays or follows an edge of the graph |
| Flow.PreLevelFlow | FS1.1/FS1.1.cpp:401-420 | each pre-level state is dispatched with its own level, and its frame stays or follows an edge |
| Flow.Level1Flow | FS1.1/PlayingState.cpp:153-199 | a level-1 frame stays or follows an edge of the graph |
| Flow.Level2Flow | FS1.1/Playingstate2.cpp:124-143 | a level-2 frame stays or follows an edge of the graph |
| Flow.Level3Flow | FS1.1/PlayingState3.cpp:4-23 | a level-3 frame stays or follows an edge of the graph |
| Flow.SettingsFlow | FS1.1/SettingsState.cpp:6-147 | a settings frame stays or follows an edge of the graph (MENU or the previous state) |
| Grid.DefaultCell | FS1.1/Maze.h:34-37 | a new cell is unvisited with all four walls up |
| Grid.Between | FS1.1/Maze.cpp:257-284 | the passage between two cells joins exactly those two cells |
| Grid.BoxSize | FS1.1/Maze.cpp:17 | the grid has width·height cells |
| Grid.ClosedCovers | FS1.1/Maze.cpp:52-71 | a visited set that contains the start and has no unvisited neighbour contains every cell |
| Grid.ParentTreeJoins | FS1.1/Maze.cpp:62-64 | every cell recorded in the carving tree is joined to the start by opened passages |
| Grid.BacktrackStart | FS1.1/Maze.cpp:42-44 | the initial stack holding the start cell satisfies the backtracker's invariant |
| Grid.BacktrackPush | FS1.1/Maze.cpp:59-64 | carving into an unvisited neighbour keeps the invariant and adds one visited cell |
| Grid.BacktrackPop | FS1.1/Maze.cpp:66-70 | popping a cell with no unvisited neighbour keeps the invariant |
| Grid.CarvedSpans | FS1.1/Maze.cpp:52-71 | when the stack is empty every cell is visited and the passages form a spanning tree of the grid |
| Grid.ExitPassages | FS1.1/Maze.cpp:77-86 | the exit post-pass opens the passage to the exit's left and the one above it, where those cells exist |
| MazeGrid.CellOfPixel | FS1.1/Maze.cpp:147-148 | a pixel inside the maze falls in a cell, and in the last column or row exactly from that column's first pixel on |
| MazeGrid.Maze.constructor | FS1.1/Maze.cpp:9-34 | the grid has screen/cellSize columns and rows, every cell unvisited and walled, the player on the start cell, at the exit only in a 1×1 maze |
| MazeGrid.Maze.GetPlayerPosition | FS1.1/Maze.h:27 | the player's cell |
| MazeGrid.Maze.IsAtExit | FS1.1/Maze.h:30 | true exactly on the bottom-right cell |
| MazeGrid.Maze.SyncPlayerCell | FS1.1/Maze.cpp:147-148 | the player cell is the pixel position divided by the cell size, inside the grid, at the exit iff the pixel is in the exit square; walls are untouched |
| MazeGrid.Maze.AroundAreUnvisitedNeighbours | FS1.1/Maze.cpp:229-252 | the list holds at most four cells, each an unvisited in-grid neighbour, and every such neighbour is listed |
| MazeGrid.Maze.AroundInCompassOrder | FS1.1/Maze.cpp:229-252 | the neighbours come in the order north, east, south, west |
| MazeGrid.Maze.GetUnvisitedNeighbors | FS1.1/Maze.cpp:229-252 | the method returns exactly the unvisited neighbours in compass order |
| MazeGrid.Maze.OpenAcross | FS1.1/Maze.cpp:272-282 | the shared vertical wall is cleared on both cells and nothing else changes; wall agreement, border and visits are kept |
| MazeGrid.Maze.OpenDown | FS1.1/Maze.cpp:259-269 | the shared horizontal wall is cleared on both cells and nothing else changes; wall agreement, border and visits are kept |
| MazeGrid.Maze.RemoveWall | FS1.1/Maze.cpp:257-284 | each branch of the source (including the same-cell and non-aligned cases) changes exactly the walls it names; for neighbours it opens just their passage and keeps wall agreement and the border |
| MazeGrid.Maze.MarkVisited | FS1.1/Maze.cpp:63 | the cell becomes visited and nothing else changes |
| MazeGrid.Maze.Connect | FS1.1/Maze.cpp:62-64 | the carving step opens the passage to the neighbour and marks it visited |
| MazeGrid.Maze.Step | FS1.1/Maze.cpp:52-71 | one loop iteration either pushes one new visited cell or pops the stack, keeping the backtracker's invariant |
| MazeGrid.Maze.Advance | FS1.1/Maze.cpp:59-64 | carving to a chosen unvisited neighbour pushes it and keeps the invariant |
| MazeGrid.Maze.Carve | FS1.1/Maze.cpp:39-71 | after the loop every cell is visited, walls agree, the border is closed, and the opened passages are exactly a spanning tree, in 2·w·h−1 iterations |
| MazeGrid.Maze.OpenExit | FS1.1/Maze.cpp:77-86 | the exit's left and top walls (and their partners) are opened; walls still agree and the border is closed |
| MazeGrid.Maze.Generate | FS1.1/Maze.cpp:39-87 | the generated maze visits every cell, keeps walls consistent and the border closed, and its open passages are a spanning tree plus the exit passages |

## Left out

- Rendering is not modelled: `Maze::draw`, `drawPlayer`, the drawing and positioning of text and shapes, the introduction's fade and pulse, the scrolling of level 1's message and the wall brightness derived from `gamma`. The text itself is modelled: the introduction's lines and their styles, the pre-level titles and instructions, and level 1's message. So is the colour level 3 clears to.
- Audio is not modelled. The navigation sounds of `NavigationSounds.h` are out, and so is opening and playing the music file. Whether a song file loads is a parameter (`loads`).
- Player movement is not modelled: `Maze::updatePlayer`'s float movement and `canMoveTo`'s collision test against the walls. The player's pixel position is a parameter of `SyncPlayerCell`, which models only the pixel-to-cell step. `playerPixelPos`, `playerSpeed` and the player shape are not fields of the model.
- The random draws (`random_device` seeding an `mt19937`, sampled through `uniform_int_distribution`) are not modelled. Generation picks a neighbour through a nondeterministic choice among the unvisited neighbours. Level 1 draws its key through a `draw` index parameter.
- Timing is not modelled. The SFML clocks, their restarts, delta time and the framerate limit are out.
- The window and its event loop are not modelled. `window.close()` is modelled as the flag `windowOpen`. The unused `running` flag is left out.
- Hover comes in as the index of the entry under the pointer. The bounds computation that finds it is not modelled.
- SFML key codes are modelled as integer constants (A = 0 … Z = 25, Escape = 36, Space = 57, Enter = 58, F1 = 85). The SFML header is not part of this model.
- The screen resolution (`resolutionOptions[resolutionIndex]`), the window size and `mazeNeedsRegeneration` are parameters of level 2's handler. Clearing the flag is modelled as `regenerationPending`.
- The VSync and framerate settings are only stored, as in the code. They are never applied to the window.
- The notes in `GameState.h` (lines 91-99) promise things the handlers do not do. They promise ESC from PLAYING2 and PLAYING3 back to their pre-level screens, but only PLAYING handles ESC. They promise no settings during gameplay, but all three levels open SETTINGS on F1. The model follows the handlers, and `Flow.Successors` records the edges the code has.
- On the settings screen, a left click on "Back" goes to MENU while Enter on "Back" returns to `previousState`. The model keeps this difference as the code has it.
- Level1.KeyToString: the C++ narrowing of the key code to `char` is written as a remainder modulo 256. Only letter keys are specified beyond that.
- Level2.Level2Screen.Handle: requires the cell size that fits the maze into the window to be positive, and the player's pixel position to lie inside the maze. The source divides by the cell size unguarded. A window narrower than 10 columns or shorter than 8 rows of pixels would give it a zero cell size, which the model excludes.
- MazeGrid.Maze.constructor: requires a positive cell size and non-negative screen sizes. The unsigned arithmetic of the grid sizes is not modelled.
- MainLoop.MenuTargets: states where a menu frame may go. It does not state that every target is reachable. `Flow.MainLine` and the per-entry contract of `Activate` cover that.
- Level 1's initial key is `sf::Keyboard::Unknown`, modelled as −1.
- The declaration-only headers are not modelled beyond the classes and statics they declare: `IntroductionState.h`, `PlayingState.h`, `Playingstate2.h` and `SettingsState.h`.
