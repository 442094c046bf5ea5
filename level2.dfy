/**
  Level 2: a dark maze sized from the chosen screen resolution. The handler
  keeps the maze between frames, rebuilds it when the resolution's maze
  size changes or the settings ask for it, and leaves for the screen before
  level 3 when the player stands on the exit and presses Enter (or at once
  on H).
*/
module Level2 {
  import opened Input
  import opened GameStates
  import opened Grid
  import opened MazeGrid

  /** A pair of unsigned sizes: a resolution in pixels or a maze size in cells. */
  datatype Dims = Dims(x: nat, y: nat)

  /** `max(lo, min(hi, v))`. */
  function Clamp(lo: int, hi: int, v: int): int {
    if v > hi then (if lo > hi then lo else hi) else if v < lo then lo else v
  }

  /**
    The maze size for a resolution: one cell per 40 pixels across and per 36
    pixels down, kept between 10 and 100 columns and 8 and 75 rows.
  */
  function MazeDimensions(res: Dims): (d: Dims)
    ensures 10 <= d.x <= 100 && 8 <= d.y <= 75
    ensures 400 <= res.x < 4040 ==> d.x == res.x / 40
    ensures res.x < 400 ==> d.x == 10
    ensures res.x >= 4040 ==> d.x == 100
    ensures 288 <= res.y < 2736 ==> d.y == res.y / 36
    ensures res.y < 288 ==> d.y == 8
    ensures res.y >= 2736 ==> d.y == 75
  {
    Dims(Clamp(10, 100, res.x / 40), Clamp(8, 75, res.y / 36))
  }

  /** A larger resolution never gives a smaller maze. */
  lemma DimensionsMonotone(res: Dims, res': Dims)
    requires res.x <= res'.x && res.y <= res'.y
    ensures MazeDimensions(res).x <= MazeDimensions(res').x
    ensures MazeDimensions(res).y <= MazeDimensions(res').y
  {
  }

  /**
    The side of a square cell: the largest size at which `d.x` by `d.y`
    cells still fit in a `winW` by `winH` window.
  */
  function CellSize(winW: nat, winH: nat, d: Dims): (cs: nat)
    requires d.x > 0 && d.y > 0
    ensures d.x * cs <= winW && d.y * cs <= winH
    ensures d.x * (cs + 1) > winW || d.y * (cs + 1) > winH
  {
    var a := winW / d.x;
    var b := winH / d.y;
    DivBounds(winW, d.x);
    DivBounds(winH, d.y);
    if a <= b then
      MulMonotone(a, b, d.y);
      a
    else
      MulMonotone(b, a, d.x);
      b
  }

  lemma DivBounds(w: nat, n: nat)
    requires n > 0
    ensures n * (w / n) <= w < n * (w / n + 1)
  {
  }

  lemma MulMonotone(a: nat, b: nat, n: nat)
    requires a <= b
    ensures n * a <= n * b
  {
  }

  /**
    A maze built for `d.x * cs` by `d.y * cs` pixels with cells of size `cs`
    has exactly `d.x` columns and `d.y` rows.
  */
  lemma MazeMatchesDims(d: Dims, cs: nat)
    requires cs > 0
    ensures (d.x * cs) / cs == d.x && (d.y * cs) / cs == d.y
  {
    MulDiv(d.x, cs);
    MulDiv(d.y, cs);
  }

  lemma MulDiv(a: nat, n: nat)
    requires n > 0
    ensures (a * n) / n == a
  {
    var q := (a * n) / n;
    var r := (a * n) % n;
    assert a * n == q * n + r && 0 <= r < n;
    var k := a - q;
    assert k * n == r;
  }

  /** F1 opens the settings while held; they will return to level 2. */
  function SettingsCheck(g: Globals, f: Frame): (r: Globals)
    ensures F1 in f.held ==> r == Globals(Settings, Playing2)
    ensures F1 !in f.held ==> r == g
  {
    if F1 in f.held then Globals(Settings, Playing2) else g
  }

  /** Enter on the exit cell leads to the screen before level 3. */
  function ExitCheck(g: Globals, f: Frame, atExit: bool): (r: Globals)
    ensures r.previousState == g.previousState
    ensures r.state == if atExit && Enter in f.held then PreLevel3 else g.state
  {
    if atExit && Enter in f.held then g.(state := PreLevel3) else g
  }

  /** One frame's transitions: M, F1, Enter at the exit, H, in this order, all level-triggered. */
  function Level2Next(g: Globals, f: Frame, atExit: bool): Globals {
    HeldGoesTo(ExitCheck(SettingsCheck(HeldGoesTo(g, M in f.held, Menu), f), f, atExit), H in f.held, PreLevel3)
  }

  /**
    The last check that applies wins: leaving for level 3 beats the
    settings, which beat the menu. Only F1 touches `previousState`.
  */
  lemma Level2Order(g: Globals, f: Frame, atExit: bool)
    ensures var r := Level2Next(g, f, atExit);
      && r.state == (if H in f.held || (atExit && Enter in f.held) then PreLevel3
                     else if F1 in f.held then Settings
                     else if M in f.held then Menu
                     else g.state)
      && r.previousState == (if F1 in f.held then Playing2 else g.previousState)
  {
  }

  /** Enter only leads on from the exit cell: without H, reaching PRELEVEL3 needs both. */
  lemma EnterNeedsExit(g: Globals, f: Frame, atExit: bool)
    requires g.state != PreLevel3
    ensures Level2Next(g, f, atExit).state == PreLevel3 <==> H in f.held || (atExit && Enter in f.held)
  {
    Level2Order(g, f, atExit);
  }

  /** Whether this frame rebuilds the maze: a request from the settings, or a new maze size. */
  predicate Regenerates(needsRegeneration: bool, current: Dims, last: Dims) {
    needsRegeneration || current.x != last.x || current.y != last.y
  }

  /** The handler's statics apart from the font and the clock. */
  class Level2Screen {
    var lastMazeDims: Dims
    var cellSize: int
    var maze: Maze
    var generated: bool

    /**
      The maze has the size recorded in `lastMazeDims` and the current cell
      size; until it is generated it is as built, and afterwards it is a
      carved maze with consistent walls and a closed border.
    */
    ghost predicate Valid()
      reads this, maze, maze.grid
    {
      && maze.Valid()
      && maze.width == lastMazeDims.x && maze.height == lastMazeDims.y
      && lastMazeDims.x >= 1 && lastMazeDims.y >= 1
      && maze.cellSize == cellSize
      && (!generated ==> maze.Untouched())
      && (generated ==> maze.AllVisited() && maze.Symmetric() && maze.BorderClosed())
    }

    /**
      The statics on the first call: the maze size for the resolution, the
      cell size that fits it into the window, and an ungenerated maze of
      that size.
    */
    constructor (res: Dims, winW: nat, winH: nat)
      requires CellSize(winW, winH, MazeDimensions(res)) > 0
      ensures Valid() && fresh(maze) && fresh(maze.grid)
      ensures lastMazeDims == MazeDimensions(res)
      ensures cellSize == CellSize(winW, winH, MazeDimensions(res))
      ensures !generated
    {
      var d := MazeDimensions(res);
      var cs := CellSize(winW, winH, d);
      MazeMatchesDims(d, cs);
      lastMazeDims := d;
      cellSize := cs;
      maze := new Maze(d.x * cs, d.y * cs, cs);
      generated := false;
    }

    /** The cell size this frame will use: recomputed when the maze is rebuilt. */
    function CellSizeAfter(res: Dims, winW: nat, winH: nat, needsRegeneration: bool): int
      reads this
    {
      if Regenerates(needsRegeneration, MazeDimensions(res), lastMazeDims)
      then CellSize(winW, winH, MazeDimensions(res))
      else cellSize
    }

    /**
      One call of the handler. `res` is the selected resolution, `winW` by
      `winH` the window size, `needsRegeneration` the settings' request flag,
      and (`pixelX`, `pixelY`) the player's position, rounded down, after this
      frame's move. Returns the new globals and the request flag, which is
      always cleared.
    */
    method Handle(f: Frame, res: Dims, winW: nat, winH: nat, needsRegeneration: bool,
                  pixelX: int, pixelY: int, g: Globals) returns (g': Globals, regenerationPending: bool)
      requires Valid()
      requires Regenerates(needsRegeneration, MazeDimensions(res), lastMazeDims) ==> CellSize(winW, winH, MazeDimensions(res)) > 0
      requires var cs := CellSizeAfter(res, winW, winH, needsRegeneration);
        0 <= pixelX < MazeDimensions(res).x * cs && 0 <= pixelY < MazeDimensions(res).y * cs
      modifies this, maze, maze.grid
      ensures Valid() && generated && !regenerationPending
      ensures lastMazeDims == MazeDimensions(res)
      ensures cellSize == old(CellSizeAfter(res, winW, winH, needsRegeneration))
      ensures Regenerates(needsRegeneration, MazeDimensions(res), old(lastMazeDims)) <==> fresh(maze)
      ensures maze.AllVisited() && maze.Symmetric() && maze.BorderClosed()
      ensures maze.playerPos == Pos(pixelX / cellSize, pixelY / cellSize)
      ensures g' == Level2Next(g, f, maze.IsAtExit())
    {
      Regenerate(res, winW, winH, needsRegeneration);
      regenerationPending := false;
      GenerateOnce();
      maze.SyncPlayerCell(pixelX, pixelY);
      g' := HeldGoesTo(g, M in f.held, Menu);
      g' := SettingsCheck(g', f);
      g' := ExitCheck(g', f, maze.IsAtExit());
      g' := HeldGoesTo(g', H in f.held, PreLevel3);
    }

    /**
      Rebuilds and generates the maze when the settings ask for it or the
      maze size for the resolution changed; otherwise changes nothing.
    */
    method Regenerate(res: Dims, winW: nat, winH: nat, needsRegeneration: bool)
      requires Valid()
      requires Regenerates(needsRegeneration, MazeDimensions(res), lastMazeDims) ==> CellSize(winW, winH, MazeDimensions(res)) > 0
      modifies this
      ensures Valid() && lastMazeDims == MazeDimensions(res)
      ensures cellSize == old(CellSizeAfter(res, winW, winH, needsRegeneration))
      ensures Regenerates(needsRegeneration, MazeDimensions(res), old(lastMazeDims)) <==> fresh(maze)
      ensures !fresh(maze) ==> maze == old(maze) && generated == old(generated)
      ensures fresh(maze) ==> fresh(maze.grid) && generated
    {
      var current := MazeDimensions(res);
      if needsRegeneration || current.x != lastMazeDims.x || current.y != lastMazeDims.y {
        Rebuild(current, CellSize(winW, winH, current));
      }
    }

    /** A new maze of `d.x` by `d.y` cells of size `cs`, generated at once. */
    method Rebuild(d: Dims, cs: int)
      requires d.x >= 1 && d.y >= 1 && cs > 0
      modifies this
      ensures Valid() && generated && fresh(maze) && fresh(maze.grid)
      ensures lastMazeDims == d && cellSize == cs
    {
      MazeMatchesDims(d, cs);
      var built := new Maze(d.x * cs, d.y * cs, cs);
      ghost var tree, iterations := built.Generate();
      maze, cellSize, generated, lastMazeDims := built, cs, true, d;
    }

    /** Generates the maze on the first frame it is shown, if no rebuild did so. */
    method GenerateOnce()
      requires Valid()
      modifies this, maze.grid
      ensures Valid() && generated
      ensures maze == old(maze) && lastMazeDims == old(lastMazeDims) && cellSize == old(cellSize)
    {
      if !generated {
        ghost var tree, iterations := maze.Generate();
        generated := true;
      }
    }
  }
}
