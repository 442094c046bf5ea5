/**
  The maze of level 2: a height-by-width grid of cells carved into a perfect
  maze by an iterative depth-first backtracker, plus the player's cell.
*/
module MazeGrid {
  import opened Grid

  class Maze {
    var width: int
    var height: int
    var cellSize: int
    /** grid[y, x] is the cell in row y, column x. */
    var grid: array2<Cell>
    var playerPos: Pos

    ghost predicate Valid()
      reads this
    {
      grid.Length0 == height && grid.Length1 == width && cellSize > 0
    }

    predicate InGrid(p: Pos)
      reads this
    {
      InBox(p, width, height)
    }

    /**
      Sizes the grid to the screen by integer division and fills it with
      default cells; the player starts in the top-left cell.
    */
    constructor (screenWidth: int, screenHeight: int, cs: int)
      requires cs > 0 && screenWidth >= 0 && screenHeight >= 0
      ensures Valid() && fresh(grid)
      ensures cellSize == cs && width == screenWidth / cs && height == screenHeight / cs
      ensures Untouched()
      ensures playerPos == Pos(0, 0)
      ensures IsAtExit() <==> width == 1 && height == 1
    {
      cellSize := cs;
      width := screenWidth / cs;
      height := screenHeight / cs;
      grid := new Cell[screenHeight / cs, screenWidth / cs]((_, _) => DefaultCell());
      playerPos := Pos(0, 0);
    }

    /** The player's current cell; reads the state and changes nothing. */
    function GetPlayerPosition(): (p: Pos)
      reads this
      ensures p == playerPos
    {
      playerPos
    }

    /** The player stands in the bottom-right cell, the one whose walls the generator forces open. */
    predicate IsAtExit()
      reads this
      ensures IsAtExit() <==> playerPos == Pos(width - 1, height - 1)
    {
      playerPos.x == width - 1 && playerPos.y == height - 1
    }

    /**
      The last step of a player move: the cell is the pixel position divided
      by the cell size. A move the wall test accepts keeps the position
      inside the maze's pixel area, so the cell is in the grid; the player
      is at the exit exactly when the position lies in the exit's square.
    */
    method SyncPlayerCell(pixelX: int, pixelY: int)
      requires Valid()
      requires 0 <= pixelX < width * cellSize && 0 <= pixelY < height * cellSize
      modifies this
      ensures width == old(width) && height == old(height) && cellSize == old(cellSize) && grid == old(grid)
      ensures Valid()
      ensures playerPos == Pos(pixelX / cellSize, pixelY / cellSize) && InGrid(playerPos)
      ensures IsAtExit() <==> (width - 1) * cellSize <= pixelX && (height - 1) * cellSize <= pixelY
      ensures old(AllVisited()) ==> AllVisited()
      ensures old(Symmetric()) ==> Symmetric()
      ensures old(BorderClosed()) ==> BorderClosed()
    {
      playerPos := Pos(pixelX / cellSize, pixelY / cellSize);
      CellOfPixel(pixelX, width, cellSize);
      CellOfPixel(pixelY, height, cellSize);
    }

    /** Every cell is still as the constructor made it. */
    ghost predicate Untouched()
      reads this, grid
      requires Valid()
    {
      forall y, x :: 0 <= y < height && 0 <= x < width ==> grid[y, x] == DefaultCell()
    }

    /** Every cell has been visited. */
    ghost predicate AllVisited()
      reads this, grid
      requires Valid()
    {
      forall y, x :: 0 <= y < height && 0 <= x < width ==> grid[y, x].visited
    }

    /** The two sides of every inner wall agree. */
    ghost predicate Symmetric()
      reads this, grid
      requires Valid()
    {
      (forall y, x :: 0 <= y < height && 0 <= x < width - 1 ==> AcrossAgrees(grid, y, x)) &&
      (forall y, x :: 0 <= y < height - 1 && 0 <= x < width ==> DownAgrees(grid, y, x))
    }

    /** The outer border is closed all round. */
    ghost predicate BorderClosed()
      reads this, grid
      requires Valid()
    {
      forall y, x :: 0 <= y < height && 0 <= x < width ==>
        (y == 0 ==> grid[y, x].top) && (x == width - 1 ==> grid[y, x].right) &&
        (y == height - 1 ==> grid[y, x].bottom) && (x == 0 ==> grid[y, x].left)
    }

    /** Within the grid, the visited cells are exactly those in V. */
    ghost predicate VisitedAre(V: set<Pos>)
      reads this, grid
      requires Valid()
    {
      forall y, x {:trigger grid[y, x]} :: 0 <= y < height && 0 <= x < width ==> (grid[y, x].visited <==> Pos(x, y) in V)
    }

    /** E is exactly the set of open passages (read on the right and bottom side of each cell). */
    ghost predicate OpenAre(E: set<Passage>)
      reads this, grid
      requires Valid()
    {
      (forall y, x {:trigger grid[y, x]} :: 0 <= y < height && 0 <= x < width - 1 ==> (!grid[y, x].right <==> Across(x, y) in E)) &&
      (forall y, x {:trigger grid[y, x]} :: 0 <= y < height - 1 && 0 <= x < width ==> (!grid[y, x].bottom <==> Down(x, y) in E))
    }

    /** Cell q is inside the grid and has not been visited yet. */
    predicate Unvisited(q: Pos)
      reads this, grid
      requires Valid()
    {
      InGrid(q) && !grid[q.y, q.x].visited
    }

    /**
      The neighbours of (x, y) that are inside the grid and not yet visited,
      in the order north, east, south, west.
    */
    function UnvisitedAround(x: int, y: int): (r: seq<Pos>)
      reads this, grid
      requires Valid() && 0 <= x < width && 0 <= y < height
    {
      (if y > 0 && !grid[y - 1, x].visited then [Pos(x, y - 1)] else []) +
      (if x < width - 1 && !grid[y, x + 1].visited then [Pos(x + 1, y)] else []) +
      (if y < height - 1 && !grid[y + 1, x].visited then [Pos(x, y + 1)] else []) +
      (if x > 0 && !grid[y, x - 1].visited then [Pos(x - 1, y)] else [])
    }

    /** The listed cells are exactly the unvisited neighbours, each once, at most four. */
    lemma AroundAreUnvisitedNeighbours(x: int, y: int)
      requires Valid() && 0 <= x < width && 0 <= y < height
      ensures var r := UnvisitedAround(x, y);
        && |r| <= 4
        && (forall i :: 0 <= i < |r| ==> Adjacent(Pos(x, y), r[i]) && Unvisited(r[i]))
        && (forall q :: Adjacent(Pos(x, y), q) && Unvisited(q) ==> q in r)
    {
    }

    /** The cells come in compass order: north, east, south, west. */
    lemma AroundInCompassOrder(x: int, y: int)
      requires Valid() && 0 <= x < width && 0 <= y < height
      ensures var r := UnvisitedAround(x, y);
        forall i, j :: 0 <= i < j < |r| ==> Heading(Pos(x, y), r[i]) < Heading(Pos(x, y), r[j])
    {
    }

    /**
      Collects the unvisited neighbours of (x, y), checking north, east,
      south and west in turn. Reads the grid and changes nothing.
    */
    method GetUnvisitedNeighbors(x: int, y: int) returns (neighbors: seq<Pos>)
      requires Valid() && 0 <= x < width && 0 <= y < height
      ensures neighbors == UnvisitedAround(x, y)
    {
      neighbors := [];
      // north
      if y > 0 && !grid[y - 1, x].visited {
        neighbors := neighbors + [Pos(x, y - 1)];
      }
      // east
      if x < width - 1 && !grid[y, x + 1].visited {
        neighbors := neighbors + [Pos(x + 1, y)];
      }
      // south
      if y < height - 1 && !grid[y + 1, x].visited {
        neighbors := neighbors + [Pos(x, y + 1)];
      }
      // west
      if x > 0 && !grid[y, x - 1].visited {
        neighbors := neighbors + [Pos(x - 1, y)];
      }
    }

    /**
      Opens the wall between (left, row) and (right, row), left < right, on
      both sides: the right wall of the first cell and the left wall of the
      second. Nothing else changes; when the two cells are neighbours the
      passage between them joins the open ones and the invariants hold on.
    */
    method OpenAcross(row: int, left: int, right: int, ghost V: set<Pos>, ghost E: set<Passage>)
      requires Valid() && 0 <= row < height && 0 <= left < right < width
      modifies grid
      ensures grid[row, left] == old(grid[row, left]).(right := false)
      ensures grid[row, right] == old(grid[row, right]).(left := false)
      ensures forall y, x {:trigger grid[y, x]} :: 0 <= y < height && 0 <= x < width && (y, x) != (row, left) && (y, x) != (row, right) ==>
        grid[y, x] == old(grid[y, x])
      ensures old(VisitedAre(V)) ==> VisitedAre(V)
      ensures old(AllVisited()) ==> AllVisited()
      ensures old(BorderClosed()) ==> BorderClosed()
      ensures right == left + 1 && old(OpenAre(E)) ==> OpenAre(E + {Across(left, row)})
      ensures right == left + 1 && old(Symmetric()) ==> Symmetric()
    {
      grid[row, left] := grid[row, left].(right := false);
      grid[row, right] := grid[row, right].(left := false);
      if right == left + 1 && old(Symmetric()) {
        forall y, x | 0 <= y < height && 0 <= x < width - 1
          ensures AcrossAgrees(grid, y, x)
        {
          assert old(AcrossAgrees(grid, y, x));
        }
        forall y, x | 0 <= y < height - 1 && 0 <= x < width
          ensures DownAgrees(grid, y, x)
        {
          assert old(DownAgrees(grid, y, x));
        }
      }
    }

    /**
      Opens the wall between (col, upper) and (col, lower), upper < lower, on
      both sides: the bottom wall of the upper cell and the top wall of the
      lower one. The counterpart of OpenAcross for a column.
    */
    method OpenDown(col: int, upper: int, lower: int, ghost V: set<Pos>, ghost E: set<Passage>)
      requires Valid() && 0 <= col < width && 0 <= upper < lower < height
      modifies grid
      ensures grid[upper, col] == old(grid[upper, col]).(bottom := false)
      ensures grid[lower, col] == old(grid[lower, col]).(top := false)
      ensures forall y, x {:trigger grid[y, x]} :: 0 <= y < height && 0 <= x < width && (y, x) != (upper, col) && (y, x) != (lower, col) ==>
        grid[y, x] == old(grid[y, x])
      ensures old(VisitedAre(V)) ==> VisitedAre(V)
      ensures old(AllVisited()) ==> AllVisited()
      ensures old(BorderClosed()) ==> BorderClosed()
      ensures lower == upper + 1 && old(OpenAre(E)) ==> OpenAre(E + {Down(col, upper)})
      ensures lower == upper + 1 && old(Symmetric()) ==> Symmetric()
    {
      grid[lower, col] := grid[lower, col].(top := false);
      grid[upper, col] := grid[upper, col].(bottom := false);
      if lower == upper + 1 && old(Symmetric()) {
        forall y, x | 0 <= y < height && 0 <= x < width - 1
          ensures AcrossAgrees(grid, y, x)
        {
          assert old(AcrossAgrees(grid, y, x));
        }
        forall y, x | 0 <= y < height - 1 && 0 <= x < width
          ensures DownAgrees(grid, y, x)
        {
          assert old(DownAgrees(grid, y, x));
        }
      }
    }

    /**
      Knocks down the wall between cell a at (aCol, aRow) and cell b at
      (bCol, bRow). The ghost parameters V and E name the visited cells and
      the open passages before the call.
    */
    method RemoveWall(aCol: int, aRow: int, bCol: int, bRow: int, ghost V: set<Pos>, ghost E: set<Passage>)
      requires Valid() && InGrid(Pos(aCol, aRow)) && InGrid(Pos(bCol, bRow))
      modifies grid
      ensures forall y, x {:trigger grid[y, x]} :: 0 <= y < height && 0 <= x < width && Pos(x, y) != Pos(aCol, aRow) && Pos(x, y) != Pos(bCol, bRow) ==>
        grid[y, x] == old(grid[y, x])
      // same column, a below b: a's top and b's bottom
      ensures aCol == bCol && aRow > bRow ==>
        grid[aRow, aCol] == old(grid[aRow, aCol]).(top := false) && grid[bRow, bCol] == old(grid[bRow, bCol]).(bottom := false)
      // same column, a above b: a's bottom and b's top
      ensures aCol == bCol && aRow < bRow ==>
        grid[aRow, aCol] == old(grid[aRow, aCol]).(bottom := false) && grid[bRow, bCol] == old(grid[bRow, bCol]).(top := false)
      // a and b are the same cell: both writes land on it
      ensures aCol == bCol && aRow == bRow ==>
        grid[aRow, aCol] == old(grid[aRow, aCol]).(bottom := false, top := false)
      // same row, a right of b: a's left and b's right
      ensures aCol != bCol && aRow == bRow && aCol > bCol ==>
        grid[aRow, aCol] == old(grid[aRow, aCol]).(left := false) && grid[bRow, bCol] == old(grid[bRow, bCol]).(right := false)
      // same row, a left of b: a's right and b's left
      ensures aCol != bCol && aRow == bRow && aCol < bCol ==>
        grid[aRow, aCol] == old(grid[aRow, aCol]).(right := false) && grid[bRow, bCol] == old(grid[bRow, bCol]).(left := false)
      // neither same row nor same column: nothing changes
      ensures aCol != bCol && aRow != bRow ==> grid[aRow, aCol] == old(grid[aRow, aCol]) && grid[bRow, bCol] == old(grid[bRow, bCol])
      // for neighbouring cells: no visited flag changes, exactly the passage between them opens,
      // both sides of every wall agree, and the border stays shut
      ensures Adjacent(Pos(aCol, aRow), Pos(bCol, bRow)) && old(VisitedAre(V)) ==> VisitedAre(V)
      ensures Adjacent(Pos(aCol, aRow), Pos(bCol, bRow)) && old(OpenAre(E)) ==> OpenAre(E + {Between(Pos(aCol, aRow), Pos(bCol, bRow))})
      ensures Adjacent(Pos(aCol, aRow), Pos(bCol, bRow)) && old(Symmetric()) ==> Symmetric()
      ensures Adjacent(Pos(aCol, aRow), Pos(bCol, bRow)) && old(BorderClosed()) ==> BorderClosed()
    {
      if aCol == bCol {
        if aRow > bRow {
          OpenDown(aCol, bRow, aRow, V, E);
        } else if aRow < bRow {
          OpenDown(aCol, aRow, bRow, V, E);
        } else {
          grid[aRow, aCol] := grid[aRow, aCol].(bottom := false);
          grid[bRow, bCol] := grid[bRow, bCol].(top := false);
        }
      } else if aRow == bRow {
        if aCol > bCol {
          OpenAcross(aRow, bCol, aCol, V, E);
        } else {
          OpenAcross(aRow, aCol, bCol, V, E);
        }
      }
    }

    /** Sets the visited flag of cell (x, y) and touches nothing else. */
    method MarkVisited(x: int, y: int, ghost V: set<Pos>, ghost E: set<Passage>)
      requires Valid() && InGrid(Pos(x, y))
      modifies grid
      ensures grid[y, x] == old(grid[y, x]).(visited := true)
      ensures forall j, i {:trigger grid[j, i]} :: 0 <= j < height && 0 <= i < width && (j, i) != (y, x) ==> grid[j, i] == old(grid[j, i])
      ensures old(VisitedAre(V)) ==> VisitedAre(V + {Pos(x, y)})
      ensures old(OpenAre(E)) ==> OpenAre(E)
      ensures old(Symmetric()) ==> Symmetric()
      ensures old(BorderClosed()) ==> BorderClosed()
    {
      grid[y, x] := grid[y, x].(visited := true);
      if old(Symmetric()) {
        forall j, i | 0 <= j < height && 0 <= i < width - 1
          ensures AcrossAgrees(grid, j, i)
        {
          assert old(AcrossAgrees(grid, j, i));
        }
        forall j, i | 0 <= j < height - 1 && 0 <= i < width
          ensures DownAgrees(grid, j, i)
        {
          assert old(DownAgrees(grid, j, i));
        }
      }
    }

    /**
      One carving step of the backtracker: knock down the wall between the
      current cell (cx, cy) and its unvisited neighbour (nx, ny), then mark
      the neighbour visited. The bookkeeping (V visited, E open) grows by
      exactly that cell and that passage.
    */
    method Connect(cx: int, cy: int, nx: int, ny: int, ghost V: set<Pos>, ghost E: set<Passage>)
      requires Valid() && InGrid(Pos(cx, cy)) && InGrid(Pos(nx, ny)) && Adjacent(Pos(cx, cy), Pos(nx, ny))
      requires VisitedAre(V) && OpenAre(E) && Symmetric() && BorderClosed()
      modifies grid
      ensures VisitedAre(V + {Pos(nx, ny)}) && OpenAre(E + {Between(Pos(cx, cy), Pos(nx, ny))})
      ensures Symmetric() && BorderClosed()
    {
      RemoveWall(cx, cy, nx, ny, V, E);
      MarkVisited(nx, ny, V, E + {Between(Pos(cx, cy), Pos(nx, ny))});
    }

    /** A freshly built grid has no visited cell, no open passage and every wall standing. */
    lemma UntouchedIsClosed()
      requires Valid() && Untouched()
      ensures VisitedAre({}) && OpenAre({}) && Symmetric() && BorderClosed()
    {
    }

    /** A cell none of whose in-grid neighbours is unvisited has all its neighbours in V. */
    lemma NoUnvisitedNeighbour(p: Pos, V: set<Pos>)
      requires Valid() && VisitedAre(V) && InGrid(p)
      requires forall q :: Adjacent(p, q) ==> !Unvisited(q)
      ensures NeighboursIn(p, V, width, height)
    {
      forall q | Adjacent(p, q) && InGrid(q)
        ensures q in V
      {
        assert !Unvisited(q);
        assert grid[q.y, q.x].visited;
      }
    }

    /**
      One turn of the backtracking loop. If the cell on top of the stack has
      unvisited neighbours, the wall to one of them (any one: the choice
      stands for the random pick) comes down and that neighbour is visited and
      pushed; otherwise the top cell is popped. The ghost parameters carry the
      bookkeeping of Grid.Backtrack from one turn to the next.
    */
    method Step(stack: seq<Pos>, ghost V: set<Pos>, ghost E: set<Passage>, ghost parent: map<Pos, Pos>, ghost depth: map<Pos, nat>)
      returns (stack': seq<Pos>, ghost V': set<Pos>, ghost E': set<Passage>, ghost parent': map<Pos, Pos>, ghost depth': map<Pos, nat>)
      requires Valid() && Symmetric() && BorderClosed() && VisitedAre(V) && OpenAre(E)
      requires Backtrack(V, E, parent, depth, stack, width, height) && stack != []
      modifies grid
      ensures Symmetric() && BorderClosed() && VisitedAre(V') && OpenAre(E')
      ensures Backtrack(V', E', parent', depth', stack', width, height)
      // either one more cell is visited and pushed, or the top cell is popped
      ensures (|V'| == |V| + 1 <= width * height && |stack'| == |stack| + 1) || (V' == V && |stack'| == |stack| - 1)
    {
      var top := stack[|stack| - 1];
      var neighbors := GetUnvisitedNeighbors(top.x, top.y);
      AroundAreUnvisitedNeighbours(top.x, top.y);
      if neighbors != [] {
        var k :| 0 <= k < |neighbors|;
        stack', V', E', parent', depth' := Advance(stack, neighbors[k], V, E, parent, depth);
      } else {
        NoUnvisitedNeighbour(top, V);
        BacktrackPop(V, E, parent, depth, stack, width, height);
        stack' := stack[..|stack| - 1];
        V', E', parent', depth' := V, E, parent, depth;
      }
    }

    /** The push half of a turn: open the wall to `next`, mark it visited and push it. */
    method Advance(stack: seq<Pos>, next: Pos, ghost V: set<Pos>, ghost E: set<Passage>, ghost parent: map<Pos, Pos>, ghost depth: map<Pos, nat>)
      returns (stack': seq<Pos>, ghost V': set<Pos>, ghost E': set<Passage>, ghost parent': map<Pos, Pos>, ghost depth': map<Pos, nat>)
      requires Valid() && Symmetric() && BorderClosed() && VisitedAre(V) && OpenAre(E)
      requires Backtrack(V, E, parent, depth, stack, width, height) && stack != []
      requires Adjacent(stack[|stack| - 1], next) && Unvisited(next)
      modifies grid
      ensures Symmetric() && BorderClosed() && VisitedAre(V') && OpenAre(E')
      ensures Backtrack(V', E', parent', depth', stack', width, height)
      ensures |V'| == |V| + 1 <= width * height && |stack'| == |stack| + 1
    {
      var top := stack[|stack| - 1];
      assert top in V;
      assert next !in V;
      BacktrackPush(V, E, parent, depth, stack, width, height, next);
      Connect(top.x, top.y, next.x, next.y, V, E);
      stack' := stack + [next];
      V', E' := V + {next}, E + {Between(top, next)};
      parent', depth' := parent[next := top], depth[next := depth[top] + 1];
    }

    /**
      The backtracking loop: starting from (0, 0) it visits every cell, and
      the passages it opens (returned as the ghost `tree`) form a spanning
      tree of the grid. Each cell is pushed once and popped once, so the loop
      turns exactly 2 * width * height - 1 times after the first push.
    */
    method Carve() returns (ghost tree: set<Passage>, ghost iterations: int)
      requires Valid() && width >= 1 && height >= 1 && Untouched()
      modifies grid
      ensures Valid() && AllVisited()
      ensures Symmetric() && BorderClosed()
      ensures SpanningTree(tree, width, height)
      ensures OpenAre(tree)
      ensures iterations == 2 * (width * height) - 1
    {
      var stack: seq<Pos> := [];
      var x, y := 0, 0;
      UntouchedIsClosed();
      MarkVisited(x, y, {}, {});
      stack := stack + [Pos(x, y)];

      ghost var V: set<Pos> := {Pos(0, 0)};
      ghost var E: set<Passage> := {};
      ghost var parent: map<Pos, Pos> := map[];
      ghost var depth: map<Pos, nat> := map[Pos(0, 0) := 0];
      BacktrackStart(width, height);
      iterations := 0;

      while stack != []
        invariant Valid() && Symmetric() && BorderClosed()
        invariant VisitedAre(V) && OpenAre(E)
        invariant Backtrack(V, E, parent, depth, stack, width, height)
        invariant iterations == 2 * |V| - |stack| - 1
        decreases width * height - |V|, |stack|
      {
        stack, V, E, parent, depth := Step(stack, V, E, parent, depth);
        iterations := iterations + 1;
      }

      CarvedSpans(V, E, parent, depth, width, height);
      tree := E;
    }

    /**
      Forces open the wall between the exit cell (width - 1, height - 1) and
      its left neighbour, and the one between it and the cell above, where
      those exist. Visited flags and all other walls are kept.
    */
    method OpenExit(ghost E: set<Passage>)
      requires Valid() && width >= 1 && height >= 1
      requires AllVisited() && OpenAre(E) && Symmetric() && BorderClosed()
      modifies grid
      ensures width > 1 ==> !grid[height - 1, width - 1].left && !grid[height - 1, width - 2].right
      ensures height > 1 ==> !grid[height - 1, width - 1].top && !grid[height - 2, width - 1].bottom
      ensures AllVisited() && OpenAre(E + ExitPassages(width, height))
      ensures Symmetric() && BorderClosed()
    {
      ghost var E1 := E;
      if width > 1 {
        OpenAcross(height - 1, width - 2, width - 1, {}, E);
        E1 := E + {Across(width - 2, height - 1)};
      }
      ghost var E2 := E1;
      if height > 1 {
        OpenDown(width - 1, height - 2, height - 1, {}, E1);
        E2 := E1 + {Down(width - 1, height - 2)};
      }
      assert E2 == E + ExitPassages(width, height);
    }

    /**
      Carves a perfect maze out of a freshly built grid by depth-first
      backtracking from (0, 0), then forces open the two walls next to the
      exit cell. `tree` is the set of passages the backtracker carved and
      `iterations` the number of turns its loop took; both are ghost.
    */
    method Generate() returns (ghost tree: set<Passage>, ghost iterations: int)
      requires Valid() && width >= 1 && height >= 1 && Untouched()
      modifies grid
      ensures Valid()
      ensures AllVisited()
      ensures Symmetric() && BorderClosed()
      ensures SpanningTree(tree, width, height)
      ensures OpenAre(tree + ExitPassages(width, height))
      ensures width > 1 ==> !grid[height - 1, width - 1].left && !grid[height - 1, width - 2].right
      ensures height > 1 ==> !grid[height - 1, width - 1].top && !grid[height - 2, width - 1].bottom
      ensures iterations == 2 * (width * height) - 1
    {
      tree, iterations := Carve();
      OpenExit(tree);
    }
  }

  /** The wall between cell (x, y) of `g` and its right neighbour reads the same from both cells. */
  ghost predicate AcrossAgrees(g: array2<Cell>, y: int, x: int)
    reads g
    requires 0 <= y < g.Length0 && 0 <= x < g.Length1 - 1
  {
    g[y, x].right == g[y, x + 1].left
  }

  /** The wall between cell (x, y) of `g` and the cell below it reads the same from both cells. */
  ghost predicate DownAgrees(g: array2<Cell>, y: int, x: int)
    reads g
    requires 0 <= y < g.Length0 - 1 && 0 <= x < g.Length1
  {
    g[y, x].bottom == g[y + 1, x].top
  }

  /**
    A pixel coordinate inside `n` cells of size `cs` falls in one of them,
    and in the last one exactly when it is at least `(n - 1) * cs`.
  */
  lemma CellOfPixel(pixel: int, n: int, cs: int)
    requires cs > 0 && 0 <= pixel < n * cs
    ensures 0 <= pixel / cs < n
    ensures pixel / cs == n - 1 <==> (n - 1) * cs <= pixel
  {
    var c := pixel / cs;
    assert c * cs <= pixel < c * cs + cs;
    assert n * cs == (n - 1) * cs + cs;
    MulLess(c, n - 1, cs);
    MulLess(n - 1, c, cs);
    MulLess(c, 0, cs);
  }

  /** Scaling by a positive size keeps a strict order at least one size apart. */
  lemma MulLess(x: int, y: int, cs: int)
    requires cs > 0
    ensures x < y ==> x * cs + cs <= y * cs
  {
    var k := y - x;
    assert y * cs == x * cs + k * cs;
    if x < y {
      assert k * cs >= cs;
    }
  }

  /** Direction index of q seen from p: 0 north, 1 east, 2 south, 3 west. */
  function Heading(p: Pos, q: Pos): nat {
    if q == Pos(p.x, p.y - 1) then 0
    else if q == Pos(p.x + 1, p.y) then 1
    else if q == Pos(p.x, p.y + 1) then 2
    else 3
  }
}
