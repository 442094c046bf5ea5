/**
  Value-level vocabulary of the maze: grid positions, cells with their four
  walls, the passages between neighbouring cells, and trails along passages.
  The facts proved here are the graph-theoretic half of the "perfect maze"
  argument; the class in maze.dfy supplies the other half.
*/
module Grid {

  /** A cell coordinate: column x, row y (row 0 is the top row). */
  datatype Pos = Pos(x: int, y: int)

  /** One maze cell: the generation flag and the walls top, right, bottom, left. */
  datatype Cell = Cell(visited: bool, top: bool, right: bool, bottom: bool, left: bool)

  /** Wall number i of a cell, numbered as the source's `walls[4]`: 0 top, 1 right, 2 bottom, 3 left. */
  function Wall(c: Cell, i: nat): bool
    requires i < 4
  {
    match i
    case 0 => c.top
    case 1 => c.right
    case 2 => c.bottom
    case _ => c.left
  }

  /** The default-initialised cell: not yet visited, all four walls standing. */
  function DefaultCell(): (c: Cell)
    ensures !c.visited
    ensures forall i :: 0 <= i < 4 ==> Wall(c, i)
  {
    Cell(false, true, true, true, true)
  }

  predicate InBox(p: Pos, w: int, h: int) {
    0 <= p.x < w && 0 <= p.y < h
  }

  /** Orthogonal neighbours: the positions differ by one in exactly one coordinate. */
  predicate Adjacent(p: Pos, q: Pos) {
    (p.x == q.x && (p.y == q.y + 1 || q.y == p.y + 1)) ||
    (p.y == q.y && (p.x == q.x + 1 || q.x == p.x + 1))
  }

  /**
    A passage between two neighbouring cells: `Across(x, y)` joins (x, y) to
    (x + 1, y), `Down(x, y)` joins (x, y) to (x, y + 1).
  */
  datatype Passage = Across(x: int, y: int) | Down(x: int, y: int)

  /** The two cells a passage joins. */
  function Ends(e: Passage): set<Pos> {
    match e
    case Across(x, y) => {Pos(x, y), Pos(x + 1, y)}
    case Down(x, y) => {Pos(x, y), Pos(x, y + 1)}
  }

  /** The passage between two neighbouring cells, whichever way round they are given. */
  function Between(p: Pos, q: Pos): (e: Passage)
    requires Adjacent(p, q)
    ensures Ends(e) == {p, q}
  {
    if p.y == q.y then
      (if p.x < q.x then Across(p.x, p.y) else Across(q.x, q.y))
    else
      (if p.y < q.y then Down(p.x, p.y) else Down(q.x, q.y))
  }

  /** Every position of a w-by-h grid. */
  function Box(w: nat, h: nat): set<Pos> {
    set x, y | 0 <= x < w && 0 <= y < h :: Pos(x, y)
  }

  function Row(w: nat, y: int): set<Pos> {
    set x | 0 <= x < w :: Pos(x, y)
  }

  lemma {:induction false} RowSize(w: nat, y: int)
    ensures |Row(w, y)| == w
  {
    if w > 0 {
      RowSize(w - 1, y);
      assert Row(w, y) == Row(w - 1, y) + {Pos(w - 1, y)};
      assert Pos(w - 1, y) !in Row(w - 1, y);
    } else {
      assert Row(w, y) == {};
    }
  }

  /** The grid of height h is the grid of height h - 1 plus its last row, which is new. */
  lemma BoxSplit(w: nat, h: nat)
    requires h > 0
    ensures Box(w, h) == Box(w, h - 1) + Row(w, h - 1)
    ensures Box(w, h - 1) !! Row(w, h - 1)
  {
    forall p
      ensures p in Box(w, h) <==> p in Box(w, h - 1) || p in Row(w, h - 1)
    {
      if p in Box(w, h) {
        assert InBox(p, w, h);
      }
    }
  }

  /** A w-by-h grid has exactly w * h positions. */
  lemma {:induction false} BoxSize(w: nat, h: nat)
    ensures |Box(w, h)| == w * h
  {
    if h > 0 {
      BoxSize(w, h - 1);
      RowSize(w, h - 1);
      BoxSplit(w, h);
      assert |Box(w, h)| == w * (h - 1) + w;
      assert w * (h - 1) + w == w * h;
    } else {
      assert Box(w, h) == {};
    }
  }

  /** Each of the (up to four) in-grid neighbours of p belongs to V. */
  predicate NeighboursIn(p: Pos, V: set<Pos>, w: int, h: int) {
    (p.y > 0 ==> Pos(p.x, p.y - 1) in V) &&
    (p.x < w - 1 ==> Pos(p.x + 1, p.y) in V) &&
    (p.y < h - 1 ==> Pos(p.x, p.y + 1) in V) &&
    (p.x > 0 ==> Pos(p.x - 1, p.y) in V)
  }

  lemma {:induction false} CoveredAt(V: set<Pos>, w: int, h: int, x: nat, y: nat)
    requires x < w && y < h
    requires Pos(0, 0) in V
    requires forall p {:trigger NeighboursIn(p, V, w, h)} :: p in V ==> NeighboursIn(p, V, w, h)
    ensures Pos(x, y) in V
    decreases x + y
  {
    if x > 0 {
      CoveredAt(V, w, h, x - 1, y);
      assert NeighboursIn(Pos(x - 1, y), V, w, h);
    } else if y > 0 {
      CoveredAt(V, w, h, x, y - 1);
      assert NeighboursIn(Pos(x, y - 1), V, w, h);
    }
  }

  /**
    A set of cells that holds the corner (0, 0) and is closed under taking
    neighbours holds the whole grid: the grid is connected.
  */
  lemma ClosedCovers(V: set<Pos>, w: nat, h: nat)
    requires w >= 1 && h >= 1
    requires Pos(0, 0) in V
    requires forall p {:trigger NeighboursIn(p, V, w, h)} :: p in V ==> NeighboursIn(p, V, w, h)
    ensures Box(w, h) <= V
  {
    forall p | p in Box(w, h)
      ensures p in V
    {
      CoveredAt(V, w, h, p.x, p.y);
    }
  }

  /** A non-empty walk whose every step crosses a passage of E. */
  ghost predicate IsTrail(E: set<Passage>, t: seq<Pos>) {
    |t| > 0 &&
    forall i :: 0 < i < |t| ==> Adjacent(t[i - 1], t[i]) && Between(t[i - 1], t[i]) in E
  }

  /** Cell b can be reached from cell a through the passages of E. */
  ghost predicate Joined(E: set<Passage>, a: Pos, b: Pos) {
    exists t :: IsTrail(E, t) && t[0] == a && t[|t| - 1] == b
  }

  /**
    The parent-pointer record kept while carving: every recorded cell except
    the root has a parent of smaller depth, joined to it by a passage of E.
  */
  ghost predicate ParentTree(E: set<Passage>, V: set<Pos>, parent: map<Pos, Pos>, depth: map<Pos, nat>) {
    Pos(0, 0) in V &&
    V <= depth.Keys &&
    forall c {:trigger c in parent} :: c in V && c != Pos(0, 0) ==>
      c in parent && parent[c] in V &&
      Adjacent(parent[c], c) && Between(parent[c], c) in E &&
      depth[parent[c]] < depth[c]
  }

  /** Following parent pointers from any recorded cell leads back to (0, 0) along passages. */
  lemma {:induction false} ParentTreeJoins(E: set<Passage>, V: set<Pos>, parent: map<Pos, Pos>, depth: map<Pos, nat>, c: Pos)
    requires ParentTree(E, V, parent, depth)
    requires c in V
    ensures Joined(E, Pos(0, 0), c)
    decreases depth[c]
  {
    if c == Pos(0, 0) {
      assert IsTrail(E, [c]);
    } else {
      var p := parent[c];
      ParentTreeJoins(E, V, parent, depth, p);
      var t :| IsTrail(E, t) && t[0] == Pos(0, 0) && t[|t| - 1] == p;
      var t' := t + [c];
      forall i | 0 < i < |t'|
        ensures Adjacent(t'[i - 1], t'[i]) && Between(t'[i - 1], t'[i]) in E
      {
        if i < |t| {
          assert t'[i - 1] == t[i - 1] && t'[i] == t[i];
        } else {
          assert t'[i - 1] == p && t'[i] == c;
        }
      }
      assert IsTrail(E, t');
      assert t'[0] == Pos(0, 0) && t'[|t'| - 1] == c;
    }
  }

  /**
    A perfect maze on a w-by-h grid: every passage joins two cells of the
    grid, there are exactly w * h - 1 passages, and every cell can be reached
    from (0, 0). A connected graph on n vertices with n - 1 edges is a tree,
    so between any two cells there is exactly one simple path.
  */
  ghost predicate SpanningTree(E: set<Passage>, w: nat, h: nat) {
    (forall e :: e in E ==> Ends(e) <= Box(w, h)) &&
    |E| == w * h - 1 &&
    forall c :: c in Box(w, h) ==> Joined(E, Pos(0, 0), c)
  }

  lemma CardMono<T>(A: set<T>, B: set<T>)
    requires A <= B
    ensures |A| <= |B|
  {
    assert B == A + (B - A);
  }

  /** A new cell of the grid adds one to the count of visited cells, which stays within w * h. */
  lemma PushBound(V: set<Pos>, w: int, h: int, next: Pos)
    requires forall p :: p in V ==> InBox(p, w, h)
    requires InBox(next, w, h) && next !in V
    ensures |V + {next}| == |V| + 1 <= w * h
  {
    assert V + {next} <= Box(w, h);
    CardMono(V + {next}, Box(w, h));
    BoxSize(w, h);
  }

  /** Every passage of E joins two cells of V. */
  ghost predicate EndsIn(E: set<Passage>, V: set<Pos>) {
    forall e :: e in E ==> Ends(e) <= V
  }

  /** Every stacked cell is in V, appears once, and is joined by a passage of E to the one below it. */
  ghost predicate StackChain(stack: seq<Pos>, V: set<Pos>, E: set<Passage>) {
    (forall i :: 0 <= i < |stack| ==> stack[i] in V) &&
    (forall i, j :: 0 <= i < j < |stack| ==> stack[i] != stack[j]) &&
    (forall i {:trigger stack[i - 1], stack[i]} :: 0 < i < |stack| ==> Adjacent(stack[i - 1], stack[i]) && Between(stack[i - 1], stack[i]) in E)
  }

  /** A cell of V that has left the stack has all its in-grid neighbours in V. */
  ghost predicate Finished(V: set<Pos>, stack: seq<Pos>, w: int, h: int) {
    forall p {:trigger NeighboursIn(p, V, w, h)} :: p in V && p !in stack ==> NeighboursIn(p, V, w, h)
  }

  /**
    The bookkeeping of the depth-first backtracker, as pure data: V the
    visited cells, E the passages carved so far, parent/depth the tree of
    discoveries, and stack the backtracking stack (top last).
  */
  ghost predicate Backtrack(V: set<Pos>, E: set<Passage>, parent: map<Pos, Pos>, depth: map<Pos, nat>, stack: seq<Pos>, w: int, h: int) {
    (forall p :: p in V ==> InBox(p, w, h)) &&
    EndsIn(E, V) &&
    |E| == |V| - 1 &&
    ParentTree(E, V, parent, depth) &&
    StackChain(stack, V, E) &&
    Finished(V, stack, w, h)
  }

  /** The state after the first cell (0, 0) is visited and pushed. */
  lemma BacktrackStart(w: int, h: int)
    requires w >= 1 && h >= 1
    ensures Backtrack({Pos(0, 0)}, {}, map[], map[Pos(0, 0) := 0], [Pos(0, 0)], w, h)
  {
  }

  lemma PushTree(E: set<Passage>, V: set<Pos>, parent: map<Pos, Pos>, depth: map<Pos, nat>, top: Pos, next: Pos)
    requires ParentTree(E, V, parent, depth)
    requires top in V && next !in V && Adjacent(top, next)
    ensures ParentTree(E + {Between(top, next)}, V + {next}, parent[next := top], depth[next := depth[top] + 1])
  {
    var V', E' := V + {next}, E + {Between(top, next)};
    var parent', depth' := parent[next := top], depth[next := depth[top] + 1];
    forall c | c in V' && c != Pos(0, 0)
      ensures c in parent' && parent'[c] in V' && Adjacent(parent'[c], c) && Between(parent'[c], c) in E' && depth'[parent'[c]] < depth'[c]
    {
      if c != next {
        assert c in parent;
      }
    }
  }

  lemma PushStack(stack: seq<Pos>, V: set<Pos>, E: set<Passage>, next: Pos)
    requires StackChain(stack, V, E)
    requires stack != [] && next !in V && Adjacent(stack[|stack| - 1], next)
    ensures StackChain(stack + [next], V + {next}, E + {Between(stack[|stack| - 1], next)})
  {
    var stack', E' := stack + [next], E + {Between(stack[|stack| - 1], next)};
    forall i | 0 < i < |stack'|
      ensures Adjacent(stack'[i - 1], stack'[i]) && Between(stack'[i - 1], stack'[i]) in E'
    {
      if i < |stack| {
        assert stack'[i - 1] == stack[i - 1] && stack'[i] == stack[i];
        assert Between(stack[i - 1], stack[i]) in E;
      } else {
        assert stack'[i - 1] == stack[|stack| - 1] && stack'[i] == next;
      }
    }
  }

  lemma PushFinished(V: set<Pos>, stack: seq<Pos>, w: int, h: int, next: Pos)
    requires Finished(V, stack, w, h)
    ensures Finished(V + {next}, stack + [next], w, h)
  {
    forall p | p in V + {next} && p !in stack + [next]
      ensures NeighboursIn(p, V + {next}, w, h)
    {
      assert NeighboursIn(p, V, w, h);
    }
  }

  /** Visiting an unvisited neighbour `next` of the top cell and pushing it keeps the bookkeeping. */
  lemma BacktrackPush(V: set<Pos>, E: set<Passage>, parent: map<Pos, Pos>, depth: map<Pos, nat>, stack: seq<Pos>, w: int, h: int, next: Pos)
    requires Backtrack(V, E, parent, depth, stack, w, h)
    requires stack != [] && Adjacent(stack[|stack| - 1], next) && InBox(next, w, h) && next !in V
    ensures |V + {next}| == |V| + 1 <= w * h
    ensures Backtrack(V + {next}, E + {Between(stack[|stack| - 1], next)},
                      parent[next := stack[|stack| - 1]], depth[next := depth[stack[|stack| - 1]] + 1],
                      stack + [next], w, h)
  {
    var top := stack[|stack| - 1];
    var e := Between(top, next);
    assert next in Ends(e);
    assert e !in E;
    PushTree(E, V, parent, depth, top, next);
    PushStack(stack, V, E, next);
    PushFinished(V, stack, w, h, next);
    assert EndsIn(E + {e}, V + {next});
    PushBound(V, w, h, next);
  }

  /** Popping a top cell none of whose neighbours is unvisited keeps the bookkeeping. */
  lemma BacktrackPop(V: set<Pos>, E: set<Passage>, parent: map<Pos, Pos>, depth: map<Pos, nat>, stack: seq<Pos>, w: int, h: int)
    requires Backtrack(V, E, parent, depth, stack, w, h)
    requires stack != [] && NeighboursIn(stack[|stack| - 1], V, w, h)
    ensures Backtrack(V, E, parent, depth, stack[..|stack| - 1], w, h)
  {
    var stack' := stack[..|stack| - 1];
    forall p | p in V && p !in stack'
      ensures NeighboursIn(p, V, w, h)
    {
      if p != stack[|stack| - 1] {
        assert p !in stack;
      }
    }
    forall i | 0 < i < |stack'|
      ensures Adjacent(stack'[i - 1], stack'[i]) && Between(stack'[i - 1], stack'[i]) in E
    {
      assert stack'[i - 1] == stack[i - 1] && stack'[i] == stack[i];
    }
    assert StackChain(stack', V, E);
  }

  /**
    What the backtracker leaves behind once its stack is empty: the visited
    cells are the whole grid and the carved passages form a spanning tree.
  */
  lemma CarvedSpans(V: set<Pos>, E: set<Passage>, parent: map<Pos, Pos>, depth: map<Pos, nat>, w: nat, h: nat)
    requires w >= 1 && h >= 1
    requires Backtrack(V, E, parent, depth, [], w, h)
    ensures V == Box(w, h) && |V| == w * h
    ensures SpanningTree(E, w, h)
  {
    assert forall p :: p in V ==> p in Box(w, h);
    ClosedCovers(V, w, h);
    BoxSize(w, h);
    forall c | c in Box(w, h)
      ensures Joined(E, Pos(0, 0), c)
    {
      ParentTreeJoins(E, V, parent, depth, c);
    }
  }

  /** The two passages next to the exit cell (w - 1, h - 1) that the generator forces open. */
  function ExitPassages(w: int, h: int): (s: set<Passage>)
    ensures forall e :: e in s <==>
      (w > 1 && e == Between(Pos(w - 2, h - 1), Pos(w - 1, h - 1))) ||
      (h > 1 && e == Between(Pos(w - 1, h - 2), Pos(w - 1, h - 1)))
  {
    (if w > 1 then {Across(w - 2, h - 1)} else {}) + (if h > 1 then {Down(w - 1, h - 2)} else {})
  }
}
