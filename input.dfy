/**
  What a screen handler polls in one frame (held keys, mouse buttons, the
  menu entry under the pointer) and the press-edge detector every handler
  builds from a `xxxPressed` latch flag.
*/
module Input {
  datatype Option<T> = None | Some(value: T)

  /** SFML keyboard codes (sf::Keyboard::Key). */
  type Key = int
  const A: Key := 0
  const D: Key := 3
  const H: Key := 7
  const M: Key := 12
  const S: Key := 18
  const W: Key := 22
  const Z: Key := 25
  const Escape: Key := 36
  const Space: Key := 57
  const Enter: Key := 58
  const F1: Key := 85

  /**
    The input of one frame: the keys held down, the two mouse buttons, and
    the index of the first menu entry whose bounds contain the pointer.
  */
  datatype Frame = Frame(held: set<Key>, mouseLeft: bool, mouseRight: bool, hovered: Option<nat>)

  /** The entry under the pointer, if it is one of the first `count` entries. */
  function HoveredEntry(f: Frame, count: nat): (r: Option<nat>)
    ensures r.Some? <==> f.hovered.Some? && f.hovered.value < count
    ensures r.Some? ==> r.value == f.hovered.value && r.value < count
  {
    if f.hovered.Some? && f.hovered.value < count then f.hovered else None
  }

  /** Outcome of one edge check: whether the action fires, and the latch afterwards. */
  datatype Edge = Edge(fires: bool, latch: bool)

  /**
    The handlers' edge detector: `if (down) { if (!latch) { act; latch = true; } }
    else latch = false;`. The action fires on a released-to-pressed change
    only, and the latch afterwards remembers whether the key is down.
  */
  function Press(latch: bool, down: bool): (e: Edge)
    ensures e.latch == down
    ensures e.fires <==> down && !latch
  {
    if down then Edge(!latch, true) else Edge(false, false)
  }

  /** How often the action fires over consecutive frames with key states `downs`. */
  function Firings(latch: bool, downs: seq<bool>): nat
    decreases |downs|
  {
    if downs == [] then 0
    else
      var e := Press(latch, downs[0]);
      (if e.fires then 1 else 0) + Firings(e.latch, downs[1..])
  }

  /** Number of frames in `downs` with the key released. */
  function Releases(downs: seq<bool>): nat
    decreases |downs|
  {
    if downs == [] then 0 else (if downs[0] then 0 else 1) + Releases(downs[1..])
  }

  /**
    A held key fires at most once per press: between two firings the key
    must have been released, so the firings never outnumber the releases
    (plus one for a key not latched at the start).
  */
  lemma {:induction false} FiringsBoundedByReleases(latch: bool, downs: seq<bool>)
    ensures Firings(latch, downs) <= Releases(downs) + (if latch then 0 else 1)
    decreases |downs|
  {
    if downs != [] {
      FiringsBoundedByReleases(downs[0], downs[1..]);
    }
  }

  /** Holding a key for `n` frames fires once if it was not latched, never if it was. */
  lemma {:induction false} HoldingFiresOnce(latch: bool, n: nat)
    ensures Firings(latch, seq(n, _ => true)) == if latch || n == 0 then 0 else 1
    decreases n
  {
    if n > 0 {
      var downs := seq(n, _ => true);
      assert downs[1..] == seq(n - 1, _ => true);
      HoldingFiresOnce(true, n - 1);
    }
  }

  /** C++ `/` on `int` for a positive divisor: the quotient is truncated toward zero. */
  function CDiv(a: int, n: int): int
    requires n > 0
  {
    if a >= 0 then a / n else -((-a) / n)
  }

  /**
    C++ `%` on `int`: the remainder takes the sign of the dividend (the
    quotient is truncated toward zero), unlike Dafny's Euclidean `%`.
  */
  function CRem(a: int, n: int): (r: int)
    requires n > 0
    ensures a >= 0 ==> r == a % n && 0 <= r < n
    ensures a < 0 ==> -n < r <= 0
    ensures a == n * CDiv(a, n) + r
  {
    if a >= 0 then a % n else -((-a) % n)
  }
}
