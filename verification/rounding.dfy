/**
 * Rounding of output figures to a fixed number of decimal places, over exact
 * reals. The worker writes `Math.round(x * s) / s` for a scale s of 100,
 * 1000 or 10000, which sends ties towards +infinity; the backend calls
 * Python's `round(x, d)`, which sends ties to the even neighbour.
 */
module Rounding {

  /** A decimal scale factor 10^d. */
  type Scale = s: real | s >= 1.0 witness 1.0

  function Pow10(d: nat): (s: Scale) {
    if d == 0 then 1.0 else 10.0 * Pow10(d - 1)
  }

  /** Half of one unit of the last kept decimal place. */
  function HalfUnit(s: Scale): (h: real)
    ensures h > 0.0
  {
    0.5 / s
  }

  /** x has no more decimals than the scale keeps. */
  predicate OnGrid(x: real, s: Scale) {
    (x * s).Floor as real == x * s
  }

  /** r is an even number of grid steps: r * s is an even integer. */
  predicate EvenOnGrid(r: real, s: Scale) {
    ((r * s) / 2.0).Floor as real == (r * s) / 2.0
  }

  /** The grid point k / s. */
  function GridPoint(k: int, s: Scale): (r: real)
    ensures OnGrid(r, s) && r * s == k as real
  {
    GridPointScales(k, s);
    k as real / s
  }

  lemma GridPointScales(k: int, s: Scale)
    ensures OnGrid(k as real / s, s)
    ensures (k as real / s) * s == k as real
  {
    var r := k as real / s;
    assert r * s == k as real;
    assert (r * s).Floor == k;
  }

  /** `Math.round(y)`: the integer nearest to y, ties upward. */
  function HalfUpIndex(y: real): (k: int)
    ensures k as real - 0.5 <= y < k as real + 0.5
  {
    (y + 0.5).Floor
  }

  /** The integer nearest to y, ties to the even one. */
  function HalfEvenIndex(y: real): (k: int)
    ensures k as real - 0.5 <= y <= k as real + 0.5
    ensures (y == k as real - 0.5 || y == k as real + 0.5) ==> k % 2 == 0
  {
    var f := y.Floor;
    if y - f as real < 0.5 then f
    else if y - f as real > 0.5 then f + 1
    else if f % 2 == 0 then f else f + 1
  }

  /**
   * `Math.round(x * s) / s` in the worker: a grid point within half a unit
   * of x, and on a tie the upper one (the bound above is strict).
   */
  function RoundHalfUp(x: real, s: Scale): (r: real)
    ensures OnGrid(r, s)
    ensures r - HalfUnit(s) <= x < r + HalfUnit(s)
  {
    ScaledBounds(x, HalfUpIndex(x * s), s);
    GridPoint(HalfUpIndex(x * s), s)
  }

  /**
   * Python's `round(x, d)` with s == 10^d in the backend: a grid point within
   * half a unit of x, and on a tie the one whose scaled value is even.
   */
  function RoundHalfEven(x: real, s: Scale): (r: real)
    ensures OnGrid(r, s)
    ensures r - HalfUnit(s) <= x <= r + HalfUnit(s)
    ensures (x == r - HalfUnit(s) || x == r + HalfUnit(s)) ==> EvenOnGrid(r, s)
  {
    ScaledBounds(x, HalfEvenIndex(x * s), s);
    HalfEvenTieIsEven(x, s);
    EvenIndexOnGrid(HalfEvenIndex(x * s), s);
    GridPoint(HalfEvenIndex(x * s), s)
  }

  /** The grid point of an even index is an even number of steps. */
  lemma EvenIndexOnGrid(k: int, s: Scale)
    ensures k % 2 == 0 ==> EvenOnGrid(GridPoint(k, s), s)
  {
    if k % 2 == 0 {
      var r, m := GridPoint(k, s), k / 2;
      assert k == 2 * m;
      assert r * s == k as real;
      assert (r * s) / 2.0 == m as real;
      assert (m as real).Floor == m;
      assert ((r * s) / 2.0).Floor == m;
      assert EvenOnGrid(r, s);
    }
  }

  /** A tie for x is a tie for the scaled figure, which the even index wins. */
  lemma HalfEvenTieIsEven(x: real, s: Scale)
    ensures x == GridPoint(HalfEvenIndex(x * s), s) - HalfUnit(s) ==> HalfEvenIndex(x * s) % 2 == 0
    ensures x == GridPoint(HalfEvenIndex(x * s), s) + HalfUnit(s) ==> HalfEvenIndex(x * s) % 2 == 0
  {
    ScaledBounds(x, HalfEvenIndex(x * s), s);
  }

  /** Python's `round(x, d)`, by number of decimals. */
  function PyRound(x: real, d: nat): (r: real)
    ensures OnGrid(r, Pow10(d))
    ensures r - HalfUnit(Pow10(d)) <= x <= r + HalfUnit(Pow10(d))
    ensures (x == r - HalfUnit(Pow10(d)) || x == r + HalfUnit(Pow10(d))) ==> EvenOnGrid(r, Pow10(d))
  {
    RoundHalfEven(x, Pow10(d))
  }

  /** |x * s - k| <= 1/2 carries over to |x - k / s| <= 1/(2 s). */
  lemma ScaledBounds(x: real, k: int, s: Scale)
    ensures k as real - 0.5 <= x * s ==> GridPoint(k, s) - HalfUnit(s) <= x
    ensures x * s < k as real + 0.5 ==> x < GridPoint(k, s) + HalfUnit(s)
    ensures x * s <= k as real + 0.5 ==> x <= GridPoint(k, s) + HalfUnit(s)
    ensures x * s == k as real - 0.5 ==> x == GridPoint(k, s) - HalfUnit(s)
    ensures x * s == k as real + 0.5 ==> x == GridPoint(k, s) + HalfUnit(s)
    ensures x == GridPoint(k, s) - HalfUnit(s) ==> x * s == k as real - 0.5
    ensures x == GridPoint(k, s) + HalfUnit(s) ==> x * s == k as real + 0.5
  {
    assert GridPoint(k, s) - HalfUnit(s) == (k as real - 0.5) / s;
    assert GridPoint(k, s) + HalfUnit(s) == (k as real + 0.5) / s;
    assert x == (x * s) / s;
  }

  /** A figure that already has few enough decimals is left unchanged by either rounding. */
  lemma RoundingFixesGridPoints(x: real, s: Scale)
    requires OnGrid(x, s)
    ensures RoundHalfUp(x, s) == x
    ensures RoundHalfEven(x, s) == x
  {
    var y := x * s;
    var k := y.Floor;
    assert k as real == y;
    assert HalfUpIndex(y) == k;
    assert HalfEvenIndex(y) == k;
    assert GridPoint(k, s) == x by {
      assert GridPoint(k, s) * s == y;
    }
  }

  /** Rounding is idempotent: re-rounding a rounded figure changes nothing. */
  lemma RoundingIdempotent(x: real, s: Scale)
    ensures RoundHalfUp(RoundHalfUp(x, s), s) == RoundHalfUp(x, s)
    ensures RoundHalfEven(RoundHalfEven(x, s), s) == RoundHalfEven(x, s)
  {
    RoundingFixesGridPoints(RoundHalfUp(x, s), s);
    RoundingFixesGridPoints(RoundHalfEven(x, s), s);
  }

  /** Off a tie, the nearest integer does not depend on the tie-breaking rule. */
  lemma IndicesAgreeOffTies(y: real)
    requires y - y.Floor as real != 0.5
    ensures HalfUpIndex(y) == HalfEvenIndex(y)
  {
    var f := y.Floor;
    if y - f as real < 0.5 {
      assert (y + 0.5).Floor == f;
    } else {
      assert (y + 0.5).Floor == f + 1;
    }
  }

  /**
   * The two engines' roundings differ only on exact ties, where x lies
   * halfway between two grid points.
   */
  lemma RoundingsAgreeOffTies(x: real, s: Scale)
    requires x * s - (x * s).Floor as real != 0.5
    ensures RoundHalfUp(x, s) == RoundHalfEven(x, s)
  {
    IndicesAgreeOffTies(x * s);
  }

  /** Nearest-integer rounding with ties to even never reverses an order. */
  lemma HalfEvenIndexMonotone(y1: real, y2: real)
    requires y1 <= y2
    ensures HalfEvenIndex(y1) <= HalfEvenIndex(y2)
  {
    // Two consecutive integers cannot both be the even neighbour of one tie.
  }

  /** Both roundings are monotone: a larger figure never rounds to a smaller one. */
  lemma RoundingMonotone(x1: real, x2: real, s: Scale)
    requires x1 <= x2
    ensures RoundHalfUp(x1, s) <= RoundHalfUp(x2, s)
    ensures RoundHalfEven(x1, s) <= RoundHalfEven(x2, s)
  {
    assert x1 * s <= x2 * s;
    HalfEvenIndexMonotone(x1 * s, x2 * s);
    GridPointMonotone(HalfUpIndex(x1 * s), HalfUpIndex(x2 * s), s);
    GridPointMonotone(HalfEvenIndex(x1 * s), HalfEvenIndex(x2 * s), s);
  }

  lemma GridPointMonotone(k1: int, k2: int, s: Scale)
    requires k1 <= k2
    ensures GridPoint(k1, s) <= GridPoint(k2, s)
  {
    assert GridPoint(k1, s) * s <= GridPoint(k2, s) * s;
  }

  /** On a tie they can differ: 0.125 gives 0.13 in the worker and 0.12 in the backend. */
  lemma RoundingsDifferOnTie()
    ensures RoundHalfUp(0.125, 100.0) == 0.13
    ensures PyRound(0.125, 2) == 0.12
  {
    assert Pow10(2) == 100.0;
    assert HalfUpIndex(12.5) == 13;
    assert HalfEvenIndex(12.5) == 12;
  }
}
