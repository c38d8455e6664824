/** Real-number helpers shared by the geometry kernel: Python's `abs`, `min`,
    `max`, `round` (half to even) and float `%` by 360, written out on `real`,
    and the transcendental functions the core calls, passed in as parameters. */
module RealMath {

  /** The part of Python's `math` module that the core uses and that Dafny has
      no definition for. Every operation that needs a square root or a
      trigonometric value receives one of these and calls it; nothing about
      the values it returns is assumed unless a lemma states it as a
      precondition.
      - `sqrt(x)`: `math.sqrt`.
      - `cosDeg(a)`, `sinDeg(a)`: `math.cos(math.radians(a))` and the sine.
      - `bulgeArc(x1, y1, bulge, x2, y2)`: the centre x, centre y, signed
        radius, start angle and end angle that `Polyline._create_arc_from_bulge`
        derives with `atan`, `sin`, `cos` and `atan2` from a bulged vertex
        pair whose chord is not degenerate. */
  datatype MathLib = MathLib(
    sqrt: real -> real,
    cosDeg: real -> real,
    sinDeg: real -> real,
    bulgeArc: (real, real, real, real, real) -> (real, real, real, real, real))

  /** The sine and cosine stay within [-1, 1], as the true ones do. */
  ghost predicate BoundedTrig(m: MathLib) {
    forall a :: -1.0 <= m.cosDeg(a) <= 1.0 && -1.0 <= m.sinDeg(a) <= 1.0
  }

  function Abs(x: real): real {
    if x < 0.0 then -x else x
  }

  function Min(a: real, b: real): real {
    if a <= b then a else b
  }

  function Max(a: real, b: real): real {
    if a >= b then a else b
  }

  /** Python's `round(x)` for a float: the nearest integer, ties to the even one. */
  function RoundHalfEven(x: real): (r: int)
    ensures (r as real) - 0.5 <= x <= (r as real) + 0.5
    ensures (x == (r as real) - 0.5 || x == (r as real) + 0.5) ==> r % 2 == 0
  {
    var f := x.Floor;
    var d := x - f as real;
    if d < 0.5 then f
    else if d > 0.5 then f + 1
    else if f % 2 == 0 then f
    else f + 1
  }

  /** The two clauses of `RoundHalfEven` pin its value down: no other integer
      is both within one half of `x` and even on a tie. */
  lemma RoundHalfEvenUnique(x: real, k: int)
    requires (k as real) - 0.5 <= x <= (k as real) + 0.5
    requires (x == (k as real) - 0.5 || x == (k as real) + 0.5) ==> k % 2 == 0
    ensures k == RoundHalfEven(x)
  {
  }

  /** Python's `a % 360` on floats: the result has the sign of the divisor. */
  function Mod360(a: real): (r: real)
    ensures 0.0 <= r < 360.0
    ensures 0.0 <= a < 360.0 ==> r == a
  {
    var q := (a / 360.0).Floor;
    var r := a - 360.0 * (q as real);
    assert 0.0 <= r by {
      assert (q as real) <= a / 360.0;
    }
    assert r < 360.0 by {
      assert a / 360.0 < (q as real) + 1.0;
    }
    if 0.0 <= a < 360.0 then
      assert q == 0 by {
        assert 0.0 <= a / 360.0 < 1.0;
      }
      r
    else r
  }

  /** On (-360, 0) the remainder adds one turn. */
  lemma Mod360Negative(a: real)
    requires -360.0 <= a < 0.0
    ensures Mod360(a) == a + 360.0
  {
    var q := (a / 360.0).Floor;
    assert -1.0 <= a / 360.0 < 0.0;
    assert q == -1;
  }

  /** A value scaled by a factor in [-1, 1] stays within its own magnitude. */
  lemma MulBounded(r: real, c: real)
    requires r >= 0.0 && -1.0 <= c <= 1.0
    ensures -r <= r * c <= r
  {
    if c >= 0.0 {
      assert r * c <= r * 1.0;
      assert r * c >= 0.0;
    } else {
      assert r * (-c) <= r * 1.0;
      assert r * (-c) >= 0.0;
      assert r * c == -(r * (-c));
    }
  }
}
