/** `Point`: an immutable 2-D point in millimetres. */
module Points {
  import opened RealMath

  datatype Point = Point(x: real, y: real)

  lemma SquarePositive(a: real)
    requires a != 0.0
    ensures a * a > 0.0
  {
    if a < 0.0 {
      assert a * a == (-a) * (-a);
    }
  }

  lemma SumOfSquares(a: real, b: real)
    ensures a * a + b * b >= 0.0
    ensures a != 0.0 || b != 0.0 ==> a * a + b * b > 0.0
  {
    if a != 0.0 { SquarePositive(a); }
    if b != 0.0 { SquarePositive(b); }
  }

  /** The square of `distance_to`; comparisons against a tolerance use it
      instead of the square root. */
  function DistanceSquared(p: Point, q: Point): real {
    (p.x - q.x) * (p.x - q.x) + (p.y - q.y) * (p.y - q.y)
  }

  /** Never negative, and zero between a point and itself. */
  lemma DistanceSquaredSign(p: Point, q: Point)
    ensures DistanceSquared(p, q) >= 0.0
    ensures DistanceSquared(p, p) == 0.0
  {
    SumOfSquares(p.x - q.x, p.y - q.y);
  }

  /** `distance_to`, through the square root the caller supplies. */
  function DistanceTo(m: MathLib, p: Point, q: Point): real {
    m.sqrt(DistanceSquared(p, q))
  }

  lemma DistanceSymmetric(p: Point, q: Point)
    ensures DistanceSquared(p, q) == DistanceSquared(q, p)
  {
  }

  /** `midpoint_to`: the point halfway between `p` and `q`. */
  function Midpoint(p: Point, q: Point): (r: Point)
    ensures r.x - p.x == q.x - r.x && r.y - p.y == q.y - r.y
  {
    Point((p.x + q.x) / 2.0, (p.y + q.y) / 2.0)
  }

  lemma MidpointSelf(p: Point)
    ensures Midpoint(p, p) == p
  {
  }

  lemma MidpointSymmetric(p: Point, q: Point)
    ensures Midpoint(p, q) == Midpoint(q, p)
  {
  }

  /** The midpoint is equally far from both ends. */
  lemma MidpointEquidistant(p: Point, q: Point)
    ensures DistanceSquared(Midpoint(p, q), p) == DistanceSquared(Midpoint(p, q), q)
    ensures DistanceSquared(p, q) == 4.0 * DistanceSquared(Midpoint(p, q), p)
  {
    var m := Midpoint(p, q);
    var ax, ay := m.x - p.x, m.y - p.y;
    var dx, dy := p.x - q.x, p.y - q.y;
    assert dx == -2.0 * ax && dy == -2.0 * ay;
    assert dx * dx == 4.0 * (ax * ax) by { assert dx * dx == (-2.0 * ax) * (-2.0 * ax); }
    assert dy * dy == 4.0 * (ay * ay) by { assert dy * dy == (-2.0 * ay) * (-2.0 * ay); }
  }

  /** `mirror_x`: reflection across the vertical line `x = c`. */
  function MirrorX(p: Point, c: real): (r: Point)
    ensures r.y == p.y
    ensures r.x - c == c - p.x
  {
    Point(2.0 * c - p.x, p.y)
  }

  lemma MirrorXInvolution(p: Point, c: real)
    ensures MirrorX(MirrorX(p, c), c) == p
  {
  }

  /** Reflection keeps distances. */
  lemma MirrorXIsometry(p: Point, q: Point, c: real)
    ensures DistanceSquared(MirrorX(p, c), MirrorX(q, c)) == DistanceSquared(p, q)
  {
  }

  /** `translate`: shift by `(dx, dy)`. */
  function Translate(p: Point, dx: real, dy: real): (r: Point)
    ensures r.x - p.x == dx && r.y - p.y == dy
  {
    Point(p.x + dx, p.y + dy)
  }

  lemma TranslateInverse(p: Point, dx: real, dy: real)
    ensures Translate(Translate(p, dx, dy), -dx, -dy) == p
  {
  }

  lemma TranslateIsometry(p: Point, q: Point, dx: real, dy: real)
    ensures DistanceSquared(Translate(p, dx, dy), Translate(q, dx, dy)) == DistanceSquared(p, q)
  {
  }

  function ToTuple(p: Point): (real, real) {
    (p.x, p.y)
  }

  function FromTuple(t: (real, real)): Point {
    Point(t.0, t.1)
  }

  /** `from_tuple(to_tuple(p)) == p`, and the other way round. */
  lemma TupleRoundTrip(p: Point, t: (real, real))
    ensures FromTuple(ToTuple(p)) == p
    ensures ToTuple(FromTuple(t)) == t
  {
  }
}
