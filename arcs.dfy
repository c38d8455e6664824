/** `Arc`: a circular arc swept counter-clockwise from `startAngle` to
    `endAngle` (degrees) around `center`. */
module Arcs {
  import opened RealMath
  import opened Points
  import opened BoundingBoxes
  import opened EntityBase

  datatype Arc = Arc(center: Point, radius: real, startAngle: real, endAngle: real, attrs: Attrs)

  /** The point of the circle at `angle` degrees, through the caller's trigonometry. */
  function PointAt(m: MathLib, a: Arc, angle: real): Point {
    Point(a.center.x + a.radius * m.cosDeg(angle), a.center.y + a.radius * m.sinDeg(angle))
  }

  function StartPoint(m: MathLib, a: Arc): Point {
    PointAt(m, a, a.startAngle)
  }

  function EndPoint(m: MathLib, a: Arc): Point {
    PointAt(m, a, a.endAngle)
  }

  /** `angle_in_arc` inside `bounding_box`: both angles are first reduced
      modulo 360; an arc that does not pass 0° covers [start, end] inclusive,
      one that passes 0° covers the angles at or above start or at or below end. */
  predicate AngleInArc(a: Arc, angle: real) {
    var s := Mod360(a.startAngle);
    var e := Mod360(a.endAngle);
    if s <= e then s <= angle <= e else angle >= s || angle <= e
  }

  /** The sweep test agrees with turning counter-clockwise from the start:
      an angle of [0, 360) is covered exactly when it is reached from the
      start no later than the end is. */
  lemma {:induction false} AngleInArcIsSweep(a: Arc, angle: real)
    requires 0.0 <= angle < 360.0
    ensures AngleInArc(a, angle) <==>
      Mod360(angle - Mod360(a.startAngle)) <= Mod360(Mod360(a.endAngle) - Mod360(a.startAngle))
  {
    var s := Mod360(a.startAngle);
    var e := Mod360(a.endAngle);
    if angle >= s {
      assert Mod360(angle - s) == angle - s;
    } else {
      Mod360Negative(angle - s);
    }
    if e >= s {
      assert Mod360(e - s) == e - s;
    } else {
      Mod360Negative(e - s);
    }
  }

  /** The cardinal extreme points that `bounding_box` adds for 0°, 90°, 180°
      and 270° when the sweep covers them, in that order. */
  function CardinalPoints(a: Arc): seq<Point> {
    var c, r := a.center, a.radius;
    (if AngleInArc(a, 0.0) then [Point(c.x + r, c.y)] else []) +
    (if AngleInArc(a, 90.0) then [Point(c.x, c.y + r)] else []) +
    (if AngleInArc(a, 180.0) then [Point(c.x - r, c.y)] else []) +
    (if AngleInArc(a, 270.0) then [Point(c.x, c.y - r)] else [])
  }

  /** The points `bounding_box` collects: both ends, then the covered cardinals. */
  function BoxPoints(m: MathLib, a: Arc): (pts: seq<Point>)
    ensures |pts| >= 2 && pts[0] == StartPoint(m, a) && pts[1] == EndPoint(m, a)
  {
    [StartPoint(m, a), EndPoint(m, a)] + CardinalPoints(a)
  }

  /** `bounding_box`: the box of the collected points. */
  function ArcBox(m: MathLib, a: Arc): (b: BoundingBox)
    ensures WellFormed(b)
    ensures ContainsPoint(b, StartPoint(m, a)) && ContainsPoint(b, EndPoint(m, a))
    ensures forall p :: p in CardinalPoints(a) ==> ContainsPoint(b, p)
  {
    var pts := BoxPoints(m, a);
    var b := FromPoints(pts).value;
    assert forall p :: p in CardinalPoints(a) ==> p in pts;
    b
  }

  /** With true trigonometry and a non-negative radius every collected point
      lies on the circle's bounding square, so the box does too. */
  lemma ArcBoxInSquare(m: MathLib, a: Arc)
    requires BoundedTrig(m) && a.radius >= 0.0
    ensures Encloses(Square(a), ArcBox(m, a))
  {
    var pts := BoxPoints(m, a);
    var sq := Square(a);
    PointAtInSquare(m, a, a.startAngle);
    PointAtInSquare(m, a, a.endAngle);
    CardinalsInSquare(a);
    forall i | 0 <= i < |pts| ensures ContainsPoint(sq, pts[i]) {
      if i >= 2 {
        assert pts[i] == CardinalPoints(a)[i - 2];
      }
    }
    FromPointsLeast(pts, sq);
  }

  lemma PointAtInSquare(m: MathLib, a: Arc, angle: real)
    requires BoundedTrig(m) && a.radius >= 0.0
    ensures ContainsPoint(Square(a), PointAt(m, a, angle))
  {
    var co, si := m.cosDeg(angle), m.sinDeg(angle);
    assert -1.0 <= co <= 1.0 && -1.0 <= si <= 1.0;
    OffsetPointInSquare(a, co, si);
  }

  /** The centre moved by the radius scaled by factors in [-1, 1] stays in
      the square. */
  lemma OffsetPointInSquare(a: Arc, co: real, si: real)
    requires a.radius >= 0.0 && -1.0 <= co <= 1.0 && -1.0 <= si <= 1.0
    ensures ContainsPoint(Square(a), Point(a.center.x + a.radius * co, a.center.y + a.radius * si))
  {
    OffsetInRange(a.center.x, a.radius, co);
    OffsetInRange(a.center.y, a.radius, si);
  }

  /** A coordinate moved by at most the radius stays within the square. */
  lemma OffsetInRange(c: real, r: real, t: real)
    requires r >= 0.0 && -1.0 <= t <= 1.0
    ensures c - r <= c + r * t <= c + r
  {
    MulBounded(r, t);
  }

  lemma CardinalsInSquare(a: Arc)
    requires a.radius >= 0.0
    ensures forall p :: p in CardinalPoints(a) ==> ContainsPoint(Square(a), p)
  {
  }

  /** The square around the whole circle. */
  function Square(a: Arc): BoundingBox {
    BoundingBox(a.center.x - a.radius, a.center.y - a.radius,
                a.center.x + a.radius, a.center.y + a.radius)
  }

  /** Each covered cardinal angle makes the box reach that side of the
      circle's square exactly. */
  lemma ArcBoxExtremes(m: MathLib, a: Arc)
    requires BoundedTrig(m) && a.radius >= 0.0
    ensures var b, sq := ArcBox(m, a), Square(a);
      (AngleInArc(a, 0.0) ==> b.maxX == sq.maxX) &&
      (AngleInArc(a, 90.0) ==> b.maxY == sq.maxY) &&
      (AngleInArc(a, 180.0) ==> b.minX == sq.minX) &&
      (AngleInArc(a, 270.0) ==> b.minY == sq.minY)
  {
    var c, r := a.center, a.radius;
    ArcBoxInSquare(m, a);
    if AngleInArc(a, 0.0) {
      assert Point(c.x + r, c.y) in CardinalPoints(a);
    }
    if AngleInArc(a, 90.0) {
      assert Point(c.x, c.y + r) in CardinalPoints(a);
    }
    if AngleInArc(a, 180.0) {
      assert Point(c.x - r, c.y) in CardinalPoints(a);
    }
    if AngleInArc(a, 270.0) {
      assert Point(c.x, c.y - r) in CardinalPoints(a);
    }
  }

  /** `mirror_x`: the centre is reflected, the radius kept, and the angles
      become 180 − end and 180 − start; attributes are copied. */
  function MirrorX(a: Arc, c: real): (r: Arc)
    ensures r.center == Points.MirrorX(a.center, c) && r.radius == a.radius
    ensures r.startAngle == 180.0 - a.endAngle && r.endAngle == 180.0 - a.startAngle
    ensures r.attrs == a.attrs
  {
    Arc(Points.MirrorX(a.center, c), a.radius, 180.0 - a.endAngle, 180.0 - a.startAngle, a.attrs)
  }

  lemma MirrorXInvolution(a: Arc, c: real)
    ensures MirrorX(MirrorX(a, c), c) == a
  {
  }

  /** With true trigonometry the mirrored arc's end points are the start and
      end points reflected and swapped. */
  lemma MirrorXEnds(m: MathLib, a: Arc, c: real)
    requires forall t :: m.cosDeg(180.0 - t) == -m.cosDeg(t) && m.sinDeg(180.0 - t) == m.sinDeg(t)
    ensures StartPoint(m, MirrorX(a, c)) == Points.MirrorX(EndPoint(m, a), c)
    ensures EndPoint(m, MirrorX(a, c)) == Points.MirrorX(StartPoint(m, a), c)
  {
    var r := a.radius;
    assert m.cosDeg(180.0 - a.endAngle) == -m.cosDeg(a.endAngle);
    assert m.cosDeg(180.0 - a.startAngle) == -m.cosDeg(a.startAngle);
    assert r * (-m.cosDeg(a.endAngle)) == -(r * m.cosDeg(a.endAngle));
    assert r * (-m.cosDeg(a.startAngle)) == -(r * m.cosDeg(a.startAngle));
  }

  /** `translate`: only the centre moves. */
  function Translate(a: Arc, dx: real, dy: real): (r: Arc)
    ensures r.center == Points.Translate(a.center, dx, dy)
    ensures r.radius == a.radius && r.startAngle == a.startAngle && r.endAngle == a.endAngle
    ensures r.attrs == a.attrs
  {
    a.(center := Points.Translate(a.center, dx, dy))
  }

  lemma TranslateInverse(a: Arc, dx: real, dy: real)
    ensures Translate(Translate(a, dx, dy), -dx, -dy) == a
  {
  }

  /** The sweep depends on the angles only, so translation keeps it. */
  lemma TranslateKeepsSweep(a: Arc, dx: real, dy: real, angle: real)
    ensures AngleInArc(Translate(a, dx, dy), angle) == AngleInArc(a, angle)
  {
  }

  /** A point at a given angle moves with the centre. */
  lemma PointAtTranslate(m: MathLib, a: Arc, dx: real, dy: real, angle: real)
    ensures PointAt(m, Translate(a, dx, dy), angle) == Points.Translate(PointAt(m, a, angle), dx, dy)
  {
    var c, s := a.radius * m.cosDeg(angle), a.radius * m.sinDeg(angle);
    assert PointAt(m, Translate(a, dx, dy), angle) == Point(a.center.x + dx + c, a.center.y + dy + s);
  }

  /** Translation moves every collected point, hence the whole box. */
  lemma ArcBoxTranslate(m: MathLib, a: Arc, dx: real, dy: real)
    ensures ArcBox(m, Translate(a, dx, dy)) == TranslateBox(ArcBox(m, a), dx, dy)
  {
    var t := Translate(a, dx, dy);
    PointAtTranslate(m, a, dx, dy, a.startAngle);
    PointAtTranslate(m, a, dx, dy, a.endAngle);
    assert CardinalPoints(t) == TranslateAll(CardinalPoints(a), dx, dy);
    assert BoxPoints(m, t) == TranslateAll(BoxPoints(m, a), dx, dy);
    FromPointsTranslate(BoxPoints(m, a), dx, dy);
  }
}
