/** `BoundingBox`: an immutable axis-aligned rectangle. */
module BoundingBoxes {
  import opened Wrappers
  import opened RealMath
  import opened Points

  datatype BoundingBox = BoundingBox(minX: real, minY: real, maxX: real, maxY: real)

  /** Minima do not exceed maxima. */
  predicate WellFormed(b: BoundingBox) {
    b.minX <= b.maxX && b.minY <= b.maxY
  }

  function Width(b: BoundingBox): (w: real)
    ensures b.minX + w == b.maxX
    ensures WellFormed(b) ==> w >= 0.0
  {
    b.maxX - b.minX
  }

  function Height(b: BoundingBox): (h: real)
    ensures b.minY + h == b.maxY
    ensures WellFormed(b) ==> h >= 0.0
  {
    b.maxY - b.minY
  }

  function Center(b: BoundingBox): (c: Point)
    ensures c.x - b.minX == b.maxX - c.x && c.y - b.minY == b.maxY - c.y
    ensures WellFormed(b) ==> ContainsPoint(b, c)
  {
    Point((b.minX + b.maxX) / 2.0, (b.minY + b.maxY) / 2.0)
  }

  /** Inside or on an edge. */
  predicate ContainsPoint(b: BoundingBox, p: Point) {
    b.minX <= p.x <= b.maxX && b.minY <= p.y <= b.maxY
  }

  /** Every corner lies on the box, so the test includes its edges. */
  lemma ContainsCorners(b: BoundingBox)
    requires WellFormed(b)
    ensures ContainsPoint(b, Point(b.minX, b.minY)) && ContainsPoint(b, Point(b.maxX, b.maxY))
    ensures ContainsPoint(b, Point(b.minX, b.maxY)) && ContainsPoint(b, Point(b.maxX, b.minY))
  {
  }

  /** Grow every side by `margin` (shrink when negative). */
  function Expand(b: BoundingBox, margin: real): (r: BoundingBox)
    ensures Width(r) == Width(b) + 2.0 * margin
    ensures Height(r) == Height(b) + 2.0 * margin
    ensures Center(r) == Center(b)
  {
    BoundingBox(b.minX - margin, b.minY - margin, b.maxX + margin, b.maxY + margin)
  }

  lemma ExpandInverse(b: BoundingBox, margin: real)
    ensures Expand(Expand(b, margin), -margin) == b
  {
  }

  /** The smallest box holding both. */
  function Union(a: BoundingBox, b: BoundingBox): (r: BoundingBox)
    ensures r.minX == Min(a.minX, b.minX) && r.minY == Min(a.minY, b.minY)
    ensures r.maxX == Max(a.maxX, b.maxX) && r.maxY == Max(a.maxY, b.maxY)
  {
    BoundingBox(Min(a.minX, b.minX), Min(a.minY, b.minY), Max(a.maxX, b.maxX), Max(a.maxY, b.maxY))
  }

  /** `outer` holds `inner`. */
  predicate Encloses(outer: BoundingBox, inner: BoundingBox) {
    outer.minX <= inner.minX && outer.minY <= inner.minY &&
    inner.maxX <= outer.maxX && inner.maxY <= outer.maxY
  }

  /** The union holds both boxes and every point either of them holds. */
  lemma UnionContainsBoth(a: BoundingBox, b: BoundingBox, p: Point)
    ensures Encloses(Union(a, b), a) && Encloses(Union(a, b), b)
    ensures ContainsPoint(a, p) || ContainsPoint(b, p) ==> ContainsPoint(Union(a, b), p)
  {
  }

  /** Any box holding both also holds their union: the union is the least one. */
  lemma UnionLeast(a: BoundingBox, b: BoundingBox, c: BoundingBox)
    requires Encloses(c, a) && Encloses(c, b)
    ensures Encloses(c, Union(a, b))
  {
  }

  lemma UnionCommutative(a: BoundingBox, b: BoundingBox)
    ensures Union(a, b) == Union(b, a)
  {
  }

  lemma UnionAssociative(a: BoundingBox, b: BoundingBox, c: BoundingBox)
    ensures Union(Union(a, b), c) == Union(a, Union(b, c))
  {
  }

  lemma EnclosesTransitive(a: BoundingBox, b: BoundingBox, c: BoundingBox)
    requires Encloses(a, b) && Encloses(b, c)
    ensures Encloses(a, c)
  {
  }

  lemma UnionWellFormed(a: BoundingBox, b: BoundingBox)
    requires WellFormed(a) && WellFormed(b)
    ensures WellFormed(Union(a, b))
  {
  }

  /** Strictly beyond one side of `other`: touching edges or overlap is not outside. */
  predicate IsCompletelyOutside(b: BoundingBox, other: BoundingBox) {
    b.maxX < other.minX || b.minX > other.maxX || b.maxY < other.minY || b.minY > other.maxY
  }

  /** A box outside another shares no point with it; boxes that share a point
      (touching or overlapping) are not outside each other. */
  lemma OutsideSharesNoPoint(b: BoundingBox, other: BoundingBox, p: Point)
    requires IsCompletelyOutside(b, other)
    ensures !(ContainsPoint(b, p) && ContainsPoint(other, p))
  {
  }

  lemma SharedPointNotOutside(b: BoundingBox, other: BoundingBox, p: Point)
    requires ContainsPoint(b, p) && ContainsPoint(other, p)
    ensures !IsCompletelyOutside(b, other) && !IsCompletelyOutside(other, b)
  {
  }

  /** Conversely, well-formed boxes that are not outside each other share a point. */
  lemma {:induction false} NotOutsideSharesPoint(b: BoundingBox, other: BoundingBox)
    requires WellFormed(b) && WellFormed(other) && !IsCompletelyOutside(b, other)
    ensures exists p :: ContainsPoint(b, p) && ContainsPoint(other, p)
  {
    var p := Point(Max(b.minX, other.minX), Max(b.minY, other.minY));
    assert ContainsPoint(b, p) && ContainsPoint(other, p);
  }

  function MinXOf(pts: seq<Point>): (r: real)
    requires |pts| > 0
    ensures forall i :: 0 <= i < |pts| ==> r <= pts[i].x
  {
    if |pts| == 1 then pts[0].x
    else
      var rest := MinXOf(pts[1..]);
      assert forall i :: 1 <= i < |pts| ==> pts[i] == pts[1..][i - 1];
      Min(pts[0].x, rest)
  }

  function MinYOf(pts: seq<Point>): (r: real)
    requires |pts| > 0
    ensures forall i :: 0 <= i < |pts| ==> r <= pts[i].y
  {
    if |pts| == 1 then pts[0].y
    else
      var rest := MinYOf(pts[1..]);
      assert forall i :: 1 <= i < |pts| ==> pts[i] == pts[1..][i - 1];
      Min(pts[0].y, rest)
  }

  function MaxXOf(pts: seq<Point>): (r: real)
    requires |pts| > 0
    ensures forall i :: 0 <= i < |pts| ==> pts[i].x <= r
  {
    if |pts| == 1 then pts[0].x
    else
      var rest := MaxXOf(pts[1..]);
      assert forall i :: 1 <= i < |pts| ==> pts[i] == pts[1..][i - 1];
      Max(pts[0].x, rest)
  }

  function MaxYOf(pts: seq<Point>): (r: real)
    requires |pts| > 0
    ensures forall i :: 0 <= i < |pts| ==> pts[i].y <= r
  {
    if |pts| == 1 then pts[0].y
    else
      var rest := MaxYOf(pts[1..]);
      assert forall i :: 1 <= i < |pts| ==> pts[i] == pts[1..][i - 1];
      Max(pts[0].y, rest)
  }

  lemma {:induction false} MinXOfAttained(pts: seq<Point>)
    requires |pts| > 0
    ensures exists i :: 0 <= i < |pts| && pts[i].x == MinXOf(pts)
    decreases |pts|
  {
    if |pts| > 1 && MinXOf(pts) != pts[0].x {
      MinXOfAttained(pts[1..]);
      var k :| 0 <= k < |pts[1..]| && pts[1..][k].x == MinXOf(pts[1..]);
      assert pts[k + 1] == pts[1..][k];
      assert pts[k + 1].x == MinXOf(pts);
    } else {
      assert pts[0].x == MinXOf(pts);
    }
  }

  lemma {:induction false} MinYOfAttained(pts: seq<Point>)
    requires |pts| > 0
    ensures exists i :: 0 <= i < |pts| && pts[i].y == MinYOf(pts)
    decreases |pts|
  {
    if |pts| > 1 && MinYOf(pts) != pts[0].y {
      MinYOfAttained(pts[1..]);
      var k :| 0 <= k < |pts[1..]| && pts[1..][k].y == MinYOf(pts[1..]);
      assert pts[k + 1] == pts[1..][k];
      assert pts[k + 1].y == MinYOf(pts);
    } else {
      assert pts[0].y == MinYOf(pts);
    }
  }

  lemma {:induction false} MaxXOfAttained(pts: seq<Point>)
    requires |pts| > 0
    ensures exists i :: 0 <= i < |pts| && pts[i].x == MaxXOf(pts)
    decreases |pts|
  {
    if |pts| > 1 && MaxXOf(pts) != pts[0].x {
      MaxXOfAttained(pts[1..]);
      var k :| 0 <= k < |pts[1..]| && pts[1..][k].x == MaxXOf(pts[1..]);
      assert pts[k + 1] == pts[1..][k];
      assert pts[k + 1].x == MaxXOf(pts);
    } else {
      assert pts[0].x == MaxXOf(pts);
    }
  }

  lemma {:induction false} MaxYOfAttained(pts: seq<Point>)
    requires |pts| > 0
    ensures exists i :: 0 <= i < |pts| && pts[i].y == MaxYOf(pts)
    decreases |pts|
  {
    if |pts| > 1 && MaxYOf(pts) != pts[0].y {
      MaxYOfAttained(pts[1..]);
      var k :| 0 <= k < |pts[1..]| && pts[1..][k].y == MaxYOf(pts[1..]);
      assert pts[k + 1] == pts[1..][k];
      assert pts[k + 1].y == MaxYOf(pts);
    } else {
      assert pts[0].y == MaxYOf(pts);
    }
  }

  /** `from_points`: the tightest box around the points; an empty sequence is
      the source's `ValueError`. */
  function FromPoints(pts: seq<Point>): (r: Result<BoundingBox>)
    ensures r.Failure? <==> |pts| == 0
    ensures r.Success? ==> WellFormed(r.value)
    ensures r.Success? ==> forall i :: 0 <= i < |pts| ==> ContainsPoint(r.value, pts[i])
  {
    if |pts| == 0 then Failure("Cannot create bounding box from empty points")
    else Success(BoundingBox(MinXOf(pts), MinYOf(pts), MaxXOf(pts), MaxYOf(pts)))
  }

  /** Each side of the box of the points passes through one of them. */
  lemma FromPointsTight(pts: seq<Point>)
    requires |pts| > 0
    ensures var b := FromPoints(pts).value;
      (exists i :: 0 <= i < |pts| && pts[i].x == b.minX) &&
      (exists i :: 0 <= i < |pts| && pts[i].y == b.minY) &&
      (exists i :: 0 <= i < |pts| && pts[i].x == b.maxX) &&
      (exists i :: 0 <= i < |pts| && pts[i].y == b.maxY)
  {
    MinXOfAttained(pts);
    MinYOfAttained(pts);
    MaxXOfAttained(pts);
    MaxYOfAttained(pts);
  }

  /** The box of the points is the least box that holds them all. */
  lemma FromPointsLeast(pts: seq<Point>, c: BoundingBox)
    requires |pts| > 0
    requires forall i :: 0 <= i < |pts| ==> ContainsPoint(c, pts[i])
    ensures Encloses(c, FromPoints(pts).value)
  {
    var b := FromPoints(pts).value;
    FromPointsTight(pts);
    var i1 :| 0 <= i1 < |pts| && pts[i1].x == b.minX;
    var i2 :| 0 <= i2 < |pts| && pts[i2].y == b.minY;
    var i3 :| 0 <= i3 < |pts| && pts[i3].x == b.maxX;
    var i4 :| 0 <= i4 < |pts| && pts[i4].y == b.maxY;
    assert ContainsPoint(c, pts[i1]) && ContainsPoint(c, pts[i2]);
    assert ContainsPoint(c, pts[i3]) && ContainsPoint(c, pts[i4]);
  }

  /** The box moved by an offset (used for the bounding box of a translated drawing). */
  function TranslateBox(b: BoundingBox, dx: real, dy: real): (r: BoundingBox)
    ensures Width(r) == Width(b) && Height(r) == Height(b)
    ensures Center(r) == Points.Translate(Center(b), dx, dy)
  {
    BoundingBox(b.minX + dx, b.minY + dy, b.maxX + dx, b.maxY + dy)
  }

  /** Moving both boxes moves their union. */
  lemma UnionTranslate(a: BoundingBox, b: BoundingBox, dx: real, dy: real)
    ensures Union(TranslateBox(a, dx, dy), TranslateBox(b, dx, dy)) == TranslateBox(Union(a, b), dx, dy)
  {
  }

  /** Every point moved by the same offset. */
  function TranslateAll(pts: seq<Point>, dx: real, dy: real): (r: seq<Point>)
    ensures |r| == |pts| && forall i :: 0 <= i < |pts| ==> r[i] == Points.Translate(pts[i], dx, dy)
  {
    seq(|pts|, i requires 0 <= i < |pts| => Points.Translate(pts[i], dx, dy))
  }

  /** A well-formed box that holds every point and attains each bound at one
      of them is the box `from_points` builds. */
  lemma FromPointsUnique(pts: seq<Point>, b: BoundingBox)
    requires |pts| > 0
    requires forall i :: 0 <= i < |pts| ==> ContainsPoint(b, pts[i])
    requires exists i :: 0 <= i < |pts| && pts[i].x == b.minX
    requires exists i :: 0 <= i < |pts| && pts[i].y == b.minY
    requires exists i :: 0 <= i < |pts| && pts[i].x == b.maxX
    requires exists i :: 0 <= i < |pts| && pts[i].y == b.maxY
    ensures FromPoints(pts) == Success(b)
  {
    var i0 :| 0 <= i0 < |pts| && pts[i0].x == b.minX;
    var i1 :| 0 <= i1 < |pts| && pts[i1].y == b.minY;
    var i2 :| 0 <= i2 < |pts| && pts[i2].x == b.maxX;
    var i3 :| 0 <= i3 < |pts| && pts[i3].y == b.maxY;
    MinXOfAttained(pts);
    MinYOfAttained(pts);
    MaxXOfAttained(pts);
    MaxYOfAttained(pts);
    var j0 :| 0 <= j0 < |pts| && pts[j0].x == MinXOf(pts);
    var j1 :| 0 <= j1 < |pts| && pts[j1].y == MinYOf(pts);
    var j2 :| 0 <= j2 < |pts| && pts[j2].x == MaxXOf(pts);
    var j3 :| 0 <= j3 < |pts| && pts[j3].y == MaxYOf(pts);
    assert b.minX == MinXOf(pts) by { assert ContainsPoint(b, pts[j0]); }
    assert b.minY == MinYOf(pts) by { assert ContainsPoint(b, pts[j1]); }
    assert b.maxX == MaxXOf(pts) by { assert ContainsPoint(b, pts[j2]); }
    assert b.maxY == MaxYOf(pts) by { assert ContainsPoint(b, pts[j3]); }
  }

  /** The box of moved points is the moved box. */
  lemma FromPointsTranslate(pts: seq<Point>, dx: real, dy: real)
    requires |pts| > 0
    ensures FromPoints(TranslateAll(pts, dx, dy)) == Success(TranslateBox(FromPoints(pts).value, dx, dy))
  {
    var b := FromPoints(pts).value;
    var t := TranslateAll(pts, dx, dy);
    var tb := TranslateBox(b, dx, dy);
    FromPointsTight(pts);
    var i0 :| 0 <= i0 < |pts| && pts[i0].x == b.minX;
    var i1 :| 0 <= i1 < |pts| && pts[i1].y == b.minY;
    var i2 :| 0 <= i2 < |pts| && pts[i2].x == b.maxX;
    var i3 :| 0 <= i3 < |pts| && pts[i3].y == b.maxY;
    assert t[i0].x == tb.minX && t[i1].y == tb.minY && t[i2].x == tb.maxX && t[i3].y == tb.maxY;
    forall i | 0 <= i < |t|
      ensures ContainsPoint(tb, t[i])
    {
      assert ContainsPoint(b, pts[i]);
    }
    FromPointsUnique(t, tb);
  }
}
