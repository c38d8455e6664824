/** `Line`: a straight segment from `start` to `end`. */
module Lines {
  import opened Wrappers
  import opened RealMath
  import opened Points
  import opened BoundingBoxes
  import opened EntityBase
  import opened Sorting

  datatype Line = Line(start: Point, end: Point, attrs: Attrs)

  /** `length`, through the caller's square root. */
  function Length(m: MathLib, l: Line): real {
    DistanceTo(m, l.start, l.end)
  }

  function LineMidpoint(l: Line): Point {
    Midpoint(l.start, l.end)
  }

  /** `bounding_box`: the extremes of the two endpoints. */
  function LineBox(l: Line): (b: BoundingBox)
    ensures WellFormed(b)
    ensures ContainsPoint(b, l.start) && ContainsPoint(b, l.end)
  {
    BoundingBox(Min(l.start.x, l.end.x), Min(l.start.y, l.end.y),
                Max(l.start.x, l.end.x), Max(l.start.y, l.end.y))
  }

  /** The line's box is the box of its two endpoints. */
  lemma LineBoxIsFromPoints(l: Line)
    ensures FromPoints([l.start, l.end]) == Success(LineBox(l))
  {
    var pts := [l.start, l.end];
    assert pts[1..] == [l.end];
    assert MinXOf(pts) == Min(l.start.x, l.end.x) && MinYOf(pts) == Min(l.start.y, l.end.y);
    assert MaxXOf(pts) == Max(l.start.x, l.end.x) && MaxYOf(pts) == Max(l.start.y, l.end.y);
  }

  const DEFAULT_TOLERANCE: real := 0.001

  /** `is_horizontal`: the ends differ in y by at most `tol` (inclusive). */
  predicate IsHorizontal(l: Line, tol: real) {
    Abs(l.start.y - l.end.y) <= tol
  }

  /** `is_vertical`: the ends differ in x by at most `tol` (inclusive). */
  predicate IsVertical(l: Line, tol: real) {
    Abs(l.start.x - l.end.x) <= tol
  }

  /** The tests are symmetric in the two ends and accept a difference equal to
      the tolerance. */
  lemma HorizontalVerticalBounds(l: Line, tol: real)
    ensures IsHorizontal(l, tol) <==> -tol <= l.end.y - l.start.y <= tol
    ensures IsVertical(l, tol) <==> -tol <= l.end.x - l.start.x <= tol
    ensures IsHorizontal(Line(l.end, l.start, l.attrs), tol) == IsHorizontal(l, tol)
  {
  }

  /** `point_at_ratio`: ratio 0 is the start, ratio 1 the end, linear between. */
  function PointAtRatio(l: Line, t: real): (p: Point)
    ensures t == 0.0 ==> p == l.start
    ensures t == 1.0 ==> p == l.end
  {
    Point(l.start.x + (l.end.x - l.start.x) * t, l.start.y + (l.end.y - l.start.y) * t)
  }

  function Piece(l: Line, all: seq<real>, i: nat): Line
    requires i + 1 < |all|
  {
    Line(PointAtRatio(l, all[i]), PointAtRatio(l, all[i + 1]), l.attrs)
  }

  /** The pieces between consecutive split ratios, each with the line's attributes. */
  function Pieces(l: Line, all: seq<real>): (r: seq<Line>)
    ensures |all| >= 1 ==> |r| == |all| - 1
  {
    if |all| < 2 then []
    else seq(|all| - 1, i requires 0 <= i < |all| - 1 => Piece(l, all, i))
  }

  /** The split ratios: the given ones with 0 and 1, each once, ascending. */
  function SplitRatios(ratios: seq<real>): seq<real> {
    SortedDistinct([0.0] + ratios + [1.0])
  }

  /** `split_at_ratios`. */
  method SplitAtRatios(l: Line, ratios: seq<real>) returns (segs: seq<Line>)
    ensures segs == Pieces(l, SplitRatios(ratios))
    ensures forall i :: 0 <= i < |segs| ==> segs[i].attrs == l.attrs
  {
    var all := SplitRatios(ratios);
    segs := [];
    var i := 0;
    while i + 1 < |all|
      invariant 0 <= i <= |all|
      invariant |all| >= 1 ==> i <= |all| - 1
      invariant |segs| == i
      invariant forall k :: 0 <= k < i ==> segs[k] == Piece(l, all, k)
    {
      segs := segs + [Piece(l, all, i)];
      i := i + 1;
    }
  }

  /** There is one split ratio per distinct value among 0, 1 and the given ones,
      so `|set(ratios ∪ {0, 1})| - 1` pieces. */
  lemma {:induction false} SplitRatioCount(ratios: seq<real>)
    ensures |SplitRatios(ratios)| == |(set x | x in [0.0] + ratios + [1.0])|
    ensures |SplitRatios(ratios)| >= 2
  {
    var all := SplitRatios(ratios);
    var xs := [0.0] + ratios + [1.0];
    assert (set x | x in all) == (set x | x in xs);
    DistinctCard(all);
    assert 0.0 in all && 1.0 in all by { assert 0.0 in xs && xs[|xs| - 1] == 1.0; }
    var i :| 0 <= i < |all| && all[i] == 0.0;
    var j :| 0 <= j < |all| && all[j] == 1.0;
    assert i != j;
  }

  lemma {:induction false} DistinctCard(s: seq<real>)
    requires StrictlyIncreasing(s)
    ensures |(set x | x in s)| == |s|
    decreases |s|
  {
    if |s| > 0 {
      DistinctCard(s[1..]);
      assert (set x | x in s) == {s[0]} + (set x | x in s[1..]);
      assert s[0] !in (set x | x in s[1..]);
    }
  }

  /** With every given ratio in [0, 1] the split ratios run from exactly 0 to
      exactly 1. */
  lemma SplitRatiosEnds(ratios: seq<real>)
    requires forall k :: 0 <= k < |ratios| ==> 0.0 <= ratios[k] <= 1.0
    ensures |SplitRatios(ratios)| >= 2
    ensures SplitRatios(ratios)[0] == 0.0 && SplitRatios(ratios)[|SplitRatios(ratios)| - 1] == 1.0
  {
    var all := SplitRatios(ratios);
    var xs := [0.0] + ratios + [1.0];
    SplitRatioCount(ratios);
    forall y | y in all
      ensures 0.0 <= y <= 1.0
    {
      assert y in xs;
      var k :| 0 <= k < |xs| && xs[k] == y;
      if 0 < k < |xs| - 1 {
        assert xs[k] == ratios[k - 1];
      }
    }
    assert 0.0 in all by { assert xs[0] == 0.0; }
    assert 1.0 in all by { assert xs[|xs| - 1] == 1.0; }
    var i :| 0 <= i < |all| && all[i] == 0.0;
    var j :| 0 <= j < |all| && all[j] == 1.0;
    assert all[0] in all && all[|all| - 1] in all;
    assert all[0] <= all[i] && all[j] <= all[|all| - 1];
  }

  /** Consecutive pieces share an endpoint; with every ratio in [0, 1] the
      first piece starts at `start` and the last ends at `end`. */
  lemma SplitPiecesChain(l: Line, ratios: seq<real>)
    ensures var p := Pieces(l, SplitRatios(ratios));
      forall i :: 0 <= i < |p| - 1 ==> p[i].end == p[i + 1].start
    ensures var p := Pieces(l, SplitRatios(ratios));
      (forall k :: 0 <= k < |ratios| ==> 0.0 <= ratios[k] <= 1.0) ==>
        |p| >= 1 && p[0].start == l.start && p[|p| - 1].end == l.end
  {
    SplitRatioCount(ratios);
    if forall k :: 0 <= k < |ratios| ==> 0.0 <= ratios[k] <= 1.0 {
      SplitRatiosEnds(ratios);
    }
  }

  /** `mirror_x`: both ends reflected across `x = c`, attributes copied. */
  function MirrorX(l: Line, c: real): (r: Line)
    ensures r.start == Points.MirrorX(l.start, c) && r.end == Points.MirrorX(l.end, c)
    ensures r.attrs == l.attrs
  {
    Line(Points.MirrorX(l.start, c), Points.MirrorX(l.end, c), l.attrs)
  }

  lemma MirrorXInvolution(l: Line, c: real)
    ensures MirrorX(MirrorX(l, c), c) == l
  {
  }

  /** Reflection keeps the length and the y extent of the box. */
  lemma MirrorXShape(l: Line, c: real)
    ensures DistanceSquared(MirrorX(l, c).start, MirrorX(l, c).end) == DistanceSquared(l.start, l.end)
    ensures LineBox(MirrorX(l, c)).minY == LineBox(l).minY && LineBox(MirrorX(l, c)).maxY == LineBox(l).maxY
  {
    Points.MirrorXIsometry(l.start, l.end, c);
  }

  /** `translate`: both ends shifted, attributes copied. */
  function Translate(l: Line, dx: real, dy: real): (r: Line)
    ensures r.start == Points.Translate(l.start, dx, dy) && r.end == Points.Translate(l.end, dx, dy)
    ensures r.attrs == l.attrs
  {
    Line(Points.Translate(l.start, dx, dy), Points.Translate(l.end, dx, dy), l.attrs)
  }

  /** Translation keeps the vector from start to end and is undone by the
      opposite shift. */
  lemma TranslateProperties(l: Line, dx: real, dy: real)
    ensures var t := Translate(l, dx, dy);
      t.end.x - t.start.x == l.end.x - l.start.x && t.end.y - t.start.y == l.end.y - l.start.y
    ensures Translate(Translate(l, dx, dy), -dx, -dy) == l
  {
  }
}
