/** `Polyline` and its `PolylineVertex`: a chain of vertices whose bulge
    turns the segment to the next vertex into an arc. */
module Polylines {
  import opened Wrappers
  import opened RealMath
  import opened Types
  import opened Points
  import opened BoundingBoxes
  import opened EntityBase
  import opened Lines
  import opened Arcs

  /** `bulge` is the tangent of a quarter of the included angle; 0 is straight. */
  datatype Vertex = Vertex(x: real, y: real, bulge: real)

  datatype Polyline = Polyline(vertices: seq<Vertex>, closed: bool, attrs: Attrs)

  /** What `decompose` yields: a `Line` or an `Arc`. */
  datatype Segment = SegLine(line: Line) | SegArc(arc: Arc)

  /** The threshold below which a bulge, or a chord, counts as zero. */
  const BULGE_EPSILON: real := 0.000000001

  function VertexPoint(v: Vertex): Point {
    Point(v.x, v.y)
  }

  /** `has_bulge`: the bulge is larger than the threshold in magnitude. */
  predicate HasBulge(v: Vertex) {
    Abs(v.bulge) > BULGE_EPSILON
  }

  /** `start`: the first vertex, or the origin for an empty polyline. */
  function StartPoint(p: Polyline): Point {
    if |p.vertices| == 0 then Point(0.0, 0.0) else VertexPoint(p.vertices[0])
  }

  /** `end`: the last vertex, or the origin for an empty polyline. */
  function EndPoint(p: Polyline): Point {
    if |p.vertices| == 0 then Point(0.0, 0.0) else VertexPoint(p.vertices[|p.vertices| - 1])
  }

  /** `segment_count`. */
  function SegmentCount(p: Polyline): nat {
    if |p.vertices| < 2 then 0
    else |p.vertices| - 1 + (if p.closed then 1 else 0)
  }

  /** `_get_vertex_pairs`: consecutive pairs, then (last, first) when closed. */
  function VertexPairs(p: Polyline): (r: seq<(Vertex, Vertex)>)
    ensures |r| == SegmentCount(p)
    ensures forall i :: 0 <= i < |p.vertices| - 1 ==> r[i] == (p.vertices[i], p.vertices[i + 1])
    ensures p.closed && |p.vertices| > 1 ==>
      r[|r| - 1] == (p.vertices[|p.vertices| - 1], p.vertices[0])
  {
    var v := p.vertices;
    var open := if |v| < 1 then [] else seq(|v| - 1, i requires 0 <= i < |v| - 1 => (v[i], v[i + 1]));
    open + (if p.closed && |v| > 1 then [(v[|v| - 1], v[0])] else [])
  }

  /** Every pair joins a vertex to the next one along the chain: the
      polyline's segments end to end form a path from the first vertex. */
  lemma VertexPairsChain(p: Polyline)
    ensures var r := VertexPairs(p);
      forall i :: 0 <= i < |r| - 1 ==> r[i].1 == r[i + 1].0
    ensures var r := VertexPairs(p);
      |r| > 0 ==> (r[0].0 == p.vertices[0] &&
        r[|r| - 1].1 == (if p.closed then p.vertices[0] else p.vertices[|p.vertices| - 1]))
  {
  }

  function VertexXs(v: seq<Vertex>): (r: seq<Point>)
    ensures |r| == |v| && forall i :: 0 <= i < |v| ==> r[i] == VertexPoint(v[i])
  {
    seq(|v|, i requires 0 <= i < |v| => VertexPoint(v[i]))
  }

  /** `get_bounding_box`: min and max over the vertex coordinates (bulges are
      ignored); (0, 0, 0, 0) for an empty polyline. */
  function PolylineBox(p: Polyline): (b: BoundingBox)
    ensures |p.vertices| == 0 ==> b == BoundingBox(0.0, 0.0, 0.0, 0.0)
    ensures WellFormed(b)
    ensures forall i :: 0 <= i < |p.vertices| ==> ContainsPoint(b, VertexPoint(p.vertices[i]))
  {
    if |p.vertices| == 0 then BoundingBox(0.0, 0.0, 0.0, 0.0)
    else BoundingBoxes.FromPoints(VertexXs(p.vertices)).value
  }

  /** The box is the least one that holds every vertex. */
  lemma PolylineBoxLeast(p: Polyline, c: BoundingBox)
    requires |p.vertices| > 0
    requires forall i :: 0 <= i < |p.vertices| ==> ContainsPoint(c, VertexPoint(p.vertices[i]))
    ensures Encloses(c, PolylineBox(p))
  {
    FromPointsLeast(VertexXs(p.vertices), c);
  }

  function MirrorVertex(v: Vertex, c: real): Vertex {
    Vertex(2.0 * c - v.x, v.y, -v.bulge)
  }

  /** `mirror_x`: every vertex reflected with its bulge negated; `closed` and
      the attributes are kept. */
  function MirrorX(p: Polyline, c: real): (r: Polyline)
    ensures |r.vertices| == |p.vertices| && r.closed == p.closed && r.attrs == p.attrs
    ensures forall i :: 0 <= i < |p.vertices| ==>
      VertexPoint(r.vertices[i]) == Points.MirrorX(VertexPoint(p.vertices[i]), c) &&
      r.vertices[i].bulge == -p.vertices[i].bulge
  {
    Polyline(seq(|p.vertices|, i requires 0 <= i < |p.vertices| => MirrorVertex(p.vertices[i], c)),
             p.closed, p.attrs)
  }

  lemma MirrorXInvolution(p: Polyline, c: real)
    ensures MirrorX(MirrorX(p, c), c) == p
  {
    var r := MirrorX(MirrorX(p, c), c);
    assert r.vertices == p.vertices;
  }

  /** Reflection keeps the number of segments and which of them bulge. */
  lemma MirrorXKeepsShape(p: Polyline, c: real)
    ensures SegmentCount(MirrorX(p, c)) == SegmentCount(p)
    ensures forall i :: 0 <= i < |p.vertices| ==> HasBulge(MirrorX(p, c).vertices[i]) == HasBulge(p.vertices[i])
  {
  }

  function TranslateVertex(v: Vertex, dx: real, dy: real): Vertex {
    Vertex(v.x + dx, v.y + dy, v.bulge)
  }

  /** `translate`: every vertex shifted with its bulge kept. */
  function Translate(p: Polyline, dx: real, dy: real): (r: Polyline)
    ensures |r.vertices| == |p.vertices| && r.closed == p.closed && r.attrs == p.attrs
    ensures forall i :: 0 <= i < |p.vertices| ==>
      VertexPoint(r.vertices[i]) == Points.Translate(VertexPoint(p.vertices[i]), dx, dy) &&
      r.vertices[i].bulge == p.vertices[i].bulge
  {
    Polyline(seq(|p.vertices|, i requires 0 <= i < |p.vertices| => TranslateVertex(p.vertices[i], dx, dy)),
             p.closed, p.attrs)
  }

  /** Translation moves the box of a polyline that has vertices; an empty
      one keeps reporting (0, 0, 0, 0). */
  lemma PolylineBoxTranslate(p: Polyline, dx: real, dy: real)
    requires |p.vertices| > 0
    ensures PolylineBox(Translate(p, dx, dy)) == TranslateBox(PolylineBox(p), dx, dy)
  {
    var t := Translate(p, dx, dy);
    assert VertexXs(t.vertices) == TranslateAll(VertexXs(p.vertices), dx, dy);
    FromPointsTranslate(VertexXs(p.vertices), dx, dy);
  }

  lemma TranslateInverse(p: Polyline, dx: real, dy: real)
    ensures Translate(Translate(p, dx, dy), -dx, -dy) == p
  {
    var r := Translate(Translate(p, dx, dy), -dx, -dy);
    assert r.vertices == p.vertices;
  }

  /** `with_category`: only the category changes. */
  function WithCategory(p: Polyline, c: LineCategory): (r: Polyline)
    ensures r.vertices == p.vertices && r.closed == p.closed
    ensures r.attrs == EntityBase.WithCategory(p.attrs, c)
  {
    p.(attrs := EntityBase.WithCategory(p.attrs, c))
  }

  /** `_create_arc_from_bulge`: no arc for a bulge or a chord below the
      threshold; otherwise the arc the bulge describes, with a non-negative
      radius and the polyline's attributes. */
  function ArcFromBulge(m: MathLib, attrs: Attrs, v1: Vertex, v2: Vertex): (r: Option<Arc>)
    ensures r.Some? ==> r.value.attrs == attrs && r.value.radius >= 0.0
    ensures Abs(v1.bulge) < BULGE_EPSILON ==> r.None?
  {
    if Abs(v1.bulge) < BULGE_EPSILON then None
    else if m.sqrt(DistanceSquared(VertexPoint(v1), VertexPoint(v2))) < BULGE_EPSILON then None
    else
      var g := m.bulgeArc(v1.x, v1.y, v1.bulge, v2.x, v2.y);
      Some(Arc(Point(g.0, g.1), Abs(g.2), g.3, g.4, attrs))
  }

  /** The segment `decompose` makes of one vertex pair, if any. */
  function PairSegment(m: MathLib, attrs: Attrs, pair: (Vertex, Vertex)): (r: seq<Segment>)
    ensures |r| <= 1
    ensures !HasBulge(pair.0) ==> r == [SegLine(Line(VertexPoint(pair.0), VertexPoint(pair.1), attrs))]
  {
    if HasBulge(pair.0) then
      match ArcFromBulge(m, attrs, pair.0, pair.1)
      case Some(a) => [SegArc(a)]
      case None => []
    else [SegLine(Line(VertexPoint(pair.0), VertexPoint(pair.1), attrs))]
  }

  /** The segments of a run of vertex pairs, in order. */
  function Segments(m: MathLib, attrs: Attrs, pairs: seq<(Vertex, Vertex)>): (r: seq<Segment>)
    decreases |pairs|
  {
    if |pairs| == 0 then []
    else Segments(m, attrs, pairs[..|pairs| - 1]) + PairSegment(m, attrs, pairs[|pairs| - 1])
  }

  /** The segments `decompose` returns; none for fewer than two vertices. */
  function DecomposeSpec(m: MathLib, p: Polyline): seq<Segment> {
    if |p.vertices| < 2 then [] else Segments(m, p.attrs, VertexPairs(p))
  }

  /** `decompose`. */
  method Decompose(m: MathLib, p: Polyline) returns (segs: seq<Segment>)
    ensures segs == DecomposeSpec(m, p)
  {
    if |p.vertices| < 2 {
      return [];
    }
    var pairs := VertexPairs(p);
    segs := [];
    var i := 0;
    while i < |pairs|
      invariant 0 <= i <= |pairs|
      invariant segs == Segments(m, p.attrs, pairs[..i])
    {
      var pair := pairs[i];
      if HasBulge(pair.0) {
        var arc := ArcFromBulge(m, p.attrs, pair.0, pair.1);
        if arc.Some? {
          segs := segs + [SegArc(arc.value)];
        }
      } else {
        segs := segs + [SegLine(Line(VertexPoint(pair.0), VertexPoint(pair.1), p.attrs))];
      }
      assert pairs[..i + 1][..i] == pairs[..i];
      i := i + 1;
    }
    assert pairs[..i] == pairs;
  }

  /** At most one segment per pair, every one carrying the given attributes. */
  lemma {:induction false} SegmentsBound(m: MathLib, attrs: Attrs, pairs: seq<(Vertex, Vertex)>)
    ensures |Segments(m, attrs, pairs)| <= |pairs|
    ensures forall s :: s in Segments(m, attrs, pairs) ==>
      (s.SegLine? && s.line.attrs == attrs) || (s.SegArc? && s.arc.attrs == attrs)
    decreases |pairs|
  {
    if |pairs| > 0 {
      SegmentsBound(m, attrs, pairs[..|pairs| - 1]);
    }
  }

  /** `decompose` yields at most `segment_count` segments, all inheriting the
      polyline's attributes (a degenerate bulge arc is dropped). */
  lemma DecomposeBound(m: MathLib, p: Polyline)
    ensures |DecomposeSpec(m, p)| <= SegmentCount(p)
    ensures forall s :: s in DecomposeSpec(m, p) ==>
      (s.SegLine? && s.line.attrs == p.attrs) || (s.SegArc? && s.arc.attrs == p.attrs)
  {
    if |p.vertices| >= 2 {
      SegmentsBound(m, p.attrs, VertexPairs(p));
    }
  }

  /** Without bulges every pair gives its line. */
  lemma {:induction false} SegmentsStraight(m: MathLib, attrs: Attrs, pairs: seq<(Vertex, Vertex)>)
    requires forall i :: 0 <= i < |pairs| ==> !HasBulge(pairs[i].0)
    ensures |Segments(m, attrs, pairs)| == |pairs|
    ensures forall i :: 0 <= i < |pairs| ==>
      Segments(m, attrs, pairs)[i] == SegLine(Line(VertexPoint(pairs[i].0), VertexPoint(pairs[i].1), attrs))
    decreases |pairs|
  {
    if |pairs| > 0 {
      SegmentsStraight(m, attrs, pairs[..|pairs| - 1]);
    }
  }

  /** A polyline without bulges decomposes into exactly `segment_count` lines,
      one per vertex pair in order, each with the polyline's attributes. */
  lemma DecomposeStraight(m: MathLib, p: Polyline)
    requires forall i :: 0 <= i < |p.vertices| ==> !HasBulge(p.vertices[i])
    ensures |DecomposeSpec(m, p)| == SegmentCount(p)
    ensures forall i :: 0 <= i < SegmentCount(p) ==>
      DecomposeSpec(m, p)[i] ==
        SegLine(Line(VertexPoint(VertexPairs(p)[i].0), VertexPoint(VertexPairs(p)[i].1), p.attrs))
  {
    var pairs := VertexPairs(p);
    if |p.vertices| >= 2 {
      forall i | 0 <= i < |pairs| ensures !HasBulge(pairs[i].0) {
        if i < |p.vertices| - 1 {
          assert pairs[i] == (p.vertices[i], p.vertices[i + 1]);
        } else {
          assert pairs[i] == (p.vertices[|p.vertices| - 1], p.vertices[0]);
        }
      }
      SegmentsStraight(m, p.attrs, pairs);
    }
  }

  /** `from_points`: one vertex with zero bulge per point, in order. */
  method FromPoints(pts: seq<Point>, closed: bool, attrs: Attrs) returns (p: Polyline)
    ensures |p.vertices| == |pts| && p.closed == closed && p.attrs == attrs
    ensures forall i :: 0 <= i < |pts| ==>
      VertexPoint(p.vertices[i]) == pts[i] && p.vertices[i].bulge == 0.0
  {
    var vertices: seq<Vertex> := [];
    var i := 0;
    while i < |pts|
      invariant 0 <= i <= |pts|
      invariant |vertices| == i
      invariant forall k :: 0 <= k < i ==> vertices[k] == Vertex(pts[k].x, pts[k].y, 0.0)
    {
      vertices := vertices + [Vertex(pts[i].x, pts[i].y, 0.0)];
      i := i + 1;
    }
    p := Polyline(vertices, closed, attrs);
  }
}
