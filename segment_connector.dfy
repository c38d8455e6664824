/** `SegmentConnector`: finds line and arc endpoints that nearly touch and
    fuses line pairs, merging collinear ones and extending the others to
    meet. An entity's identity is its position in the input list. */
module SegmentConnector {
  import opened Wrappers
  import opened RealMath
  import opened Strings
  import opened Points
  import opened EntityBase
  import opened Lines
  import opened Arcs
  import opened Entities

  datatype Connector = Connector(tolerance: real, sameLayerOnly: bool, sameColorOnly: bool)

  /** 0.1 mm, same layer and same colour required. */
  const DEFAULT_CONNECTOR: Connector := Connector(0.1, true, true)

  /** Two endpoints that may be joined: entity `i` before entity `j` in the
      input, the point of each and the distance between them. */
  datatype Candidate = Candidate(i: nat, j: nat, pointA: Point, pointB: Point, distance: real)

  /** `midpoint`. */
  function CandidateMidpoint(k: Candidate): Point {
    Midpoint(k.pointA, k.pointB)
  }

  /** `_get_endpoints`: a line's ends, an arc's start and end points, and
      none for anything else. */
  function Endpoints(m: MathLib, e: Entity): (r: seq<Point>)
    ensures |r| == (if e.LineE? || e.ArcE? then 2 else 0)
  {
    match e
    case LineE(l) => [l.start, l.end]
    case ArcE(a) => [StartPoint(m, a), EndPoint(m, a)]
    case _ => []
  }

  /** `_can_connect`: layers that are both non-empty must agree ignoring
      case, and colours must be equal, each check only when enabled. */
  predicate CanConnect(c: Connector, a: Entity, b: Entity) {
    (!c.sameLayerOnly || |Layer(a)| == 0 || |Layer(b)| == 0 || ToUpper(Layer(a)) == ToUpper(Layer(b))) &&
    (!c.sameColorOnly || Color(a) == Color(b))
  }

  /** The distance test of `find_connectable_pairs`. */
  predicate InRange(c: Connector, d: real) {
    0.0 < d <= c.tolerance
  }

  // Candidate enumeration: one spec function per loop of `find_connectable_pairs`

  /** Candidates between point `pa` of entity `i` and the points `epb` of entity `j`. */
  function PointCandidates(m: MathLib, c: Connector, i: nat, j: nat, pa: Point, epb: seq<Point>): seq<Candidate> {
    if |epb| == 0 then []
    else
      var pb := epb[|epb| - 1];
      var d := DistanceTo(m, pa, pb);
      PointCandidates(m, c, i, j, pa, epb[..|epb| - 1]) + (if InRange(c, d) then [Candidate(i, j, pa, pb, d)] else [])
  }

  /** Candidates between the points `epa` of entity `i` and `epb` of entity `j`. */
  function PairCandidates(m: MathLib, c: Connector, i: nat, j: nat, epa: seq<Point>, epb: seq<Point>): seq<Candidate> {
    if |epa| == 0 then []
    else PairCandidates(m, c, i, j, epa[..|epa| - 1], epb) + PointCandidates(m, c, i, j, epa[|epa| - 1], epb)
  }

  /** Candidates of entity `i` with the entities before position `n`. */
  function RowCandidates(m: MathLib, c: Connector, es: seq<Entity>, i: nat, n: nat): seq<Candidate>
    requires i < |es| && n <= |es|
  {
    if n == 0 then []
    else
      var j := n - 1;
      RowCandidates(m, c, es, i, n - 1) +
      Added(m, c, es, i, j)
  }

  /** Candidates of the first `n` entities with every later entity. */
  function CandidatesUpTo(m: MathLib, c: Connector, es: seq<Entity>, n: nat): seq<Candidate>
    requires n <= |es|
  {
    if n == 0 then []
    else
      CandidatesUpTo(m, c, es, n - 1) +
      (if |Endpoints(m, es[n - 1])| == 0 then [] else RowCandidates(m, c, es, n - 1, |es|))
  }

  /** What `find_connectable_pairs` returns. */
  function Candidates(m: MathLib, c: Connector, es: seq<Entity>): seq<Candidate> {
    CandidatesUpTo(m, c, es, |es|)
  }

  /** A candidate in the sense of `find_connectable_pairs`. */
  predicate IsCandidate(m: MathLib, c: Connector, es: seq<Entity>, k: Candidate) {
    k.i < k.j < |es| && CanConnect(c, es[k.i], es[k.j]) &&
    k.pointA in Endpoints(m, es[k.i]) && k.pointB in Endpoints(m, es[k.j]) &&
    k.distance == DistanceTo(m, k.pointA, k.pointB) && InRange(c, k.distance)
  }

  lemma {:induction false} PointCandidatesExactly(m: MathLib, c: Connector, i: nat, j: nat, pa: Point, epb: seq<Point>)
    ensures forall k :: k in PointCandidates(m, c, i, j, pa, epb) <==>
      k.i == i && k.j == j && k.pointA == pa && k.pointB in epb &&
      k.distance == DistanceTo(m, pa, k.pointB) && InRange(c, k.distance)
  {
    if |epb| > 0 {
      PointCandidatesExactly(m, c, i, j, pa, epb[..|epb| - 1]);
      assert epb == epb[..|epb| - 1] + [epb[|epb| - 1]];
    }
  }

  lemma {:induction false} PairCandidatesExactly(m: MathLib, c: Connector, i: nat, j: nat, epa: seq<Point>, epb: seq<Point>)
    ensures forall k :: k in PairCandidates(m, c, i, j, epa, epb) <==>
      k.i == i && k.j == j && k.pointA in epa && k.pointB in epb &&
      k.distance == DistanceTo(m, k.pointA, k.pointB) && InRange(c, k.distance)
  {
    if |epa| > 0 {
      PairCandidatesExactly(m, c, i, j, epa[..|epa| - 1], epb);
      PointCandidatesExactly(m, c, i, j, epa[|epa| - 1], epb);
      assert epa == epa[..|epa| - 1] + [epa[|epa| - 1]];
    }
  }

  /** The candidates the inner loops add for entity `j` after entity `i`. */
  function Added(m: MathLib, c: Connector, es: seq<Entity>, i: nat, j: nat): seq<Candidate>
    requires i < |es| && j < |es|
  {
    if j <= i || !CanConnect(c, es[i], es[j]) || |Endpoints(m, es[j])| == 0 then []
    else PairCandidates(m, c, i, j, Endpoints(m, es[i]), Endpoints(m, es[j]))
  }

  lemma AddedExactly(m: MathLib, c: Connector, es: seq<Entity>, i: nat, j: nat)
    requires i < |es| && j < |es|
    ensures forall k :: k in Added(m, c, es, i, j) <==> k.i == i && k.j == j && IsCandidate(m, c, es, k)
  {
    PairCandidatesExactly(m, c, i, j, Endpoints(m, es[i]), Endpoints(m, es[j]));
  }

  lemma {:induction false} RowCandidatesExactly(m: MathLib, c: Connector, es: seq<Entity>, i: nat, n: nat)
    requires i < |es| && n <= |es|
    ensures forall k :: k in RowCandidates(m, c, es, i, n) <==> k.i == i && k.j < n && IsCandidate(m, c, es, k)
  {
    if n > 0 {
      var j := n - 1;
      RowCandidatesExactly(m, c, es, i, n - 1);
      AddedExactly(m, c, es, i, j);
      var prev := RowCandidates(m, c, es, i, n - 1);
      var add := Added(m, c, es, i, j);
      assert RowCandidates(m, c, es, i, n) == prev + add;
      forall k: Candidate ensures k in prev + add <==> k.i == i && k.j < n && IsCandidate(m, c, es, k) {
        assert k in prev + add <==> k in prev || k in add;
      }
    }
  }

  lemma {:induction false} CandidatesUpToExactly(m: MathLib, c: Connector, es: seq<Entity>, n: nat)
    requires n <= |es|
    ensures forall k :: k in CandidatesUpTo(m, c, es, n) <==> k.i < n && IsCandidate(m, c, es, k)
  {
    if n > 0 {
      CandidatesUpToExactly(m, c, es, n - 1);
      RowCandidatesExactly(m, c, es, n - 1, |es|);
      var prev := CandidatesUpTo(m, c, es, n - 1);
      var add: seq<Candidate> := if |Endpoints(m, es[n - 1])| == 0 then [] else RowCandidates(m, c, es, n - 1, |es|);
      assert CandidatesUpTo(m, c, es, n) == prev + add;
      forall k: Candidate ensures k in prev + add <==> k.i < n && IsCandidate(m, c, es, k) {
        assert k in prev + add <==> k in prev || k in add;
        if k.i == n - 1 && IsCandidate(m, c, es, k) {
          assert k.pointA in Endpoints(m, es[n - 1]);
        }
      }
    }
  }

  /** `find_connectable_pairs` lists exactly the endpoint pairs of distinct
      entities, the first before the second, that may connect and lie
      closer than the tolerance but do not coincide; so only lines and arcs
      take part. */
  lemma CandidatesExactly(m: MathLib, c: Connector, es: seq<Entity>)
    ensures forall k :: k in Candidates(m, c, es) <==> IsCandidate(m, c, es, k)
    ensures forall k :: k in Candidates(m, c, es) ==>
      k.i < k.j < |es| && (es[k.i].LineE? || es[k.i].ArcE?) && (es[k.j].LineE? || es[k.j].ArcE?)
  {
    CandidatesUpToExactly(m, c, es, |es|);
  }

  /** The two innermost loops: every point of `epa` against every point of `epb`. */
  method EndpointCandidates(m: MathLib, c: Connector, i: nat, j: nat, epa: seq<Point>, epb: seq<Point>)
    returns (cands: seq<Candidate>)
    ensures cands == PairCandidates(m, c, i, j, epa, epb)
  {
    cands := [];
    var p := 0;
    while p < |epa|
      invariant 0 <= p <= |epa|
      invariant cands == PairCandidates(m, c, i, j, epa[..p], epb)
    {
      assert epa[..p + 1][..p] == epa[..p];
      var pa := epa[p];
      var q := 0;
      ghost var before := cands;
      while q < |epb|
        invariant 0 <= q <= |epb|
        invariant cands == before + PointCandidates(m, c, i, j, pa, epb[..q])
      {
        assert epb[..q + 1][..q] == epb[..q];
        var d := DistanceTo(m, pa, epb[q]);
        if 0.0 < d <= c.tolerance {
          cands := cands + [Candidate(i, j, pa, epb[q], d)];
        }
        q := q + 1;
      }
      assert epb[..|epb|] == epb;
      p := p + 1;
    }
    assert epa[..|epa|] == epa;
  }

  /** The loop over the later entities `j` for one entity `i`. */
  method RowLoop(m: MathLib, c: Connector, es: seq<Entity>, i: nat) returns (cands: seq<Candidate>)
    requires i < |es|
    ensures cands == RowCandidates(m, c, es, i, |es|)
  {
    cands := [];
    var epa := Endpoints(m, es[i]);
    var j := 0;
    while j < |es|
      invariant 0 <= j <= |es|
      invariant cands == RowCandidates(m, c, es, i, j)
    {
      var found: seq<Candidate> := [];
      if j > i && CanConnect(c, es[i], es[j]) {
        var epb := Endpoints(m, es[j]);
        if |epb| > 0 {
          found := EndpointCandidates(m, c, i, j, epa, epb);
        }
      }
      assert found == Added(m, c, es, i, j);
      cands := cands + found;
      j := j + 1;
    }
  }

  /** `find_connectable_pairs`. */
  method FindConnectablePairs(m: MathLib, c: Connector, es: seq<Entity>) returns (cands: seq<Candidate>)
    ensures cands == Candidates(m, c, es)
  {
    cands := [];
    var i := 0;
    while i < |es|
      invariant 0 <= i <= |es|
      invariant cands == CandidatesUpTo(m, c, es, i)
    {
      if |Endpoints(m, es[i])| > 0 {
        var row := RowLoop(m, c, es, i);
        cands := cands + row;
      }
      i := i + 1;
    }
  }

  // Fusing one pair

  /** The tolerance `_connect_pair` uses for `_are_collinear`. */
  const COLLINEAR_TOLERANCE: real := 0.01

  /** The two cross products of `_are_collinear`: how far `b`'s start and
      end lie off the infinite line through `a`, scaled by `a`'s length. */
  function CrossStart(a: Line, b: Line): real {
    Abs((a.end.x - a.start.x) * (b.start.y - a.start.y) - (a.end.y - a.start.y) * (b.start.x - a.start.x))
  }

  function CrossEnd(a: Line, b: Line): real {
    Abs((a.end.x - a.start.x) * (b.end.y - a.start.y) - (a.end.y - a.start.y) * (b.end.x - a.start.x))
  }

  /** `_are_collinear`: false for a line `a` shorter than the tolerance,
      otherwise both of `b`'s ends must lie within the tolerance of `a`'s
      infinite line. */
  predicate AreCollinear(m: MathLib, a: Line, b: Line) {
    var len := DistanceTo(m, a.start, a.end);
    if len < COLLINEAR_TOLERANCE then false
    else CrossStart(a, b) / len < COLLINEAR_TOLERANCE && CrossEnd(a, b) / len < COLLINEAR_TOLERANCE
  }

  /** A line shorter than the tolerance is collinear with nothing; a line
      whose ends both lie on the infinite line through a long enough `a`
      is collinear with it. */
  lemma CollinearCases(m: MathLib, a: Line, b: Line, t: real, u: real)
    ensures DistanceTo(m, a.start, a.end) < COLLINEAR_TOLERANCE ==> !AreCollinear(m, a, b)
    ensures (DistanceTo(m, a.start, a.end) >= COLLINEAR_TOLERANCE &&
      b.start == PointAtRatio(a, t) && b.end == PointAtRatio(a, u)) ==> AreCollinear(m, a, b)
  {
    if b.start == PointAtRatio(a, t) && b.end == PointAtRatio(a, u) {
      CrossOnLine(a.end.x - a.start.x, a.end.y - a.start.y, t);
      CrossOnLine(a.end.x - a.start.x, a.end.y - a.start.y, u);
    }
  }

  lemma CrossOnLine(dx: real, dy: real, t: real)
    ensures dx * (dy * t) - dy * (dx * t) == 0.0
  {
    assert dx * (dy * t) == dy * (dx * t);
  }

  /** The six endpoint pairs `_merge_lines` compares, in its loop order. */
  const PAIRS: seq<(nat, nat)> := [(0, 1), (0, 2), (0, 3), (1, 2), (1, 3), (2, 3)]

  function PairDistance(m: MathLib, pts: seq<Point>, q: nat): real
    requires |pts| == 4 && q < 6
  {
    DistanceTo(m, pts[PAIRS[q].0], pts[PAIRS[q].1])
  }

  /** The running maximum after the first `k` pairs and the pair holding it;
      the start is distance 0 with the first pair. */
  function FarthestUpTo(m: MathLib, pts: seq<Point>, k: nat): (r: (real, nat))
    requires |pts| == 4 && k <= 6
    ensures r.1 < 6
  {
    if k == 0 then (0.0, 0)
    else
      var prev := FarthestUpTo(m, pts, k - 1);
      var d := PairDistance(m, pts, k - 1);
      if d > prev.0 then (d, k - 1) else prev
  }

  /** The running maximum is the largest distance so far (or 0); the pair
      holding it is the first to reach it, or the first pair when no
      distance is positive. */
  lemma {:induction false} FarthestFirstMax(m: MathLib, pts: seq<Point>, k: nat)
    requires |pts| == 4 && k <= 6
    ensures var r := FarthestUpTo(m, pts, k);
      r.0 >= 0.0 &&
      (forall q :: 0 <= q < k ==> PairDistance(m, pts, q) <= r.0) &&
      ((r.0 == 0.0 && r.1 == 0) ||
       (r.0 > 0.0 && r.1 < k && PairDistance(m, pts, r.1) == r.0 &&
        forall q :: 0 <= q < r.1 ==> PairDistance(m, pts, q) < r.0))
  {
    if k > 0 {
      FarthestFirstMax(m, pts, k - 1);
    }
  }

  /** The four endpoints in `_merge_lines`' order. */
  function AllPoints(a: Line, b: Line): (pts: seq<Point>)
    ensures |pts| == 4
  {
    [a.start, a.end, b.start, b.end]
  }

  /** `Line(...)` with `a`'s colour, layer and category; the linetype is
      the constructor's default. */
  function RebuiltAttrs(a: Line): Attrs {
    Attrs(a.attrs.layer, a.attrs.color, "CONTINUOUS", a.attrs.category)
  }

  /** What `_merge_lines` returns: the line between the farthest pair of
      the four endpoints. */
  function MergedLine(m: MathLib, a: Line, b: Line): Line {
    var pts := AllPoints(a, b);
    var best := PAIRS[FarthestUpTo(m, pts, 6).1];
    Line(pts[best.0], pts[best.1], RebuiltAttrs(a))
  }

  /** The merged line runs between two of the four endpoints, the first
      pair (in loop order) at the greatest distance, and keeps `a`'s layer,
      colour and category. */
  lemma MergedLineFarthest(m: MathLib, a: Line, b: Line)
    ensures var pts := AllPoints(a, b);
      var r := MergedLine(m, a, b);
      var d := DistanceTo(m, r.start, r.end);
      r.attrs.layer == a.attrs.layer && r.attrs.color == a.attrs.color && r.attrs.category == a.attrs.category &&
      (exists q :: 0 <= q < 6 && r.start == pts[PAIRS[q].0] && r.end == pts[PAIRS[q].1]) &&
      (forall q :: 0 <= q < 6 ==> PairDistance(m, pts, q) <= d || (d <= 0.0 && PairDistance(m, pts, q) <= 0.0))
  {
    var pts := AllPoints(a, b);
    FarthestFirstMax(m, pts, 6);
    var q := FarthestUpTo(m, pts, 6).1;
    assert MergedLine(m, a, b).start == pts[PAIRS[q].0];
  }

  /** Position of pair `(i, j)` in `PAIRS`: the loops' step counter. */
  function PairIndex(i: nat, j: nat): nat
    requires i < j
  {
    (if i == 0 then 0 else if i == 1 then 3 else if i == 2 then 5 else 6) + j - i - 1
  }

  /** `_merge_lines`, with its nested loops over the endpoint pairs. */
  method MergeLines(m: MathLib, a: Line, b: Line) returns (merged: Line)
    ensures merged == MergedLine(m, a, b)
  {
    var pts := [a.start, a.end, b.start, b.end];
    var maxDist := 0.0;
    var startPoint := pts[0];
    var endPoint := pts[1];
    ghost var best: nat := 0;
    var i := 0;
    while i < 4
      invariant 0 <= i <= 4
      invariant (maxDist, best) == FarthestUpTo(m, pts, PairIndex(i, i + 1))
      invariant startPoint == pts[PAIRS[best].0] && endPoint == pts[PAIRS[best].1]
    {
      var j := i + 1;
      while j < 4
        invariant i + 1 <= j <= 4
        invariant (maxDist, best) == FarthestUpTo(m, pts, PairIndex(i, j))
        invariant startPoint == pts[PAIRS[best].0] && endPoint == pts[PAIRS[best].1]
      {
        assert PAIRS[PairIndex(i, j)] == (i, j);
        var dist := DistanceTo(m, pts[i], pts[j]);
        if dist > maxDist {
          maxDist := dist;
          startPoint := pts[i];
          endPoint := pts[j];
          best := PairIndex(i, j);
        }
        j := j + 1;
      }
      i := i + 1;
    }
    merged := Line(startPoint, endPoint, RebuiltAttrs(a));
  }

  /** `_extend_line_endpoint`: the start moves when it is within 0.001 of
      the old point, otherwise the end moves. */
  function ExtendEndpoint(m: MathLib, l: Line, oldPoint: Point, newPoint: Point): (r: Line)
    ensures r.attrs == RebuiltAttrs(l)
    ensures DistanceTo(m, l.start, oldPoint) < 0.001 ==> r.start == newPoint && r.end == l.end
    ensures DistanceTo(m, l.start, oldPoint) >= 0.001 ==> r.start == l.start && r.end == newPoint
  {
    if DistanceTo(m, l.start, oldPoint) < 0.001 then Line(newPoint, l.end, RebuiltAttrs(l))
    else Line(l.start, newPoint, RebuiltAttrs(l))
  }

  /** `extend_to_meet`: both lines extended to the candidate's midpoint. */
  function ExtendToMeet(m: MathLib, a: Line, b: Line, k: Candidate): (r: (Line, Line))
    ensures r.0 == ExtendEndpoint(m, a, k.pointA, CandidateMidpoint(k))
    ensures r.1 == ExtendEndpoint(m, b, k.pointB, CandidateMidpoint(k))
  {
    var mid := CandidateMidpoint(k);
    (ExtendEndpoint(m, a, k.pointA, mid), ExtendEndpoint(m, b, k.pointB, mid))
  }

  /** After `extend_to_meet` the two lines share an endpoint, the midpoint,
      which is as far from one connection point as from the other; the
      other end of each line stays put. */
  lemma ExtendedLinesMeet(m: MathLib, a: Line, b: Line, k: Candidate)
    ensures var r := ExtendToMeet(m, a, b, k);
      var mid := Midpoint(k.pointA, k.pointB);
      (r.0.start == mid || r.0.end == mid) && (r.1.start == mid || r.1.end == mid) &&
      (r.0.start == a.start || r.0.end == a.end) && (r.1.start == b.start || r.1.end == b.end) &&
      DistanceSquared(k.pointA, mid) == DistanceSquared(mid, k.pointB)
  {
    MidpointEquidistant(k.pointA, k.pointB);
  }

  /** `_connect_pair`: only two lines fuse, into one line when collinear and
      otherwise into the two extended lines. */
  function ConnectPair(m: MathLib, ea: Entity, eb: Entity, k: Candidate): (r: Option<seq<Entity>>)
    ensures r.Some? <==> ea.LineE? && eb.LineE?
    ensures r.Some? ==> (|r.value| == 1 <==> AreCollinear(m, ea.line, eb.line))
    ensures r.Some? && |r.value| == 1 ==> r.value == [LineE(MergedLine(m, ea.line, eb.line))]
    ensures r.Some? && |r.value| != 1 ==>
      var ext := ExtendToMeet(m, ea.line, eb.line, k);
      r.value == [LineE(ext.0), LineE(ext.1)]
  {
    if ea.LineE? && eb.LineE? then
      if AreCollinear(m, ea.line, eb.line) then Some([LineE(MergedLine(m, ea.line, eb.line))])
      else
        var ext := ExtendToMeet(m, ea.line, eb.line, k);
        Some([LineE(ext.0), LineE(ext.1)])
    else None
  }

  method ConnectPairMethod(m: MathLib, ea: Entity, eb: Entity, k: Candidate) returns (r: Option<seq<Entity>>)
    ensures r == ConnectPair(m, ea, eb, k)
  {
    if ea.LineE? && eb.LineE? {
      if AreCollinear(m, ea.line, eb.line) {
        var merged := MergeLines(m, ea.line, eb.line);
        return Some([LineE(merged)]);
      }
      var ext := ExtendToMeet(m, ea.line, eb.line, k);
      return Some([LineE(ext.0), LineE(ext.1)]);
    }
    return None;
  }

  // The greedy pass of `connect_segments`

  datatype ConnectionResult = ConnectionResult(connected: seq<Entity>, connectionCount: nat, unconnected: seq<Entity>)

  /** The state of the pass: fused entities so far, the positions already
      modified, the connection count, and (for the proofs) how many of the
      connections were merges. */
  datatype PassState = PassState(fused: seq<Entity>, modified: set<nat>, count: nat, merges: nat)

  predicate WellIndexed(es: seq<Entity>, cands: seq<Candidate>) {
    forall q :: 0 <= q < |cands| ==> cands[q].i < cands[q].j < |es|
  }

  /** One candidate: skipped when either entity was modified or the pair
      does not fuse, otherwise both are marked and the result appended. */
  function Step(m: MathLib, es: seq<Entity>, st: PassState, k: Candidate): PassState
    requires k.i < |es| && k.j < |es|
  {
    if k.i in st.modified || k.j in st.modified then st
    else
      match ConnectPair(m, es[k.i], es[k.j], k)
      case None => st
      case Some(r) =>
        PassState(st.fused + r, st.modified + {k.i, k.j}, st.count + 1, st.merges + (if |r| == 1 then 1 else 0))
  }

  /** The state after the first `n` candidates. */
  function Pass(m: MathLib, es: seq<Entity>, cands: seq<Candidate>, n: nat): PassState
    requires n <= |cands| && WellIndexed(es, cands)
  {
    if n == 0 then PassState([], {}, 0, 0)
    else Step(m, es, Pass(m, es, cands, n - 1), cands[n - 1])
  }

  /** The first `n` entities whose positions were not modified, in order. */
  function Unmodified(es: seq<Entity>, modified: set<nat>, n: nat): seq<Entity>
    requires n <= |es|
  {
    if n == 0 then []
    else Unmodified(es, modified, n - 1) + (if n - 1 in modified then [] else [es[n - 1]])
  }

  lemma CandidatesWellIndexed(m: MathLib, c: Connector, es: seq<Entity>)
    ensures WellIndexed(es, Candidates(m, c, es))
  {
    CandidatesExactly(m, c, es);
    var cands := Candidates(m, c, es);
    forall q | 0 <= q < |cands| ensures cands[q].i < cands[q].j < |es| {
      assert cands[q] in cands;
    }
  }

  /** What `connect_segments` returns: the input itself without candidates,
      otherwise the fused entities followed by the untouched ones. */
  function ConnectSpec(m: MathLib, c: Connector, es: seq<Entity>): ConnectionResult {
    if |Candidates(m, c, es)| == 0 then ConnectionResult(es, 0, [])
    else
      var st := FinalPass(m, c, es);
      ConnectionResult(st.fused + Unmodified(es, st.modified, |es|), st.count, [])
  }

  /** The state after every candidate. */
  function FinalPass(m: MathLib, c: Connector, es: seq<Entity>): PassState {
    CandidatesWellIndexed(m, c, es);
    Pass(m, es, Candidates(m, c, es), |Candidates(m, c, es)|)
  }

  /** `connect_segments`. */
  method ConnectSegments(m: MathLib, c: Connector, es: seq<Entity>) returns (result: ConnectionResult)
    ensures result == ConnectSpec(m, c, es)
  {
    var cands := FindConnectablePairs(m, c, es);
    if |cands| == 0 {
      return ConnectionResult(es, 0, []);
    }
    CandidatesWellIndexed(m, c, es);
    var modified: set<nat> := {};
    var fused: seq<Entity> := [];
    var count: nat := 0;
    ghost var merges: nat := 0;
    var q := 0;
    while q < |cands|
      invariant 0 <= q <= |cands|
      invariant PassState(fused, modified, count, merges) == Pass(m, es, cands, q)
    {
      var k := cands[q];
      if !(k.i in modified || k.j in modified) {
        var connected := ConnectPairMethod(m, es[k.i], es[k.j], k);
        if connected.Some? {
          modified := modified + {k.i, k.j};
          fused := fused + connected.value;
          count := count + 1;
          merges := merges + (if |connected.value| == 1 then 1 else 0);
        }
      }
      q := q + 1;
    }
    var rest: seq<Entity> := [];
    var n := 0;
    while n < |es|
      invariant 0 <= n <= |es|
      invariant rest == Unmodified(es, modified, n)
    {
      if n !in modified {
        rest := rest + [es[n]];
      }
      n := n + 1;
    }
    result := ConnectionResult(fused + rest, count, []);
  }

  /** The positions below `n` that are in `s`. */
  function Below(s: set<nat>, n: nat): set<nat> {
    set x | x in s && x < n
  }

  lemma {:induction false} UnmodifiedCount(es: seq<Entity>, modified: set<nat>, n: nat)
    requires n <= |es|
    ensures |Unmodified(es, modified, n)| + |Below(modified, n)| == n
    ensures forall k :: 0 <= k < |Unmodified(es, modified, n)| ==> Unmodified(es, modified, n)[k] in es
  {
    if n > 0 {
      UnmodifiedCount(es, modified, n - 1);
      if n - 1 in modified {
        assert Below(modified, n) == Below(modified, n - 1) + {n - 1};
      } else {
        assert Below(modified, n) == Below(modified, n - 1);
      }
      var prev := Unmodified(es, modified, n - 1);
      var add := if n - 1 in modified then [] else [es[n - 1]];
      assert forall k :: 0 <= k < |prev + add| ==> (prev + add)[k] == if k < |prev| then prev[k] else add[k - |prev|];
    }
  }

  /** Each accepted candidate marks two positions that were not marked
      before, so every entity is modified at most once: the marked set has
      exactly two positions per connection. The count never exceeds the
      candidates, and the fused part holds one line per merge and two per
      extension. */
  lemma {:induction false} PassInvariant(m: MathLib, es: seq<Entity>, cands: seq<Candidate>, n: nat)
    requires n <= |cands| && WellIndexed(es, cands)
    ensures var st := Pass(m, es, cands, n);
      |st.modified| == 2 * st.count && st.count <= n && st.merges <= st.count &&
      |st.fused| == 2 * st.count - st.merges &&
      (forall x :: x in st.modified ==> x < |es|) &&
      (forall k :: 0 <= k < |st.fused| ==> st.fused[k].LineE?)
  {
    if n > 0 {
      PassInvariant(m, es, cands, n - 1);
      StepShape(m, es, Pass(m, es, cands, n - 1), cands[n - 1], n - 1);
    }
  }

  /** The pass invariant after `n` candidates. */
  predicate PassShape(es: seq<Entity>, st: PassState, n: nat) {
    |st.modified| == 2 * st.count && st.count <= n && st.merges <= st.count &&
    |st.fused| == 2 * st.count - st.merges &&
    (forall x :: x in st.modified ==> x < |es|) &&
    (forall k :: 0 <= k < |st.fused| ==> st.fused[k].LineE?)
  }

  lemma StepShape(m: MathLib, es: seq<Entity>, st: PassState, k: Candidate, n: nat)
    requires k.i < k.j < |es| && PassShape(es, st, n)
    ensures PassShape(es, Step(m, es, st, k), n + 1)
  {
    if !(k.i in st.modified || k.j in st.modified) {
      var r := ConnectPair(m, es[k.i], es[k.j], k);
      if r.Some? {
        assert |st.modified + {k.i, k.j}| == |st.modified| + 2 by {
          assert st.modified * {k.i, k.j} == {};
        }
        LinesConcat(st.fused, r.value);
      }
    }
  }

  lemma LinesConcat(a: seq<Entity>, b: seq<Entity>)
    requires forall k :: 0 <= k < |a| ==> a[k].LineE?
    requires forall k :: 0 <= k < |b| ==> b[k].LineE?
    ensures forall k :: 0 <= k < |a + b| ==> (a + b)[k].LineE?
  {
    forall k | 0 <= k < |a + b|
      ensures (a + b)[k].LineE?
    {
      if k < |a| {
        assert (a + b)[k] == a[k];
      } else {
        assert (a + b)[k] == b[k - |a|];
      }
    }
  }

  /** `connect_segments` returns its input when nothing is in range; every
      collinear merge removes one entity from the output and nothing else
      changes its length; the connection count is at most the number of
      candidates. */
  lemma ConnectShape(m: MathLib, c: Connector, es: seq<Entity>)
    ensures var r := ConnectSpec(m, c, es);
      r.connectionCount <= |Candidates(m, c, es)| && r.unconnected == [] &&
      (|Candidates(m, c, es)| == 0 ==> r.connected == es && r.connectionCount == 0)
    ensures |Candidates(m, c, es)| > 0 ==>
      var st := FinalPass(m, c, es);
      |ConnectSpec(m, c, es).connected| == |es| - st.merges &&
      ConnectSpec(m, c, es).connected[..|st.fused|] == st.fused &&
      ConnectSpec(m, c, es).connected[|st.fused|..] == Unmodified(es, st.modified, |es|)
  {
    var cands := Candidates(m, c, es);
    if |cands| > 0 {
      CandidatesWellIndexed(m, c, es);
      var st := Pass(m, es, cands, |cands|);
      PassInvariant(m, es, cands, |cands|);
      UnmodifiedCount(es, st.modified, |es|);
      assert Below(st.modified, |es|) == st.modified;
    }
  }

  /** Connecting creates no text: fused entities are lines and the rest
      come from the input. */
  lemma ConnectGeometric(m: MathLib, c: Connector, es: seq<Entity>)
    requires AllGeometric(es)
    ensures AllGeometric(ConnectSpec(m, c, es).connected)
  {
    var cands := Candidates(m, c, es);
    if |cands| > 0 {
      CandidatesWellIndexed(m, c, es);
      var st := FinalPass(m, c, es);
      PassInvariant(m, es, cands, |cands|);
      UnmodifiedCount(es, st.modified, |es|);
      var rest := Unmodified(es, st.modified, |es|);
      forall k | 0 <= k < |st.fused + rest| ensures IsGeometric((st.fused + rest)[k]) {
        if k < |st.fused| {
          assert (st.fused + rest)[k] == st.fused[k];
        } else {
          assert (st.fused + rest)[k] == rest[k - |st.fused|];
          assert rest[k - |st.fused|] in es;
        }
      }
    }
  }
}
