/** `StraightKnifeGenerator`: horizontal cut lines from the plywood's left
    and right edges to the drawing, and the heights of the drawing's own
    horizontal lines. */
module StraightKnifeGenerator {
  import opened RealMath
  import opened Types
  import opened Points
  import opened BoundingBoxes
  import opened EntityBase
  import opened Lines
  import opened BridgeSettingsVO
  import opened BridgeCalculator
  import opened Entities
  import opened Sorting
  import opened Wrappers

  datatype KnifeSettings = KnifeSettings(applyBridges: bool, bridgeSettings: BridgeSettings, color: int, layer: string)

  /** `StraightKnifeSettings()`: bridged with the cut settings, red, layer "CUT". */
  function DefaultKnifeSettings(): (s: KnifeSettings)
    ensures s.applyBridges && s.bridgeSettings == ForCut() && s.color == RED && s.layer == "CUT"
  {
    KnifeSettings(true, ForCut(), RED, "CUT")
  }

  /** The knife before bridging: horizontal at `y`, left to right. */
  function BaseLine(startX: real, endX: real, y: real, s: KnifeSettings): (r: Line)
    ensures r.start.y == y && r.end.y == y && r.start.x <= r.end.x
    ensures (r.start.x == startX && r.end.x == endX) || (r.start.x == endX && r.end.x == startX)
    ensures r.attrs == Attrs(s.layer, s.color, "CONTINUOUS", Cut)
  {
    Line(Point(Min(startX, endX), y), Point(Max(startX, endX), y), Attrs(s.layer, s.color, "CONTINUOUS", Cut))
  }

  /** What `_generate_knife` returns: nothing for a span under 1 mm, the
      base line without bridges, its bridged pieces otherwise. */
  function Knife(m: MathLib, startX: real, endX: real, y: real, s: KnifeSettings): seq<Line>
    requires Valid(s.bridgeSettings)
  {
    if Abs(endX - startX) < 1.0 then []
    else
      var base := BaseLine(startX, endX, y, s);
      if !s.applyBridges then [base] else Bridged(s.bridgeSettings, base, Length(m, base))
  }

  method GenerateKnife(m: MathLib, startX: real, endX: real, y: real, s: KnifeSettings) returns (knife: seq<Line>)
    requires Valid(s.bridgeSettings)
    ensures knife == Knife(m, startX, endX, y, s)
  {
    if Abs(endX - startX) < 1.0 {
      return [];
    }
    var base := BaseLine(startX, endX, y, s);
    if !s.applyBridges {
      return [base];
    }
    knife := ApplyBridges(m, s.bridgeSettings, base);
  }

  /** A knife is empty exactly when its span is under 1 mm; every piece of
      it is horizontal at `y`, a cut line in the settings' colour and layer;
      without bridges it is the single base line. */
  lemma KnifeShape(m: MathLib, startX: real, endX: real, y: real, s: KnifeSettings)
    requires Valid(s.bridgeSettings)
    ensures |Knife(m, startX, endX, y, s)| == 0 <==> Abs(endX - startX) < 1.0
    ensures !s.applyBridges && Abs(endX - startX) >= 1.0 ==> Knife(m, startX, endX, y, s) == [BaseLine(startX, endX, y, s)]
    ensures forall k :: 0 <= k < |Knife(m, startX, endX, y, s)| ==>
      Knife(m, startX, endX, y, s)[k].start.y == y && Knife(m, startX, endX, y, s)[k].end.y == y &&
      Knife(m, startX, endX, y, s)[k].attrs == Attrs(s.layer, s.color, "CONTINUOUS", Cut)
  {
    if Abs(endX - startX) >= 1.0 && s.applyBridges {
      var base := BaseLine(startX, endX, y, s);
      BridgedShape(s.bridgeSettings, base, Length(m, base));
      BridgedLevel(s.bridgeSettings, base, Length(m, base));
    }
  }

  /** The knives for the first heights: a left and a right knife per height. */
  function Knives(m: MathLib, drawing: BoundingBox, plywood: BoundingBox, ys: seq<real>, s: KnifeSettings): seq<Line>
    requires Valid(s.bridgeSettings)
  {
    if |ys| == 0 then []
    else
      var y := ys[|ys| - 1];
      Knives(m, drawing, plywood, ys[..|ys| - 1], s) +
      Knife(m, plywood.minX, drawing.minX, y, s) + Knife(m, drawing.maxX, plywood.maxX, y, s)
  }

  /** The drawing's vertical midpoint, the default knife height. */
  function CentreY(b: BoundingBox): real {
    (b.minY + b.maxY) / 2.0
  }

  /** `generate`: without heights, a single knife pair at the drawing's centre. */
  method Generate(m: MathLib, drawing: BoundingBox, plywood: BoundingBox, yPositions: Option<seq<real>>, s: KnifeSettings)
    returns (knives: seq<Line>)
    requires Valid(s.bridgeSettings)
    ensures knives == Knives(m, drawing, plywood, if yPositions.Some? then yPositions.value else [CentreY(drawing)], s)
  {
    var ys := if yPositions.Some? then yPositions.value else [CentreY(drawing)];
    knives := [];
    var i := 0;
    while i < |ys|
      invariant 0 <= i <= |ys|
      invariant knives == Knives(m, drawing, plywood, ys[..i], s)
    {
      assert ys[..i + 1][..i] == ys[..i];
      var left := GenerateKnife(m, plywood.minX, drawing.minX, ys[i], s);
      knives := knives + left;
      var right := GenerateKnife(m, drawing.maxX, plywood.maxX, ys[i], s);
      knives := knives + right;
      i := i + 1;
    }
    assert ys[..|ys|] == ys;
  }

  /** `generate_at_center`. */
  method GenerateAtCenter(m: MathLib, drawing: BoundingBox, plywood: BoundingBox, s: KnifeSettings)
    returns (knives: seq<Line>)
    requires Valid(s.bridgeSettings)
    ensures knives == Knives(m, drawing, plywood, [CentreY(drawing)], s)
  {
    knives := Generate(m, drawing, plywood, Some([CentreY(drawing)]), s);
  }

  /** Each line is horizontal at one of the heights `ys` and is a cut line
      in the settings' colour and layer. */
  predicate KnifeLinesAt(ls: seq<Line>, ys: seq<real>, s: KnifeSettings) {
    forall k :: 0 <= k < |ls| ==>
      ls[k].start.y == ls[k].end.y && ls[k].start.y in ys && ls[k].attrs == Attrs(s.layer, s.color, "CONTINUOUS", Cut)
  }

  /** More heights keep the property, and so does concatenation. */
  lemma KnifeLinesJoin(a: seq<Line>, b: seq<Line>, c: seq<Line>, init: seq<real>, ys: seq<real>, s: KnifeSettings)
    requires KnifeLinesAt(a, init, s) && KnifeLinesAt(b, ys, s) && KnifeLinesAt(c, ys, s)
    requires forall x :: x in init ==> x in ys
    ensures KnifeLinesAt(a + b + c, ys, s)
  {
    forall k | 0 <= k < |a + b + c|
      ensures (a + b + c)[k].start.y == (a + b + c)[k].end.y && (a + b + c)[k].start.y in ys
      ensures (a + b + c)[k].attrs == Attrs(s.layer, s.color, "CONTINUOUS", Cut)
    {
      if k < |a| {
        assert (a + b + c)[k] == a[k];
      } else if k < |a| + |b| {
        assert (a + b + c)[k] == b[k - |a|];
      } else {
        assert (a + b + c)[k] == c[k - |a| - |b|];
      }
    }
  }

  /** Every knife lies at one of the requested heights and is a cut line in
      the settings' colour and layer. Without bridges there are at most two
      knives per height, and exactly two when both spans reach 1 mm. */
  lemma {:induction false} KnivesShape(m: MathLib, drawing: BoundingBox, plywood: BoundingBox, ys: seq<real>, s: KnifeSettings)
    requires Valid(s.bridgeSettings)
    ensures KnifeLinesAt(Knives(m, drawing, plywood, ys, s), ys, s)
    ensures !s.applyBridges ==> |Knives(m, drawing, plywood, ys, s)| <= 2 * |ys|
    ensures !s.applyBridges && Abs(drawing.minX - plywood.minX) >= 1.0 && Abs(plywood.maxX - drawing.maxX) >= 1.0 ==>
      |Knives(m, drawing, plywood, ys, s)| == 2 * |ys|
  {
    if |ys| > 0 {
      var y := ys[|ys| - 1];
      var init := ys[..|ys| - 1];
      KnivesShape(m, drawing, plywood, init, s);
      KnifeShape(m, plywood.minX, drawing.minX, y, s);
      KnifeShape(m, drawing.maxX, plywood.maxX, y, s);
      var before := Knives(m, drawing, plywood, init, s);
      var left := Knife(m, plywood.minX, drawing.minX, y, s);
      var right := Knife(m, drawing.maxX, plywood.maxX, y, s);
      assert y in ys;
      assert forall x :: x in init ==> x in ys;
      KnifeLinesJoin(before, left, right, init, ys, s);
    }
  }

  // Heights of horizontal lines

  /** The start heights of the lines whose ends differ in height by less
      than the tolerance, in input order. */
  function HorizontalYs(es: seq<Entity>, tol: real): (r: seq<real>)
    ensures |r| <= |es|
    ensures forall y :: y in r <==>
      exists k :: 0 <= k < |es| && es[k].LineE? && Abs(es[k].line.start.y - es[k].line.end.y) < tol && es[k].line.start.y == y
  {
    if |es| == 0 then []
    else
      var e := es[|es| - 1];
      var rest := HorizontalYs(es[..|es| - 1], tol);
      assert forall k :: 0 <= k < |es| - 1 ==> es[..|es| - 1][k] == es[k];
      if e.LineE? && Abs(e.line.start.y - e.line.end.y) < tol then rest + [e.line.start.y] else rest
  }

  function Sum(xs: seq<real>): real {
    if |xs| == 0 then 0.0 else Sum(xs[..|xs| - 1]) + xs[|xs| - 1]
  }

  /** `sum(xs) / len(xs)`. */
  function Mean(xs: seq<real>): real
    requires |xs| > 0
  {
    Sum(xs) / |xs| as real
  }

  /** The clustering loop's state after the first `n` sorted values: the
      means of the closed clusters and the open cluster. A value joins the
      open cluster when it is within the tolerance of the cluster's last
      member. */
  function ClusterState(ys: seq<real>, tol: real, n: nat): (st: (seq<real>, seq<real>))
    requires 1 <= n <= |ys|
    ensures |st.1| > 0 && st.1[|st.1| - 1] == ys[n - 1]
    ensures |st.0| + 1 <= n
  {
    if n == 1 then ([], [ys[0]])
    else
      var prev := ClusterState(ys, tol, n - 1);
      var cur := prev.1;
      if ys[n - 1] - cur[|cur| - 1] <= tol then (prev.0, cur + [ys[n - 1]])
      else (prev.0 + [Mean(cur)], [ys[n - 1]])
  }

  /** The cluster means of sorted values; none for no values. */
  function ClusterMeans(ys: seq<real>, tol: real): seq<real> {
    if |ys| == 0 then []
    else
      var st := ClusterState(ys, tol, |ys|);
      st.0 + [Mean(st.1)]
  }

  /** `find_horizontal_line_positions`. */
  method FindHorizontalLinePositions(es: seq<Entity>, tol: real) returns (positions: seq<real>)
    ensures positions == ClusterMeans(Sort(HorizontalYs(es, tol)), tol)
    ensures |positions| == 0 <==> HorizontalYs(es, tol) == []
    ensures |positions| <= |HorizontalYs(es, tol)|
    ensures Sorted(positions)
    ensures tol >= 0.0 ==> StrictlyIncreasing(positions)
  {
    var ys := CollectHorizontalYs(es, tol);
    if |ys| == 0 {
      return [];
    }
    var sorted := Sort(ys);
    assert |sorted| == |ys| by {
      assert |multiset(sorted)| == |multiset(ys)|;
    }
    positions := Cluster(sorted, tol);
    ClusterMeansOrder(sorted, tol);
  }

  /** The first loop of `find_horizontal_line_positions`. */
  method CollectHorizontalYs(es: seq<Entity>, tol: real) returns (ys: seq<real>)
    ensures ys == HorizontalYs(es, tol)
  {
    ys := [];
    var j := 0;
    while j < |es|
      invariant 0 <= j <= |es|
      invariant ys == HorizontalYs(es[..j], tol)
    {
      assert es[..j + 1][..j] == es[..j];
      var e := es[j];
      if e.LineE? && Abs(e.line.start.y - e.line.end.y) < tol {
        ys := ys + [e.line.start.y];
      }
      j := j + 1;
    }
    assert es[..|es|] == es;
  }

  /** The clustering loop of `find_horizontal_line_positions`, on the
      sorted heights. */
  method Cluster(ys: seq<real>, tol: real) returns (means: seq<real>)
    requires |ys| > 0
    ensures means == ClusterMeans(ys, tol)
  {
    var clusters: seq<real> := [];
    var current: seq<real> := [ys[0]];
    var i := 1;
    while i < |ys|
      invariant 1 <= i <= |ys|
      invariant (clusters, current) == ClusterState(ys, tol, i)
    {
      if ys[i] - current[|current| - 1] <= tol {
        current := current + [ys[i]];
      } else {
        clusters := clusters + [Mean(current)];
        current := [ys[i]];
      }
      i := i + 1;
    }
    means := clusters + [Mean(current)];
  }

  lemma MeanBounds(xs: seq<real>, lo: real, hi: real)
    requires |xs| > 0
    requires forall k :: 0 <= k < |xs| ==> lo <= xs[k] <= hi
    ensures lo <= Mean(xs) <= hi
  {
    SumBounds(xs, lo, hi);
    var n := |xs| as real;
    DivBounds(Sum(xs), n, lo, hi);
  }

  lemma {:induction false} SumBounds(xs: seq<real>, lo: real, hi: real)
    requires forall k :: 0 <= k < |xs| ==> lo <= xs[k] <= hi
    ensures (|xs| as real) * lo <= Sum(xs) <= (|xs| as real) * hi
  {
    if |xs| > 0 {
      var init := xs[..|xs| - 1];
      SumBounds(init, lo, hi);
      var n := |init| as real;
      assert (n + 1.0) * lo == n * lo + lo;
      assert (n + 1.0) * hi == n * hi + hi;
    }
  }

  lemma DivBounds(a: real, n: real, lo: real, hi: real)
    requires n > 0.0 && n * lo <= a <= n * hi
    ensures lo <= a / n <= hi
  {
    assert (a / n) * n == a;
  }

  /** In sorted input the open cluster runs from its first member up to the
      latest value, every closed mean is at most the open cluster's first
      member, and the closed means ascend; with a non-negative tolerance
      strictly. */
  lemma {:induction false} ClusterStateOrder(ys: seq<real>, tol: real, n: nat)
    requires Sorted(ys) && 1 <= n <= |ys|
    ensures var st := ClusterState(ys, tol, n);
      (forall k :: 0 <= k < |st.1| ==> st.1[0] <= st.1[k] <= ys[n - 1]) &&
      (forall k :: 0 <= k < |st.0| ==> st.0[k] <= st.1[0]) &&
      Sorted(st.0) &&
      (tol >= 0.0 ==> (forall k :: 0 <= k < |st.0| ==> st.0[k] < st.1[0]) && StrictlyIncreasing(st.0))
  {
    if n > 1 {
      ClusterStateOrder(ys, tol, n - 1);
      var prev := ClusterState(ys, tol, n - 1);
      var cur := prev.1;
      var y := ys[n - 1];
      assert ys[n - 2] <= y;
      if y - cur[|cur| - 1] <= tol {
        var nc := cur + [y];
        assert forall k :: 0 <= k < |nc| ==> nc[0] <= nc[k] <= y by {
          forall k | 0 <= k < |nc| ensures nc[0] <= nc[k] <= y {
            if k < |cur| {
              assert nc[k] == cur[k];
            }
          }
        }
      } else {
        MeanBounds(cur, cur[0], ys[n - 2]);
        var closed := prev.0 + [Mean(cur)];
        assert forall k :: 0 <= k < |closed| ==> closed[k] <= y;
        assert tol >= 0.0 ==> forall k :: 0 <= k < |closed| ==> closed[k] < y;
      }
    }
  }

  /** The cluster means of sorted values ascend, strictly when the tolerance
      is not negative, and there is one per value at most. */
  lemma ClusterMeansOrder(ys: seq<real>, tol: real)
    requires Sorted(ys)
    ensures Sorted(ClusterMeans(ys, tol))
    ensures tol >= 0.0 ==> StrictlyIncreasing(ClusterMeans(ys, tol))
    ensures |ClusterMeans(ys, tol)| <= |ys|
    ensures |ClusterMeans(ys, tol)| == 0 <==> |ys| == 0
  {
    if |ys| > 0 {
      ClusterStateOrder(ys, tol, |ys|);
      var st := ClusterState(ys, tol, |ys|);
      MeanBounds(st.1, st.1[0], ys[|ys| - 1]);
    }
  }

  /** When consecutive sorted values never differ by more than the
      tolerance, all of them form a single cluster. */
  lemma {:induction false} OneCluster(ys: seq<real>, tol: real, n: nat)
    requires 1 <= n <= |ys|
    requires forall k :: 0 < k < |ys| ==> ys[k] - ys[k - 1] <= tol
    ensures ClusterState(ys, tol, n) == ([], ys[..n])
    ensures n == |ys| ==> ClusterMeans(ys, tol) == [Mean(ys)]
  {
    assert ys[..|ys|] == ys;
    if n > 1 {
      OneCluster(ys, tol, n - 1);
      assert ys[..n] == ys[..n - 1] + [ys[n - 1]];
    } else {
      assert ys[..1] == [ys[0]];
    }
  }
}
