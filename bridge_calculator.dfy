/** `BridgeCalculator`: where the bridges (uncut gaps that hold the blank in
    the sheet) go along a line, and the pieces a bridged line is cut into. */
module BridgeCalculator {
  import opened RealMath
  import opened Lines
  import opened Sorting
  import opened BridgeSettingsVO

  /** Intervals outside 50..70 mm trigger the single count correction. */
  const MAX_INTERVAL: real := 70.0
  const MIN_INTERVAL: real := 50.0
  /** Gap ends are clamped into [0.001, 0.999]. */
  const GAP_LOW: real := 0.001
  const GAP_HIGH: real := 0.999
  /** Split intervals this close to a gap's ends are that gap. */
  const GAP_MATCH: real := 0.0001

  // ---------------------------------------------------------------------
  // Positions

  /** `max(1, round(effective / target_interval))`. */
  function InitialCount(s: BridgeSettings, eff: real): (n: int)
    requires Valid(s)
    ensures n >= 1
  {
    var k := RoundHalfEven(eff / s.targetInterval);
    if k >= 1 then k else 1
  }

  /** The count after the one correction: one more when the interval is over
      70 mm and the count is below `effective / 50`; one fewer when it is
      under 50 mm and there is more than one bridge. */
  function CorrectedCount(s: BridgeSettings, eff: real): (n: int)
    requires Valid(s)
    ensures n >= 1
    ensures var c := InitialCount(s, eff); c - 1 <= n <= c + 1
  {
    var c := InitialCount(s, eff);
    var iv := eff / (c as real);
    if iv > MAX_INTERVAL && (c as real) < eff / MIN_INTERVAL then c + 1
    else if iv < MIN_INTERVAL && c > 1 then c - 1
    else c
  }

  /** The `i`-th bridge centre as a ratio of the line length. */
  function PositionAt(s: BridgeSettings, len: real, iv: real, i: int): real
    requires len != 0.0
  {
    (s.edgeMargin + ((iv / 2.0) + (iv * (i as real)))) / len
  }

  /** What `calculate_bridge_positions` returns for a line of length `len`. */
  function Positions(s: BridgeSettings, len: real): seq<real>
    requires Valid(s)
  {
    if len < s.minLength then []
    else if len < s.singleBridgeMax then [0.5]
    else
      var eff := len - 2.0 * s.edgeMargin;
      if eff <= 0.0 then [0.5]
      else
        var n := CorrectedCount(s, eff);
        Spread(s, len, eff / (n as real), n)
  }

  /** `n` bridge centres one interval `iv` apart, starting half an interval
      past the edge margin. */
  function Spread(s: BridgeSettings, len: real, iv: real, n: nat): (r: seq<real>)
    requires len != 0.0
    ensures |r| == n && forall i :: 0 <= i < n ==> r[i] == PositionAt(s, len, iv, i)
  {
    seq(n, i requires 0 <= i < n => PositionAt(s, len, iv, i))
  }

  /** `calculate_bridge_positions`. */
  method CalculateBridgePositions(s: BridgeSettings, len: real) returns (positions: seq<real>)
    requires Valid(s)
    ensures positions == Positions(s, len)
  {
    if len < s.minLength {
      return [];
    }
    if len < s.singleBridgeMax {
      return [0.5];
    }
    var eff := len - 2.0 * s.edgeMargin;
    if eff <= 0.0 {
      return [0.5];
    }
    var count := InitialCount(s, eff);
    var interval := eff / (count as real);
    if interval > MAX_INTERVAL && (count as real) < eff / MIN_INTERVAL {
      count := count + 1;
      interval := eff / (count as real);
    } else if interval < MIN_INTERVAL && count > 1 {
      count := count - 1;
      interval := eff / (count as real);
    }
    positions := [];
    var i := 0;
    while i < count
      invariant 0 <= i <= count
      invariant count == CorrectedCount(s, eff) && interval == eff / (count as real)
      invariant |positions| == i
      invariant forall k :: 0 <= k < i ==> positions[k] == PositionAt(s, len, interval, k)
    {
      positions := positions + [PositionAt(s, len, interval, i)];
      i := i + 1;
    }
  }

  /** Lines shorter than the minimum get no bridge; up to the single-bridge
      maximum they get one, in the middle. */
  lemma PositionsShortLines(s: BridgeSettings, len: real)
    requires Valid(s)
    ensures len < s.minLength ==> Positions(s, len) == []
    ensures s.minLength <= len < s.singleBridgeMax ==> Positions(s, len) == [0.5]
    ensures |Positions(s, len)| == 0 <==> len < s.minLength
  {
    if len >= s.minLength && len >= s.singleBridgeMax {
      var eff := len - 2.0 * s.edgeMargin;
      if eff > 0.0 {
        assert |Positions(s, len)| == CorrectedCount(s, eff) >= 1;
      }
    }
  }

  lemma DivPositive(a: real, b: real)
    requires a > 0.0 && b > 0.0
    ensures a / b > 0.0
  {
  }

  lemma DivMonotone(a: real, b: real, d: real)
    requires a < b && d > 0.0
    ensures a / d < b / d
  {
    assert b / d - a / d == (b - a) / d;
    DivPositive(b - a, d);
  }

  lemma MulStrict(iv: real, i: real, j: real)
    requires iv > 0.0 && i < j
    ensures iv * i < iv * j
  {
    var d := j - i;
    assert iv * j - iv * i == iv * d;
    assert iv * d > 0.0;
  }

  lemma MulNonNeg(iv: real, i: real)
    requires iv > 0.0 && i >= 0.0
    ensures iv * i >= 0.0
  {
  }

  lemma DivTimes(eff: real, n: real)
    requires n > 0.0
    ensures (eff / n) * n == eff
  {
  }

  lemma UnitBound(num: real, len: real)
    requires 0.0 < num < len
    ensures 0.0 < num / len < 1.0
  {
    DivPositive(num, len);
    DivMonotone(num, len, len);
    assert len / len == 1.0;
  }

  /** The numerator of the last position is `len - edge_margin - interval/2`. */
  lemma LastNumerator(e: real, iv: real, n: int, eff: real)
    requires n >= 1 && iv * (n as real) == eff
    ensures e + ((iv / 2.0) + (iv * ((n - 1) as real))) == e + eff - iv / 2.0
  {
    assert iv * ((n - 1) as real) == iv * (n as real) - iv;
  }

  /** Bridge centres at `e + iv/2 + iv*i` for `i < n`, over a length `len`
      of `eff + 2e`, are strictly ascending. */
  lemma PositionsAscending(s: BridgeSettings, len: real, iv: real, i: int, j: int)
    requires len > 0.0 && iv > 0.0 && i < j
    ensures PositionAt(s, len, iv, i) < PositionAt(s, len, iv, j)
  {
    MulStrict(iv, i as real, j as real);
    DivMonotone(s.edgeMargin + ((iv / 2.0) + (iv * (i as real))), s.edgeMargin + ((iv / 2.0) + (iv * (j as real))), len);
  }

  /** ... and each lies strictly inside (0, 1). */
  lemma PositionInside(s: BridgeSettings, len: real, iv: real, n: int, i: int)
    requires s.edgeMargin >= 0.0 && iv > 0.0 && 0 <= i < n
    requires iv * (n as real) == len - 2.0 * s.edgeMargin
    ensures 0.0 < PositionAt(s, len, iv, i) < 1.0
  {
    var e := s.edgeMargin;
    LastNumerator(e, iv, n, len - 2.0 * e);
    MulNonNeg(iv, i as real);
    if i < n - 1 {
      MulStrict(iv, i as real, (n - 1) as real);
    }
    assert iv * (i as real) <= iv * ((n - 1) as real);
    UnitBound(e + ((iv / 2.0) + (iv * (i as real))), len);
  }

  /** ... the first at least `e` from the start, the last at least `e` from the end. */
  lemma PositionEnds(s: BridgeSettings, len: real, iv: real, n: int)
    requires s.edgeMargin >= 0.0 && iv > 0.0 && n >= 1 && len > 0.0
    requires iv * (n as real) == len - 2.0 * s.edgeMargin
    ensures PositionAt(s, len, iv, 0) >= s.edgeMargin / len
    ensures PositionAt(s, len, iv, n - 1) <= (len - s.edgeMargin) / len
  {
    var e := s.edgeMargin;
    assert iv * (0 as real) == 0.0;
    DivMonotone(e, e + ((iv / 2.0) + (iv * (0 as real))), len);
    LastNumerator(e, iv, n, len - 2.0 * e);
    DivMonotone(e + (len - 2.0 * e) - iv / 2.0, len - e, len);
  }

  lemma SpreadShape(s: BridgeSettings, len: real, iv: real, n: nat)
    requires s.edgeMargin >= 0.0 && iv > 0.0 && n >= 1 && len > 0.0
    requires iv * (n as real) == len - 2.0 * s.edgeMargin
    ensures var p := Spread(s, len, iv, n);
      (forall i, j :: 0 <= i < j < |p| ==> p[i] < p[j]) &&
      (forall i :: 0 <= i < |p| ==> 0.0 < p[i] < 1.0) &&
      p[0] >= s.edgeMargin / len && p[|p| - 1] <= (len - s.edgeMargin) / len
  {
    var p := Spread(s, len, iv, n);
    forall i, j | 0 <= i < j < |p|
      ensures p[i] < p[j]
    {
      PositionsAscending(s, len, iv, i, j);
    }
    forall i | 0 <= i < |p|
      ensures 0.0 < p[i] < 1.0
    {
      PositionInside(s, len, iv, n, i);
    }
    PositionEnds(s, len, iv, n);
  }

  /** In the multi-bridge branch: at least one bridge, exactly the corrected
      count of positions, strictly ascending, inside (0, 1), the first at
      least `edge_margin` from the start and the last at least
      `edge_margin` from the end. */
  lemma PositionsMulti(s: BridgeSettings, len: real)
    requires Valid(s) && len >= s.singleBridgeMax && len - 2.0 * s.edgeMargin > 0.0
    ensures var p := Positions(s, len);
      |p| == CorrectedCount(s, len - 2.0 * s.edgeMargin) && |p| >= 1
    ensures var p := Positions(s, len);
      forall i, j :: 0 <= i < j < |p| ==> p[i] < p[j]
    ensures var p := Positions(s, len);
      forall i :: 0 <= i < |p| ==> 0.0 < p[i] < 1.0
    ensures var p := Positions(s, len);
      |p| >= 1 && p[0] >= s.edgeMargin / len && p[|p| - 1] <= (len - s.edgeMargin) / len
  {
    var eff := len - 2.0 * s.edgeMargin;
    var n := CorrectedCount(s, eff);
    var iv := eff / (n as real);
    assert Positions(s, len) == Spread(s, len, iv, n);
    IntervalFacts(eff, n, iv);
    SpreadShape(s, len, iv, n);
  }

  /** The interval `eff / n` is positive and `n` of them make up `eff`. */
  lemma IntervalFacts(eff: real, n: nat, iv: real)
    requires eff > 0.0 && n >= 1 && iv == eff / (n as real)
    ensures iv > 0.0 && iv * (n as real) == eff
  {
    DivPositive(eff, n as real);
    DivTimes(eff, n as real);
  }

  // ---------------------------------------------------------------------
  // Gaps

  /** A gap `(start, end)` as ratios of the line length. */
  type Gap = (real, real)

  /** One bridge centre widened by half the gap ratio each way, clamped. */
  function Clamped(pos: real, gapRatio: real): Gap {
    (Max(GAP_LOW, pos - (gapRatio / 2.0)), Min(GAP_HIGH, pos + (gapRatio / 2.0)))
  }

  /** The clamped gaps of the given centres that are not empty, in order. */
  function GapsOf(ps: seq<real>, gapRatio: real): seq<Gap>
  {
    if |ps| == 0 then []
    else
      var g := Clamped(ps[|ps| - 1], gapRatio);
      GapsOf(ps[..|ps| - 1], gapRatio) + (if g.0 < g.1 then [g] else [])
  }

  /** What `calculate_bridge_gaps` returns. */
  function Gaps(s: BridgeSettings, len: real): seq<Gap>
    requires Valid(s)
  {
    var ps := Positions(s, len);
    if |ps| == 0 then [] else
      PositionsShortLines(s, len);
      GapsOf(ps, s.gapSize / len)
  }

  /** `calculate_bridge_gaps`. */
  method CalculateBridgeGaps(s: BridgeSettings, len: real) returns (gaps: seq<Gap>)
    requires Valid(s)
    ensures gaps == Gaps(s, len)
  {
    var positions := CalculateBridgePositions(s, len);
    if |positions| == 0 {
      return [];
    }
    PositionsShortLines(s, len);
    var gapRatio := s.gapSize / len;
    gaps := [];
    var i := 0;
    while i < |positions|
      invariant 0 <= i <= |positions|
      invariant gaps == GapsOf(positions[..i], gapRatio)
    {
      var start := positions[i] - (gapRatio / 2.0);
      var end := positions[i] + (gapRatio / 2.0);
      start := Max(GAP_LOW, start);
      end := Min(GAP_HIGH, end);
      assert positions[..i + 1][..i] == positions[..i];
      if start < end {
        gaps := gaps + [(start, end)];
      }
      i := i + 1;
    }
    assert positions[..|positions|] == positions;
  }

  /** Every gap is non-empty, inside [0.001, 0.999] and comes from one centre;
      every centre whose clamped gap is non-empty yields one. */
  lemma {:induction false} GapsOfShape(ps: seq<real>, gapRatio: real)
    ensures var gs := GapsOf(ps, gapRatio);
      forall k :: 0 <= k < |gs| ==> GAP_LOW <= gs[k].0 < gs[k].1 <= GAP_HIGH
    ensures var gs := GapsOf(ps, gapRatio);
      forall k :: 0 <= k < |gs| ==> exists i :: 0 <= i < |ps| && gs[k] == Clamped(ps[i], gapRatio)
    ensures var gs := GapsOf(ps, gapRatio);
      forall i :: 0 <= i < |ps| && Clamped(ps[i], gapRatio).0 < Clamped(ps[i], gapRatio).1 ==>
        Clamped(ps[i], gapRatio) in gs
    ensures |GapsOf(ps, gapRatio)| <= |ps|
    decreases |ps|
  {
    if |ps| > 0 {
      var init := ps[..|ps| - 1];
      GapsOfShape(init, gapRatio);
      var gs := GapsOf(ps, gapRatio);
      var gi := GapsOf(init, gapRatio);
      forall k | 0 <= k < |gs|
        ensures exists i :: 0 <= i < |ps| && gs[k] == Clamped(ps[i], gapRatio)
      {
        if k < |gi| {
          var i :| 0 <= i < |init| && gi[k] == Clamped(init[i], gapRatio);
          assert ps[i] == init[i];
        } else {
          assert gs[k] == Clamped(ps[|ps| - 1], gapRatio);
        }
      }
      forall i | 0 <= i < |ps| && Clamped(ps[i], gapRatio).0 < Clamped(ps[i], gapRatio).1
        ensures Clamped(ps[i], gapRatio) in gs
      {
        if i < |ps| - 1 {
          assert ps[i] == init[i];
          assert Clamped(ps[i], gapRatio) in gi;
        }
      }
    }
  }

  /** An unclamped gap spans exactly `gap_size` millimetres of the line. */
  lemma UnclampedGapSpan(pos: real, gapSize: real, len: real)
    requires len > 0.0
    requires pos - (gapSize / len) / 2.0 >= GAP_LOW && pos + (gapSize / len) / 2.0 <= GAP_HIGH
    ensures var g := Clamped(pos, gapSize / len); (g.1 - g.0) * len == gapSize
  {
    var g := Clamped(pos, gapSize / len);
    assert g.1 - g.0 == gapSize / len;
  }

  // ---------------------------------------------------------------------
  // Applying bridges

  /** The split ratios the gaps contribute: each gap's start then its end. */
  function GapEnds(gaps: seq<Gap>): (r: seq<real>)
    ensures |r| == 2 * |gaps|
    ensures forall k :: 0 <= k < |gaps| ==> r[2 * k] == gaps[k].0 && r[2 * k + 1] == gaps[k].1
  {
    if |gaps| == 0 then [] else [gaps[0].0, gaps[0].1] + GapEnds(gaps[1..])
  }

  /** The interval from `a` to `b` is one of the gaps, to within 0.0001 at both ends. */
  predicate IsGap(a: real, b: real, gaps: seq<Gap>) {
    exists k :: 0 <= k < |gaps| && Abs(a - gaps[k].0) < GAP_MATCH && Abs(b - gaps[k].1) < GAP_MATCH
  }

  /** The pieces of the first `n` split intervals that are not gaps, in order. */
  function KeptPieces(l: Line, all: seq<real>, gaps: seq<Gap>, n: nat): seq<Line>
    requires n < |all|
  {
    if n == 0 then []
    else
      var last := if IsGap(all[n - 1], all[n], gaps) then [] else [Piece(l, all, n - 1)];
      KeptPieces(l, all, gaps, n - 1) + last
  }

  /** The pieces left between the given gaps, or the line itself when there
      are no gaps or nothing is left. */
  function CutAround(l: Line, gaps: seq<Gap>): seq<Line> {
    if |gaps| == 0 then [l]
    else
      var all := SplitRatios(GapEnds(gaps));
      SplitRatioCount(GapEnds(gaps));
      var kept := KeptPieces(l, all, gaps, |all| - 1);
      if |kept| == 0 then [l] else kept
  }

  /** What `apply_bridges` returns for a line of the given length. */
  function Bridged(s: BridgeSettings, l: Line, len: real): seq<Line>
    requires Valid(s)
  {
    CutAround(l, Gaps(s, len))
  }

  /** The loop that collects each gap's start and end. */
  method CollectGapEnds(gaps: seq<Gap>) returns (ends: seq<real>)
    ensures ends == GapEnds(gaps)
  {
    ends := [];
    var g := 0;
    while g < |gaps|
      invariant 0 <= g <= |gaps|
      invariant ends == GapEnds(gaps[..g])
    {
      GapEndsAppend(gaps[..g], gaps[g]);
      assert gaps[..g + 1] == gaps[..g] + [gaps[g]];
      ends := ends + [gaps[g].0, gaps[g].1];
      g := g + 1;
    }
    assert gaps[..|gaps|] == gaps;
  }

  /** The inner search: is the interval from `a` to `b` one of the gaps? */
  method FindGap(a: real, b: real, gaps: seq<Gap>) returns (isGap: bool)
    ensures isGap == IsGap(a, b, gaps)
  {
    isGap := false;
    var k := 0;
    while k < |gaps|
      invariant 0 <= k <= |gaps|
      invariant isGap <==> exists q :: 0 <= q < k && Abs(a - gaps[q].0) < GAP_MATCH && Abs(b - gaps[q].1) < GAP_MATCH
      invariant isGap ==> IsGap(a, b, gaps)
    {
      if Abs(a - gaps[k].0) < GAP_MATCH && Abs(b - gaps[k].1) < GAP_MATCH {
        isGap := true;
        break;
      }
      k := k + 1;
    }
  }

  /** The pieces of the split intervals that are not gaps. */
  method KeepNonGaps(l: Line, all: seq<real>, gaps: seq<Gap>) returns (segs: seq<Line>)
    requires |all| >= 1
    ensures segs == KeptPieces(l, all, gaps, |all| - 1)
  {
    segs := [];
    var i := 0;
    while i < |all| - 1
      invariant 0 <= i <= |all| - 1
      invariant segs == KeptPieces(l, all, gaps, i)
    {
      var isGap := FindGap(all[i], all[i + 1], gaps);
      if !isGap {
        segs := segs + [Piece(l, all, i)];
      }
      i := i + 1;
    }
  }

  /** `apply_bridges`: the line's length is `m.sqrt` of its squared length. */
  method ApplyBridges(m: MathLib, s: BridgeSettings, l: Line) returns (segs: seq<Line>)
    requires Valid(s)
    ensures segs == Bridged(s, l, Length(m, l))
  {
    var gaps := CalculateBridgeGaps(s, Length(m, l));
    segs := SplitAroundGaps(l, gaps);
  }

  /** The part of `apply_bridges` after the gaps are known. */
  method SplitAroundGaps(l: Line, gaps: seq<Gap>) returns (segs: seq<Line>)
    ensures segs == CutAround(l, gaps)
  {
    if |gaps| == 0 {
      return [l];
    }
    var ends := CollectGapEnds(gaps);
    var all := SplitRatios(ends);
    SplitRatioCount(ends);
    segs := KeepNonGaps(l, all, gaps);
    if |segs| == 0 {
      segs := [l];
    }
  }

  lemma GapEndsAppend(gs: seq<Gap>, g: Gap)
    ensures GapEnds(gs + [g]) == GapEnds(gs) + [g.0, g.1]
  {
    if |gs| > 0 {
      assert (gs + [g])[1..] == gs[1..] + [g];
      GapEndsAppend(gs[1..], g);
    }
  }

  lemma {:induction false} KeptPiecesAttrs(l: Line, all: seq<real>, gaps: seq<Gap>, n: nat)
    requires n < |all|
    ensures |KeptPieces(l, all, gaps, n)| <= n
    ensures forall k :: 0 <= k < |KeptPieces(l, all, gaps, n)| ==> KeptPieces(l, all, gaps, n)[k].attrs == l.attrs
  {
    if n > 0 {
      KeptPiecesAttrs(l, all, gaps, n - 1);
    }
  }

  /** `apply_bridges` never returns an empty list, every piece keeps the
      line's layer, colour, linetype and category, a line shorter than the
      minimum comes back alone and unchanged, and there are never more pieces
      than split intervals. */
  lemma BridgedShape(s: BridgeSettings, l: Line, len: real)
    requires Valid(s)
    ensures |Bridged(s, l, len)| >= 1
    ensures forall k :: 0 <= k < |Bridged(s, l, len)| ==> Bridged(s, l, len)[k].attrs == l.attrs
    ensures len < s.minLength ==> Bridged(s, l, len) == [l]
    ensures |Bridged(s, l, len)| <= 2 * |Positions(s, len)| + 1
  {
    PositionsShortLines(s, len);
    if |Positions(s, len)| > 0 {
      GapsOfShape(Positions(s, len), s.gapSize / len);
    }
    CutAroundShape(l, Gaps(s, len));
  }

  lemma CutAroundShape(l: Line, gaps: seq<Gap>)
    ensures |CutAround(l, gaps)| >= 1
    ensures forall k :: 0 <= k < |CutAround(l, gaps)| ==> CutAround(l, gaps)[k].attrs == l.attrs
    ensures |CutAround(l, gaps)| <= 2 * |gaps| + 1
  {
    if |gaps| > 0 {
      var all := SplitRatios(GapEnds(gaps));
      SplitRatioCount(GapEnds(gaps));
      KeptPiecesAttrs(l, all, gaps, |all| - 1);
      DistinctCountBound(GapEnds(gaps));
    }
  }

  /** Cutting keeps every piece on the line: pieces of a horizontal line
      are horizontal at the same height. */
  lemma BridgedLevel(s: BridgeSettings, l: Line, len: real)
    requires Valid(s) && l.start.y == l.end.y
    ensures forall k :: 0 <= k < |Bridged(s, l, len)| ==>
      Bridged(s, l, len)[k].start.y == l.start.y && Bridged(s, l, len)[k].end.y == l.start.y
  {
    var gaps := Gaps(s, len);
    if |gaps| > 0 {
      var all := SplitRatios(GapEnds(gaps));
      SplitRatioCount(GapEnds(gaps));
      KeptPiecesLevel(l, all, gaps, |all| - 1);
    }
  }

  lemma {:induction false} KeptPiecesLevel(l: Line, all: seq<real>, gaps: seq<Gap>, n: nat)
    requires n < |all| && l.start.y == l.end.y
    ensures forall k :: 0 <= k < |KeptPieces(l, all, gaps, n)| ==>
      KeptPieces(l, all, gaps, n)[k].start.y == l.start.y && KeptPieces(l, all, gaps, n)[k].end.y == l.start.y
  {
    if n > 0 {
      KeptPiecesLevel(l, all, gaps, n - 1);
      var p := Piece(l, all, n - 1);
      assert p.start.y == l.start.y + 0.0 * all[n - 1];
      assert p.end.y == l.start.y + 0.0 * all[n];
    }
  }

  /** There are at most two more split ratios than given ratios. */
  lemma DistinctCountBound(ratios: seq<real>)
    ensures |SplitRatios(ratios)| <= |ratios| + 2
  {
    var xs := [0.0] + ratios + [1.0];
    SplitRatioCount(ratios);
    CardSeqSet(xs);
  }

  lemma {:induction false} CardSeqSet(xs: seq<real>)
    ensures |(set x | x in xs)| <= |xs|
  {
    if |xs| > 0 {
      CardSeqSet(xs[1..]);
      assert (set x | x in xs) == {xs[0]} + (set x | x in xs[1..]);
    }
  }

  /** In the single-bridge range an unclamped gap is the only gap:
      centred on 0.5, `gap_size/len` wide. */
  lemma SingleBridgeGap(s: BridgeSettings, len: real)
    requires Valid(s) && s.minLength <= len < s.singleBridgeMax
    requires s.gapSize / len <= 0.998
    ensures Gaps(s, len) == [(0.5 - (s.gapSize / len) / 2.0, 0.5 + (s.gapSize / len) / 2.0)]
  {
    var gr := s.gapSize / len;
    assert len > 0.0;
    DivPositive(s.gapSize, len);
    assert Positions(s, len) == [0.5];
    assert Clamped(0.5, gr) == (0.5 - gr / 2.0, 0.5 + gr / 2.0);
    assert GapsOf([0.5], gr) == GapsOf([0.5][..0], gr) + [Clamped(0.5, gr)];
  }

  /** One gap strictly inside (0, 1) leaves the piece before it and the piece after it. */
  lemma {:induction false} CutAroundOneGap(l: Line, a: real, b: real)
    requires GAP_LOW <= a < b <= GAP_HIGH
    ensures CutAround(l, [(a, b)]) == [Line(l.start, PointAtRatio(l, a), l.attrs), Line(PointAtRatio(l, b), l.end, l.attrs)]
  {
    var gaps := [(a, b)];
    assert GapEnds(gaps) == [a, b];
    var xs := [0.0] + [a, b] + [1.0];
    var all := [0.0, a, b, 1.0];
    assert StrictlyIncreasing(all);
    assert forall y :: y in SortedDistinct(xs) <==> y in all;
    StrictlyIncreasingUnique(SortedDistinct(xs), all);
    assert SplitRatios(GapEnds(gaps)) == all;
    assert !IsGap(0.0, a, gaps);
    assert IsGap(a, b, gaps);
    assert !IsGap(b, 1.0, gaps);
    assert KeptPieces(l, all, gaps, 1) == [Piece(l, all, 0)];
    assert KeptPieces(l, all, gaps, 2) == [Piece(l, all, 0)];
    assert KeptPieces(l, all, gaps, 3) == [Piece(l, all, 0), Piece(l, all, 2)];
  }

  /** A line in the single-bridge range whose gap is not clamped is cut into
      exactly two pieces, start to gap and gap to end, whose ratio spans add
      up to `1 - gap_size/len`: the line loses exactly `gap_size` mm. */
  lemma SingleBridge(s: BridgeSettings, l: Line, len: real)
    requires Valid(s) && s.minLength <= len < s.singleBridgeMax
    requires s.gapSize / len <= 0.998
    ensures var a := 0.5 - (s.gapSize / len) / 2.0;
      var b := 0.5 + (s.gapSize / len) / 2.0;
      Bridged(s, l, len) == [Line(l.start, PointAtRatio(l, a), l.attrs), Line(PointAtRatio(l, b), l.end, l.attrs)] &&
      (a - 0.0) + (1.0 - b) == 1.0 - s.gapSize / len
  {
    assert len > 0.0;
    DivPositive(s.gapSize, len);
    SingleBridgeGap(s, len);
    CutAroundOneGap(l, 0.5 - (s.gapSize / len) / 2.0, 0.5 + (s.gapSize / len) / 2.0);
  }
}
