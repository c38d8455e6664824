/** `PolylineBridgeProcessor`: decomposes polylines into line and arc
    entities and applies the bridges of each segment's category. */
module PolylineBridgeProcessor {
  import opened RealMath
  import opened Types
  import opened Lines
  import opened Polylines
  import opened BridgeSettingsVO
  import opened BridgeCalculator
  import opened Entities
  import opened Wrappers

  datatype Processor = Processor(cutSettings: BridgeSettings, creaseSettings: BridgeSettings, processUnknownAsCut: bool)

  /** Cut and crease settings and unknown segments bridged like cuts. */
  const DEFAULT_PROCESSOR: Processor := Processor(ForCut(), ForCrease(), true)

  predicate ValidProcessor(p: Processor) {
    Valid(p.cutSettings) && Valid(p.creaseSettings)
  }

  datatype ProcessingResult = ProcessingResult(
    processed: seq<Entity>, polylineCount: nat, segmentCount: nat, bridgedCount: nat)

  /** `total_output_count`. */
  function TotalOutputCount(r: ProcessingResult): nat {
    |r.processed|
  }

  function SegmentEntity(s: Segment): (e: Entity)
    ensures !e.PolyE? && !e.TextE?
  {
    match s
    case SegLine(l) => LineE(l)
    case SegArc(a) => ArcE(a)
  }

  function SegmentEntities(segs: seq<Segment>): (r: seq<Entity>)
    ensures |r| == |segs|
    ensures forall i :: 0 <= i < |segs| ==> r[i] == SegmentEntity(segs[i])
  {
    seq(|segs|, i requires 0 <= i < |segs| => SegmentEntity(segs[i]))
  }

  function LineEntities(ls: seq<Line>): (r: seq<Entity>)
    ensures |r| == |ls|
    ensures forall i :: 0 <= i < |ls| ==> r[i] == LineE(ls[i])
  {
    seq(|ls|, i requires 0 <= i < |ls| => LineE(ls[i]))
  }

  /** The settings a line segment of the given category is bridged with:
      cut and crease have their own, unknown takes the cut settings when the
      processor says so, everything else is not bridged. */
  function SettingsFor(p: Processor, c: LineCategory): (r: Option<BridgeSettings>)
    ensures c == Cut ==> r == Some(p.cutSettings)
    ensures c == Crease ==> r == Some(p.creaseSettings)
    ensures c == Unknown ==> r == (if p.processUnknownAsCut then Some(p.cutSettings) else None)
    ensures c == Auxiliary || c == Plywood ==> r.None?
  {
    if c == Cut then Some(p.cutSettings)
    else if c == Crease then Some(p.creaseSettings)
    else if c == Unknown && p.processUnknownAsCut then Some(p.cutSettings)
    else None
  }

  /** What `_apply_bridges_to_segment` returns. */
  function SegmentBridged(m: MathLib, p: Processor, s: Segment): seq<Entity>
    requires ValidProcessor(p)
  {
    match s
    case SegArc(a) => [ArcE(a)]
    case SegLine(l) =>
      match SettingsFor(p, l.attrs.category)
      case None => [LineE(l)]
      case Some(bs) => LineEntities(Bridged(bs, l, Length(m, l)))
  }

  method ApplyBridgesToSegment(m: MathLib, p: Processor, s: Segment) returns (r: seq<Entity>)
    requires ValidProcessor(p)
    ensures r == SegmentBridged(m, p, s)
  {
    if s.SegArc? {
      return [ArcE(s.arc)];
    }
    var l := s.line;
    var settings := SettingsFor(p, l.attrs.category);
    if settings.None? {
      return [LineE(l)];
    }
    var pieces := ApplyBridges(m, settings.value, l);
    r := LineEntities(pieces);
  }

  /** Arcs come back alone and unchanged, and so do lines of a category that
      is not bridged; a bridged line becomes at least one line, each with the
      segment's attributes. */
  lemma SegmentBridgedShape(m: MathLib, p: Processor, s: Segment)
    requires ValidProcessor(p)
    ensures |SegmentBridged(m, p, s)| >= 1
    ensures s.SegArc? ==> SegmentBridged(m, p, s) == [ArcE(s.arc)]
    ensures s.SegLine? && SettingsFor(p, s.line.attrs.category).None? ==> SegmentBridged(m, p, s) == [LineE(s.line)]
    ensures s.SegLine? ==> forall k :: 0 <= k < |SegmentBridged(m, p, s)| ==>
      SegmentBridged(m, p, s)[k].LineE? && SegmentBridged(m, p, s)[k].line.attrs == s.line.attrs
  {
    if s.SegLine? && SettingsFor(p, s.line.attrs.category).Some? {
      var bs := SettingsFor(p, s.line.attrs.category).value;
      BridgedShape(bs, s.line, Length(m, s.line));
    }
  }

  /** The bridged segments in order. */
  function BridgedEntities(m: MathLib, p: Processor, segs: seq<Segment>): seq<Entity>
    requires ValidProcessor(p)
  {
    if |segs| == 0 then []
    else BridgedEntities(m, p, segs[..|segs| - 1]) + SegmentBridged(m, p, segs[|segs| - 1])
  }

  /** How many segments bridging split into more than one piece. */
  function SplitSegments(m: MathLib, p: Processor, segs: seq<Segment>): nat
    requires ValidProcessor(p)
  {
    if |segs| == 0 then 0
    else SplitSegments(m, p, segs[..|segs| - 1]) + (if |SegmentBridged(m, p, segs[|segs| - 1])| > 1 then 1 else 0)
  }

  /** What `process` returns for the entities so far. */
  function ProcessSpec(m: MathLib, p: Processor, es: seq<Entity>, applyBridges: bool): ProcessingResult
    requires ValidProcessor(p)
  {
    if |es| == 0 then ProcessingResult([], 0, 0, 0)
    else ProcessNext(m, p, es[|es| - 1], applyBridges, ProcessSpec(m, p, es[..|es| - 1], applyBridges))
  }

  /** `get_polyline_count`. */
  function PolylineCount(es: seq<Entity>): (n: nat)
    ensures n <= |es|
  {
    if |es| == 0 then 0 else PolylineCount(es[..|es| - 1]) + (if es[|es| - 1].PolyE? then 1 else 0)
  }

  /** The total `get_segment_count` accumulates. */
  function SegmentTotal(es: seq<Entity>): nat {
    if |es| == 0 then 0
    else
      var e := es[|es| - 1];
      SegmentTotal(es[..|es| - 1]) + (if e.PolyE? then SegmentCount(e.poly) else 1)
  }

  method GetSegmentCount(es: seq<Entity>) returns (count: nat)
    ensures count == SegmentTotal(es)
  {
    count := 0;
    var i := 0;
    while i < |es|
      invariant 0 <= i <= |es|
      invariant count == SegmentTotal(es[..i])
    {
      assert es[..i + 1][..i] == es[..i];
      if es[i].PolyE? {
        count := count + SegmentCount(es[i].poly);
      } else {
        count := count + 1;
      }
      i := i + 1;
    }
    assert es[..|es|] == es;
  }

  /** `process`. */
  method Process(m: MathLib, p: Processor, es: seq<Entity>, applyBridges: bool) returns (result: ProcessingResult)
    requires ValidProcessor(p)
    ensures result == ProcessSpec(m, p, es, applyBridges)
  {
    var processed: seq<Entity> := [];
    var polylineCount: nat := 0;
    var segmentCount: nat := 0;
    var bridgedCount: nat := 0;
    var i := 0;
    while i < |es|
      invariant 0 <= i <= |es|
      invariant ProcessingResult(processed, polylineCount, segmentCount, bridgedCount) == ProcessSpec(m, p, es[..i], applyBridges)
    {
      ProcessSpecStep(m, p, es, i, applyBridges);
      processed, polylineCount, segmentCount, bridgedCount :=
        ProcessOne(m, p, es[i], applyBridges, processed, polylineCount, segmentCount, bridgedCount);
      i := i + 1;
    }
    assert es[..|es|] == es;
    result := ProcessingResult(processed, polylineCount, segmentCount, bridgedCount);
  }

  /** What one more entity adds to the result of `process`. */
  function ProcessNext(m: MathLib, p: Processor, e: Entity, applyBridges: bool, prev: ProcessingResult): ProcessingResult
    requires ValidProcessor(p)
  {
    if e.PolyE? then
      var segs := DecomposeSpec(m, e.poly);
      if applyBridges then
        ProcessingResult(prev.processed + BridgedEntities(m, p, segs), prev.polylineCount + 1,
          prev.segmentCount + |segs|, prev.bridgedCount + SplitSegments(m, p, segs))
      else
        ProcessingResult(prev.processed + SegmentEntities(segs), prev.polylineCount + 1, prev.segmentCount + |segs|, prev.bridgedCount)
    else prev.(processed := prev.processed + [e])
  }

  lemma ProcessSpecStep(m: MathLib, p: Processor, es: seq<Entity>, i: nat, applyBridges: bool)
    requires ValidProcessor(p) && i < |es|
    ensures ProcessSpec(m, p, es[..i + 1], applyBridges) == ProcessNext(m, p, es[i], applyBridges, ProcessSpec(m, p, es[..i], applyBridges))
  {
    var q := es[..i + 1];
    assert q[..i] == es[..i];
    assert q[i] == es[i];
  }

  /** One pass of the loop of `process`: the counters and the output after entity `e`. */
  method ProcessOne(m: MathLib, p: Processor, e: Entity, applyBridges: bool,
                    processed: seq<Entity>, polylineCount: nat, segmentCount: nat, bridgedCount: nat)
    returns (processed': seq<Entity>, polylineCount': nat, segmentCount': nat, bridgedCount': nat)
    requires ValidProcessor(p)
    ensures ProcessingResult(processed', polylineCount', segmentCount', bridgedCount') ==
      ProcessNext(m, p, e, applyBridges, ProcessingResult(processed, polylineCount, segmentCount, bridgedCount))
  {
    processed', polylineCount', segmentCount', bridgedCount' := processed, polylineCount, segmentCount, bridgedCount;
    if e.PolyE? {
      polylineCount' := polylineCount + 1;
      var segs := Decompose(m, e.poly);
      segmentCount' := segmentCount + |segs|;
      if applyBridges {
        var b, n := BridgeAll(m, p, segs);
        processed' := processed + b;
        bridgedCount' := bridgedCount + n;
      } else {
        processed' := processed + SegmentEntities(segs);
      }
    } else {
      processed' := processed + [e];
    }
  }

  /** The inner loop of `process` over one polyline's segments. */
  method BridgeAll(m: MathLib, p: Processor, segs: seq<Segment>) returns (out: seq<Entity>, bridged: nat)
    requires ValidProcessor(p)
    ensures out == BridgedEntities(m, p, segs) && bridged == SplitSegments(m, p, segs)
  {
    out := [];
    bridged := 0;
    var j := 0;
    while j < |segs|
      invariant 0 <= j <= |segs|
      invariant out == BridgedEntities(m, p, segs[..j]) && bridged == SplitSegments(m, p, segs[..j])
    {
      var b := ApplyBridgesToSegment(m, p, segs[j]);
      assert segs[..j + 1][..j] == segs[..j];
      out := out + b;
      if |b| > 1 {
        bridged := bridged + 1;
      }
      j := j + 1;
    }
    assert segs[..|segs|] == segs;
  }

  /** `decompose_only`. */
  method DecomposeOnly(m: MathLib, p: Processor, es: seq<Entity>) returns (out: seq<Entity>)
    requires ValidProcessor(p)
    ensures out == ProcessSpec(m, p, es, false).processed
  {
    var r := Process(m, p, es, false);
    out := r.processed;
  }

  /** Only lines and arcs: no polyline and no text. */
  predicate Primitive(es: seq<Entity>) {
    forall k :: 0 <= k < |es| ==> !es[k].PolyE? && !es[k].TextE?
  }

  lemma PrimitiveConcat(a: seq<Entity>, b: seq<Entity>)
    requires Primitive(a) && Primitive(b)
    ensures Primitive(a + b)
  {
    forall k | 0 <= k < |a + b|
      ensures !(a + b)[k].PolyE? && !(a + b)[k].TextE?
    {
      if k < |a| {
        assert (a + b)[k] == a[k];
      } else {
        assert (a + b)[k] == b[k - |a|];
      }
    }
  }

  /** Bridging makes at least one entity per segment, none of them a
      polyline or a text. */
  lemma {:induction false} BridgeSegmentsShape(m: MathLib, p: Processor, segs: seq<Segment>)
    requires ValidProcessor(p)
    ensures |segs| <= |BridgedEntities(m, p, segs)|
    ensures Primitive(BridgedEntities(m, p, segs))
  {
    if |segs| > 0 {
      var prev: seq<Entity> := BridgedEntities(m, p, segs[..|segs| - 1]);
      BridgeSegmentsShape(m, p, segs[..|segs| - 1]);
      var b: seq<Entity> := SegmentBridged(m, p, segs[|segs| - 1]);
      SegmentBridgedKinds(m, p, segs[|segs| - 1]);
      assert BridgedEntities(m, p, segs) == prev + b;
      PrimitiveConcat(prev, b);
    }
  }

  lemma SegmentBridgedKinds(m: MathLib, p: Processor, s: Segment)
    requires ValidProcessor(p)
    ensures |SegmentBridged(m, p, s)| >= 1
    ensures Primitive(SegmentBridged(m, p, s))
  {
    SegmentBridgedShape(m, p, s);
  }

  /** Bridging splits at most every segment. */
  lemma {:induction false} SplitSegmentsBound(m: MathLib, p: Processor, segs: seq<Segment>)
    requires ValidProcessor(p)
    ensures SplitSegments(m, p, segs) <= |segs|
  {
    if |segs| > 0 {
      SplitSegmentsBound(m, p, segs[..|segs| - 1]);
    }
  }

  /** The counters of `process`: one per polyline, split segments never
      outnumber decomposed ones, decomposition never exceeds
      `get_segment_count`, no polyline survives and texts stay where they
      are in number; without bridges the output has one entity per
      decomposed segment and per other entity. */
  lemma {:induction false} ProcessCounts(m: MathLib, p: Processor, es: seq<Entity>, applyBridges: bool)
    requires ValidProcessor(p)
    ensures var r := ProcessSpec(m, p, es, applyBridges);
      r.polylineCount == PolylineCount(es) &&
      r.bridgedCount <= r.segmentCount &&
      r.segmentCount + (|es| - r.polylineCount) <= SegmentTotal(es) &&
      (forall k :: 0 <= k < |r.processed| ==> !r.processed[k].PolyE?) &&
      (!applyBridges ==> r.bridgedCount == 0 && |r.processed| == |es| - r.polylineCount + r.segmentCount)
  {
    if |es| > 0 {
      var init := es[..|es| - 1];
      ProcessCounts(m, p, init, applyBridges);
      var prev := ProcessSpec(m, p, init, applyBridges);
      var e := es[|es| - 1];
      if e.PolyE? {
        var segs := DecomposeSpec(m, e.poly);
        DecomposeBound(m, e.poly);
        var add := if applyBridges then BridgedEntities(m, p, segs) else SegmentEntities(segs);
        if applyBridges {
          BridgeSegmentsShape(m, p, segs);
          SplitSegmentsBound(m, p, segs);
        }
        assert forall k :: 0 <= k < |add| ==> !add[k].PolyE?;
        NoPolylineConcat(prev.processed, add);
      } else {
        NoPolylineConcat(prev.processed, [e]);
      }
    }
  }

  lemma NoPolylineConcat(a: seq<Entity>, b: seq<Entity>)
    requires forall k :: 0 <= k < |a| ==> !a[k].PolyE?
    requires forall k :: 0 <= k < |b| ==> !b[k].PolyE?
    ensures forall k :: 0 <= k < |a + b| ==> !(a + b)[k].PolyE?
  {
    forall k | 0 <= k < |a + b|
      ensures !(a + b)[k].PolyE?
    {
      if k < |a| {
        assert (a + b)[k] == a[k];
      } else {
        assert (a + b)[k] == b[k - |a|];
      }
    }
  }

  /** Without polylines `process` returns its input unchanged, in either mode. */
  lemma {:induction false} NoPolylinesUnchanged(m: MathLib, p: Processor, es: seq<Entity>, applyBridges: bool)
    requires ValidProcessor(p)
    requires forall k :: 0 <= k < |es| ==> !es[k].PolyE?
    ensures ProcessSpec(m, p, es, applyBridges) == ProcessingResult(es, 0, 0, 0)
  {
    if |es| > 0 {
      NoPolylinesUnchanged(m, p, es[..|es| - 1], applyBridges);
      assert es[..|es| - 1] + [es[|es| - 1]] == es;
    }
  }

  /** Processing creates no text: segments become lines and arcs and the
      other entities are the input's. */
  lemma {:induction false} ProcessGeometric(m: MathLib, p: Processor, es: seq<Entity>, applyBridges: bool)
    requires ValidProcessor(p) && AllGeometric(es)
    ensures AllGeometric(ProcessSpec(m, p, es, applyBridges).processed)
  {
    if |es| > 0 {
      var init := es[..|es| - 1];
      assert AllGeometric(init) by {
        forall k | 0 <= k < |init| ensures IsGeometric(init[k]) {
          assert init[k] == es[k];
        }
      }
      ProcessGeometric(m, p, init, applyBridges);
      var prev := ProcessSpec(m, p, init, applyBridges).processed;
      var e := es[|es| - 1];
      if e.PolyE? {
        var segs := DecomposeSpec(m, e.poly);
        if applyBridges {
          BridgeSegmentsShape(m, p, segs);
          AppendGeometric(prev, BridgedEntities(m, p, segs));
        } else {
          AppendGeometric(prev, SegmentEntities(segs));
        }
      } else {
        AppendGeometric(prev, [e]);
      }
    }
  }

  lemma AppendGeometric(a: seq<Entity>, b: seq<Entity>)
    requires AllGeometric(a) && AllGeometric(b)
    ensures AllGeometric(a + b)
  {
    forall k | 0 <= k < |a + b| ensures IsGeometric((a + b)[k]) {
      if k < |a| {
        assert (a + b)[k] == a[k];
      } else {
        assert (a + b)[k] == b[k - |a|];
      }
    }
  }

  /** `get_polyline_count` is zero exactly when no entity is a polyline. */
  lemma {:induction false} PolylineCountZero(es: seq<Entity>)
    ensures PolylineCount(es) == 0 <==> forall k :: 0 <= k < |es| ==> !es[k].PolyE?
  {
    if |es| > 0 {
      var init := es[..|es| - 1];
      PolylineCountZero(init);
      assert forall k :: 0 <= k < |init| ==> init[k] == es[k];
    }
  }
}
