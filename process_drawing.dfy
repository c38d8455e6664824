/** `ProcessDrawingUseCase`: the automation pipeline that turns a drawing's
    entities into a die-cut plate layout. The stages run in a fixed order:
    connect, decompose, classify, bridges, mirror, frame, knives, text and
    removal, each switched by an option. */
module ProcessDrawing {
  import opened Wrappers
  import opened Types
  import opened RealMath
  import opened BoundingBoxes
  import opened Lines
  import opened BridgeSettingsVO
  import opened BridgeCalculator
  import opened PaperSizes
  import opened TextGenerator
  import opened Entities
  import opened GeometryService
  import opened EntityClassifier
  import opened ElementRemover
  import opened PlywoodGenerator
  import opened StraightKnifeGenerator
  import SC = SegmentConnector
  import PBP = PolylineBridgeProcessor

  datatype ProcessingOptions = ProcessingOptions(
    side: Side,
    plateType: PlateType,
    applyBridges: bool,
    generatePlywood: bool,
    generateText: bool,
    applyStraightKnife: bool,
    removeExternal: bool,
    connectSegments: bool,
    decomposePolylines: bool,
    jobInfo: Option<JobInfo>,
    paperSize: Option<PaperSize>,
    cutBridgeSettings: BridgeSettings,
    creaseBridgeSettings: BridgeSettings,
    connectionTolerance: real)

  /** What every constructed options value satisfies: its bridge settings,
      job date and paper size passed their own validation. */
  predicate ValidOptions(o: ProcessingOptions) {
    Valid(o.cutBridgeSettings) && Valid(o.creaseBridgeSettings) &&
    (o.jobInfo.Some? ==> ValidDate(o.jobInfo.value.date)) &&
    (o.paperSize.Some? ==> ValidDimensions(o.paperSize.value.width, o.paperSize.value.height))
  }

  /** `ProcessingOptions()`: back side, copper plate, everything on except
      connecting, no job and no paper size. */
  function DefaultOptions(): (o: ProcessingOptions)
    ensures ValidOptions(o)
    ensures o.side == Back && o.plateType == Copper && !o.connectSegments && o.decomposePolylines
    ensures o.applyBridges && o.generatePlywood && o.generateText && o.applyStraightKnife && o.removeExternal
    ensures o.jobInfo.None? && o.paperSize.None? && o.connectionTolerance == 0.1
  {
    ProcessingOptions(Back, Copper, true, true, true, true, true, false, true, None, None, ForCut(), ForCrease(), 0.1)
  }

  datatype Statistics = Statistics(total: nat, cut: nat, crease: nat, auxiliary: nat, plywood: nat, text: nat, unknown: nat)

  const EMPTY_STATISTICS: Statistics := Statistics(0, 0, 0, 0, 0, 0, 0)

  datatype ProcessingResult = ProcessingResult(
    entities: seq<Entity>,
    success: bool,
    message: string,
    statistics: Statistics,
    removedCount: nat,
    connectionCount: nat,
    polylineCount: nat)

  // ---------------------------------------------------------------- stages

  /** The use case's connector with the options' tolerance. */
  function ConnectorFor(o: ProcessingOptions): SC.Connector {
    SC.DEFAULT_CONNECTOR.(tolerance := o.connectionTolerance)
  }

  /** Step 1: connect segments when enabled. */
  function ConnectStage(m: MathLib, o: ProcessingOptions, es: seq<Entity>): (r: SC.ConnectionResult)
    requires AllGeometric(es)
    ensures AllGeometric(r.connected)
    ensures !o.connectSegments ==> r.connected == es && r.connectionCount == 0
  {
    if o.connectSegments then
      SC.ConnectGeometric(m, ConnectorFor(o), es);
      SC.ConnectSpec(m, ConnectorFor(o), es)
    else SC.ConnectionResult(es, 0, [])
  }

  /** The polyline count reported: zero when decomposition is off. */
  function PolylinesFound(o: ProcessingOptions, es: seq<Entity>): nat {
    if o.decomposePolylines then PBP.PolylineCount(es) else 0
  }

  /** Step 2: decompose polylines when enabled and there are any; after it
      no polyline is left. */
  function DecomposeStage(m: MathLib, o: ProcessingOptions, es: seq<Entity>): (r: seq<Entity>)
    requires AllGeometric(es)
    ensures AllGeometric(r)
    ensures o.decomposePolylines ==> forall k :: 0 <= k < |r| ==> !r[k].PolyE?
  {
    PBP.PolylineCountZero(es);
    if o.decomposePolylines && PBP.PolylineCount(es) > 0 then
      PBP.ProcessGeometric(m, PBP.DEFAULT_PROCESSOR, es, false);
      PBP.ProcessCounts(m, PBP.DEFAULT_PROCESSOR, es, false);
      PBP.ProcessSpec(m, PBP.DEFAULT_PROCESSOR, es, false).processed
    else es
  }

  /** The settings `_apply_bridges` uses for an entity: cut lines take the
      cut settings, crease lines the crease settings, anything else none. */
  function BridgeSettingsFor(o: ProcessingOptions, e: Entity): (r: Option<BridgeSettings>)
    ensures r.Some? <==> e.LineE? && e.line.attrs.category in {Cut, Crease}
    ensures r.Some? && e.line.attrs.category == Cut ==> r.value == o.cutBridgeSettings
    ensures r.Some? && e.line.attrs.category == Crease ==> r.value == o.creaseBridgeSettings
  {
    if e.LineE? && e.line.attrs.category == Cut then Some(o.cutBridgeSettings)
    else if e.LineE? && e.line.attrs.category == Crease then Some(o.creaseBridgeSettings)
    else None
  }

  /** What one entity becomes in `_apply_bridges`: a cut or crease line its
      bridged pieces, which keep its attributes; anything else itself. */
  function BridgedEntity(m: MathLib, o: ProcessingOptions, e: Entity): (r: seq<Entity>)
    requires ValidOptions(o)
    ensures |r| >= 1
    ensures IsGeometric(e) ==> AllGeometric(r)
    ensures BridgeSettingsFor(o, e).None? ==> r == [e]
    ensures BridgeSettingsFor(o, e).Some? ==>
      AllGeometric(r) && forall k :: 0 <= k < |r| ==> r[k].LineE? && r[k].line.attrs == e.line.attrs
  {
    match BridgeSettingsFor(o, e)
    case None => [e]
    case Some(s) =>
      var pieces := Bridged(s, e.line, Length(m, e.line));
      BridgedShape(s, e.line, Length(m, e.line));
      PBP.LineEntities(pieces)
  }

  /** Step 4: `_apply_bridges` over the list, in order. */
  function BridgedStage(m: MathLib, o: ProcessingOptions, es: seq<Entity>): (r: seq<Entity>)
    requires ValidOptions(o)
  {
    if |es| == 0 then []
    else BridgedStage(m, o, es[..|es| - 1]) + BridgedEntity(m, o, es[|es| - 1])
  }

  /** Step 5: `_mirror_entities`, about the centre x of the whole list. */
  function MirroredStage(m: MathLib, es: seq<Entity>): (r: seq<Entity>)
    requires AllGeometric(es)
    ensures AllGeometric(r) && |r| == |es|
    ensures |es| > 0 ==> r == MirrorEntities(es, Center(UnionOfBoxes(m, es)).x)
  {
    match BoundingBoxOf(m, es)
    case None => es
    case Some(b) => MirrorEntities(es, Center(b).x)
  }

  /** Steps 1 to 5: the classified list the frame is built around. */
  function ClassifiedStage(m: MathLib, o: ProcessingOptions, es: seq<Entity>): (r: seq<Entity>)
    requires AllGeometric(es) && ValidOptions(o)
    ensures AllGeometric(r)
  {
    var connected := ConnectStage(m, o, es).connected;
    var decomposed := DecomposeStage(m, o, connected);
    var classified := ApplyCategories(DEFAULT_CLASSIFIER, decomposed);
    BridgedStageShape(m, o, classified);
    var bridged := if o.applyBridges then BridgedStage(m, o, classified) else classified;
    if o.side == Front then MirroredStage(m, bridged) else bridged
  }

  /** The entities the frame is measured on: all but the plywood ones. */
  function DrawingEntities(es: seq<Entity>): (r: seq<Entity>)
    ensures |r| <= |es|
    ensures forall k :: 0 <= k < |r| ==> r[k] in es && CategoryOf(r[k]) != Some(Plywood)
    ensures AllGeometric(es) ==> AllGeometric(r)
  {
    if |es| == 0 then []
    else
      var init := DrawingEntities(es[..|es| - 1]);
      assert forall k :: 0 <= k < |es| - 1 ==> es[..|es| - 1][k] == es[k];
      if CategoryOf(es[|es| - 1]) != Some(Plywood) then init + [es[|es| - 1]] else init
  }

  /** The frame a paper size stands for: its sheet from the origin. */
  function PaperBox(p: PaperSize): BoundingBox {
    BoundingBox(0.0, 0.0, p.width, p.height)
  }

  /** What step 6 leaves behind: the frame lines and the two boxes that
      gate the later steps. */
  datatype Frame = Frame(lines: seq<Line>, drawingBox: Option<BoundingBox>, plywoodBox: Option<BoundingBox>)

  const NO_FRAME: Frame := Frame([], None, None)

  /** Step 6: with a paper size, the sheet's rectangle; otherwise the plate
      type's margins around the non-plywood entities. Nothing without
      plywood generation or without non-plywood entities. */
  function FrameStage(m: MathLib, o: ProcessingOptions, classified: seq<Entity>): Frame
    requires AllGeometric(classified)
  {
    var drawing := DrawingEntities(classified);
    if !o.generatePlywood || |drawing| == 0 then NO_FRAME
    else
      var db := UnionOfBoxes(m, drawing);
      match o.paperSize
      case Some(p) => Frame(GenerateRectangle(PaperBox(p)), Some(db), Some(PaperBox(p)))
      case None =>
        var lines := GenerateForEntities(m, drawing, ForPlateType(o.plateType));
        Frame(lines, Some(db), BoundingBoxOf(m, PBP.LineEntities(lines)))
  }

  /** The knife settings `execute` builds: bridges and cut settings from the
      options, the rest the defaults. */
  function KnifeSettingsFor(o: ProcessingOptions): (s: KnifeSettings)
    ensures s == DefaultKnifeSettings().(applyBridges := o.applyBridges, bridgeSettings := o.cutBridgeSettings)
  {
    KnifeSettings(o.applyBridges, o.cutBridgeSettings, RED, "CUT")
  }

  /** Step 7: knives through the drawing's centre, when enabled and both
      boxes exist. */
  function KnifeStage(m: MathLib, o: ProcessingOptions, f: Frame): seq<Line>
    requires ValidOptions(o)
  {
    if o.applyStraightKnife && f.plywoodBox.Some? && f.drawingBox.Some? then
      Knives(m, f.drawingBox.value, f.plywoodBox.value, [CentreY(f.drawingBox.value)], KnifeSettingsFor(o))
    else []
  }

  function TextEntities(ts: seq<TextEntity>): (r: seq<Entity>)
    ensures |r| == |ts|
    ensures forall i :: 0 <= i < |ts| ==> r[i] == TextE(ts[i])
  {
    seq(|ts|, i requires 0 <= i < |ts| => TextE(ts[i]))
  }

  /** Step 8: the job labels above the frame, when enabled, given a job and
      a frame. */
  function TextStage(o: ProcessingOptions, f: Frame): seq<Entity>
    requires ValidOptions(o)
  {
    if o.generateText && o.jobInfo.Some? && f.plywoodBox.Some? then
      TextEntities(PositionedTexts(DEFAULT_TEXT_GEN, o.jobInfo.value, f.plywoodBox.value))
    else []
  }

  /** The list before removal: classified entities, frame, knives, labels. */
  function Assembled(m: MathLib, o: ProcessingOptions, classified: seq<Entity>, f: Frame): seq<Entity>
    requires ValidOptions(o)
  {
    classified + PBP.LineEntities(f.lines) + PBP.LineEntities(KnifeStage(m, o, f)) + TextStage(o, f)
  }

  /** Step 9: remove everything outside the frame, when enabled and there
      is a frame. */
  function RemovalStage(o: ProcessingOptions, f: Frame, es: seq<Entity>): RemovalResult {
    if o.removeExternal && f.plywoodBox.Some? then
      var removed := RemovedOf(DEFAULT_REMOVER, es, f.plywoodBox.value, RemoveAll);
      RemovalResult(KeptOf(DEFAULT_REMOVER, es, f.plywoodBox.value, RemoveAll), removed, |removed|)
    else RemovalResult(es, [], 0)
  }

  /** The number of texts in a list. */
  function CountTexts(es: seq<Entity>): nat {
    if |es| == 0 then 0 else CountTexts(es[..|es| - 1]) + (if es[|es| - 1].TextE? then 1 else 0)
  }

  /** `_calculate_statistics`: the length, each category's count and the
      number of texts. */
  function StatsOf(es: seq<Entity>): Statistics {
    Statistics(|es|, CountCategory(es, Cut), CountCategory(es, Crease), CountCategory(es, Auxiliary),
      CountCategory(es, Plywood), CountTexts(es), CountCategory(es, Unknown))
  }

  /** The six buckets add up to the total. */
  predicate AddsUp(s: Statistics) {
    s.cut + s.crease + s.auxiliary + s.plywood + s.text + s.unknown == s.total
  }

  /** What `execute` returns. */
  function ExecuteSpec(m: MathLib, es: seq<Entity>, o: ProcessingOptions): ProcessingResult
    requires AllGeometric(es) && ValidOptions(o)
  {
    if |es| == 0 then ProcessingResult([], true, "No entities to process", EMPTY_STATISTICS, 0, 0, 0)
    else
      var connected := ConnectStage(m, o, es);
      var classified := ClassifiedStage(m, o, es);
      var f := FrameStage(m, o, classified);
      var removal := RemovalStage(o, f, Assembled(m, o, classified, f));
      ProcessingResult(removal.kept, true, "Processing completed successfully", StatsOf(removal.kept),
        removal.removalCount, connected.connectionCount, PolylinesFound(o, connected.connected))
  }

  // --------------------------------------------------------------- methods

  /** `_apply_bridges`. */
  method ApplyBridgesStage(m: MathLib, o: ProcessingOptions, es: seq<Entity>) returns (result: seq<Entity>)
    requires ValidOptions(o)
    ensures result == BridgedStage(m, o, es)
  {
    result := [];
    var i := 0;
    while i < |es|
      invariant 0 <= i <= |es|
      invariant result == BridgedStage(m, o, es[..i])
    {
      assert es[..i + 1][..i] == es[..i];
      var e := es[i];
      if !e.LineE? {
        result := result + [e];
      } else if e.line.attrs.category == Cut {
        var segments := ApplyBridges(m, o.cutBridgeSettings, e.line);
        result := result + PBP.LineEntities(segments);
      } else if e.line.attrs.category == Crease {
        var segments := ApplyBridges(m, o.creaseBridgeSettings, e.line);
        result := result + PBP.LineEntities(segments);
      } else {
        result := result + [e];
      }
      i := i + 1;
    }
    assert es[..|es|] == es;
  }

  /** `_mirror_entities`. */
  method MirrorStage(m: MathLib, es: seq<Entity>) returns (result: seq<Entity>)
    requires AllGeometric(es)
    ensures result == MirroredStage(m, es)
  {
    var bbox := CalculateBoundingBox(m, es);
    if bbox.None? {
      return es;
    }
    result := MirrorEntities(es, Center(bbox.value).x);
  }

  /** `_calculate_statistics`. */
  method CalculateStatistics(es: seq<Entity>) returns (stats: Statistics)
    ensures stats == StatsOf(es)
    ensures AddsUp(stats) && stats.total == |es|
  {
    stats := Statistics(|es|, 0, 0, 0, 0, 0, 0);
    var i := 0;
    while i < |es|
      invariant 0 <= i <= |es|
      invariant stats == StatsOf(es[..i]).(total := |es|)
    {
      assert es[..i + 1][..i] == es[..i];
      var e := es[i];
      if e.TextE? {
        stats := stats.(text := stats.text + 1);
      } else {
        var category := AttrsOf(e).category;
        match category {
          case Cut => stats := stats.(cut := stats.cut + 1);
          case Crease => stats := stats.(crease := stats.crease + 1);
          case Auxiliary => stats := stats.(auxiliary := stats.auxiliary + 1);
          case Plywood => stats := stats.(plywood := stats.plywood + 1);
          case Unknown => stats := stats.(unknown := stats.unknown + 1);
        }
      }
      i := i + 1;
    }
    assert es[..|es|] == es;
    StatisticsAddUp(es);
  }

  /** Steps 1 to 5 of `execute` on a non-empty input. */
  method PrepareEntities(m: MathLib, o: ProcessingOptions, es: seq<Entity>)
    returns (classified: seq<Entity>, connectionCount: nat, polylineCount: nat)
    requires AllGeometric(es) && ValidOptions(o)
    ensures classified == ClassifiedStage(m, o, es)
    ensures connectionCount == ConnectStage(m, o, es).connectionCount
    ensures polylineCount == PolylinesFound(o, ConnectStage(m, o, es).connected)
  {
    var entities := es;
    connectionCount := 0;
    polylineCount := 0;

    if o.connectSegments {
      var connection := SC.ConnectSegments(m, ConnectorFor(o), entities);
      SC.ConnectGeometric(m, ConnectorFor(o), entities);
      entities := connection.connected;
      connectionCount := connection.connectionCount;
    }
    assert entities == ConnectStage(m, o, es).connected;

    if o.decomposePolylines {
      polylineCount := PBP.PolylineCount(entities);
      if polylineCount > 0 {
        PBP.ProcessGeometric(m, PBP.DEFAULT_PROCESSOR, entities, false);
        entities := PBP.DecomposeOnly(m, PBP.DEFAULT_PROCESSOR, entities);
      }
    }
    assert entities == DecomposeStage(m, o, ConnectStage(m, o, es).connected);

    classified := ApplyCategories(DEFAULT_CLASSIFIER, entities);
    BridgedStageShape(m, o, classified);
    if o.applyBridges {
      classified := ApplyBridgesStage(m, o, classified);
    }
    if o.side == Front {
      classified := MirrorStage(m, classified);
    }
  }

  /** Step 6 of `execute`: the frame lines and the two boxes. */
  method GenerateFrame(m: MathLib, o: ProcessingOptions, classified: seq<Entity>)
    returns (lines: seq<Line>, drawingBox: Option<BoundingBox>, plywoodBox: Option<BoundingBox>)
    requires AllGeometric(classified)
    ensures Frame(lines, drawingBox, plywoodBox) == FrameStage(m, o, classified)
  {
    lines := [];
    plywoodBox := None;
    drawingBox := None;
    if o.generatePlywood {
      var drawing := DrawingEntities(classified);
      if |drawing| > 0 {
        drawingBox := CalculateBoundingBox(m, drawing);
        if o.paperSize.Some? {
          var pb := BoundingBox(0.0, 0.0, o.paperSize.value.width, o.paperSize.value.height);
          plywoodBox := Some(pb);
          lines := GenerateRectangle(pb);
        } else {
          lines := GenerateForEntities(m, drawing, ForPlateType(o.plateType));
          plywoodBox := CalculateBoundingBox(m, PBP.LineEntities(lines));
        }
      }
    }
  }

  /** Steps 7 and 8 of `execute`: the classified entities, the frame lines,
      then the knives and the labels when they are enabled. */
  method AssembleEntities(m: MathLib, o: ProcessingOptions, classified: seq<Entity>, plywoodLines: seq<Line>,
                          drawingBox: Option<BoundingBox>, plywoodBox: Option<BoundingBox>)
    returns (resultEntities: seq<Entity>)
    requires ValidOptions(o)
    ensures resultEntities == Assembled(m, o, classified, Frame(plywoodLines, drawingBox, plywoodBox))
  {
    ghost var f := Frame(plywoodLines, drawingBox, plywoodBox);
    resultEntities := classified + PBP.LineEntities(plywoodLines);
    if o.applyStraightKnife && plywoodBox.Some? && drawingBox.Some? {
      var knifeLines := GenerateAtCenter(m, drawingBox.value, plywoodBox.value, KnifeSettingsFor(o));
      resultEntities := resultEntities + PBP.LineEntities(knifeLines);
    }
    assert resultEntities == classified + PBP.LineEntities(f.lines) + PBP.LineEntities(KnifeStage(m, o, f));
    if o.generateText && o.jobInfo.Some? && plywoodBox.Some? {
      var texts := GeneratePositionedTexts(DEFAULT_TEXT_GEN, o.jobInfo.value, plywoodBox.value);
      resultEntities := resultEntities + TextEntities(texts);
    }
  }

  /** `execute`. An empty input gives an empty, successful result with zero
      statistics; otherwise the statistics describe the returned list. */
  method Execute(m: MathLib, es: seq<Entity>, o: ProcessingOptions) returns (result: ProcessingResult)
    requires AllGeometric(es) && ValidOptions(o)
    ensures result == ExecuteSpec(m, es, o)
    ensures result.success
    ensures |es| == 0 ==> result.entities == [] && result.statistics == EMPTY_STATISTICS
    ensures AddsUp(result.statistics) && result.statistics.total == |result.entities|
  {
    if |es| == 0 {
      return ProcessingResult([], true, "No entities to process", EMPTY_STATISTICS, 0, 0, 0);
    }
    var classified, connectionCount, polylineCount := PrepareEntities(m, o, es);
    var plywoodLines, drawingBox, plywoodBox := GenerateFrame(m, o, classified);
    ghost var f := Frame(plywoodLines, drawingBox, plywoodBox);
    var resultEntities := AssembleEntities(m, o, classified, plywoodLines, drawingBox, plywoodBox);
    var removedCount := 0;
    if o.removeExternal && plywoodBox.Some? {
      var removal := RemoveExternalElements(DEFAULT_REMOVER, resultEntities, plywoodBox.value, RemoveAll);
      resultEntities := removal.kept;
      removedCount := removal.removalCount;
    }
    assert resultEntities == RemovalStage(o, f, Assembled(m, o, classified, f)).kept;

    var statistics := CalculateStatistics(resultEntities);
    result := ProcessingResult(resultEntities, true, "Processing completed successfully", statistics,
      removedCount, connectionCount, polylineCount);
  }

  // ---------------------------------------------------------------- lemmas

  /** Every entity is counted exactly once, as a text or in the bucket of
      its category. */
  lemma {:induction false} StatisticsAddUp(es: seq<Entity>)
    ensures AddsUp(StatsOf(es)) && StatsOf(es).total == |es|
  {
    if |es| > 0 {
      var init := es[..|es| - 1];
      StatisticsAddUp(init);
      var last := es[|es| - 1];
      assert CountTexts(es) == CountTexts(init) + (if last.TextE? then 1 else 0);
      if !last.TextE? {
        assert CategoryOf(last) == Some(AttrsOf(last).category);
        match AttrsOf(last).category
        case Cut => assert CountCategory(es, Cut) == CountCategory(init, Cut) + 1;
        case Crease => assert CountCategory(es, Crease) == CountCategory(init, Crease) + 1;
        case Auxiliary => assert CountCategory(es, Auxiliary) == CountCategory(init, Auxiliary) + 1;
        case Plywood => assert CountCategory(es, Plywood) == CountCategory(init, Plywood) + 1;
        case Unknown => assert CountCategory(es, Unknown) == CountCategory(init, Unknown) + 1;
      }
    }
  }

  /** The bridge stage keeps every entity that is not a cut or crease line
      where it is, replaces each such line by at least one piece with the
      line's attributes, and creates no text. */
  lemma {:induction false} BridgedStageShape(m: MathLib, o: ProcessingOptions, es: seq<Entity>)
    requires ValidOptions(o)
    ensures |BridgedStage(m, o, es)| >= |es|
    ensures AllGeometric(es) ==> AllGeometric(BridgedStage(m, o, es))
    ensures (forall k :: 0 <= k < |es| ==> BridgeSettingsFor(o, es[k]).None?) ==> BridgedStage(m, o, es) == es
  {
    if |es| > 0 {
      var init := es[..|es| - 1];
      InitFacts(o, es);
      BridgedStageShape(m, o, init);
      var prev := BridgedStage(m, o, init);
      var add := BridgedEntity(m, o, es[|es| - 1]);
      assert BridgedStage(m, o, es) == prev + add;
      if AllGeometric(es) {
        PBP.AppendGeometric(prev, add);
      }
    }
  }

  /** What the list without its last entity inherits from the list. */
  lemma InitFacts(o: ProcessingOptions, es: seq<Entity>)
    requires |es| > 0
    ensures es[..|es| - 1] + [es[|es| - 1]] == es
    ensures AllGeometric(es) ==> AllGeometric(es[..|es| - 1])
    ensures var init := es[..|es| - 1];
      (forall k :: 0 <= k < |es| ==> BridgeSettingsFor(o, es[k]).None?) ==>
        (forall k :: 0 <= k < |init| ==> BridgeSettingsFor(o, init[k]).None?)
  {
    var init := es[..|es| - 1];
    assert forall k :: 0 <= k < |init| ==> init[k] == es[k];
  }

  /** The boxes of the frame lines are exactly the rectangle's box. */
  lemma FrameLinesBox(m: MathLib, b: BoundingBox)
    requires WellFormed(b)
    ensures var es := PBP.LineEntities(GenerateRectangle(b));
      |es| == 4 && AllGeometric(es) && UnionOfBoxes(m, es) == b
  {
    RectangleBox(m, b);
    assert PBP.LineEntities(GenerateRectangle(b)) == seq(4, i requires 0 <= i < 4 => LineE(GenerateRectangle(b)[i]));
  }

  /** Step 6: a frame exists exactly when plywood generation is on and some
      entity is not plywood. It is then four plywood lines whose combined box
      is the frame's box: the paper sheet when a paper size is given,
      otherwise the plate type's margins around the drawing's box, which
      encloses every non-plywood entity. */
  lemma FrameShape(m: MathLib, o: ProcessingOptions, classified: seq<Entity>)
    requires AllGeometric(classified) && ValidOptions(o)
    ensures var f := FrameStage(m, o, classified);
      var drawing := DrawingEntities(classified);
      (f.plywoodBox.Some? <==> o.generatePlywood && |drawing| > 0) &&
      (f.plywoodBox.None? ==> f == NO_FRAME) &&
      (f.plywoodBox.Some? ==>
        f.drawingBox == Some(UnionOfBoxes(m, drawing)) && |f.lines| == 4 &&
        (forall k :: 0 <= k < 4 ==> f.lines[k].attrs == PLYWOOD_ATTRS) &&
        UnionOfBoxes(m, PBP.LineEntities(f.lines)) == f.plywoodBox.value &&
        (o.paperSize.Some? ==> f.plywoodBox.value == PaperBox(o.paperSize.value)) &&
        (o.paperSize.None? ==>
          f.plywoodBox.value == ApplyMargins(UnionOfBoxes(m, drawing), ForPlateType(o.plateType)) &&
          forall k :: 0 <= k < |drawing| ==> Encloses(f.plywoodBox.value, Box(m, drawing[k]))))
  {
    var drawing := DrawingEntities(classified);
    if o.generatePlywood && |drawing| > 0 {
      var db := UnionOfBoxes(m, drawing);
      if o.paperSize.Some? {
        FrameLinesBox(m, PaperBox(o.paperSize.value));
      } else {
        UnionOfBoxesEncloses(m, drawing);
        var pb := ApplyMargins(db, ForPlateType(o.plateType));
        MarginsEnclose(db, ForPlateType(o.plateType));
        FrameLinesBox(m, pb);
      }
    }
  }

  /** Steps 7 to 9 are gated: knives need the option and both boxes, labels
      need the option, a job and a frame, removal needs the option and a
      frame. Without a frame the result is the classified list itself; with
      removal, kept and removed entities together are the assembled list. */
  lemma ExecuteGating(m: MathLib, es: seq<Entity>, o: ProcessingOptions)
    requires AllGeometric(es) && ValidOptions(o) && |es| > 0
    ensures var classified := ClassifiedStage(m, o, es);
      var f := FrameStage(m, o, classified);
      var r := ExecuteSpec(m, es, o);
      (|KnifeStage(m, o, f)| > 0 ==> o.applyStraightKnife && f.drawingBox.Some? && f.plywoodBox.Some?) &&
      (|TextStage(o, f)| > 0 <==> o.generateText && o.jobInfo.Some? && f.plywoodBox.Some?) &&
      (|TextStage(o, f)| > 0 ==> |TextStage(o, f)| == 3) &&
      (f.plywoodBox.None? ==> r.entities == classified && r.removedCount == 0) &&
      (!o.removeExternal ==> r.entities == Assembled(m, o, classified, f) && r.removedCount == 0) &&
      (r.removedCount + |r.entities| == |Assembled(m, o, classified, f)|)
  {
    var classified := ClassifiedStage(m, o, es);
    var f := FrameStage(m, o, classified);
    FrameShape(m, o, classified);
    StageGating(m, o, f);
    RemovalGating(o, f, Assembled(m, o, classified, f));
    if f.plywoodBox.None? {
      assert Assembled(m, o, classified, f) == classified;
    }
  }

  /** Knives need the option and both boxes; labels need the option, a job
      and a frame, and are then three. */
  lemma StageGating(m: MathLib, o: ProcessingOptions, f: Frame)
    requires ValidOptions(o)
    ensures |KnifeStage(m, o, f)| > 0 ==> o.applyStraightKnife && f.drawingBox.Some? && f.plywoodBox.Some?
    ensures |TextStage(o, f)| > 0 <==> o.generateText && o.jobInfo.Some? && f.plywoodBox.Some?
    ensures |TextStage(o, f)| > 0 ==> |TextStage(o, f)| == 3
  {
  }

  /** Removal needs the option and a frame; kept and removed entities
      together are the input. */
  lemma RemovalGating(o: ProcessingOptions, f: Frame, es: seq<Entity>)
    ensures var rs := RemovalStage(o, f, es);
      ((f.plywoodBox.None? || !o.removeExternal) ==> rs.kept == es && rs.removalCount == 0) &&
      rs.removalCount + |rs.kept| == |es|
  {
    if o.removeExternal && f.plywoodBox.Some? {
      KeptRemovedPartition(DEFAULT_REMOVER, es, f.plywoodBox.value, RemoveAll);
    }
  }

  /** With bridges, plywood and connection off, on the back side and with
      no polylines, `execute` returns the classified input: every entity in
      its place with its geometry, layer, colour and linetype, only its
      category set. */
  lemma Passthrough(m: MathLib, es: seq<Entity>, o: ProcessingOptions)
    requires AllGeometric(es) && ValidOptions(o) && |es| > 0
    requires !o.applyBridges && !o.generatePlywood && o.side == Back && !o.connectSegments
    requires forall k :: 0 <= k < |es| ==> !es[k].PolyE?
    ensures ExecuteSpec(m, es, o).entities == ApplyCategories(DEFAULT_CLASSIFIER, es)
    ensures forall k :: 0 <= k < |es| ==>
      var r := ExecuteSpec(m, es, o).entities[k];
      Layer(r) == Layer(es[k]) && Color(r) == Color(es[k]) && AttrsOf(r).linetype == AttrsOf(es[k]).linetype &&
      (es[k].LineE? ==> r.LineE? && r.line.start == es[k].line.start && r.line.end == es[k].line.end)
  {
    PBP.PolylineCountZero(es);
    assert DecomposeStage(m, o, es) == es;
    FrameShape(m, o, ApplyCategories(DEFAULT_CLASSIFIER, es));
    CategoriesKeep(es);
  }

  lemma CategoriesKeep(es: seq<Entity>)
    requires AllGeometric(es)
    ensures forall k :: 0 <= k < |es| ==>
      var r := ApplyCategories(DEFAULT_CLASSIFIER, es)[k];
      Layer(r) == Layer(es[k]) && Color(r) == Color(es[k]) && AttrsOf(r).linetype == AttrsOf(es[k]).linetype &&
      (es[k].LineE? ==> r.LineE? && r.line.start == es[k].line.start && r.line.end == es[k].line.end)
  {
    forall k | 0 <= k < |es|
      ensures var r := ApplyCategories(DEFAULT_CLASSIFIER, es)[k];
        Layer(r) == Layer(es[k]) && Color(r) == Color(es[k]) && AttrsOf(r).linetype == AttrsOf(es[k]).linetype &&
        (es[k].LineE? ==> r.LineE? && r.line.start == es[k].line.start && r.line.end == es[k].line.end)
    {
      ApplyCategoriesKeeps(DEFAULT_CLASSIFIER, es, k);
    }
  }

  /** A non-empty run succeeds, its statistics describe the returned list
      and add up, no polyline is reported without decomposition and no
      connection without connecting. */
  lemma ExecuteCounts(m: MathLib, es: seq<Entity>, o: ProcessingOptions)
    requires AllGeometric(es) && ValidOptions(o) && |es| > 0
    ensures var r := ExecuteSpec(m, es, o);
      r.success && r.message == "Processing completed successfully" &&
      r.statistics == StatsOf(r.entities) && AddsUp(r.statistics) &&
      (!o.decomposePolylines ==> r.polylineCount == 0) &&
      (!o.connectSegments ==> r.connectionCount == 0 && r.polylineCount == PolylinesFound(o, es))
  {
    StatisticsAddUp(ExecuteSpec(m, es, o).entities);
  }
}
