# Drawing-Automation die-cut pipeline, in Dafny

Drawing-Automation turns a vector drawing of a carton into a die-cutting drawing. The drawing arrives as lines, arcs and polylines. The pipeline does the following steps:

- It joins nearly touching segments, if asked to.
- It breaks polylines into plain segments.
- It classifies every entity as a cut, crease, auxiliary or plywood line, by layer name and colour.
- It leaves small *bridges* (uncut gaps) in cut and crease lines.
- It mirrors the drawing for the front side.
- It frames the drawing with a plywood rectangle.
- It adds straight knives between the drawing and the frame.
- It stamps the job information as text.
- It removes what lies outside the frame.

Around that pipeline sit three services. The filename generator names the output file. The batch processor runs a file processor over a list of files, with cancel and stop-on-error. The preset manager keeps named option sets as JSON files.

The project models this core. It uses one Dafny module per source file, and the modules follow the repository's layering:

- **Entities** (`Points`, `BoundingBoxes`, `Lines`, `Arcs`, `Polylines`, with `EntityBase`/`Entities` for the shared attributes and the tagged union `Line | Arc | Polyline | Text`). These are pure datatypes and functions. The loops of the source are methods proved against spec functions: `Lines.SplitAtRatios`, `Polylines.Decompose`, `Polylines.FromPoints`.
- **Value objects** (`BridgeSettingsVO`, `PaperSizes`). Construction is a function returning `Result`, with the source's error messages.
- **Domain services** (`BridgeCalculator`, `EntityClassifier`, `GeometryService`, `SegmentConnector`, `ElementRemover`, `PlywoodGenerator`, `StraightKnifeGenerator`, `PolylineBridgeProcessor`, `TextGenerator`). Each loop of the source is a `method` with loop invariants, and its `ensures` ties the result to a recursive spec function. The properties the source promises are lemmas about those functions.
- **Application layer** (`ProcessDrawing`, `FilenameGenerator`, `BatchProcessor`, `PresetManager`).
  - `ProcessDrawing.Execute` runs the stages in the source's order, as a method proved against `ExecuteSpec`.
  - `BatchProcessor` and `PresetManager` are classes. The batch processor's `_cancel_requested` field is a class field that `Cancel` and `Process` modify.
  - The file system is a parameter: a set of existing paths, or a map from path to parsed JSON.
- **Support modules** (`Wrappers`, `RealMath`, `Strings`, `Sorting`, `StringOrder`, `Paths`, `Types`). These hold Python's `round`, `% 360`, `str.upper`/`lower`, `sorted`, string order, `pathlib` names and the enums.

Coordinates are exact `real`s. Square roots, trigonometry and the bulge-to-arc construction are the fields of a `MathLib` value that every geometric operation takes as a parameter. The model therefore states what the code does with their results, and never what their values are. Where a property needs a fact about them, the lemma asks for it, for example that the sine and cosine stay in [-1, 1] (`BoundedTrig`).

## Model

| member | source | states |
|---|---|---|
| Points.DistanceSquaredSign | src/domain/entities/point.py:27-39 | the squared distance is never negative and is zero from a point to itself |
| Points.DistanceSymmetric | src/domain/entities/point.py:37-39 | the squared distance from p to q equals that from q to p |
| Points.Midpoint | src/domain/entities/point.py:41-54 | the midpoint is equally far from both ends on each axis (it is their average) |
| Points.MidpointSelf | src/domain/entities/point.py:51-54 | the midpoint of a point with itself is that point |
| Points.MidpointSymmetric | src/domain/entities/point.py:51-54 | the midpoint does not depend on the order of its arguments |
| Points.MidpointEquidistant | src/domain/entities/point.py:51-54 | the midpoint is at the same distance from both ends, half the distance between them |
| Points.MirrorX | src/domain/entities/point.py:56-69 | mirroring keeps y and puts x as far beyond the axis as it was before it |
| Points.MirrorXInvolution | src/domain/entities/point.py:66-69 | mirroring twice about the same axis gives back the point |
| Points.MirrorXIsometry | src/domain/entities/point.py:66-69 | mirroring keeps distances between points |
| Points.Translate | src/domain/entities/point.py:71-85 | translating moves each coordinate by exactly dx and dy |
| Points.TranslateInverse | src/domain/entities/point.py:82-85 | translating by (-dx, -dy) undoes translating by (dx, dy) |
| Points.TranslateIsometry | src/domain/entities/point.py:82-85 | translating keeps distances between points |
| Points.TupleRoundTrip | src/domain/entities/point.py:87-107 | `from_tuple(to_tuple(p)) == p`, and the reverse round trip on tuples |
| BoundingBoxes.Width | src/domain/entities/bounding_box.py:31-35 | width is max_x - min_x, never negative for a well-formed box |
| BoundingBoxes.Height | src/domain/entities/bounding_box.py:36-40 | height is max_y - min_y, never negative for a well-formed box |
| BoundingBoxes.Center | src/domain/entities/bounding_box.py:41-47 | the centre is halfway between the bounds and lies inside a well-formed box |
| BoundingBoxes.ContainsCorners | src/domain/entities/bounding_box.py:49-62 | `contains_point` includes the edges: all four corners are contained |
| BoundingBoxes.Expand | src/domain/entities/bounding_box.py:64-79 | expanding by m adds 2m to width and height and keeps the centre |
| BoundingBoxes.ExpandInverse | src/domain/entities/bounding_box.py:74-79 | expanding by -m after m is the identity |
| BoundingBoxes.Union | src/domain/entities/bounding_box.py:81-96 | the union takes the smaller minima and the larger maxima |
| BoundingBoxes.UnionContainsBoth | src/domain/entities/bounding_box.py:91-96 | the union encloses both boxes and every point of either |
| BoundingBoxes.UnionLeast | src/domain/entities/bounding_box.py:91-96 | every box enclosing both arguments encloses their union |
| BoundingBoxes.UnionCommutative | src/domain/entities/bounding_box.py:91-96 | the union does not depend on argument order |
| BoundingBoxes.UnionAssociative | src/domain/entities/bounding_box.py:91-96 | folding unions in any grouping gives the same box |
| BoundingBoxes.UnionWellFormed | src/domain/entities/bounding_box.py:91-96 | the union of well-formed boxes is well formed |
| BoundingBoxes.OutsideSharesNoPoint | src/domain/entities/bounding_box.py:98-115 | a box completely outside another shares no point with it |
| BoundingBoxes.SharedPointNotOutside | src/domain/entities/bounding_box.py:108-113 | boxes that touch or overlap are not outside each other, because the comparisons are strict |
| BoundingBoxes.NotOutsideSharesPoint | src/domain/entities/bounding_box.py:108-113 | conversely, well-formed boxes not outside each other share some point |
| BoundingBoxes.MinXOf | src/domain/entities/bounding_box.py:129-137 | the generator `min` over x is below every point's x |
| BoundingBoxes.MinYOf | src/domain/entities/bounding_box.py:129-137 | the generator `min` over y is below every point's y |
| BoundingBoxes.MaxXOf | src/domain/entities/bounding_box.py:129-137 | the generator `max` over x is above every point's x |
| BoundingBoxes.MaxYOf | src/domain/entities/bounding_box.py:129-137 | the generator `max` over y is above every point's y |
| BoundingBoxes.MinXOfAttained | src/domain/entities/bounding_box.py:129-137 | some point has exactly the minimal x |
| BoundingBoxes.MinYOfAttained | src/domain/entities/bounding_box.py:129-137 | some point has exactly the minimal y |
| BoundingBoxes.MaxXOfAttained | src/domain/entities/bounding_box.py:129-137 | some point has exactly the maximal x |
| BoundingBoxes.MaxYOfAttained | src/domain/entities/bounding_box.py:129-137 | some point has exactly the maximal y |
| BoundingBoxes.FromPoints | src/domain/entities/bounding_box.py:116-137 | fails exactly on an empty list; otherwise a well-formed box containing every point |
| BoundingBoxes.FromPointsTight | src/domain/entities/bounding_box.py:129-137 | each of the four bounds is attained by some point |
| BoundingBoxes.FromPointsLeast | src/domain/entities/bounding_box.py:129-137 | every box containing all the points encloses `from_points` |
| BoundingBoxes.FromPointsUnique | src/domain/entities/bounding_box.py:129-137 | the containing box whose bounds are all attained is exactly `from_points` |
| BoundingBoxes.TranslateBox | src/domain/services/geometry_service.py:149-170 | a moved box keeps its width and height and its centre moves by (dx, dy) |
| BoundingBoxes.UnionTranslate | src/domain/services/geometry_service.py:35-44 | moving commutes with the union |
| BoundingBoxes.TranslateAll | src/domain/entities/point.py:82-85 | each point of the list is translated, in order |
| BoundingBoxes.FromPointsTranslate | src/domain/entities/bounding_box.py:116-137 | the box of moved points is the moved box |
| Lines.LineBox | src/domain/entities/line.py:55-62 | a line's box is well formed and contains both endpoints |
| Lines.LineBoxIsFromPoints | src/domain/entities/line.py:57-62 | a line's box is `from_points` of its two endpoints |
| Lines.HorizontalVerticalBounds | src/domain/entities/line.py:64-86 | horizontal iff abs(dy) <= tolerance, inclusive; vertical likewise for dx; reversing the line changes nothing |
| Lines.PointAtRatio | src/domain/entities/line.py:88-101 | ratio 0 gives the start and ratio 1 gives the end |
| Lines.Pieces | src/domain/entities/line.py:116-130 | n split points give n - 1 pieces |
| Lines.SplitAtRatios | src/domain/entities/line.py:103-130 | the loop yields the pieces between consecutive sorted, distinct ratios, each copying the line's attributes |
| Lines.SplitRatioCount | src/domain/entities/line.py:114-118 | the split points are the distinct members of the ratios together with 0 and 1 |
| Lines.SplitRatiosEnds | src/domain/entities/line.py:114-118 | for ratios in [0, 1] the split points run from 0 to 1 |
| Lines.SplitPiecesChain | src/domain/entities/line.py:114-130 | consecutive pieces share endpoints; the first starts at `start` and the last ends at `end` |
| Lines.MirrorX | src/domain/entities/line.py:132-149 | both endpoints are mirrored and layer, colour, linetype and category are copied |
| Lines.MirrorXInvolution | src/domain/entities/line.py:142-149 | mirroring a line twice gives it back |
| Lines.MirrorXShape | src/domain/entities/line.py:142-149 | mirroring keeps the length and the vertical extent |
| Lines.Translate | src/domain/entities/line.py:151-169 | both endpoints move by (dx, dy) and the attributes are copied |
| Lines.TranslateProperties | src/domain/entities/line.py:162-169 | translating keeps the vector end - start, and translating back undoes it |
| Arcs.AngleInArcIsSweep | src/domain/entities/arc.py:79-89 | after both angles are taken mod 360, an angle is swept iff its offset from the start is at most the sweep, which covers the wrapping and non-wrapping cases |
| Arcs.BoxPoints | src/domain/entities/arc.py:76-99 | the extrema list starts with the start and end points |
| Arcs.ArcBox | src/domain/entities/arc.py:68-101 | the arc's box is well formed and contains both end points and each swept cardinal point |
| Arcs.ArcBoxInSquare | src/domain/entities/arc.py:68-101 | with sine and cosine in [-1, 1], the arc's box lies within its full circle's square |
| Arcs.PointAtInSquare | src/domain/entities/arc.py:50-67 | every point on the circle lies in the circle's square |
| Arcs.CardinalsInSquare | src/domain/entities/arc.py:92-99 | the cardinal extreme points lie on the circle's square |
| Arcs.ArcBoxExtremes | src/domain/entities/arc.py:92-101 | when 0, 90, 180 or 270 degrees is swept, the matching bound reaches centre ± radius exactly |
| Arcs.MirrorX | src/domain/entities/arc.py:103-130 | the centre is mirrored, the radius kept, start' = 180 - end and end' = 180 - start, attributes copied |
| Arcs.MirrorXInvolution | src/domain/entities/arc.py:114-130 | mirroring an arc twice restores centre and angles |
| Arcs.MirrorXEnds | src/domain/entities/arc.py:114-119 | with the usual supplementary-angle identities, the mirrored arc's start point is the mirror of the old end point and vice versa |
| Arcs.Translate | src/domain/entities/arc.py:132-152 | only the centre moves; radius, angles and attributes are kept |
| Arcs.TranslateInverse | src/domain/entities/arc.py:143-152 | translating back undoes a translation |
| Arcs.TranslateKeepsSweep | src/domain/entities/arc.py:143-152 | a moved arc sweeps the same angles |
| Arcs.ArcBoxTranslate | src/domain/entities/arc.py:68-152 | the box of a moved arc is the moved box |
| Polylines.VertexPairs | src/domain/entities/polyline.py:198-204 | exactly `segment_count` pairs: consecutive vertices, then (last, first) when closed |
| Polylines.VertexPairsChain | src/domain/entities/polyline.py:198-204 | consecutive pairs share a vertex; the chain starts at the first vertex and ends at the last, or at the first when closed |
| Polylines.VertexXs | src/domain/entities/polyline.py:87-102 | the vertex points in order |
| Polylines.PolylineBox | src/domain/entities/polyline.py:87-102 | (0,0,0,0) for no vertices; otherwise a well-formed box containing every vertex |
| Polylines.PolylineBoxLeast | src/domain/entities/polyline.py:94-100 | every box containing all vertices encloses the polyline's box |
| Polylines.MirrorX | src/domain/entities/polyline.py:108-133 | every vertex is mirrored and its bulge negated; `closed` and attributes are kept |
| Polylines.MirrorXInvolution | src/domain/entities/polyline.py:118-133 | mirroring a polyline twice restores it |
| Polylines.MirrorXKeepsShape | src/domain/entities/polyline.py:118-133 | mirroring keeps the segment count and which vertices carry a bulge |
| Polylines.Translate | src/domain/entities/polyline.py:135-161 | every vertex moves by (dx, dy); bulges, `closed` and attributes are kept |
| Polylines.PolylineBoxTranslate | src/domain/entities/polyline.py:87-161 | the box of a moved non-empty polyline is the moved box |
| Polylines.TranslateInverse | src/domain/entities/polyline.py:146-161 | translating back undoes a translation |
| Polylines.WithCategory | src/domain/entities/polyline.py:302-313 | only the category changes |
| Polylines.ArcFromBulge | src/domain/entities/polyline.py:227-237 | a bulge below the threshold gives no arc; an arc that is produced has the polyline's attributes and a non-negative radius |
| Polylines.PairSegment | src/domain/entities/polyline.py:176-196 | a pair yields at most one segment, and a pair without bulge yields the straight Line between its vertices |
| Polylines.Decompose | src/domain/entities/polyline.py:163-196 | the loop over vertex pairs yields the segments of the spec function, in order |
| Polylines.SegmentsBound | src/domain/entities/polyline.py:176-196 | at most one segment per pair, each inheriting the attributes |
| Polylines.DecomposeBound | src/domain/entities/polyline.py:173-196 | at most `segment_count` segments, each inheriting layer, colour, linetype and category |
| Polylines.SegmentsStraight | src/domain/entities/polyline.py:176-196 | pairs without bulge give exactly one Line each, in order |
| Polylines.DecomposeStraight | src/domain/entities/polyline.py:173-196 | without bulges, exactly `segment_count` Lines along the vertex pairs |
| Polylines.FromPoints | src/domain/entities/polyline.py:314-351 | zero-bulge vertices at the given points, in order, with the given `closed` and attributes |
| EntityBase.WithCategory | src/domain/entities/polyline.py:302-313 | only the category changes; layer, colour and linetype are kept |
| Entities.SetCategory | src/domain/services/entity_classifier.py:150-161 | `apply_category` sets the category and changes nothing else about the entity |
| Entities.Box | src/domain/entities/entity.py:45-49 | every geometric entity has a well-formed bounding box |
| Entities.Mirror | src/domain/services/geometry_service.py:46-84 | dispatches Line, Arc and Polyline to their mirror, keeping attributes |
| Entities.MirrorInvolution | src/domain/services/geometry_service.py:67-84 | mirroring an entity twice gives it back |
| Entities.Move | src/domain/services/geometry_service.py:101-131 | dispatches Line, Arc and Polyline to their translate, keeping attributes |
| Entities.MoveInverse | src/domain/services/geometry_service.py:122-131 | translating back undoes a translation |
| Entities.BoxMove | src/domain/services/geometry_service.py:101-131 | the box of a moved entity is the moved box (not for an empty polyline) |
| Types.SideFromName | src/application/services/preset_manager.py:69 | `Side[name]` succeeds exactly for "FRONT" and "BACK" |
| Types.PlateTypeFromName | src/application/services/preset_manager.py:70 | `PlateType[name]` succeeds exactly for "COPPER" and "AUTO" |
| Types.NameRoundTrips | src/application/services/preset_manager.py:47-70 | enums round-trip through their names |
| BridgeSettingsVO.MakeBridgeSettings | src/domain/value_objects/bridge_settings.py:28-41 | construction succeeds iff 0 < min_length <= single_bridge_max, interval > 0, gap > 0, margin >= 0; the first failing check gives its message |
| BridgeSettingsVO.Default | src/domain/value_objects/bridge_settings.py:42-46 | the defaults 20/50/60/3/10 are valid |
| BridgeSettingsVO.ForCut | src/domain/value_objects/bridge_settings.py:47-57 | `for_cut` equals `default()` |
| BridgeSettingsVO.ForCrease | src/domain/value_objects/bridge_settings.py:58-66 | `for_crease` differs from the defaults only by interval 50 and gap 2 |
| PaperSizes.MakePaperSize | src/domain/value_objects/paper_size.py:43-54 | construction succeeds iff 100 <= width <= 2000 and 100 <= height <= 3000 |
| PaperSizes.StandardNames | src/domain/value_objects/paper_size.py:89-93 | the table's names, in table order |
| PaperSizes.LookupStandard | src/domain/value_objects/paper_size.py:55-73 | the lookup finds an entry iff the name is in the table, and returns that entry's dimensions |
| PaperSizes.FromStandard | src/domain/value_objects/paper_size.py:55-73 | fails exactly for a name not in the table; success keeps the name |
| PaperSizes.StandardSizesValid | src/domain/value_objects/paper_size.py:24-36 | every table entry has valid dimensions |
| PaperSizes.StandardNamesDistinct | src/domain/value_objects/paper_size.py:24-36 | no name appears twice in the table |
| PaperSizes.LookupFirst | src/domain/value_objects/paper_size.py:68-71 | the lookup returns the first entry carrying the name |
| PaperSizes.FromStandardEntry | src/domain/value_objects/paper_size.py:55-73 | every table entry constructs the paper size it lists |
| PaperSizes.Custom | src/domain/value_objects/paper_size.py:74-88 | succeeds iff the dimensions are valid, with those dimensions |
| PaperSizes.Orientation | src/domain/value_objects/paper_size.py:99-106 | landscape and portrait are never both true; a square is neither |
| PaperSizes.Rotate | src/domain/value_objects/paper_size.py:108-114 | swaps the dimensions and succeeds iff they are valid after the swap |
| PaperSizes.RotateProperties | src/domain/value_objects/paper_size.py:108-114 | rotating fails iff the height exceeds 2000; rotating twice restores the dimensions; rotation swaps orientation |
| PaperSizes.FitsDrawingInclusive | src/domain/value_objects/paper_size.py:116-127 | a drawing of exactly the paper's size fits, and a larger one does not |
| BridgeCalculator.InitialCount | src/domain/services/bridge_calculator.py:56-60 | the rounded bridge count is at least 1 |
| BridgeCalculator.CorrectedCount | src/domain/services/bridge_calculator.py:56-67 | the once-corrected count is at least 1 and within one of the initial count |
| BridgeCalculator.Spread | src/domain/services/bridge_calculator.py:70-78 | one position per bridge, the i-th at margin + (i + 1/2) * interval over the length |
| BridgeCalculator.CalculateBridgePositions | src/domain/services/bridge_calculator.py:30-80 | the method's loops yield exactly the positions of the spec function |
| BridgeCalculator.PositionsShortLines | src/domain/services/bridge_calculator.py:41-46 | [] below min_length, [0.5] up to single_bridge_max, and no positions only for short lines |
| BridgeCalculator.PositionsAscending | src/domain/services/bridge_calculator.py:70-78 | later bridges lie further along the line |
| BridgeCalculator.PositionInside | src/domain/services/bridge_calculator.py:70-78 | every multi-bridge position lies strictly between 0 and 1 |
| BridgeCalculator.PositionEnds | src/domain/services/bridge_calculator.py:70-78 | the first position is at least margin/L and the last at most (L - margin)/L |
| BridgeCalculator.SpreadShape | src/domain/services/bridge_calculator.py:70-78 | spread positions are strictly ascending, inside (0, 1) and within the edge margins |
| BridgeCalculator.PositionsMulti | src/domain/services/bridge_calculator.py:48-80 | for long lines the positions number the corrected count, at least one, strictly ascending, in (0, 1), within the margins |
| BridgeCalculator.CalculateBridgeGaps | src/domain/services/bridge_calculator.py:82-111 | the gap loop yields exactly the spec function's gaps |
| BridgeCalculator.GapsOfShape | src/domain/services/bridge_calculator.py:97-109 | every gap is a clamped position with 0.001 <= start < end <= 0.999, and every clamped position with start < end is kept |
| BridgeCalculator.UnclampedGapSpan | src/domain/services/bridge_calculator.py:97-109 | an unclamped gap spans exactly gap_size millimetres |
| BridgeCalculator.GapEnds | src/domain/services/bridge_calculator.py:135-138 | the split ratios list each gap's start then end |
| BridgeCalculator.CollectGapEnds | src/domain/services/bridge_calculator.py:135-138 | the collecting loop yields those ratios |
| BridgeCalculator.FindGap | src/domain/services/bridge_calculator.py:146-152 | the nested search reports whether the interval is some gap |
| BridgeCalculator.KeepNonGaps | src/domain/services/bridge_calculator.py:139-164 | the loop keeps exactly the non-gap intervals of the spec function |
| BridgeCalculator.ApplyBridges | src/domain/services/bridge_calculator.py:113-166 | `apply_bridges` yields the pieces of the spec function for the line's length |
| BridgeCalculator.SplitAroundGaps | src/domain/services/bridge_calculator.py:130-166 | splitting around given gaps yields the spec function's pieces |
| BridgeCalculator.GapEndsAppend | src/domain/services/bridge_calculator.py:135-138 | adding a gap appends its two ends |
| BridgeCalculator.KeptPiecesAttrs | src/domain/services/bridge_calculator.py:139-164 | at most one piece per interval, each copying the line's attributes |
| BridgeCalculator.BridgedShape | src/domain/services/bridge_calculator.py:113-166 | never empty; pieces copy the attributes; a short line stays `[line]`; at most 2 × positions + 1 pieces |
| BridgeCalculator.CutAroundShape | src/domain/services/bridge_calculator.py:130-166 | never empty, each piece copying the attributes, at most 2 × gaps + 1 pieces |
| BridgeCalculator.BridgedLevel | src/domain/services/bridge_calculator.py:139-164 | a horizontal line's pieces stay at its height |
| BridgeCalculator.KeptPiecesLevel | src/domain/services/bridge_calculator.py:139-164 | kept pieces of a horizontal line stay at its height |
| BridgeCalculator.DistinctCountBound | src/domain/services/bridge_calculator.py:130-138 | the distinct split ratios number at most the gap ends plus 2 |
| BridgeCalculator.SingleBridgeGap | src/domain/services/bridge_calculator.py:97-109 | a single bridge's gap is 0.5 ± gap_size/(2L) |
| BridgeCalculator.CutAroundOneGap | src/domain/services/bridge_calculator.py:139-164 | one gap leaves the piece before it and the piece after it |
| BridgeCalculator.SingleBridge | src/domain/services/bridge_calculator.py:113-166 | one bridge gives 2 pieces whose total length is L - gap_size |
| EntityClassifier.ClassifyByColor | src/domain/services/entity_classifier.py:116-126 | a mapped colour gives its category, any other gives UNKNOWN |
| EntityClassifier.ByLayerFromFirst | src/domain/services/entity_classifier.py:97-114 | the first category in table order with a matching keyword wins; none gives UNKNOWN |
| EntityClassifier.DefaultLayerOrder | src/domain/services/entity_classifier.py:51-67 | with the default table, CUT keywords beat CREASE keywords, and no keyword gives UNKNOWN |
| EntityClassifier.DefaultColors | src/domain/services/entity_classifier.py:61-67 | the default colours map 1 to CUT, 5 to CREASE, 3 to AUXILIARY, 7 to PLYWOOD and all others to UNKNOWN |
| EntityClassifier.LayerBeforeColor | src/domain/services/entity_classifier.py:69-95 | a named layer other than "0" that matches a keyword decides; otherwise the colour decides |
| EntityClassifier.OfCategory | src/domain/services/entity_classifier.py:140-148 | a bucket holds only input entities classified into it |
| EntityClassifier.ClassifyAll | src/domain/services/entity_classifier.py:128-148 | the loop gives every category a key and puts each entity in its bucket, in input order |
| EntityClassifier.BucketsPartition | src/domain/services/entity_classifier.py:140-148 | the buckets together hold exactly as many entities as the input |
| EntityClassifier.ApplyCategories | src/domain/services/entity_classifier.py:163-173 | same length and order; each entity gets its classified category |
| EntityClassifier.ApplyCategoriesKeeps | src/domain/services/entity_classifier.py:160-161 | applying the category keeps layer, colour and linetype |
| EntityClassifier.GetUnclassified | src/domain/services/entity_classifier.py:235-248 | only UNKNOWN entities are returned |
| EntityClassifier.CountIsLength | src/domain/services/entity_classifier.py:220-248 | `count_unclassified == len(get_unclassified_entities)` |
| EntityClassifier.Resolved | src/domain/services/entity_classifier.py:193-207 | known categories are kept; UNKNOWN is dropped exactly under SKIP and stays UNKNOWN only under KEEP_UNKNOWN |
| EntityClassifier.ResolvedEntities | src/domain/services/entity_classifier.py:189-212 | the classified list is never longer than the input |
| EntityClassifier.ApplyCategoriesWithResult | src/domain/services/entity_classifier.py:175-218 | the loop yields the resolved entities, the UNKNOWN count and per-category statistics of the kept entities |
| EntityClassifier.ApplyOne | src/domain/services/entity_classifier.py:189-212 | one loop step keeps the tally invariant |
| EntityClassifier.ResolveCategory | src/domain/services/entity_classifier.py:193-207 | the policy decision per entity matches `Resolved` |
| EntityClassifier.ResolvedStep | src/domain/services/entity_classifier.py:189-212 | one more entity extends the resolved list and the UNKNOWN count |
| EntityClassifier.CountStep | src/domain/services/entity_classifier.py:209-212 | incrementing the entity's category counter keeps the statistics exact |
| EntityClassifier.CountCategoriesSum | src/domain/services/entity_classifier.py:209-212 | the five category counts sum to the list length |
| EntityClassifier.ResolvedCounts | src/domain/services/entity_classifier.py:193-212 | under SKIP the kept entities plus the UNKNOWN count are the input; every other policy keeps the length |
| EntityClassifier.ResultTotals | src/domain/services/entity_classifier.py:25-37 | statistics sum to the classified count, and under SKIP `total_count` is the input length |
| GeometryService.CalculateBoundingBox | src/domain/services/geometry_service.py:23-44 | the fold yields None for no entities, otherwise the union of all boxes |
| GeometryService.UnionOfBoxesStep | src/domain/services/geometry_service.py:39-42 | one more entity unions its box into the result |
| GeometryService.UnionOfBoxesEncloses | src/domain/services/geometry_service.py:35-44 | the union is well formed and encloses every entity's box |
| GeometryService.UnionOfBoxesLeast | src/domain/services/geometry_service.py:35-44 | every box enclosing all entity boxes encloses the union |
| GeometryService.MirrorEntities | src/domain/services/geometry_service.py:86-99 | same length and order; each entity mirrored |
| GeometryService.MirrorEntitiesInvolution | src/domain/services/geometry_service.py:86-99 | mirroring a list twice about the same axis gives it back |
| GeometryService.MirrorKeepsY | src/domain/services/geometry_service.py:67-84 | mirroring keeps attributes, y coordinates and an arc's radius |
| GeometryService.TranslateEntities | src/domain/services/geometry_service.py:133-147 | same length and order; each entity translated |
| GeometryService.TranslateEntitiesProperties | src/domain/services/geometry_service.py:122-147 | translated arcs keep radius and angles; translating back restores the list |
| GeometryService.UnionOfBoxesMove | src/domain/services/geometry_service.py:133-147 | the box of the moved entities is the moved box |
| GeometryService.CenteredAt | src/domain/services/geometry_service.py:149-170 | centring keeps the length |
| GeometryService.CenterAt | src/domain/services/geometry_service.py:149-170 | the method computes the spec function's centred list |
| GeometryService.CentreMove | src/domain/services/geometry_service.py:162-170 | moving the entities moves the centre of their box by the same offset |
| GeometryService.CenteredAtCentre | src/domain/services/geometry_service.py:162-170 | after `center_at` the centre of the box is exactly the target |
| SegmentConnector.Endpoints | src/domain/services/segment_connector.py:195-205 | only Lines and Arcs expose their two endpoints; other kinds expose none |
| SegmentConnector.PointCandidatesExactly | src/domain/services/segment_connector.py:84-102 | the innermost loop yields exactly the in-range candidates from point a to the points of b |
| SegmentConnector.PairCandidatesExactly | src/domain/services/segment_connector.py:80-102 | a pair yields exactly the in-range endpoint combinations |
| SegmentConnector.AddedExactly | src/domain/services/segment_connector.py:74-102 | a pair that passes the layer and colour filter adds exactly its candidates |
| SegmentConnector.RowCandidatesExactly | src/domain/services/segment_connector.py:72-102 | row i yields exactly the candidates (i, j) with j below the bound |
| SegmentConnector.CandidatesUpToExactly | src/domain/services/segment_connector.py:72-102 | the first n rows yield exactly the candidates with i < n |
| SegmentConnector.CandidatesExactly | src/domain/services/segment_connector.py:59-104 | the candidates are exactly the pairs i < j of Lines or Arcs that pass `_can_connect` with 0 < d <= tolerance |
| SegmentConnector.EndpointCandidates | src/domain/services/segment_connector.py:84-102 | the endpoint loops compute the pair's candidates |
| SegmentConnector.RowLoop | src/domain/services/segment_connector.py:72-102 | the inner loop over j computes row i |
| SegmentConnector.FindConnectablePairs | src/domain/services/segment_connector.py:59-104 | the nested loops compute the candidate list in enumeration order |
| SegmentConnector.CollinearCases | src/domain/services/segment_connector.py:255-279 | never collinear when line A is shorter than the tolerance; a line along A is collinear |
| SegmentConnector.FarthestUpTo | src/domain/services/segment_connector.py:286-296 | the running maximum names one of the six endpoint pairs |
| SegmentConnector.FarthestFirstMax | src/domain/services/segment_connector.py:286-296 | the running maximum is the first pair of greatest distance, or the first pair when all are 0 |
| SegmentConnector.AllPoints | src/domain/services/segment_connector.py:284-285 | the four endpoints of the two lines |
| SegmentConnector.MergedLineFarthest | src/domain/services/segment_connector.py:281-304 | the merged line joins the farthest pair of the four endpoints and takes A's layer, colour and category |
| SegmentConnector.MergeLines | src/domain/services/segment_connector.py:281-304 | the loop computes that merged line |
| SegmentConnector.ExtendEndpoint | src/domain/services/segment_connector.py:306-329 | the endpoint within 0.001 of the old point (start first) moves to the new point |
| SegmentConnector.ExtendToMeet | src/domain/services/segment_connector.py:170-193 | both lines extend their candidate endpoint to the candidate midpoint |
| SegmentConnector.ExtendedLinesMeet | src/domain/services/segment_connector.py:170-193 | after extension both lines touch the midpoint and each keeps one original endpoint |
| SegmentConnector.ConnectPair | src/domain/services/segment_connector.py:229-253 | only Line-Line pairs fuse: collinear ones into one merged line, others into two extended lines |
| SegmentConnector.ConnectPairMethod | src/domain/services/segment_connector.py:229-253 | the method computes `_connect_pair` |
| SegmentConnector.CandidatesWellIndexed | src/domain/services/segment_connector.py:72-102 | every candidate indexes two distinct entities of the list |
| SegmentConnector.ConnectSegments | src/domain/services/segment_connector.py:106-168 | the greedy pass computes the spec's result |
| SegmentConnector.UnmodifiedCount | src/domain/services/segment_connector.py:147-162 | untouched entities plus modified indices account for the whole list |
| SegmentConnector.PassInvariant | src/domain/services/segment_connector.py:132-146 | each connection marks two entities; connections <= candidates; merges give one output and extensions two |
| SegmentConnector.StepShape | src/domain/services/segment_connector.py:132-146 | one candidate step keeps the pass invariant |
| SegmentConnector.ConnectShape | src/domain/services/segment_connector.py:106-168 | no candidates means the input unchanged with 0 connections; otherwise fused outputs first, then untouched inputs in order, and length = input - merges |
| SegmentConnector.ConnectGeometric | src/domain/services/segment_connector.py:106-168 | connecting never introduces text |
| ElementRemover.RemovalBox | src/domain/services/element_remover.py:187-217 | a Line's box contains its endpoints; an Arc's is its full circle; only Polylines have none |
| ElementRemover.TextBoxSize | src/domain/services/element_remover.py:208-215 | a text's box is len(content) × height × 0.6 wide and height high, from its position |
| ElementRemover.UpperAll | src/domain/services/element_remover.py:120-125 | the exclusion layers are compared in upper case |
| ElementRemover.KeptOf | src/domain/services/element_remover.py:108-140 | the kept list holds only entities that are not removed |
| ElementRemover.RemovedOf | src/domain/services/element_remover.py:108-140 | the removed list holds only removed entities |
| ElementRemover.RemoveExternalElements | src/domain/services/element_remover.py:89-146 | the loop yields the kept and removed lists in input order, and `removal_count == len(removed)` |
| ElementRemover.KeptRemovedPartition | src/domain/services/element_remover.py:108-146 | kept and removed together are the input |
| ElementRemover.KeptAllWhenNothingRemoved | src/domain/services/element_remover.py:108-146 | if nothing qualifies, everything is kept in order |
| ElementRemover.Exemptions | src/domain/services/element_remover.py:120-185 | plywood, excluded layers, polylines, anything touching the frame, CONFIRM_EACH, and the KEEP_AUXILIARY and KEEP_TEXT exemptions are never removed |
| ElementRemover.DefaultExclusions | src/domain/services/element_remover.py:39-53 | the default exclusions cover TEXT and PLYWOOD, ignoring case |
| ElementRemover.ExternalOf | src/domain/services/element_remover.py:70-87 | the identified list holds only external entities |
| ElementRemover.IdentifyExternalElements | src/domain/services/element_remover.py:55-87 | the loop computes that list in input order |
| ElementRemover.IdentifyMatchesRemoveAll | src/domain/services/element_remover.py:72-128 | with the default kept categories, identification gives exactly what REMOVE_ALL removes |
| PlywoodGenerator.ForPlateType | src/domain/services/plywood_generator.py:26-44 | top 55, left and right 25, bottom 25 for COPPER and 15 for AUTO |
| PlywoodGenerator.GenerateRectangle | src/domain/services/plywood_generator.py:48-82 | four white PLYWOOD lines, each starting where the previous ended, closing at the bottom-left corner |
| PlywoodGenerator.RectangleBox | src/domain/services/plywood_generator.py:58-82 | the rectangle's lines span exactly the box; bottom and top are horizontal, the sides vertical |
| PlywoodGenerator.ApplyMargins | src/domain/services/plywood_generator.py:84-102 | subtracts left and bottom from the minima and adds right and top to the maxima |
| PlywoodGenerator.MarginsEnclose | src/domain/services/plywood_generator.py:97-102 | non-negative margins give a well-formed box around the drawing |
| PlywoodGenerator.GenerateWithMargins | src/domain/services/plywood_generator.py:104-118 | the rectangle around the margin-expanded box |
| PlywoodGenerator.GenerateForEntities | src/domain/services/plywood_generator.py:120-149 | no lines exactly for no entities; otherwise the margin frame around their union box |
| PlywoodGenerator.CalculateDrawingPosition | src/domain/services/plywood_generator.py:151-175 | always the origin |
| StraightKnifeGenerator.DefaultKnifeSettings | src/domain/services/straight_knife_generator.py:19-28 | bridges on with the cut settings, red, on layer CUT |
| StraightKnifeGenerator.BaseLine | src/domain/services/straight_knife_generator.py:181-187 | horizontal at y from the smaller to the larger x, category CUT, colour and layer from the settings |
| StraightKnifeGenerator.GenerateKnife | src/domain/services/straight_knife_generator.py:157-196 | the method computes the spec's knife |
| StraightKnifeGenerator.KnifeShape | src/domain/services/straight_knife_generator.py:177-196 | no knife exactly when the span is under 1 mm; without bridges one base line; every piece lies at y with the knife attributes |
| StraightKnifeGenerator.Generate | src/domain/services/straight_knife_generator.py:38-86 | for each y in order, a left knife then a right knife; the default y is the drawing's vertical midpoint |
| StraightKnifeGenerator.GenerateAtCenter | src/domain/services/straight_knife_generator.py:88-106 | the knives at the drawing's vertical midpoint |
| StraightKnifeGenerator.KnifeLinesJoin | src/domain/services/straight_knife_generator.py:65-84 | joining knife lists keeps every line at one of the given heights |
| StraightKnifeGenerator.KnivesShape | src/domain/services/straight_knife_generator.py:65-86 | every knife lies at a given y; without bridges at most 2 per y, exactly 2 when both spans are at least 1 mm |
| StraightKnifeGenerator.HorizontalYs | src/domain/services/straight_knife_generator.py:131-137 | a y is collected iff some Line with abs(dy) < tolerance starts at it |
| StraightKnifeGenerator.ClusterState | src/domain/services/straight_knife_generator.py:141-150 | the current cluster is never empty and ends at the last value seen |
| StraightKnifeGenerator.FindHorizontalLinePositions | src/domain/services/straight_knife_generator.py:108-155 | the cluster means of the sorted ys, empty iff no line qualifies, ascending, strictly for a non-negative tolerance |
| StraightKnifeGenerator.CollectHorizontalYs | src/domain/services/straight_knife_generator.py:131-135 | the collecting loop computes those ys |
| StraightKnifeGenerator.Cluster | src/domain/services/straight_knife_generator.py:141-153 | the clustering loop computes the cluster means |
| StraightKnifeGenerator.MeanBounds | src/domain/services/straight_knife_generator.py:148-153 | a cluster's mean lies between its smallest and largest member |
| StraightKnifeGenerator.ClusterStateOrder | src/domain/services/straight_knife_generator.py:141-153 | closed cluster means are ascending and below the open cluster |
| StraightKnifeGenerator.ClusterMeansOrder | src/domain/services/straight_knife_generator.py:141-155 | the means of sorted ys are ascending, no more than the ys, and empty only for no ys |
| StraightKnifeGenerator.OneCluster | src/domain/services/straight_knife_generator.py:141-153 | ys with no step greater than the tolerance form a single cluster with their mean |
| PolylineBridgeProcessor.SegmentEntity | src/domain/services/polyline_bridge_processor.py:75-80 | a decomposed segment is a Line or an Arc |
| PolylineBridgeProcessor.SegmentEntities | src/domain/services/polyline_bridge_processor.py:89-90 | the segments as entities, in order |
| PolylineBridgeProcessor.LineEntities | src/domain/services/polyline_bridge_processor.py:127-144 | the lines as entities, in order |
| PolylineBridgeProcessor.SettingsFor | src/domain/services/polyline_bridge_processor.py:127-144 | CUT and CREASE use their settings, UNKNOWN uses cut settings only under `process_unknown_as_cut`, AUXILIARY and PLYWOOD none |
| PolylineBridgeProcessor.ApplyBridgesToSegment | src/domain/services/polyline_bridge_processor.py:115-144 | the method computes the spec's bridged segment |
| PolylineBridgeProcessor.SegmentBridgedShape | src/domain/services/polyline_bridge_processor.py:115-144 | arcs and unbridged categories pass unchanged; line pieces keep the segment's attributes |
| PolylineBridgeProcessor.PolylineCount | src/domain/services/polyline_bridge_processor.py:146-156 | at most one per entity |
| PolylineBridgeProcessor.GetSegmentCount | src/domain/services/polyline_bridge_processor.py:158-174 | the accumulator yields the sum of `segment_count` over polylines plus 1 per other entity |
| PolylineBridgeProcessor.Process | src/domain/services/polyline_bridge_processor.py:54-100 | the main loop computes the spec's processed list and three counters |
| PolylineBridgeProcessor.ProcessSpecStep | src/domain/services/polyline_bridge_processor.py:69-93 | processing one more entity is one step of the spec |
| PolylineBridgeProcessor.ProcessOne | src/domain/services/polyline_bridge_processor.py:69-93 | one loop iteration computes that step |
| PolylineBridgeProcessor.BridgeAll | src/domain/services/polyline_bridge_processor.py:82-88 | bridging a polyline's segments and counting those split in more than one piece |
| PolylineBridgeProcessor.DecomposeOnly | src/domain/services/polyline_bridge_processor.py:102-113 | equals processing without bridges |
| PolylineBridgeProcessor.BridgeSegmentsShape | src/domain/services/polyline_bridge_processor.py:82-88 | bridging yields at least one Line or Arc per segment |
| PolylineBridgeProcessor.SegmentBridgedKinds | src/domain/services/polyline_bridge_processor.py:115-144 | a bridged segment gives at least one piece, all Lines or Arcs |
| PolylineBridgeProcessor.SplitSegmentsBound | src/domain/services/polyline_bridge_processor.py:82-88 | no more split segments than segments |
| PolylineBridgeProcessor.ProcessCounts | src/domain/services/polyline_bridge_processor.py:69-93 | polyline count exact; bridged <= decomposed; no polyline left; without bridges the output is the input with polylines replaced by segments |
| PolylineBridgeProcessor.NoPolylinesUnchanged | src/domain/services/polyline_bridge_processor.py:91-93 | a list without polylines passes through unchanged with zero counts |
| PolylineBridgeProcessor.ProcessGeometric | src/domain/services/polyline_bridge_processor.py:69-93 | processing never introduces text |
| PolylineBridgeProcessor.PolylineCountZero | src/domain/services/polyline_bridge_processor.py:146-156 | the count is zero iff there is no polyline |
| TextGenerator.FormattedDate | src/domain/services/text_generator.py:27-31 | YYYY-MM-DD: ten characters, dashes at 4 and 7, digits elsewhere |
| TextGenerator.FormattedDateRoundTrip | src/domain/services/text_generator.py:29 | the digits read back as the year, month and day |
| TextGenerator.FormattedDateInjective | src/domain/services/text_generator.py:29 | different dates format differently |
| TextGenerator.SideText | src/domain/services/text_generator.py:32-39 | "앞" for FRONT and "뒤" otherwise |
| TextGenerator.PlateText | src/domain/services/text_generator.py:40-48 | "동판" for COPPER and "자동" otherwise |
| TextGenerator.FormatJobText | src/domain/services/text_generator.py:186-199 | "{date} No.{job} {package} {side}": the date, " No.", the job number, a space, the package name, a space and the side text, each at its position, and the exact length |
| TextGenerator.GenerateJobInfoTexts | src/domain/services/text_generator.py:68-88 | one text at the origin whose content is `format_job_text` |
| TextGenerator.GenerateSideMarker | src/domain/services/text_generator.py:90-109 | the side text at twice the text height |
| TextGenerator.GeneratePositionedTexts | src/domain/services/text_generator.py:111-155 | the loop computes the spec's three texts |
| TextGenerator.PositionedTextsShape | src/domain/services/text_generator.py:126-155 | three lines (date and job, package, side and plate) at x = plywood min_x, the first at max_y + margin and each next one height × spacing higher |
| TextGenerator.PositionedTextsAboveFrame | src/domain/services/text_generator.py:129-155 | with non-negative settings every line sits at or above the frame, in rising order |
| TextGenerator.GeneratePositionedSideMarker | src/domain/services/text_generator.py:157-184 | the side text at twice the height, at (max_x - 20, min_y + 10) |
| ProcessDrawing.DefaultOptions | src/application/use_cases/process_drawing.py:31-58 | the option defaults, which are valid |
| ProcessDrawing.ConnectStage | src/application/use_cases/process_drawing.py:125-130 | connection is skipped unless enabled, and never introduces text |
| ProcessDrawing.DecomposeStage | src/application/use_cases/process_drawing.py:132-136 | when enabled no polyline is left |
| ProcessDrawing.BridgeSettingsFor | src/application/use_cases/process_drawing.py:239-252 | only CUT and CREASE Lines are bridged, with the matching settings |
| ProcessDrawing.BridgedEntity | src/application/use_cases/process_drawing.py:239-252 | other entities pass unchanged; bridged pieces are Lines keeping the attributes |
| ProcessDrawing.MirroredStage | src/application/use_cases/process_drawing.py:256-264 | mirroring about the centre x of the whole classified list, keeping the length |
| ProcessDrawing.ClassifiedStage | src/application/use_cases/process_drawing.py:138-147 | classify, bridge and mirror never introduce text |
| ProcessDrawing.DrawingEntities | src/application/use_cases/process_drawing.py:165-168 | the frame is computed from the non-PLYWOOD entities |
| ProcessDrawing.KnifeSettingsFor | src/application/use_cases/process_drawing.py:184-193 | knife settings take bridging and the cut settings from the options |
| ProcessDrawing.TextEntities | src/application/use_cases/process_drawing.py:195-200 | the generated texts as entities, in order |
| ProcessDrawing.ApplyBridgesStage | src/application/use_cases/process_drawing.py:228-254 | the loop computes the spec's bridged list |
| ProcessDrawing.MirrorStage | src/application/use_cases/process_drawing.py:256-264 | the method computes the spec's mirrored list |
| ProcessDrawing.CalculateStatistics | src/application/use_cases/process_drawing.py:266-297 | the counters match the spec; the six counts add up to `total_count == len(entities)` |
| ProcessDrawing.PrepareEntities | src/application/use_cases/process_drawing.py:122-147 | connect, decompose, classify, bridge and mirror run in that order |
| ProcessDrawing.GenerateFrame | src/application/use_cases/process_drawing.py:149-182 | the frame stage matches the spec |
| ProcessDrawing.AssembleEntities | src/application/use_cases/process_drawing.py:184-209 | frame, knives, text and removal are assembled as in the spec |
| ProcessDrawing.Execute | src/application/use_cases/process_drawing.py:99-222 | the stages run in the source's order; empty input gives no entities and zero statistics; it succeeds; the statistics add up to the output length |
| ProcessDrawing.StatisticsAddUp | src/application/use_cases/process_drawing.py:270-297 | each output entity is counted exactly once |
| ProcessDrawing.BridgedStageShape | src/application/use_cases/process_drawing.py:228-254 | bridging never shortens the list and leaves it unchanged when nothing qualifies |
| ProcessDrawing.FrameLinesBox | src/application/use_cases/process_drawing.py:154-182 | the frame's four lines span exactly the frame box |
| ProcessDrawing.FrameShape | src/application/use_cases/process_drawing.py:149-182 | a frame exists iff plywood is on and some drawing entity exists; it is the paper rectangle (0,0)-(w,h) or the margins around the drawing's box |
| ProcessDrawing.ExecuteGating | src/application/use_cases/process_drawing.py:184-209 | knives need the option and both boxes; text needs the option, job info and a frame; removal needs the option and a frame |
| ProcessDrawing.StageGating | src/application/use_cases/process_drawing.py:184-200 | knife and text stages run only under their gates, and text is three lines |
| ProcessDrawing.RemovalGating | src/application/use_cases/process_drawing.py:202-209 | without a frame or the option nothing is removed; kept plus removed is the whole |
| ProcessDrawing.Passthrough | src/application/use_cases/process_drawing.py:139-150 | with bridges and plywood off, BACK, no connection and no polylines, the output is the classified input with coordinates unchanged |
| ProcessDrawing.CategoriesKeep | src/application/use_cases/process_drawing.py:138-139 | classification keeps layer, colour, linetype and coordinates |
| ProcessDrawing.ExecuteCounts | src/application/use_cases/process_drawing.py:211-222 | success message, statistics of the output, and the connection and polyline counts of disabled stages |
| FilenameGenerator.Sanitize | src/application/services/filename_generator.py:98-108 | no forbidden character survives and nothing is added |
| FilenameGenerator.SanitizeAppend | src/application/services/filename_generator.py:98-108 | sanitising works character by character |
| FilenameGenerator.SanitizeChar | src/application/services/filename_generator.py:25 | exactly the characters < > : " / \ \| ? * are removed |
| FilenameGenerator.SanitizeValid | src/application/services/filename_generator.py:98-108 | a name without forbidden characters is kept as it is |
| FilenameGenerator.SanitizeIdempotent | src/application/services/filename_generator.py:98-108 | sanitising twice equals sanitising once |
| FilenameGenerator.Generate | src/application/services/filename_generator.py:27-45 | date, job number, sanitised package and side text joined by the separator, then the extension |
| FilenameGenerator.DefaultNameShape | src/application/services/filename_generator.py:27-45 | the default name starts with the date and '_' and ends with the side text and ".dxf"; equal names mean equal date and side |
| FilenameGenerator.GeneratePath | src/application/services/filename_generator.py:47-59 | the name placed in the base directory |
| FilenameGenerator.GenerateWithIncrement | src/application/services/filename_generator.py:61-96 | the counter loop computes the spec's name |
| FilenameGenerator.FirstFreeIsFirst | src/application/services/filename_generator.py:86-96 | the search returns the least free counter, or none when every counter up to 1000 is taken |
| FilenameGenerator.NumberedInjective | src/application/services/filename_generator.py:89 | different counters give different names |
| FilenameGenerator.WithIncrementCorrect | src/application/services/filename_generator.py:76-96 | the base name when it is free; otherwise base_k for the least free k >= 2, never an existing name, and an error exactly when 2..1000 are all taken |
| BatchProcessor.CountStatus | src/application/services/batch_processor.py:48-67 | a status count is at most the number of items |
| BatchProcessor.CountsBound | src/application/services/batch_processor.py:48-67 | completed + failed + skipped <= total, with equality when every item has finished |
| BatchProcessor.SuccessRate | src/application/services/batch_processor.py:68-72 | 0 for an empty batch, else completed/total × 100, always in [0, 100] |
| BatchProcessor.WithStatus | src/application/services/batch_processor.py:74-80 | `get_failed_items`/`get_completed_items` pick items with that status only, every such item, as many as there are |
| BatchProcessor.WithStatusSingle | src/application/services/batch_processor.py:74-80 | a single item is kept iff it has the status |
| BatchProcessor.WithStatusAppend | src/application/services/batch_processor.py:74-80 | the filter distributes over concatenation, so the items keep their input order and multiplicity |
| BatchProcessor.OutputPath | src/application/services/batch_processor.py:245-268 | stem + suffix + extension, in the output directory or beside the input |
| BatchProcessor.OutputNameInserts | src/application/services/batch_processor.py:255-268 | the output suffix is inserted just before the extension |
| BatchProcessor.SingleFileOutcome | src/application/services/batch_processor.py:186-243 | missing gives FAILED, a non-.dxf file SKIPPED or FAILED, an existing output SKIPPED, a raising processor FAILED, otherwise COMPLETED |
| BatchProcessor.SkipAll | src/application/services/batch_processor.py:143-152 | every remaining file gets a SKIPPED item with the message |
| BatchProcessor.Run | src/application/services/batch_processor.py:137-180 | one item per remaining input, in input order; no dispatch after a cancel |
| BatchProcessor.Dispatches | src/application/services/batch_processor.py:155-156 | a progress event (index, total, name) per dispatched file |
| BatchProcessor.RunCancelled | src/application/services/batch_processor.py:143-152 | after a cancel every remaining file is skipped and the batch is cancelled |
| BatchProcessor.RunStopped | src/application/services/batch_processor.py:165-174 | a failure under stop-on-error skips every later file and cancels the batch |
| BatchProcessor.RunContinued | src/application/services/batch_processor.py:155-174 | otherwise the loop moves on to the next file |
| BatchProcessor.DispatchesSnoc | src/application/services/batch_processor.py:155-156 | dispatching one more file adds its event |
| BatchProcessor.RunUnfold | src/application/services/batch_processor.py:137-180 | the three branches of one iteration |
| BatchProcessor.RunItems | src/application/services/batch_processor.py:209-241 | every item has finished as COMPLETED, FAILED or SKIPPED |
| BatchProcessor.ShapeStep | src/application/services/batch_processor.py:143-174 | a file that does not stop the batch keeps the cancel and stop properties |
| BatchProcessor.ShapeEnd | src/application/services/batch_processor.py:143-174 | a cancelled or stopped tail has the cancel and stop properties |
| BatchProcessor.RunShapes | src/application/services/batch_processor.py:143-174 | after a cancel, or a failure under stop-on-error, every later file is SKIPPED and `cancelled` holds |
| BatchProcessor.RunAll | src/application/services/batch_processor.py:137-180 | without cancel or stop-on-error every file is dispatched and the batch is not cancelled |
| BatchProcessor.BatchCounts | src/application/services/batch_processor.py:48-67 | `total_count == len(input_files)` and the three counts sum to it |
| BatchProcessor.ValidOf | src/application/services/batch_processor.py:280-291 | the valid list holds only existing .dxf files |
| BatchProcessor.InvalidOf | src/application/services/batch_processor.py:280-291 | the invalid list holds only the others |
| BatchProcessor.ValidateStep | src/application/services/batch_processor.py:280-291 | one more file keeps the partition |
| BatchProcessor.ValidatePartition | src/application/services/batch_processor.py:270-291 | valid and invalid together hold every input file as often as the input does |
| BatchProcessor.ValidOfSingle | src/application/services/batch_processor.py:280-291 | a single file goes to exactly one of the two lists |
| BatchProcessor.ValidOfAppend | src/application/services/batch_processor.py:280-291 | both lists distribute over concatenation, so each keeps the input order |
| BatchProcessor.ValidFileItems | src/application/services/batch_processor.py:209-241 | a valid file gets its output path; an invalid one never completes |
| BatchProcessor.BatchProcessor.constructor | src/application/services/batch_processor.py:112-117 | keeps the options, with no cancel requested |
| BatchProcessor.BatchProcessor.Cancel | src/application/services/batch_processor.py:182-184 | sets the cancel flag |
| BatchProcessor.BatchProcessor.GetOutputPath | src/application/services/batch_processor.py:245-268 | the output path for the processor's options |
| BatchProcessor.BatchProcessor.ProcessSingleFile | src/application/services/batch_processor.py:186-243 | the per-file state machine's outcome |
| BatchProcessor.BatchProcessor.Process | src/application/services/batch_processor.py:118-180 | the loop yields the spec's items and cancel flag, and the progress events then (total, total, "Complete") |
| BatchProcessor.BatchProcessor.ValidateFiles | src/application/services/batch_processor.py:270-291 | the loop's valid and invalid lists |
| PresetManager.FieldValue | src/application/services/preset_manager.py:43-64 | each field is written with the JSON type it is read back with |
| PresetManager.ToDict | src/application/services/preset_manager.py:43-64 | every field is present and well typed |
| PresetManager.FromDict | src/application/services/preset_manager.py:65-84 | fails exactly on a wrongly typed value or an unknown side or plate name |
| PresetManager.BuildToDict | src/application/services/preset_manager.py:65-84 | reading back a preset's dictionary rebuilds it |
| PresetManager.FromDictToDict | src/application/services/preset_manager.py:43-84 | `from_dict(to_dict(p)) == p`, enums by name |
| PresetManager.ToDictInjective | src/application/services/preset_manager.py:43-64 | different presets give different dictionaries |
| PresetManager.FromDictEmpty | src/application/services/preset_manager.py:67-84 | an empty dictionary gives the "Unnamed" preset with all defaults |
| PresetManager.FromDictFields | src/application/services/preset_manager.py:67-84 | every field takes the dictionary's value when present and the default otherwise |
| PresetManager.GetPaperSize | src/application/services/preset_manager.py:86-90 | custom dimensions iff `use_custom_size`, otherwise the standard table |
| PresetManager.GetCutBridgeSettings | src/application/services/preset_manager.py:92-97 | only gap and interval come from the preset; the rest are defaults |
| PresetManager.GetCreaseBridgeSettings | src/application/services/preset_manager.py:99-107 | only gap and interval come from the preset; the rest are defaults |
| PresetManager.DefaultPresetSettings | src/application/services/preset_manager.py:15-41 | a fresh preset gives the cut and crease settings and a valid paper size |
| PresetManager.SafeName | src/application/services/preset_manager.py:149 | same length; every character is alphanumeric, '-' or '_' |
| PresetManager.SafeNameKeeps | src/application/services/preset_manager.py:149 | a safe name is kept, so the mapping is idempotent |
| PresetManager.PresetPath | src/application/services/preset_manager.py:147-150 | the safe name plus ".json" in the presets directory |
| PresetManager.PresetPathSuffix | src/application/services/preset_manager.py:147-150 | for a non-empty name the file's suffix is ".json" and its stem the safe name |
| PresetManager.DefaultNamed | src/application/services/preset_manager.py:176-179 | the first default preset with that name, or None |
| PresetManager.Save | src/application/services/preset_manager.py:152-161 | saving adds the preset's file |
| PresetManager.Delete | src/application/services/preset_manager.py:188-202 | reports whether the file existed and removes it |
| PresetManager.SaveLoad | src/application/services/preset_manager.py:152-186 | a saved preset loads back, and other names are unaffected |
| PresetManager.LoadFallback | src/application/services/preset_manager.py:163-186 | without a file the default preset of that name is loaded, or None; after deleting, load falls back to the default |
| PresetManager.DefaultNames | src/application/services/preset_manager.py:211 | the default names in order |
| PresetManager.DefaultNamesDistinct | src/application/services/preset_manager.py:116-141 | the default names are distinct |
| PresetManager.CollectedNames | src/application/services/preset_manager.py:214-223 | the loop adds each new listed name once |
| PresetManager.UnsortedNames | src/application/services/preset_manager.py:211-223 | the defaults plus the listed names when the directory exists, no duplicates |
| PresetManager.ListSpecProperties | src/application/services/preset_manager.py:204-225 | fails exactly when the directory exists and a listed file's name is truthy but not a string (`sorted` raises TypeError); otherwise sorted, distinct, containing every default name and exactly the listed names |
| PresetManager.PresetManager.constructor | src/application/services/preset_manager.py:143-145 | keeps the presets directory |
| PresetManager.PresetManager.GetPresetPath | src/application/services/preset_manager.py:147-150 | the preset's safe path |
| PresetManager.PresetManager.LoadPreset | src/application/services/preset_manager.py:163-186 | the file's preset, or the default fallback |
| PresetManager.PresetManager.ListPresets | src/application/services/preset_manager.py:204-225 | the loop computes the sorted name list, or the failure when a non-string name was appended |
| PresetManager.PresetManager.GetDefaultPreset | src/application/services/preset_manager.py:227-229 | the first default preset |
| Strings.ToUpper | src/domain/services/entity_classifier.py:107 | `str.upper` maps every character and keeps the length |
| Strings.ToLower | src/application/services/batch_processor.py:286 | `str.lower` maps every character and keeps the length |
| Strings.ToUpperIdempotent | src/domain/services/segment_connector.py:217 | upper-casing twice equals once |
| Strings.ContainsIffOccurs | src/domain/services/entity_classifier.py:111 | `in` on strings finds an occurrence |
| Strings.NatToString | src/application/services/filename_generator.py:89 | the decimal digits of a counter |
| Strings.NatToStringRoundTrip | src/application/services/filename_generator.py:89 | the digits read back as the number |
| Strings.NatToStringInjective | src/application/services/filename_generator.py:89 | different numbers print differently |
| Strings.ZeroPad | src/domain/services/text_generator.py:29 | a zero-padded field of digits at least as wide as asked |
| Strings.ZeroPadRoundTrip | src/domain/services/text_generator.py:29 | the padded digits read back as the number |
| Strings.ZeroPadWidth | src/domain/services/text_generator.py:29 | a number below 10^width pads to exactly the width |
| Strings.RemoveAllAbsent | src/application/services/filename_generator.py:85 | removing an absent extension leaves the name |
| Paths.StemSuffix | src/application/services/batch_processor.py:255-268 | `stem + suffix` is the file name; the suffix is empty or a dot followed by no further dot; a non-empty name has a non-empty stem |
| Sorting.Sort | src/domain/services/straight_knife_generator.py:141 | `sort` gives an ascending permutation |
| Sorting.SortedUnique | src/domain/services/straight_knife_generator.py:141 | the ascending permutation is unique |
| StringOrder.LessTotal | src/application/services/preset_manager.py:225 | string order is total and antisymmetric |
| StringOrder.Sort | src/application/services/preset_manager.py:225 | `sorted(names)` is an ascending permutation |
| StringOrder.SortDistinct | src/application/services/preset_manager.py:225 | sorting distinct names gives them in strictly ascending order |
| RealMath.RoundHalfEven | src/domain/services/bridge_calculator.py:56 | Python's `round` gives the nearest integer, ties going to the even one |
| RealMath.RoundHalfEvenUnique | src/domain/services/bridge_calculator.py:56 | that integer is the only one with this property |
| RealMath.Mod360 | src/domain/entities/arc.py:79-80 | `% 360` lands in [0, 360) and keeps angles already there |
| RealMath.Mod360Negative | src/domain/entities/arc.py:79-80 | a negative angle down to -360 gains 360 |

## Left out

- I/O:
  - DXF and AI readers and writers, the reader registry, and the PyQt user interface.
  - The file system: `exists` is a set of paths, and JSON files are a map from path to parsed dictionary. `mkdir`, `stat`, `estimate_output_size`, and preset `export_preset`, `import_preset` and `reset_to_defaults` are not modelled.
- Square roots and trigonometry (`distance_to`, `Line.length`, `GeometryService.distance`, `Arc.start_point`/`end_point`, `_create_arc_from_bulge`): the `MathLib` parameter supplies them as uninterpreted functions. The full bulge-to-arc construction, and the connector's `** 0.5`, go through it as well.
- Floating point: the model uses exact reals. The near-equality thresholds are stated as comparisons: 1e-9 for bulges and chord lengths (polyline.py:31, :228, :236), 0.0001 for matching a gap (bridge_calculator.py:148), 0.01 in `_are_collinear` (segment_connector.py:255, :277-279) and 0.001 for endpoint matching (segment_connector.py:314). Python's `round` is written out as round-half-to-even.
- The batch processor:
  - `cancel()`, called from a progress callback, is a set of indices at which a cancel request arrives. These indices are file dispatches only: a `cancel()` during the final `(total, total, "Complete")` callback (batch_processor.py:177-178) leaves Python's flag set, and the model does not represent it.
  - The callback itself is a returned sequence of progress events.
  - The processor is a function returning `Returned` or `Raised`. A completed file adds its output path to the file set (`Written`).
  - The order of a directory glob, and the listing itself, are parameters.
- Strings:
  - `str.upper`/`lower` are ASCII-only.
  - `str.isalnum` covers ASCII letters and digits plus Hangul syllables.
  - `strftime("%Y")` is padded to four digits, and years below 1000 are not distinguished.
- Object identity: the connector's `id(entity)` set is the set of list positions.
- PresetManager.FromDict: models a JSON dictionary whose values are strings, numbers or booleans. A value of the wrong type makes the whole read return None, where Python would fail later or keep the value. Extra keys are ignored, and a JSON document that is not an object is not modelled.
- PresetManager.PresetManager.ListPresets: a listed file whose JSON document is not an object (a list, a number) makes `data.get` raise AttributeError, which `list_presets` does not catch; the model's listing holds only objects and unreadable files, so it does not represent that failure.
- ProcessDrawing.Execute: requires that the input holds no text entity, because the readers never produce one and text entities have no category. `execute` has no translate stage: neither `center_at` nor `calculate_drawing_position` is called (process_drawing.py:99-222), and the model follows the code. The code also calls `apply_categories` rather than `apply_categories_with_result`, so no unclassified-entity policy is applied and UNKNOWN entities stay UNKNOWN.
- SegmentConnector.ExtendEndpoint: rebuilds the line with layer, colour and category, as `_extend_line_endpoint` does (`RebuiltAttrs`). The linetype is reset to the default.
- GeometryService.CenteredAtCentre: is stated for lists without an empty polyline. An empty polyline's box is always (0,0,0,0), so it does not move with the rest.
- Entities.BoxMove: excludes the empty polyline, for the same reason.
- TextGenerator.PositionedTextsAboveFrame: requires non-negative text height and line spacing as well as a non-negative margin, because the stacking order needs them.
- Arcs.ArcBoxInSquare: assumes only that sine and cosine lie in [-1, 1].
- A full circle (0 to 360 degrees) normalises both angles to 0, so `angle_in_arc` sweeps only 0 degrees; the model keeps that behaviour.
- Polylines.ArcFromBulge: states only that no arc is produced below the bulge threshold, and the arc's radius and attributes. Its geometry comes from `MathLib.bulgeArc`.
