/** `PlywoodGenerator`: the rectangular plywood frame around a drawing. */
module PlywoodGenerator {
  import opened Types
  import opened RealMath
  import opened Points
  import opened BoundingBoxes
  import opened EntityBase
  import opened Lines
  import opened Entities
  import opened GeometryService

  datatype PlywoodSettings = PlywoodSettings(topMargin: real, bottomMargin: real, leftMargin: real, rightMargin: real)

  /** `PlywoodSettings()`: 55 above, 25 on the other sides. */
  const DEFAULT_PLYWOOD: PlywoodSettings := PlywoodSettings(55.0, 25.0, 25.0, 25.0)

  /** `for_plate_type`: copper keeps the 25 mm bottom margin, auto uses 15 mm. */
  function ForPlateType(p: PlateType): (r: PlywoodSettings)
    ensures r.topMargin == 55.0 && r.leftMargin == 25.0 && r.rightMargin == 25.0
    ensures r.bottomMargin == (if p == Copper then 25.0 else 15.0)
  {
    match p
    case Copper => DEFAULT_PLYWOOD.(bottomMargin := 25.0)
    case Auto => DEFAULT_PLYWOOD.(bottomMargin := 15.0)
  }

  /** White, layer "PLYWOOD", category PLYWOOD, default linetype. */
  const PLYWOOD_ATTRS: Attrs := Attrs("PLYWOOD", WHITE, "CONTINUOUS", Plywood)

  /** `generate_rectangle`: bottom, right, top and left edges in that order. */
  function GenerateRectangle(b: BoundingBox): (r: seq<Line>)
    ensures |r| == 4
    ensures forall i :: 0 <= i < 4 ==> r[i].attrs == PLYWOOD_ATTRS
    ensures forall i :: 0 <= i < 3 ==> r[i].end == r[i + 1].start
    ensures r[3].end == r[0].start && r[0].start == Point(b.minX, b.minY)
  {
    var bl := Point(b.minX, b.minY);
    var br := Point(b.maxX, b.minY);
    var tr := Point(b.maxX, b.maxY);
    var tl := Point(b.minX, b.maxY);
    [Line(bl, br, PLYWOOD_ATTRS), Line(br, tr, PLYWOOD_ATTRS), Line(tr, tl, PLYWOOD_ATTRS), Line(tl, bl, PLYWOOD_ATTRS)]
  }

  /** The frame around a well-formed box has exactly that box: the bottom
      and top edges are horizontal, the sides vertical. */
  lemma RectangleBox(m: MathLib, b: BoundingBox)
    requires WellFormed(b)
    ensures var es := seq(4, i requires 0 <= i < 4 => LineE(GenerateRectangle(b)[i]));
      AllGeometric(es) && UnionOfBoxes(m, es) == b
    ensures IsHorizontal(GenerateRectangle(b)[0], 0.0) && IsHorizontal(GenerateRectangle(b)[2], 0.0)
    ensures IsVertical(GenerateRectangle(b)[1], 0.0) && IsVertical(GenerateRectangle(b)[3], 0.0)
  {
    var r := GenerateRectangle(b);
    var es := seq(4, i requires 0 <= i < 4 => LineE(r[i]));
    assert es[..4] == es;
    assert es[..4][..3] == es[..3] && es[..3][..2] == es[..2] && es[..2][..1] == es[..1];
    var u1 := UnionOfBoxes(m, es[..1]);
    assert u1 == LineBox(r[0]);
    var u2 := UnionOfBoxes(m, es[..2]);
    assert u2 == Union(u1, LineBox(r[1]));
    assert u2 == BoundingBox(b.minX, b.minY, b.maxX, b.maxY);
    var u3 := UnionOfBoxes(m, es[..3]);
    assert u3 == Union(u2, LineBox(r[2]));
    assert u3 == b;
    assert UnionOfBoxes(m, es) == Union(u3, LineBox(r[3]));
  }

  /** `apply_margins`. */
  function ApplyMargins(b: BoundingBox, s: PlywoodSettings): (r: BoundingBox)
    ensures r.minX == b.minX - s.leftMargin && r.minY == b.minY - s.bottomMargin
    ensures r.maxX == b.maxX + s.rightMargin && r.maxY == b.maxY + s.topMargin
    ensures Width(r) == Width(b) + s.leftMargin + s.rightMargin
    ensures Height(r) == Height(b) + s.topMargin + s.bottomMargin
  {
    BoundingBox(b.minX - s.leftMargin, b.minY - s.bottomMargin, b.maxX + s.rightMargin, b.maxY + s.topMargin)
  }

  /** With non-negative margins the framed box encloses the drawing's box. */
  lemma MarginsEnclose(b: BoundingBox, s: PlywoodSettings)
    requires s.topMargin >= 0.0 && s.bottomMargin >= 0.0 && s.leftMargin >= 0.0 && s.rightMargin >= 0.0
    ensures Encloses(ApplyMargins(b, s), b)
    ensures WellFormed(b) ==> WellFormed(ApplyMargins(b, s))
  {
  }

  /** `generate_with_margins`. */
  function GenerateWithMargins(b: BoundingBox, s: PlywoodSettings): (r: seq<Line>)
    ensures r == GenerateRectangle(ApplyMargins(b, s))
    ensures r[0].start == Point(b.minX - s.leftMargin, b.minY - s.bottomMargin)
    ensures r[2].start == Point(b.maxX + s.rightMargin, b.maxY + s.topMargin)
  {
    GenerateRectangle(ApplyMargins(b, s))
  }

  /** `generate_for_entities`: nothing for no entities, otherwise the frame
      with margins around their combined box. */
  function GenerateForEntities(m: MathLib, es: seq<Entity>, s: PlywoodSettings): (r: seq<Line>)
    requires AllGeometric(es)
    ensures |es| == 0 <==> |r| == 0
    ensures |es| > 0 ==> r == GenerateWithMargins(UnionOfBoxes(m, es), s)
  {
    match BoundingBoxOf(m, es)
    case None => []
    case Some(b) => GenerateWithMargins(b, s)
  }

  /** `calculate_drawing_position`: the offset computation cancels out, so
      the result is always the origin. */
  function CalculateDrawingPosition(drawing: BoundingBox, s: PlywoodSettings): (r: Point)
    ensures r == Point(0.0, 0.0)
  {
    var dx := 0.0 - drawing.minX;
    var dy := 0.0 - drawing.minY;
    Point(drawing.minX + dx, drawing.minY + dy)
  }
}
