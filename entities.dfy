/** The drawn entities the pipeline passes between stages: lines, arcs,
    polylines (the geometric entities) and generated texts. */
module Entities {
  import opened Wrappers
  import opened Types
  import opened RealMath
  import opened BoundingBoxes
  import opened EntityBase
  import opened Lines
  import opened Arcs
  import opened Polylines
  import opened TextGenerator

  datatype Entity =
    | LineE(line: Line)
    | ArcE(arc: Arc)
    | PolyE(poly: Polyline)
    | TextE(text: TextEntity)

  /** Lines, arcs and polylines carry `Attrs`, a bounding box, `mirror_x`
      and `translate`; a text has only a layer and a colour. */
  predicate IsGeometric(e: Entity) {
    !e.TextE?
  }

  predicate AllGeometric(es: seq<Entity>) {
    forall i :: 0 <= i < |es| ==> IsGeometric(es[i])
  }

  function AttrsOf(e: Entity): Attrs
    requires IsGeometric(e)
  {
    match e
    case LineE(l) => l.attrs
    case ArcE(a) => a.attrs
    case PolyE(p) => p.attrs
  }

  function Layer(e: Entity): string {
    if e.TextE? then e.text.layer else AttrsOf(e).layer
  }

  function Color(e: Entity): int {
    if e.TextE? then e.text.color else AttrsOf(e).color
  }

  /** `getattr(entity, 'category', None)`: a text has none. */
  function CategoryOf(e: Entity): Option<LineCategory> {
    if e.TextE? then None else Some(AttrsOf(e).category)
  }

  /** `replace(entity, category=c)`: only the category changes. */
  function SetCategory(e: Entity, c: LineCategory): (r: Entity)
    requires IsGeometric(e)
    ensures IsGeometric(r) && CategoryOf(r) == Some(c)
    ensures AttrsOf(r) == EntityBase.WithCategory(AttrsOf(e), c)
    ensures Layer(r) == Layer(e) && Color(r) == Color(e)
    ensures e.LineE? ==> r.LineE? && r.line.start == e.line.start && r.line.end == e.line.end
    ensures e.ArcE? ==> r.ArcE? && r.arc.(attrs := e.arc.attrs) == e.arc
    ensures e.PolyE? ==> r.PolyE? && r.poly.vertices == e.poly.vertices && r.poly.closed == e.poly.closed
  {
    match e
    case LineE(l) => LineE(l.(attrs := EntityBase.WithCategory(l.attrs, c)))
    case ArcE(a) => ArcE(a.(attrs := EntityBase.WithCategory(a.attrs, c)))
    case PolyE(p) => PolyE(Polylines.WithCategory(p, c))
  }

  /** The `bounding_box` property of each geometric entity. */
  function Box(m: MathLib, e: Entity): (b: BoundingBox)
    requires IsGeometric(e)
    ensures WellFormed(b)
  {
    match e
    case LineE(l) => LineBox(l)
    case ArcE(a) => ArcBox(m, a)
    case PolyE(p) => PolylineBox(p)
  }

  /** `mirror_x` of each geometric entity. */
  function Mirror(e: Entity, c: real): (r: Entity)
    requires IsGeometric(e)
    ensures IsGeometric(r) && AttrsOf(r) == AttrsOf(e)
    ensures e.LineE? ==> r == LineE(Lines.MirrorX(e.line, c))
    ensures e.ArcE? ==> r == ArcE(Arcs.MirrorX(e.arc, c))
    ensures e.PolyE? ==> r == PolyE(Polylines.MirrorX(e.poly, c))
  {
    match e
    case LineE(l) => LineE(Lines.MirrorX(l, c))
    case ArcE(a) => ArcE(Arcs.MirrorX(a, c))
    case PolyE(p) => PolyE(Polylines.MirrorX(p, c))
  }

  /** Mirroring twice about the same axis gives the entity back. */
  lemma MirrorInvolution(e: Entity, c: real)
    requires IsGeometric(e)
    ensures Mirror(Mirror(e, c), c) == e
  {
    match e
    case LineE(l) => Lines.MirrorXInvolution(l, c);
    case ArcE(a) => Arcs.MirrorXInvolution(a, c);
    case PolyE(p) => Polylines.MirrorXInvolution(p, c);
  }

  /** `translate` of each geometric entity. */
  function Move(e: Entity, dx: real, dy: real): (r: Entity)
    requires IsGeometric(e)
    ensures IsGeometric(r) && AttrsOf(r) == AttrsOf(e)
    ensures e.LineE? ==> r == LineE(Lines.Translate(e.line, dx, dy))
    ensures e.ArcE? ==> r == ArcE(Arcs.Translate(e.arc, dx, dy))
    ensures e.PolyE? ==> r == PolyE(Polylines.Translate(e.poly, dx, dy))
  {
    match e
    case LineE(l) => LineE(Lines.Translate(l, dx, dy))
    case ArcE(a) => ArcE(Arcs.Translate(a, dx, dy))
    case PolyE(p) => PolyE(Polylines.Translate(p, dx, dy))
  }

  lemma MoveInverse(e: Entity, dx: real, dy: real)
    requires IsGeometric(e)
    ensures Move(Move(e, dx, dy), -dx, -dy) == e
  {
    match e
    case LineE(l) => Lines.TranslateProperties(l, dx, dy);
    case ArcE(a) => Arcs.TranslateInverse(a, dx, dy);
    case PolyE(p) => Polylines.TranslateInverse(p, dx, dy);
  }

  /** A polyline without vertices: its box stays at the origin whatever moves it. */
  predicate EmptyPolyline(e: Entity) {
    e.PolyE? && |e.poly.vertices| == 0
  }

  /** The box of a moved entity is its box moved, except for an empty polyline. */
  lemma BoxMove(m: MathLib, e: Entity, dx: real, dy: real)
    requires IsGeometric(e) && !EmptyPolyline(e)
    ensures Box(m, Move(e, dx, dy)) == TranslateBox(Box(m, e), dx, dy)
  {
    match e
    case LineE(l) =>
    case ArcE(a) => ArcBoxTranslate(m, a, dx, dy);
    case PolyE(p) => PolylineBoxTranslate(p, dx, dy);
  }
}
