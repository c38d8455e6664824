/** `GeometryService`: bounding box, mirror, translate and centring over
    whole entity lists. */
module GeometryService {
  import opened Wrappers
  import opened RealMath
  import opened Points
  import opened BoundingBoxes
  import opened Entities

  /** The union of the entities' boxes, folded left to right. */
  function UnionOfBoxes(m: MathLib, es: seq<Entity>): BoundingBox
    requires |es| > 0 && AllGeometric(es)
  {
    if |es| == 1 then Box(m, es[0])
    else Union(UnionOfBoxes(m, es[..|es| - 1]), Box(m, es[|es| - 1]))
  }

  /** What `calculate_bounding_box` returns: None for no entities. */
  function BoundingBoxOf(m: MathLib, es: seq<Entity>): Option<BoundingBox>
    requires AllGeometric(es)
  {
    if |es| == 0 then None else Some(UnionOfBoxes(m, es))
  }

  /** `calculate_bounding_box`. */
  method CalculateBoundingBox(m: MathLib, es: seq<Entity>) returns (r: Option<BoundingBox>)
    requires AllGeometric(es)
    ensures r == BoundingBoxOf(m, es)
  {
    if |es| == 0 {
      return None;
    }
    var result := Box(m, es[0]);
    assert es[..1] == [es[0]];
    var i := 1;
    while i < |es|
      invariant 1 <= i <= |es|
      invariant AllGeometric(es[..i]) && result == UnionOfBoxes(m, es[..i])
    {
      UnionOfBoxesStep(m, es, i);
      result := Union(result, Box(m, es[i]));
      i := i + 1;
    }
    assert es[..|es|] == es;
    return Some(result);
  }

  /** One more entity widens the union by its box. */
  lemma UnionOfBoxesStep(m: MathLib, es: seq<Entity>, i: nat)
    requires 1 <= i < |es| && AllGeometric(es)
    ensures AllGeometric(es[..i]) && AllGeometric(es[..i + 1])
    ensures UnionOfBoxes(m, es[..i + 1]) == Union(UnionOfBoxes(m, es[..i]), Box(m, es[i]))
  {
    var p := es[..i + 1];
    assert p[..i] == es[..i];
    assert p[i] == es[i];
  }

  /** The union is well formed and encloses every entity's box ... */
  lemma {:induction false} UnionOfBoxesEncloses(m: MathLib, es: seq<Entity>)
    requires |es| > 0 && AllGeometric(es)
    ensures WellFormed(UnionOfBoxes(m, es))
    ensures forall i :: 0 <= i < |es| ==> Encloses(UnionOfBoxes(m, es), Box(m, es[i]))
  {
    if |es| > 1 {
      var init := es[..|es| - 1];
      UnionOfBoxesEncloses(m, init);
      var u, b := UnionOfBoxes(m, init), Box(m, es[|es| - 1]);
      var w := UnionOfBoxes(m, es);
      assert w == Union(u, b);
      UnionWellFormed(u, b);
      forall i | 0 <= i < |es|
        ensures Encloses(w, Box(m, es[i]))
      {
        if i < |init| {
          assert init[i] == es[i];
          EnclosesTransitive(w, u, Box(m, es[i]));
        }
      }
    }
  }

  /** ... and is the least box that does. */
  lemma {:induction false} UnionOfBoxesLeast(m: MathLib, es: seq<Entity>, c: BoundingBox)
    requires |es| > 0 && AllGeometric(es)
    requires forall i :: 0 <= i < |es| ==> Encloses(c, Box(m, es[i]))
    ensures Encloses(c, UnionOfBoxes(m, es))
  {
    if |es| > 1 {
      var init := es[..|es| - 1];
      assert forall i :: 0 <= i < |init| ==> init[i] == es[i];
      UnionOfBoxesLeast(m, init, c);
      UnionLeast(UnionOfBoxes(m, init), Box(m, es[|es| - 1]), c);
    }
  }

  /** `mirror_entities_x`: each entity mirrored, in order. */
  function MirrorEntities(es: seq<Entity>, c: real): (r: seq<Entity>)
    requires AllGeometric(es)
    ensures |r| == |es| && AllGeometric(r)
    ensures forall i :: 0 <= i < |es| ==> r[i] == Mirror(es[i], c)
  {
    seq(|es|, i requires 0 <= i < |es| => Mirror(es[i], c))
  }

  /** Mirroring a list twice about the same axis gives it back. */
  lemma MirrorEntitiesInvolution(es: seq<Entity>, c: real)
    requires AllGeometric(es)
    ensures MirrorEntities(MirrorEntities(es, c), c) == es
  {
    forall i | 0 <= i < |es|
      ensures MirrorEntities(MirrorEntities(es, c), c)[i] == es[i]
    {
      MirrorInvolution(es[i], c);
    }
  }

  /** Mirroring keeps every y coordinate and every attribute. */
  lemma MirrorKeepsY(e: Entity, c: real)
    requires IsGeometric(e)
    ensures AttrsOf(Mirror(e, c)) == AttrsOf(e)
    ensures e.LineE? ==> Mirror(e, c).line.start.y == e.line.start.y && Mirror(e, c).line.end.y == e.line.end.y
    ensures e.ArcE? ==> Mirror(e, c).arc.center.y == e.arc.center.y && Mirror(e, c).arc.radius == e.arc.radius
    ensures e.PolyE? ==> forall i :: 0 <= i < |e.poly.vertices| ==> Mirror(e, c).poly.vertices[i].y == e.poly.vertices[i].y
  {
  }

  /** `translate_entities`: each entity moved by the same offset, in order. */
  function TranslateEntities(es: seq<Entity>, dx: real, dy: real): (r: seq<Entity>)
    requires AllGeometric(es)
    ensures |r| == |es| && AllGeometric(r)
    ensures forall i :: 0 <= i < |es| ==> r[i] == Move(es[i], dx, dy)
  {
    seq(|es|, i requires 0 <= i < |es| => Move(es[i], dx, dy))
  }

  /** A translated arc keeps its radius and angles; a translated list undoes by the opposite offset. */
  lemma TranslateEntitiesProperties(es: seq<Entity>, dx: real, dy: real)
    requires AllGeometric(es)
    ensures forall i :: 0 <= i < |es| && es[i].ArcE? ==>
      var a := TranslateEntities(es, dx, dy)[i].arc;
      a.radius == es[i].arc.radius && a.startAngle == es[i].arc.startAngle && a.endAngle == es[i].arc.endAngle
    ensures TranslateEntities(TranslateEntities(es, dx, dy), -dx, -dy) == es
  {
    forall i | 0 <= i < |es|
      ensures TranslateEntities(TranslateEntities(es, dx, dy), -dx, -dy)[i] == es[i]
    {
      MoveInverse(es[i], dx, dy);
    }
  }

  predicate NoEmptyPolyline(es: seq<Entity>) {
    forall i :: 0 <= i < |es| ==> !EmptyPolyline(es[i])
  }

  /** Moving every entity moves the union of their boxes. */
  lemma {:induction false} UnionOfBoxesMove(m: MathLib, es: seq<Entity>, dx: real, dy: real)
    requires |es| > 0 && AllGeometric(es) && NoEmptyPolyline(es)
    ensures UnionOfBoxes(m, TranslateEntities(es, dx, dy)) == TranslateBox(UnionOfBoxes(m, es), dx, dy)
  {
    var t := TranslateEntities(es, dx, dy);
    BoxMove(m, es[|es| - 1], dx, dy);
    if |es| > 1 {
      var init := es[..|es| - 1];
      assert t[..|t| - 1] == TranslateEntities(init, dx, dy);
      UnionOfBoxesMove(m, init, dx, dy);
      UnionTranslate(UnionOfBoxes(m, init), Box(m, es[|es| - 1]), dx, dy);
    }
  }

  /** What `center_at` returns: the entities moved so that their box's centre
      is `target`, or the input itself when it is empty. */
  function CenteredAt(m: MathLib, es: seq<Entity>, target: Point): (r: seq<Entity>)
    requires AllGeometric(es)
    ensures |r| == |es| && AllGeometric(r)
  {
    if |es| == 0 then es
    else
      var c := Center(UnionOfBoxes(m, es));
      TranslateEntities(es, target.x - c.x, target.y - c.y)
  }

  /** `center_at`. */
  method CenterAt(m: MathLib, es: seq<Entity>, target: Point) returns (r: seq<Entity>)
    requires AllGeometric(es)
    ensures r == CenteredAt(m, es, target)
  {
    var bbox := CalculateBoundingBox(m, es);
    if bbox.None? {
      return es;
    }
    var current := Center(bbox.value);
    r := TranslateEntities(es, target.x - current.x, target.y - current.y);
  }

  /** Moving the entities moves the centre of their box by the same offset. */
  lemma CentreMove(m: MathLib, es: seq<Entity>, dx: real, dy: real)
    requires |es| > 0 && AllGeometric(es) && NoEmptyPolyline(es)
    ensures Center(UnionOfBoxes(m, TranslateEntities(es, dx, dy))) == Points.Translate(Center(UnionOfBoxes(m, es)), dx, dy)
  {
    UnionOfBoxesMove(m, es, dx, dy);
  }

  /** After centring, the box's centre is exactly the target (when no
      polyline is empty, since an empty polyline's box stays at the origin). */
  lemma CenteredAtCentre(m: MathLib, es: seq<Entity>, target: Point)
    requires |es| > 0 && AllGeometric(es) && NoEmptyPolyline(es)
    ensures var r := CenteredAt(m, es, target); |r| > 0 && Center(UnionOfBoxes(m, r)) == target
  {
    var c := Center(UnionOfBoxes(m, es));
    var dx, dy := target.x - c.x, target.y - c.y;
    var t := TranslateEntities(es, dx, dy);
    assert CenteredAt(m, es, target) == t;
    CentreMove(m, es, dx, dy);
    TranslateOnto(c, target);
  }

  lemma TranslateOnto(c: Point, target: Point)
    ensures Points.Translate(c, target.x - c.x, target.y - c.y) == target
  {
  }
}
