/** `ElementRemover`: drops the entities that lie entirely outside the
    plywood frame, except the protected ones. */
module ElementRemover {
  import opened Wrappers
  import opened Types
  import opened Strings
  import opened RealMath
  import opened Points
  import opened BoundingBoxes
  import opened Entities

  datatype RemovalMode = RemoveAll | KeepAuxiliary | KeepText | ConfirmEach

  /** Layers never removed (compared case-insensitively) and categories
      `identify_external_elements` always keeps. */
  datatype Remover = Remover(excludeLayers: seq<string>, keepCategories: seq<LineCategory>)

  const DEFAULT_REMOVER: Remover := Remover(["PLYWOOD", "TEXT"], [Plywood])

  datatype RemovalResult = RemovalResult(kept: seq<Entity>, removed: seq<Entity>, removalCount: nat)

  /** `kept_count`. */
  function KeptCount(r: RemovalResult): nat {
    |r.kept|
  }

  /** `_get_entity_bbox`: a line's box, an arc's full circle, a text's
      estimated extent (0.6 × height per character); None for anything else. */
  function RemovalBox(e: Entity): (r: Option<BoundingBox>)
    ensures r.None? <==> e.PolyE?
    ensures e.ArcE? ==> r == Some(BoundingBox(e.arc.center.x - e.arc.radius, e.arc.center.y - e.arc.radius,
                                              e.arc.center.x + e.arc.radius, e.arc.center.y + e.arc.radius))
    ensures e.LineE? ==> r.Some? && WellFormed(r.value) && ContainsPoint(r.value, e.line.start) && ContainsPoint(r.value, e.line.end)
  {
    match e
    case LineE(l) =>
      Some(BoundingBox(Min(l.start.x, l.end.x), Min(l.start.y, l.end.y), Max(l.start.x, l.end.x), Max(l.start.y, l.end.y)))
    case ArcE(a) =>
      Some(BoundingBox(a.center.x - a.radius, a.center.y - a.radius, a.center.x + a.radius, a.center.y + a.radius))
    case TextE(t) =>
      Some(BoundingBox(t.position.x, t.position.y,
                       t.position.x + (|t.content| as real) * t.height * 0.6, t.position.y + t.height))
    case PolyE(_) => None
  }

  /** A text's estimated box is `len(content) × height × 0.6` wide and `height` tall. */
  lemma TextBoxSize(e: Entity)
    requires e.TextE?
    ensures var b := RemovalBox(e).value;
      Width(b) == (|e.text.content| as real) * e.text.height * 0.6 && Height(b) == e.text.height &&
      b.minX == e.text.position.x && b.minY == e.text.position.y
  {
  }

  /** `_is_completely_outside`: the entity's box lies strictly beyond one side
      of the frame; an entity without a box never is. */
  predicate Outside(e: Entity, frame: BoundingBox) {
    var b := RemovalBox(e);
    b.Some? && IsCompletelyOutside(b.value, frame)
  }

  function UpperAll(names: seq<string>): (r: seq<string>)
    ensures |r| == |names| && forall i :: 0 <= i < |names| ==> r[i] == ToUpper(names[i])
  {
    seq(|names|, i requires 0 <= i < |names| => ToUpper(names[i]))
  }

  /** The non-empty layer is one of the excluded ones, ignoring case. */
  predicate InExcludedLayer(rm: Remover, e: Entity) {
    Layer(e) != "" && ToUpper(Layer(e)) in UpperAll(rm.excludeLayers)
  }

  /** The decision `remove_external_elements` makes for one entity. */
  predicate ShouldRemove(rm: Remover, e: Entity, frame: BoundingBox, mode: RemovalMode) {
    Outside(e, frame) &&
    CategoryOf(e) != Some(Plywood) &&
    !InExcludedLayer(rm, e) &&
    match mode
    case RemoveAll => true
    case KeepAuxiliary => CategoryOf(e) != Some(Auxiliary)
    case KeepText => !e.TextE?
    case ConfirmEach => false
  }

  function KeptOf(rm: Remover, es: seq<Entity>, frame: BoundingBox, mode: RemovalMode): (r: seq<Entity>)
    ensures forall i :: 0 <= i < |r| ==> !ShouldRemove(rm, r[i], frame, mode)
  {
    if |es| == 0 then []
    else
      var last := es[|es| - 1];
      KeptOf(rm, es[..|es| - 1], frame, mode) + (if ShouldRemove(rm, last, frame, mode) then [] else [last])
  }

  function RemovedOf(rm: Remover, es: seq<Entity>, frame: BoundingBox, mode: RemovalMode): (r: seq<Entity>)
    ensures forall i :: 0 <= i < |r| ==> ShouldRemove(rm, r[i], frame, mode)
  {
    if |es| == 0 then []
    else
      var last := es[|es| - 1];
      RemovedOf(rm, es[..|es| - 1], frame, mode) + (if ShouldRemove(rm, last, frame, mode) then [last] else [])
  }

  /** `remove_external_elements`. */
  method RemoveExternalElements(rm: Remover, es: seq<Entity>, frame: BoundingBox, mode: RemovalMode)
    returns (result: RemovalResult)
    ensures result.kept == KeptOf(rm, es, frame, mode)
    ensures result.removed == RemovedOf(rm, es, frame, mode)
    ensures result.removalCount == |result.removed|
  {
    var kept: seq<Entity> := [];
    var removed: seq<Entity> := [];
    var i := 0;
    while i < |es|
      invariant 0 <= i <= |es|
      invariant kept == KeptOf(rm, es[..i], frame, mode)
      invariant removed == RemovedOf(rm, es[..i], frame, mode)
    {
      assert es[..i + 1][..i] == es[..i];
      var e := es[i];
      var shouldRemove := false;
      if Outside(e, frame) {
        var layer := Layer(e);
        var category := CategoryOf(e);
        if category == Some(Plywood) {
          shouldRemove := false;
        } else if layer != "" && ToUpper(layer) in UpperAll(rm.excludeLayers) {
          shouldRemove := false;
        } else {
          match mode {
            case RemoveAll => shouldRemove := true;
            case KeepAuxiliary => shouldRemove := category != Some(Auxiliary);
            case KeepText => shouldRemove := !e.TextE?;
            case ConfirmEach => shouldRemove := false;
          }
        }
      }
      if shouldRemove {
        removed := removed + [e];
      } else {
        kept := kept + [e];
      }
      i := i + 1;
    }
    assert es[..|es|] == es;
    result := RemovalResult(kept, removed, |removed|);
  }

  /** Kept and removed split the input: their sizes add up and together they
      hold every input entity as often as the input does. */
  lemma {:induction false} KeptRemovedPartition(rm: Remover, es: seq<Entity>, frame: BoundingBox, mode: RemovalMode)
    ensures |KeptOf(rm, es, frame, mode)| + |RemovedOf(rm, es, frame, mode)| == |es|
    ensures multiset(KeptOf(rm, es, frame, mode)) + multiset(RemovedOf(rm, es, frame, mode)) == multiset(es)
  {
    if |es| > 0 {
      var init := es[..|es| - 1];
      var last := es[|es| - 1];
      KeptRemovedPartition(rm, init, frame, mode);
      assert es == init + [last];
      assert multiset(es) == multiset(init) + multiset{last};
      var k, r := KeptOf(rm, init, frame, mode), RemovedOf(rm, init, frame, mode);
      if ShouldRemove(rm, last, frame, mode) {
        assert KeptOf(rm, es, frame, mode) == k;
        assert RemovedOf(rm, es, frame, mode) == r + [last];
        assert multiset(r + [last]) == multiset(r) + multiset{last};
      } else {
        assert KeptOf(rm, es, frame, mode) == k + [last];
        assert RemovedOf(rm, es, frame, mode) == r;
        assert multiset(k + [last]) == multiset(k) + multiset{last};
      }
    }
  }

  /** When nothing is to be removed, the kept list is the input. */
  lemma {:induction false} KeptAllWhenNothingRemoved(rm: Remover, es: seq<Entity>, frame: BoundingBox, mode: RemovalMode)
    requires forall i :: 0 <= i < |es| ==> !ShouldRemove(rm, es[i], frame, mode)
    ensures KeptOf(rm, es, frame, mode) == es && RemovedOf(rm, es, frame, mode) == []
  {
    if |es| > 0 {
      KeptAllWhenNothingRemoved(rm, es[..|es| - 1], frame, mode);
      assert es == es[..|es| - 1] + [es[|es| - 1]];
    }
  }

  /** Whatever the mode: plywood-category entities, entities on an excluded
      layer and polylines are never removed, nor is an entity whose box shares
      a point with the frame; CONFIRM_EACH removes nothing, KEEP_AUXILIARY
      spares auxiliary entities and KEEP_TEXT spares texts. */
  lemma Exemptions(rm: Remover, e: Entity, frame: BoundingBox, mode: RemovalMode, p: Point)
    ensures CategoryOf(e) == Some(Plywood) ==> !ShouldRemove(rm, e, frame, mode)
    ensures InExcludedLayer(rm, e) ==> !ShouldRemove(rm, e, frame, mode)
    ensures e.PolyE? ==> !ShouldRemove(rm, e, frame, mode)
    ensures RemovalBox(e).Some? && ContainsPoint(RemovalBox(e).value, p) && ContainsPoint(frame, p) ==>
      !ShouldRemove(rm, e, frame, mode)
    ensures mode == ConfirmEach ==> !ShouldRemove(rm, e, frame, mode)
    ensures mode == KeepAuxiliary && CategoryOf(e) == Some(Auxiliary) ==> !ShouldRemove(rm, e, frame, mode)
    ensures mode == KeepText && e.TextE? ==> !ShouldRemove(rm, e, frame, mode)
  {
    if RemovalBox(e).Some? && ContainsPoint(RemovalBox(e).value, p) && ContainsPoint(frame, p) {
      SharedPointNotOutside(RemovalBox(e).value, frame, p);
    }
  }

  /** The default layer exclusions spare texts generated on layer "TEXT" and frames on "plywood", in any case. */
  lemma DefaultExclusions(e: Entity)
    requires Layer(e) == "TEXT" || Layer(e) == "PLYWOOD" || Layer(e) == "plywood"
    ensures InExcludedLayer(DEFAULT_REMOVER, e)
  {
    var ups := UpperAll(DEFAULT_REMOVER.excludeLayers);
    assert ups[0] == "PLYWOOD" && ups[1] == "TEXT";
    if Layer(e) == "plywood" {
      assert ToUpper("plywood") == "PLYWOOD";
    } else if Layer(e) == "PLYWOOD" {
      assert ToUpper("PLYWOOD") == "PLYWOOD";
    } else {
      assert ToUpper("TEXT") == "TEXT";
    }
  }

  /** The test of `identify_external_elements`. */
  predicate IsExternal(rm: Remover, e: Entity, frame: BoundingBox) {
    !InExcludedLayer(rm, e) &&
    !(CategoryOf(e).Some? && CategoryOf(e).value in rm.keepCategories) &&
    Outside(e, frame)
  }

  function ExternalOf(rm: Remover, es: seq<Entity>, frame: BoundingBox): (r: seq<Entity>)
    ensures forall i :: 0 <= i < |r| ==> IsExternal(rm, r[i], frame)
  {
    if |es| == 0 then []
    else
      var last := es[|es| - 1];
      ExternalOf(rm, es[..|es| - 1], frame) + (if IsExternal(rm, last, frame) then [last] else [])
  }

  /** `identify_external_elements`. */
  method IdentifyExternalElements(rm: Remover, es: seq<Entity>, frame: BoundingBox) returns (external: seq<Entity>)
    ensures external == ExternalOf(rm, es, frame)
  {
    external := [];
    var i := 0;
    while i < |es|
      invariant 0 <= i <= |es|
      invariant external == ExternalOf(rm, es[..i], frame)
    {
      assert es[..i + 1][..i] == es[..i];
      var e := es[i];
      var layer := Layer(e);
      var category := CategoryOf(e);
      if layer != "" && ToUpper(layer) in UpperAll(rm.excludeLayers) {
      } else if category.Some? && category.value in rm.keepCategories {
      } else if Outside(e, frame) {
        external := external + [e];
      }
      i := i + 1;
    }
    assert es[..|es|] == es;
  }

  /** With only PLYWOOD kept by category, the identified external entities
      are exactly those REMOVE_ALL removes. */
  lemma {:induction false} IdentifyMatchesRemoveAll(rm: Remover, es: seq<Entity>, frame: BoundingBox)
    requires rm.keepCategories == [Plywood]
    ensures ExternalOf(rm, es, frame) == RemovedOf(rm, es, frame, RemoveAll)
  {
    if |es| > 0 {
      IdentifyMatchesRemoveAll(rm, es[..|es| - 1], frame);
      var e := es[|es| - 1];
      assert IsExternal(rm, e, frame) == ShouldRemove(rm, e, frame, RemoveAll);
    }
  }
}
