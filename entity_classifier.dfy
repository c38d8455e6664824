/** `EntityClassifier`: the line category of an entity, from its layer name
    first and its colour second, and the policy for entities neither gives a
    category. */
module EntityClassifier {
  import opened Wrappers
  import opened Types
  import opened Strings
  import opened Entities

  datatype UnclassifiedHandling = TreatAsCut | TreatAsCrease | TreatAsAuxiliary | KeepUnknown | Skip

  /** The classifier's tables: keyword lists per category, tried in order,
      and the colour map; plus the unclassified policy. */
  datatype Classifier = Classifier(
    layerPatterns: seq<(LineCategory, seq<string>)>,
    colorMap: map<int, LineCategory>,
    handling: UnclassifiedHandling)

  const DEFAULT_LAYER_PATTERNS: seq<(LineCategory, seq<string>)> := [
    (Cut, ["CUT", "칼", "KNIFE", "DIE"]),
    (Crease, ["CREASE", "괘", "FOLD", "SCORE"]),
    (Auxiliary, ["AUX", "HELPER", "보조"]),
    (Plywood, ["PLYWOOD", "합판", "FRAME", "WOOD"])]

  const DEFAULT_COLOR_MAP: map<int, LineCategory> :=
    map[RED := Cut, BLUE := Crease, GREEN := Auxiliary, WHITE := Plywood]

  /** The classifier built with no arguments: default tables, TREAT_AS_CUT. */
  const DEFAULT_CLASSIFIER: Classifier := Classifier(DEFAULT_LAYER_PATTERNS, DEFAULT_COLOR_MAP, TreatAsCut)

  // ---------------------------------------------------------------------
  // Single entities

  /** Some keyword of the list, upper-cased, occurs in the upper-cased layer name. */
  predicate AnyPatternIn(upper: string, patterns: seq<string>) {
    exists k :: 0 <= k < |patterns| && Contains(upper, ToUpper(patterns[k]))
  }

  function ByLayerFrom(upper: string, table: seq<(LineCategory, seq<string>)>, i: nat): LineCategory
    decreases |table| - i
  {
    if i >= |table| then Unknown
    else if AnyPatternIn(upper, table[i].1) then table[i].0
    else ByLayerFrom(upper, table, i + 1)
  }

  /** `_classify_by_layer`. */
  function ClassifyByLayer(cl: Classifier, layer: string): LineCategory {
    ByLayerFrom(ToUpper(layer), cl.layerPatterns, 0)
  }

  /** `_classify_by_color`: the colour map's entry, UNKNOWN when there is none. */
  function ClassifyByColor(cl: Classifier, color: int): (r: LineCategory)
    ensures color in cl.colorMap ==> r == cl.colorMap[color]
    ensures color !in cl.colorMap ==> r == Unknown
  {
    if color in cl.colorMap then cl.colorMap[color] else Unknown
  }

  /** `classify`: a layer other than "" and "0" whose keyword lookup gives a
      category decides; otherwise the colour does. */
  function Classify(cl: Classifier, e: Entity): LineCategory {
    var layer := Layer(e);
    if layer != "" && layer != "0" && ClassifyByLayer(cl, layer) != Unknown then ClassifyByLayer(cl, layer)
    else ClassifyByColor(cl, Color(e))
  }

  /** The layer lookup returns the category of the first table entry with a
      matching keyword, and UNKNOWN when no entry matches. */
  lemma {:induction false} ByLayerFromFirst(upper: string, table: seq<(LineCategory, seq<string>)>, i: nat)
    requires i <= |table|
    ensures (forall j :: i <= j < |table| ==> !AnyPatternIn(upper, table[j].1)) ==> ByLayerFrom(upper, table, i) == Unknown
    ensures forall j :: (i <= j < |table| && AnyPatternIn(upper, table[j].1) &&
      (forall k :: i <= k < j ==> !AnyPatternIn(upper, table[k].1))) ==> ByLayerFrom(upper, table, i) == table[j].0
    decreases |table| - i
  {
    if i < |table| {
      ByLayerFromFirst(upper, table, i + 1);
    }
  }

  /** With the default tables the categories are tried in the order CUT,
      CREASE, AUXILIARY, PLYWOOD: a layer holding a CUT keyword is CUT whatever
      else it holds, one holding a CREASE keyword but no CUT keyword is CREASE. */
  lemma DefaultLayerOrder(layer: string)
    ensures var u := ToUpper(layer);
      AnyPatternIn(u, DEFAULT_LAYER_PATTERNS[0].1) ==> ClassifyByLayer(DEFAULT_CLASSIFIER, layer) == Cut
    ensures var u := ToUpper(layer);
      !AnyPatternIn(u, DEFAULT_LAYER_PATTERNS[0].1) && AnyPatternIn(u, DEFAULT_LAYER_PATTERNS[1].1) ==>
        ClassifyByLayer(DEFAULT_CLASSIFIER, layer) == Crease
    ensures var u := ToUpper(layer);
      (forall j :: 0 <= j < 4 ==> !AnyPatternIn(u, DEFAULT_LAYER_PATTERNS[j].1)) ==>
        ClassifyByLayer(DEFAULT_CLASSIFIER, layer) == Unknown
  {
    ByLayerFromFirst(ToUpper(layer), DEFAULT_LAYER_PATTERNS, 0);
  }

  /** The default colour fallback: 1 is CUT, 5 CREASE, 3 AUXILIARY, 7 PLYWOOD,
      anything else UNKNOWN. */
  lemma DefaultColors(color: int)
    ensures ClassifyByColor(DEFAULT_CLASSIFIER, color) ==
      (if color == 1 then Cut else if color == 5 then Crease else if color == 3 then Auxiliary
       else if color == 7 then Plywood else Unknown)
  {
  }

  /** A recognised layer keyword wins over the colour; a layer of "" or "0",
      or one without keyword, leaves the decision to the colour. */
  lemma LayerBeforeColor(cl: Classifier, e: Entity)
    ensures Layer(e) != "" && Layer(e) != "0" && ClassifyByLayer(cl, Layer(e)) != Unknown ==>
      Classify(cl, e) == ClassifyByLayer(cl, Layer(e))
    ensures (Layer(e) == "" || Layer(e) == "0" || ClassifyByLayer(cl, Layer(e)) == Unknown) ==>
      Classify(cl, e) == ClassifyByColor(cl, Color(e))
  {
  }

  // ---------------------------------------------------------------------
  // Lists

  /** The entities of one category under `classify`, in input order. */
  function OfCategory(cl: Classifier, es: seq<Entity>, c: LineCategory): (r: seq<Entity>)
    ensures |r| <= |es|
    ensures forall i :: 0 <= i < |r| ==> r[i] in es && Classify(cl, r[i]) == c
  {
    if |es| == 0 then []
    else
      var init := OfCategory(cl, es[..|es| - 1], c);
      var last := es[|es| - 1];
      init + (if Classify(cl, last) == c then [last] else [])
  }

  const ALL_CATEGORIES: seq<LineCategory> := [Cut, Crease, Auxiliary, Plywood, Unknown]

  /** `classify_all`: one bucket per category, every entity appended to the
      bucket of its category. */
  method ClassifyAll(cl: Classifier, es: seq<Entity>) returns (buckets: map<LineCategory, seq<Entity>>)
    ensures forall c :: c in buckets
    ensures forall c :: buckets[c] == OfCategory(cl, es, c)
  {
    buckets := map[Cut := [], Crease := [], Auxiliary := [], Plywood := [], Unknown := []];
    forall c: LineCategory
      ensures c in buckets && buckets[c] == OfCategory(cl, es[..0], c)
    {
      match c
      case Cut =>
      case Crease =>
      case Auxiliary =>
      case Plywood =>
      case Unknown =>
    }
    var i := 0;
    while i < |es|
      invariant 0 <= i <= |es|
      invariant forall c :: c in buckets
      invariant forall c :: buckets[c] == OfCategory(cl, es[..i], c)
    {
      var c := Classify(cl, es[i]);
      assert es[..i + 1][..i] == es[..i];
      buckets := buckets[c := buckets[c] + [es[i]]];
      i := i + 1;
    }
    assert es[..|es|] == es;
  }

  function SumBuckets(cl: Classifier, es: seq<Entity>): nat {
    |OfCategory(cl, es, Cut)| + |OfCategory(cl, es, Crease)| + |OfCategory(cl, es, Auxiliary)| +
    |OfCategory(cl, es, Plywood)| + |OfCategory(cl, es, Unknown)|
  }

  /** Every entity lands in exactly one bucket: the bucket sizes add up to the input length. */
  lemma {:induction false} BucketsPartition(cl: Classifier, es: seq<Entity>)
    ensures SumBuckets(cl, es) == |es|
  {
    if |es| > 0 {
      BucketsPartition(cl, es[..|es| - 1]);
    }
  }

  /** `apply_categories`: each entity with its category set, in order. The
      classified list never holds generated texts, which have no category. */
  function ApplyCategories(cl: Classifier, es: seq<Entity>): (r: seq<Entity>)
    requires AllGeometric(es)
    ensures |r| == |es| && AllGeometric(r)
    ensures forall i :: 0 <= i < |es| ==> r[i] == SetCategory(es[i], Classify(cl, es[i]))
  {
    seq(|es|, i requires 0 <= i < |es| => SetCategory(es[i], Classify(cl, es[i])))
  }

  /** Applying categories keeps every entity's layer, colour and geometry and
      sets its category to what `classify` says. */
  lemma ApplyCategoriesKeeps(cl: Classifier, es: seq<Entity>, i: int)
    requires AllGeometric(es) && 0 <= i < |es|
    ensures var r := ApplyCategories(cl, es)[i];
      CategoryOf(r) == Some(Classify(cl, es[i])) && Layer(r) == Layer(es[i]) && Color(r) == Color(es[i]) &&
      AttrsOf(r).linetype == AttrsOf(es[i]).linetype
  {
  }

  /** `count_unclassified`. */
  function CountUnclassified(cl: Classifier, es: seq<Entity>): nat {
    if |es| == 0 then 0
    else CountUnclassified(cl, es[..|es| - 1]) + (if Classify(cl, es[|es| - 1]) == Unknown then 1 else 0)
  }

  /** `get_unclassified_entities`. */
  function GetUnclassified(cl: Classifier, es: seq<Entity>): (r: seq<Entity>)
    ensures forall i :: 0 <= i < |r| ==> Classify(cl, r[i]) == Unknown
  {
    OfCategory(cl, es, Unknown)
  }

  /** `count_unclassified` is the length of `get_unclassified_entities`. */
  lemma {:induction false} CountIsLength(cl: Classifier, es: seq<Entity>)
    ensures CountUnclassified(cl, es) == |GetUnclassified(cl, es)|
  {
    if |es| > 0 {
      CountIsLength(cl, es[..|es| - 1]);
    }
  }

  // ---------------------------------------------------------------------
  // Classification with the unclassified policy

  datatype ClassificationResult = ClassificationResult(
    classifiedEntities: seq<Entity>,
    unclassifiedCount: nat,
    statistics: map<LineCategory, nat>)

  /** `total_count`: the classified entities plus the unclassified ones. */
  function TotalCount(r: ClassificationResult): nat {
    |r.classifiedEntities| + r.unclassifiedCount
  }

  /** The category an entity ends up with, or None when SKIP drops it. */
  function Resolved(cl: Classifier, e: Entity): (r: Option<LineCategory>)
    ensures Classify(cl, e) != Unknown ==> r == Some(Classify(cl, e))
    ensures r.None? <==> Classify(cl, e) == Unknown && cl.handling == Skip
    ensures r.Some? && r.value == Unknown ==> cl.handling == KeepUnknown
  {
    var c := Classify(cl, e);
    if c != Unknown then Some(c)
    else match cl.handling
      case Skip => None
      case TreatAsCut => Some(Cut)
      case TreatAsCrease => Some(Crease)
      case TreatAsAuxiliary => Some(Auxiliary)
      case KeepUnknown => Some(Unknown)
  }

  /** The classified list: each kept entity with its resolved category, in order. */
  function ResolvedEntities(cl: Classifier, es: seq<Entity>): (r: seq<Entity>)
    requires AllGeometric(es)
    ensures AllGeometric(r) && |r| <= |es|
  {
    if |es| == 0 then []
    else
      var last := es[|es| - 1];
      var c := Resolved(cl, last);
      ResolvedEntities(cl, es[..|es| - 1]) + (if c.None? then [] else [SetCategory(last, c.value)])
  }

  /** How many of the classified entities have category `c`. */
  function CountCategory(es: seq<Entity>, c: LineCategory): nat {
    if |es| == 0 then 0
    else CountCategory(es[..|es| - 1], c) + (if CategoryOf(es[|es| - 1]) == Some(c) then 1 else 0)
  }

  function SumStatistics(stats: map<LineCategory, nat>): nat
    requires forall c :: c in stats
  {
    stats[Cut] + stats[Crease] + stats[Auxiliary] + stats[Plywood] + stats[Unknown]
  }

  /** `apply_categories_with_result`. */
  method ApplyCategoriesWithResult(cl: Classifier, es: seq<Entity>) returns (result: ClassificationResult)
    requires AllGeometric(es)
    ensures result.classifiedEntities == ResolvedEntities(cl, es)
    ensures result.unclassifiedCount == CountUnclassified(cl, es)
    ensures forall c :: c in result.statistics && result.statistics[c] == CountCategory(result.classifiedEntities, c)
  {
    var entities: seq<Entity> := [];
    var statistics: map<LineCategory, nat> := map[Cut := 0, Crease := 0, Auxiliary := 0, Plywood := 0, Unknown := 0];
    forall c: LineCategory
      ensures c in statistics && statistics[c] == CountCategory(entities, c)
    {
      match c
      case Cut =>
      case Crease =>
      case Auxiliary =>
      case Plywood =>
      case Unknown =>
    }
    var unclassified := 0;
    var i := 0;
    while i < |es|
      invariant 0 <= i <= |es|
      invariant Tallied(cl, es[..i], entities, unclassified, statistics)
    {
      entities, unclassified, statistics := ApplyOne(cl, es, i, entities, unclassified, statistics);
      i := i + 1;
    }
    assert es[..|es|] == es;
    result := ClassificationResult(entities, unclassified, statistics);
  }

  /** The state of `apply_categories_with_result` after a prefix of the input:
      the classified entities, the unclassified count and the category counts. */
  predicate Tallied(cl: Classifier, prefix: seq<Entity>, entities: seq<Entity>, unclassified: nat,
                    statistics: map<LineCategory, nat>) {
    AllGeometric(prefix) && entities == ResolvedEntities(cl, prefix) &&
    unclassified == CountUnclassified(cl, prefix) &&
    forall c :: c in statistics && statistics[c] == CountCategory(entities, c)
  }

  /** One pass of the loop of `apply_categories_with_result`. */
  method ApplyOne(cl: Classifier, es: seq<Entity>, i: nat, entities: seq<Entity>, unclassified: nat,
                  statistics: map<LineCategory, nat>)
    returns (entities': seq<Entity>, unclassified': nat, statistics': map<LineCategory, nat>)
    requires i < |es| && AllGeometric(es) && Tallied(cl, es[..i], entities, unclassified, statistics)
    ensures Tallied(cl, es[..i + 1], entities', unclassified', statistics')
  {
    var e := es[i];
    var keep, category, unknown := ResolveCategory(cl, e);
    ResolvedStep(cl, es, i, entities, unclassified, Resolved(cl, e), unknown);
    unclassified' := if unknown then unclassified + 1 else unclassified;
    entities', statistics' := entities, statistics;
    if keep {
      var updated := SetCategory(e, category);
      CountStep(entities, updated, statistics);
      entities' := entities + [updated];
      statistics' := statistics[category := statistics[category] + 1];
    }
  }

  /** The body of the loop of `apply_categories_with_result` up to the append:
      the entity's category, whether it was unknown, and whether it is kept. */
  method ResolveCategory(cl: Classifier, e: Entity) returns (keep: bool, category: LineCategory, unknown: bool)
    ensures unknown <==> Classify(cl, e) == Unknown
    ensures keep <==> Resolved(cl, e).Some?
    ensures keep ==> category == Resolved(cl, e).value
  {
    category := Classify(cl, e);
    keep := true;
    unknown := category == Unknown;
    if unknown {
      match cl.handling {
        case Skip => keep := false;
        case TreatAsCut => category := Cut;
        case TreatAsCrease => category := Crease;
        case TreatAsAuxiliary => category := Auxiliary;
        case KeepUnknown =>
      }
    }
  }

  /** One more entity extends the classified list and the unclassified count. */
  lemma ResolvedStep(cl: Classifier, es: seq<Entity>, i: nat, prev: seq<Entity>, count: nat,
                     r: Option<LineCategory>, unknown: bool)
    requires i < |es| && AllGeometric(es)
    requires AllGeometric(es[..i]) && prev == ResolvedEntities(cl, es[..i]) && count == CountUnclassified(cl, es[..i])
    requires r == Resolved(cl, es[i]) && (unknown <==> Classify(cl, es[i]) == Unknown)
    ensures AllGeometric(es[..i + 1])
    ensures ResolvedEntities(cl, es[..i + 1]) == prev + (if r.None? then [] else [SetCategory(es[i], r.value)])
    ensures CountUnclassified(cl, es[..i + 1]) == count + (if unknown then 1 else 0)
  {
    var p := es[..i + 1];
    assert p[..i] == es[..i];
    assert p[i] == es[i];
  }

  /** Appending a classified entity adds one to its own category's count only. */
  lemma CountStep(es: seq<Entity>, x: Entity, stats: map<LineCategory, nat>)
    requires IsGeometric(x)
    requires forall c :: c in stats && stats[c] == CountCategory(es, c)
    ensures var k := AttrsOf(x).category;
      forall c :: c in stats[k := stats[k] + 1] && stats[k := stats[k] + 1][c] == CountCategory(es + [x], c)
  {
    var t := es + [x];
    assert t[..|t| - 1] == es;
  }

  /** The category counts of a list add up to its length. */
  lemma {:induction false} CountCategoriesSum(es: seq<Entity>)
    requires AllGeometric(es)
    ensures CountCategory(es, Cut) + CountCategory(es, Crease) + CountCategory(es, Auxiliary) +
      CountCategory(es, Plywood) + CountCategory(es, Unknown) == |es|
  {
    if |es| > 0 {
      var init := es[..|es| - 1];
      assert forall i :: 0 <= i < |init| ==> init[i] == es[i];
      CountCategoriesSum(init);
      var last := es[|es| - 1];
      assert CategoryOf(last) == Some(AttrsOf(last).category);
      match AttrsOf(last).category
      case Cut => assert CountCategory(es, Cut) == CountCategory(init, Cut) + 1;
      case Crease => assert CountCategory(es, Crease) == CountCategory(init, Crease) + 1;
      case Auxiliary => assert CountCategory(es, Auxiliary) == CountCategory(init, Auxiliary) + 1;
      case Plywood => assert CountCategory(es, Plywood) == CountCategory(init, Plywood) + 1;
      case Unknown => assert CountCategory(es, Unknown) == CountCategory(init, Unknown) + 1;
    }
  }

  /** Under SKIP exactly the unclassified entities are dropped, so the
      classified ones plus the unclassified count are the input; under every
      other policy the length is kept. */
  lemma {:induction false} ResolvedCounts(cl: Classifier, es: seq<Entity>)
    requires AllGeometric(es)
    ensures cl.handling == Skip ==> |ResolvedEntities(cl, es)| + CountUnclassified(cl, es) == |es|
    ensures cl.handling != Skip ==> |ResolvedEntities(cl, es)| == |es|
  {
    if |es| > 0 {
      ResolvedCounts(cl, es[..|es| - 1]);
    }
  }

  /** The statistics of `apply_categories_with_result` add up to the number of
      classified entities, and under SKIP `total_count` is the input length. */
  lemma ResultTotals(cl: Classifier, es: seq<Entity>, result: ClassificationResult)
    requires AllGeometric(es)
    requires result.classifiedEntities == ResolvedEntities(cl, es)
    requires result.unclassifiedCount == CountUnclassified(cl, es)
    requires forall c :: c in result.statistics && result.statistics[c] == CountCategory(result.classifiedEntities, c)
    ensures SumStatistics(result.statistics) == |result.classifiedEntities|
    ensures cl.handling == Skip ==> TotalCount(result) == |es|
  {
    CountCategoriesSum(result.classifiedEntities);
    ResolvedCounts(cl, es);
  }
}
