/** `PaperSize`: a named sheet size in mm, validated on construction. */
module PaperSizes {
  import opened Wrappers
  import opened RealMath
  import opened Strings

  datatype PaperSize = PaperSize(name: string, width: real, height: real)

  const MIN_SIZE: real := 100.0
  const MAX_WIDTH: real := 2000.0
  const MAX_HEIGHT: real := 3000.0

  /** The standard (Korean and ISO) sizes, in the source's order. */
  const STANDARD_SIZES: seq<(string, real, real)> := [
    ("국전", 636.0, 939.0),
    ("국반절", 636.0, 469.0),
    ("국4절", 318.0, 469.0),
    ("4x6전지", 788.0, 1091.0),
    ("4x6반절", 545.0, 788.0),
    ("4x6 4절", 394.0, 545.0),
    ("46판", 394.0, 545.0),
    ("A1", 594.0, 841.0),
    ("A2", 420.0, 594.0),
    ("A3", 297.0, 420.0),
    ("A4", 210.0, 297.0)
  ]

  predicate ValidDimensions(w: real, h: real) {
    MIN_SIZE <= w <= MAX_WIDTH && MIN_SIZE <= h <= MAX_HEIGHT
  }

  /** The constructor with `__post_init__`: width too small, height too small,
      width too large, height too large, checked in that order. */
  function MakePaperSize(name: string, w: real, h: real): (r: Result<PaperSize>)
    ensures r.Success? <==> ValidDimensions(w, h)
    ensures r.Success? ==> r.value == PaperSize(name, w, h)
    ensures w < MIN_SIZE ==> r == Failure("Width must be at least 100.0mm")
  {
    if w < MIN_SIZE then Failure("Width must be at least 100.0mm")
    else if h < MIN_SIZE then Failure("Height must be at least 100.0mm")
    else if w > MAX_WIDTH then Failure("Width must not exceed 2000.0mm")
    else if h > MAX_HEIGHT then Failure("Height must not exceed 3000.0mm")
    else Success(PaperSize(name, w, h))
  }

  /** `get_standard_names`. */
  function StandardNames(): (r: seq<string>)
    ensures |r| == |STANDARD_SIZES|
    ensures forall i :: 0 <= i < |r| ==> r[i] == STANDARD_SIZES[i].0
  {
    seq(|STANDARD_SIZES|, i requires 0 <= i < |STANDARD_SIZES| => STANDARD_SIZES[i].0)
  }

  /** Dictionary lookup in the table by name. */
  function LookupStandard(name: string, table: seq<(string, real, real)>): (r: Option<(real, real)>)
    ensures r.None? <==> forall i :: 0 <= i < |table| ==> table[i].0 != name
    ensures r.Some? ==> exists i :: 0 <= i < |table| && table[i] == (name, r.value.0, r.value.1)
  {
    if |table| == 0 then None
    else if table[0].0 == name then Some((table[0].1, table[0].2))
    else
      var rest := LookupStandard(name, table[1..]);
      assert forall i :: 1 <= i < |table| ==> table[i] == table[1..][i - 1];
      rest
  }

  /** `from_standard`: the table's dimensions under that name, or the error
      for an unknown name. */
  function FromStandard(name: string): (r: Result<PaperSize>)
    ensures r.Failure? <==> name !in StandardNames()
    ensures r.Success? ==> r.value.name == name
  {
    match LookupStandard(name, STANDARD_SIZES)
    case None => Failure("Unknown standard size: " + name)
    case Some(dims) =>
      StandardSizesValid();
      MakePaperSize(name, dims.0, dims.1)
  }

  /** Every table entry satisfies the construction rules. */
  lemma StandardSizesValid()
    ensures forall i :: 0 <= i < |STANDARD_SIZES| ==> ValidDimensions(STANDARD_SIZES[i].1, STANDARD_SIZES[i].2)
  {
  }

  /** No two table entries share a name. */
  lemma StandardNamesDistinct()
    ensures forall i, j :: 0 <= i < j < |STANDARD_SIZES| ==> STANDARD_SIZES[i].0 != STANDARD_SIZES[j].0
  {
  }

  /** The lookup finds the first entry under the name. */
  lemma {:induction false} LookupFirst(name: string, table: seq<(string, real, real)>, i: nat)
    requires i < |table| && table[i].0 == name
    requires forall j :: 0 <= j < i ==> table[j].0 != name
    ensures LookupStandard(name, table) == Some((table[i].1, table[i].2))
    decreases i
  {
    if i > 0 {
      assert table[0].0 != name;
      forall j | 0 <= j < i - 1 ensures table[1..][j].0 != name {
        assert table[1..][j] == table[j + 1];
      }
      LookupFirst(name, table[1..], i - 1);
    }
  }

  /** Every standard size comes back under its own name with its table
      dimensions. */
  lemma FromStandardEntry(i: nat)
    requires i < |STANDARD_SIZES|
    ensures var e := STANDARD_SIZES[i];
      FromStandard(e.0) == Success(PaperSize(e.0, e.1, e.2))
  {
    StandardNamesDistinct();
    StandardSizesValid();
    LookupFirst(STANDARD_SIZES[i].0, STANDARD_SIZES, i);
  }

  /** `custom`: named `f"{w:.0f}x{h:.0f}"`, where `.0f` rounds half to even. */
  function Custom(w: real, h: real): (r: Result<PaperSize>)
    ensures r.Success? <==> ValidDimensions(w, h)
    ensures r.Success? ==> r.value.width == w && r.value.height == h
  {
    MakePaperSize(IntToString(RoundHalfEven(w)) + "x" + IntToString(RoundHalfEven(h)), w, h)
  }

  /** `area`. */
  function Area(p: PaperSize): real {
    p.width * p.height
  }

  predicate IsLandscape(p: PaperSize) {
    p.width > p.height
  }

  predicate IsPortrait(p: PaperSize) {
    p.height > p.width
  }

  /** Never both orientations; a square sheet has neither. */
  lemma Orientation(p: PaperSize)
    ensures !(IsLandscape(p) && IsPortrait(p))
    ensures p.width == p.height <==> !IsLandscape(p) && !IsPortrait(p)
  {
  }

  /** `rotate`: dimensions swapped under the name with " (회전)" appended, and
      validated again, so a sheet taller than the maximum width cannot rotate. */
  function Rotate(p: PaperSize): (r: Result<PaperSize>)
    ensures r.Success? <==> ValidDimensions(p.height, p.width)
    ensures r.Success? ==> r.value == PaperSize(p.name + " (회전)", p.height, p.width)
  {
    MakePaperSize(p.name + " (회전)", p.height, p.width)
  }

  /** For a valid sheet, rotation fails exactly when its height exceeds 2000
      (the new width); rotating twice restores the dimensions. */
  lemma RotateProperties(p: PaperSize)
    requires ValidDimensions(p.width, p.height)
    ensures Rotate(p).Failure? <==> p.height > MAX_WIDTH
    ensures Rotate(p).Success? ==>
      Rotate(Rotate(p).value).Success? &&
      Rotate(Rotate(p).value).value.width == p.width &&
      Rotate(Rotate(p).value).value.height == p.height
    ensures Rotate(p).Success? ==> IsLandscape(Rotate(p).value) == IsPortrait(p)
  {
  }

  /** `fits_drawing`: inclusive on both dimensions. */
  predicate FitsDrawing(p: PaperSize, dw: real, dh: real) {
    dw <= p.width && dh <= p.height
  }

  /** A sheet fits its own size, and a drawing larger in either direction does not. */
  lemma FitsDrawingInclusive(p: PaperSize, dw: real, dh: real)
    ensures FitsDrawing(p, p.width, p.height)
    ensures dw > p.width || dh > p.height ==> !FitsDrawing(p, dw, dh)
  {
  }
}
