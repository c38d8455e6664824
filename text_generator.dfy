/** `JobInfo`, `TextEntity` and `TextGenerator`: the job label placed above
    the plywood frame and the side marker. */
module TextGenerator {
  import opened Types
  import opened Strings
  import opened Points
  import opened BoundingBoxes

  /** A calendar date as `datetime.date` holds it. */
  datatype Date = Date(year: int, month: int, day: int)

  /** The range `datetime.date` accepts (day-of-month limits per month are
      not needed for formatting). */
  predicate ValidDate(d: Date) {
    1 <= d.year <= 9999 && 1 <= d.month <= 12 && 1 <= d.day <= 31
  }

  datatype JobInfo = JobInfo(date: Date, jobNumber: string, packageName: string, side: Side, plateType: PlateType)

  /** A text to draw, with the source's defaults: height 3.5, no rotation,
      layer "TEXT", white. */
  datatype TextEntity = TextEntity(content: string, position: Point, height: real, rotation: real, layer: string, color: int)

  const TEXT_LAYER: string := "TEXT"

  /** The label settings: text height, line spacing factor and gap above the frame. */
  datatype TextGen = TextGen(textHeight: real, lineSpacing: real, marginFromPlywood: real)

  const DEFAULT_TEXT_GEN: TextGen := TextGen(3.5, 1.5, 5.0)

  /** `formatted_date`: `strftime("%Y-%m-%d")`, zero-padded fields. */
  function FormattedDate(d: Date): (r: string)
    requires ValidDate(d)
    ensures |r| == 10 && r[4] == '-' && r[7] == '-'
    ensures AllDigits(r[..4]) && AllDigits(r[5..7]) && AllDigits(r[8..])
  {
    ZeroPadWidth(d.year, 4);
    ZeroPadWidth(d.month, 2);
    ZeroPadWidth(d.day, 2);
    var r := ZeroPad(d.year, 4) + "-" + ZeroPad(d.month, 2) + "-" + ZeroPad(d.day, 2);
    assert r[..4] == ZeroPad(d.year, 4) && r[5..7] == ZeroPad(d.month, 2) && r[8..] == ZeroPad(d.day, 2);
    r
  }

  /** The three fields read back from the formatted date are the date's. */
  lemma FormattedDateRoundTrip(d: Date)
    requires ValidDate(d)
    ensures var r := FormattedDate(d);
      DecimalValue(r[..4]) == d.year && DecimalValue(r[5..7]) == d.month && DecimalValue(r[8..]) == d.day
  {
    var r := FormattedDate(d);
    ZeroPadWidth(d.year, 4);
    ZeroPadWidth(d.month, 2);
    ZeroPadWidth(d.day, 2);
    assert r[..4] == ZeroPad(d.year, 4) && r[5..7] == ZeroPad(d.month, 2) && r[8..] == ZeroPad(d.day, 2);
    ZeroPadRoundTrip(d.year, 4);
    ZeroPadRoundTrip(d.month, 2);
    ZeroPadRoundTrip(d.day, 2);
  }

  /** Different dates never format alike. */
  lemma FormattedDateInjective(d1: Date, d2: Date)
    requires ValidDate(d1) && ValidDate(d2) && FormattedDate(d1) == FormattedDate(d2)
    ensures d1 == d2
  {
    FormattedDateRoundTrip(d1);
    FormattedDateRoundTrip(d2);
  }

  /** `side_text`: "앞" for the front, "뒤" otherwise. */
  function SideText(s: Side): (r: string)
    ensures r == (if s == Front then "앞" else "뒤")
  {
    match s
    case Front => "앞"
    case Back => "뒤"
  }

  /** `plate_text`: "동판" for copper, "자동" otherwise. */
  function PlateText(p: PlateType): (r: string)
    ensures r == (if p == Copper then "동판" else "자동")
  {
    match p
    case Copper => "동판"
    case Auto => "자동"
  }

  /** `format_job_text`: "{date} No.{job_number} {package_name} {side_text}". */
  function FormatJobText(j: JobInfo): (r: string)
    requires ValidDate(j.date)
    ensures |r| == 17 + |j.jobNumber| + |j.packageName|
    ensures r[..10] == FormattedDate(j.date) && r[10..14] == " No."
    ensures r[14..14 + |j.jobNumber|] == j.jobNumber && r[14 + |j.jobNumber|] == ' '
    ensures r[15 + |j.jobNumber|..|r| - 2] == j.packageName && r[|r| - 2] == ' '
    ensures r[|r| - 1..] == SideText(j.side)
  {
    FormattedDate(j.date) + " No." + j.jobNumber + " " + j.packageName + " " + SideText(j.side)
  }

  /** `generate_job_info_texts`: one text, the formatted job line, at the
      origin with the configured height. */
  function GenerateJobInfoTexts(g: TextGen, j: JobInfo): (r: seq<TextEntity>)
    requires ValidDate(j.date)
    ensures |r| == 1 && r[0].content == FormatJobText(j)
    ensures r[0].position == Point(0.0, 0.0) && r[0].height == g.textHeight && r[0].layer == TEXT_LAYER
  {
    [TextEntity(FormatJobText(j), Point(0.0, 0.0), g.textHeight, 0.0, TEXT_LAYER, WHITE)]
  }

  /** `generate_side_marker`: the side text at double height. */
  function GenerateSideMarker(g: TextGen, s: Side): (r: TextEntity)
    ensures r.content == SideText(s) && r.height == g.textHeight * 2.0
    ensures r.layer == TEXT_LAYER && r.color == WHITE
  {
    TextEntity(SideText(s), Point(0.0, 0.0), g.textHeight * 2.0, 0.0, TEXT_LAYER, WHITE)
  }

  /** The three label lines at their heights above the frame. */
  function PositionedTexts(g: TextGen, j: JobInfo, frame: BoundingBox): seq<TextEntity>
    requires ValidDate(j.date)
  {
    var step := g.textHeight * g.lineSpacing;
    var y0 := frame.maxY + g.marginFromPlywood;
    [TextEntity(FormattedDate(j.date) + "  No." + j.jobNumber, Point(frame.minX, y0), g.textHeight, 0.0, TEXT_LAYER, WHITE),
     TextEntity(j.packageName, Point(frame.minX, y0 + step), g.textHeight, 0.0, TEXT_LAYER, WHITE),
     TextEntity(SideText(j.side) + "  " + PlateText(j.plateType), Point(frame.minX, y0 + step + step), g.textHeight, 0.0, TEXT_LAYER, WHITE)]
  }

  /** `generate_positioned_texts`: the label lines, built one by one. */
  method GeneratePositionedTexts(g: TextGen, j: JobInfo, frame: BoundingBox) returns (texts: seq<TextEntity>)
    requires ValidDate(j.date)
    ensures texts == PositionedTexts(g, j, frame)
  {
    var textY := frame.maxY + g.marginFromPlywood;
    var textX := frame.minX;
    texts := [TextEntity(FormattedDate(j.date) + "  No." + j.jobNumber, Point(textX, textY), g.textHeight, 0.0, TEXT_LAYER, WHITE)];
    textY := textY + g.textHeight * g.lineSpacing;
    texts := texts + [TextEntity(j.packageName, Point(textX, textY), g.textHeight, 0.0, TEXT_LAYER, WHITE)];
    textY := textY + g.textHeight * g.lineSpacing;
    texts := texts + [TextEntity(SideText(j.side) + "  " + PlateText(j.plateType), Point(textX, textY), g.textHeight, 0.0, TEXT_LAYER, WHITE)];
    ghost var spec := PositionedTexts(g, j, frame);
    assert texts[0] == spec[0] && texts[1] == spec[1] && texts[2] == spec[2];
  }

  /** Three lines left-aligned on the frame: the date and job number, the
      package name, then the side and plate type; the first `margin` above
      the frame's top and each next one a line higher. */
  lemma PositionedTextsShape(g: TextGen, j: JobInfo, frame: BoundingBox)
    requires ValidDate(j.date)
    ensures var texts := PositionedTexts(g, j, frame);
      |texts| == 3 &&
      texts[0].content == FormattedDate(j.date) + "  No." + j.jobNumber &&
      texts[1].content == j.packageName &&
      texts[2].content == SideText(j.side) + "  " + PlateText(j.plateType) &&
      (forall i :: 0 <= i < 3 ==>
        texts[i].position.x == frame.minX && texts[i].height == g.textHeight &&
        texts[i].layer == TEXT_LAYER && texts[i].color == WHITE) &&
      texts[0].position.y == frame.maxY + g.marginFromPlywood &&
      (forall i :: 0 <= i < 2 ==>
        texts[i + 1].position.y == texts[i].position.y + g.textHeight * g.lineSpacing)
  {
  }

  /** With non-negative settings every label line sits at or above the
      frame's top, each one above the one before. */
  lemma PositionedTextsAboveFrame(g: TextGen, j: JobInfo, frame: BoundingBox)
    requires ValidDate(j.date)
    requires g.marginFromPlywood >= 0.0 && g.textHeight >= 0.0 && g.lineSpacing >= 0.0
    ensures var texts := PositionedTexts(g, j, frame);
      frame.maxY <= texts[0].position.y <= texts[1].position.y <= texts[2].position.y
  {
    NonNegProduct(g.textHeight, g.lineSpacing);
  }

  lemma NonNegProduct(a: real, b: real)
    requires a >= 0.0 && b >= 0.0
    ensures a * b >= 0.0
  {
  }

  /** `generate_positioned_side_marker`: the marker 20 mm left of the
      drawing's right edge and 10 mm above its bottom. */
  function GeneratePositionedSideMarker(g: TextGen, s: Side, drawing: BoundingBox): (r: TextEntity)
    ensures r.content == SideText(s) && r.height == g.textHeight * 2.0
    ensures r.position == Point(drawing.maxX - 20.0, drawing.minY + 10.0)
    ensures r.layer == TEXT_LAYER && r.color == WHITE
  {
    var marker := GenerateSideMarker(g, s);
    TextEntity(marker.content, Point(drawing.maxX - 20.0, drawing.minY + 10.0), marker.height, 0.0, marker.layer, marker.color)
  }
}
