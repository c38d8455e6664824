/** `FilenameGenerator`: output file names of the form
    date_jobnumber_packagename_side.dxf, and a numbered variant that avoids
    names already taken. */
module FilenameGenerator {
  import opened Wrappers
  import opened Strings
  import opened TextGenerator
  import opened Paths

  datatype FilenameGen = FilenameGen(separator: string, extension: string)

  const DEFAULT_FILENAME_GEN: FilenameGen := FilenameGen("_", ".dxf")

  /** The characters a file name may not hold. */
  const INVALID_CHARS: string := "<>:\"/\\|?*"

  predicate Invalid(c: char) {
    c in INVALID_CHARS
  }

  /** `_sanitize`: every invalid character removed, the rest kept in order. */
  function Sanitize(text: string): (r: string)
    ensures |r| <= |text|
    ensures forall i :: 0 <= i < |r| ==> !Invalid(r[i])
  {
    if |text| == 0 then ""
    else
      var last := text[|text| - 1];
      Sanitize(text[..|text| - 1]) + (if Invalid(last) then "" else [last])
  }

  /** Sanitizing works character by character: a concatenation sanitizes
      to the concatenation of the sanitized parts. */
  lemma {:induction false} SanitizeAppend(a: string, b: string)
    ensures Sanitize(a + b) == Sanitize(a) + Sanitize(b)
  {
    if |b| > 0 {
      var init := b[..|b| - 1];
      SanitizeAppend(a, init);
      assert (a + b)[..|a + b| - 1] == a + init;
      assert Sanitize(b) == Sanitize(init) + (if Invalid(b[|b| - 1]) then "" else [b[|b| - 1]]);
    } else {
      assert a + b == a;
    }
  }

  /** A single character is dropped exactly when it is invalid. */
  lemma SanitizeChar(c: char)
    ensures Sanitize([c]) == (if Invalid(c) then "" else [c])
  {
    assert [c][..0] == "";
  }

  /** Text without invalid characters is kept unchanged. */
  lemma {:induction false} SanitizeValid(text: string)
    requires forall i :: 0 <= i < |text| ==> !Invalid(text[i])
    ensures Sanitize(text) == text
  {
    if |text| > 0 {
      SanitizeValid(text[..|text| - 1]);
      assert text[..|text| - 1] + [text[|text| - 1]] == text;
    }
  }

  /** Sanitizing twice is sanitizing once. */
  lemma SanitizeIdempotent(text: string)
    ensures Sanitize(Sanitize(text)) == Sanitize(text)
  {
    SanitizeValid(Sanitize(text));
  }

  /** `generate`: date, job number, sanitized package name and side text
      joined by the separator, then the extension. */
  function Generate(g: FilenameGen, j: JobInfo): (r: string)
    requires ValidDate(j.date)
    ensures r == FormattedDate(j.date) + g.separator + j.jobNumber + g.separator + Sanitize(j.packageName) +
      g.separator + SideText(j.side) + g.extension
  {
    var parts := [FormattedDate(j.date), j.jobNumber, Sanitize(j.packageName), SideText(j.side)];
    JoinFour(g.separator, FormattedDate(j.date), j.jobNumber, Sanitize(j.packageName), SideText(j.side));
    Join(g.separator, parts) + g.extension
  }

  /** Four parts joined: each separated from the next by one separator. */
  lemma JoinFour(sep: string, a: string, b: string, c: string, d: string)
    ensures Join(sep, [a, b, c, d]) == a + sep + b + sep + c + sep + d
  {
    var parts := [a, b, c, d];
    assert parts[1..] == [b, c, d];
    assert parts[1..][1..] == [c, d];
    assert parts[1..][1..][1..] == [d];
    assert Join(sep, [c, d]) == c + sep + d;
    assert Join(sep, [b, c, d]) == b + sep + Join(sep, [c, d]);
    assert Join(sep, parts) == a + sep + Join(sep, [b, c, d]);
  }

  /** With the default separator and extension the name starts with the
      ten-character date and an underscore, ends with the one-character side
      text and ".dxf", and so determines the job's date and side. */
  lemma DefaultNameShape(j1: JobInfo, j2: JobInfo)
    requires ValidDate(j1.date) && ValidDate(j2.date)
    ensures var r := Generate(DEFAULT_FILENAME_GEN, j1);
      |r| >= 17 && r[..10] == FormattedDate(j1.date) && r[10] == '_' &&
      r[|r| - 4..] == ".dxf" && r[|r| - 5..|r| - 4] == SideText(j1.side)
    ensures Generate(DEFAULT_FILENAME_GEN, j1) == Generate(DEFAULT_FILENAME_GEN, j2) ==>
      j1.date == j2.date && j1.side == j2.side
  {
    var r1 := Generate(DEFAULT_FILENAME_GEN, j1);
    var r2 := Generate(DEFAULT_FILENAME_GEN, j2);
    assert r1[..10] == FormattedDate(j1.date);
    assert r1[|r1| - 5..|r1| - 4] == SideText(j1.side);
    assert r2[..10] == FormattedDate(j2.date);
    assert r2[|r2| - 5..|r2| - 4] == SideText(j2.side);
    if r1 == r2 {
      FormattedDateInjective(j1.date, j2.date);
    }
  }

  /** `generate_path`: the generated name inside `baseDir`. */
  function GeneratePath(g: FilenameGen, j: JobInfo, baseDir: Path): (r: Path)
    requires ValidDate(j.date)
    ensures Parent(r) == baseDir && Name(r) == Generate(g, j)
  {
    ChildParts(baseDir, Generate(g, j));
    Child(baseDir, Generate(g, j))
  }

  /** The last counter `generate_with_increment` tries. */
  const MAX_COUNTER: nat := 1000

  /** The numbered name for `counter`: the base name with every occurrence
      of the extension removed, the separator, the counter, the extension. */
  function Numbered(g: FilenameGen, baseFilename: string, counter: nat): string {
    RemoveAll(baseFilename, g.extension) + g.separator + NatToString(counter) + g.extension
  }

  /** The first counter from `counter` up to `MAX_COUNTER` whose numbered
      name is free, if any. */
  function FirstFree(g: FilenameGen, baseFilename: string, existing: seq<string>, counter: nat): Option<nat>
    decreases MAX_COUNTER + 1 - counter
  {
    if counter > MAX_COUNTER then None
    else if Numbered(g, baseFilename, counter) !in existing then Some(counter)
    else FirstFree(g, baseFilename, existing, counter + 1)
  }

  /** What `generate_with_increment` returns. */
  function WithIncrement(g: FilenameGen, j: JobInfo, existing: Option<seq<string>>): Result<string>
    requires ValidDate(j.date)
  {
    var base := Generate(g, j);
    if existing.None? || |existing.value| == 0 || base !in existing.value then Success(base)
    else match FirstFree(g, base, existing.value, 2)
      case None => Failure("Too many duplicate files")
      case Some(k) => Success(Numbered(g, base, k))
  }

  /** `generate_with_increment`. */
  method GenerateWithIncrement(g: FilenameGen, j: JobInfo, existing: Option<seq<string>>) returns (r: Result<string>)
    requires ValidDate(j.date)
    ensures r == WithIncrement(g, j, existing)
  {
    var baseFilename := Generate(g, j);
    if existing.None? || |existing.value| == 0 {
      return Success(baseFilename);
    }
    if baseFilename !in existing.value {
      return Success(baseFilename);
    }
    var baseName := RemoveAll(baseFilename, g.extension);
    var counter: nat := 2;
    while true
      invariant 2 <= counter <= MAX_COUNTER
      invariant FirstFree(g, baseFilename, existing.value, counter) == FirstFree(g, baseFilename, existing.value, 2)
      decreases MAX_COUNTER + 1 - counter
    {
      var newFilename := baseName + g.separator + NatToString(counter) + g.extension;
      if newFilename !in existing.value {
        return Success(newFilename);
      }
      counter := counter + 1;
      if counter > MAX_COUNTER {
        return Failure("Too many duplicate files");
      }
    }
  }

  /** A free counter is the first free one from where the search started. */
  lemma {:induction false} FirstFreeIsFirst(g: FilenameGen, baseFilename: string, existing: seq<string>, counter: nat)
    ensures var r := FirstFree(g, baseFilename, existing, counter);
      (r.Some? ==> (counter <= r.value <= MAX_COUNTER && Numbered(g, baseFilename, r.value) !in existing &&
        forall k :: counter <= k < r.value ==> Numbered(g, baseFilename, k) in existing)) &&
      (r.None? ==> forall k :: counter <= k <= MAX_COUNTER ==> Numbered(g, baseFilename, k) in existing)
    decreases MAX_COUNTER + 1 - counter
  {
    if counter <= MAX_COUNTER && Numbered(g, baseFilename, counter) in existing {
      FirstFreeIsFirst(g, baseFilename, existing, counter + 1);
      var r := FirstFree(g, baseFilename, existing, counter + 1);
      assert FirstFree(g, baseFilename, existing, counter) == r;
      forall k | counter <= k <= MAX_COUNTER && (r.None? || k < r.value)
        ensures Numbered(g, baseFilename, k) in existing
      {
        if k > counter {
          assert counter + 1 <= k;
        }
      }
    }
  }

  /** Different counters give different names, so the search tries
      `MAX_COUNTER - 1` distinct names before it gives up. */
  lemma NumberedInjective(g: FilenameGen, baseFilename: string, a: nat, b: nat)
    requires Numbered(g, baseFilename, a) == Numbered(g, baseFilename, b)
    ensures a == b
  {
    var pre := RemoveAll(baseFilename, g.extension) + g.separator;
    var na := Numbered(g, baseFilename, a);
    assert na == pre + NatToString(a) + g.extension;
    assert Numbered(g, baseFilename, b) == pre + NatToString(b) + g.extension;
    assert |NatToString(a)| == |NatToString(b)|;
    assert NatToString(a) == na[|pre|..|pre| + |NatToString(a)|];
    assert NatToString(b) == na[|pre|..|pre| + |NatToString(b)|];
    NatToStringInjective(a, b);
  }

  /** The result of `generate_with_increment`: the base name when there is
      nothing to compare with or it is free; otherwise the first free
      numbered name, which is not taken; an error only when every numbered
      name up to `MAX_COUNTER` is taken. */
  lemma WithIncrementCorrect(g: FilenameGen, j: JobInfo, existing: Option<seq<string>>)
    requires ValidDate(j.date)
    ensures var base := Generate(g, j);
      var r := WithIncrement(g, j, existing);
      ((existing.None? || base !in existing.value) ==> r == Success(base)) &&
      (r.Success? && existing.Some? ==> r.value !in existing.value) &&
      (existing.Some? && base in existing.value ==>
        (r.Failure? <==> forall k :: 2 <= k <= MAX_COUNTER ==> Numbered(g, base, k) in existing.value) &&
        (r.Success? ==> exists k :: (2 <= k <= MAX_COUNTER && r.value == Numbered(g, base, k) &&
          forall k' :: 2 <= k' < k ==> Numbered(g, base, k') in existing.value)))
  {
    var base := Generate(g, j);
    if existing.Some? && base in existing.value {
      FirstFreeIsFirst(g, base, existing.value, 2);
      var first := FirstFree(g, base, existing.value, 2);
      if first.Some? {
        assert Numbered(g, base, first.value) !in existing.value;
      }
    }
  }
}
