/** `Preset` and `PresetManager`: named processing settings, kept as JSON
    objects in files of a presets directory, next to four built-in presets. */
module PresetManager {
  import opened Wrappers
  import opened Types
  import opened PaperSizes
  import opened BridgeSettingsVO
  import opened Paths
  import StringOrder

  datatype Preset = Preset(
    name: string,
    side: Side,
    plateType: PlateType,
    paperSizeName: string,
    customWidth: real,
    customHeight: real,
    useCustomSize: bool,
    cutGap: real,
    cutInterval: real,
    creaseGap: real,
    creaseInterval: real,
    applyBridges: bool,
    applyStraightKnife: bool,
    removeExternal: bool,
    connectSegments: bool,
    decomposePolylines: bool)

  const DEFAULT_PAPER_NAME: string := "국전"

  /** `Preset(name)`: every other field at its declared default. */
  function NewPreset(name: string): Preset {
    Preset(name, Back, Copper, DEFAULT_PAPER_NAME, 636.0, 939.0, false,
           3.0, 60.0, 2.0, 50.0, true, true, true, false, true)
  }

  /** The JSON values a preset file holds. */
  datatype Json = JStr(str: string) | JNum(num: real) | JBool(flag: bool)

  /** The keys of a preset's JSON object, one per field. */
  datatype Field =
    | NameField | SideField | PlateTypeField | PaperSizeNameField
    | CustomWidthField | CustomHeightField | UseCustomSizeField
    | CutGapField | CutIntervalField | CreaseGapField | CreaseIntervalField
    | ApplyBridgesField | ApplyStraightKnifeField | RemoveExternalField
    | ConnectSegmentsField | DecomposePolylinesField

  /** The key each field is stored under. */
  function Key(f: Field): string {
    match f
    case NameField => "name"
    case SideField => "side"
    case PlateTypeField => "plate_type"
    case PaperSizeNameField => "paper_size_name"
    case CustomWidthField => "custom_width"
    case CustomHeightField => "custom_height"
    case UseCustomSizeField => "use_custom_size"
    case CutGapField => "cut_gap"
    case CutIntervalField => "cut_interval"
    case CreaseGapField => "crease_gap"
    case CreaseIntervalField => "crease_interval"
    case ApplyBridgesField => "apply_bridges"
    case ApplyStraightKnifeField => "apply_straight_knife"
    case RemoveExternalField => "remove_external"
    case ConnectSegmentsField => "connect_segments"
    case DecomposePolylinesField => "decompose_polylines"
  }

  /** The JSON type of each field's value. */
  predicate HasType(f: Field, v: Json) {
    match f
    case NameField | SideField | PlateTypeField | PaperSizeNameField => v.JStr?
    case CustomWidthField | CustomHeightField | CutGapField | CutIntervalField
       | CreaseGapField | CreaseIntervalField => v.JNum?
    case _ => v.JBool?
  }

  /** A JSON object, by the field its key names (`from_dict` reads no other
      key). */
  type Dict = map<Field, Json>

  /** The value `to_dict` stores for one field. */
  function FieldValue(p: Preset, f: Field): (v: Json)
    ensures HasType(f, v)
  {
    match f
    case NameField => JStr(p.name)
    case SideField => JStr(SideName(p.side))
    case PlateTypeField => JStr(PlateTypeName(p.plateType))
    case PaperSizeNameField => JStr(p.paperSizeName)
    case CustomWidthField => JNum(p.customWidth)
    case CustomHeightField => JNum(p.customHeight)
    case UseCustomSizeField => JBool(p.useCustomSize)
    case CutGapField => JNum(p.cutGap)
    case CutIntervalField => JNum(p.cutInterval)
    case CreaseGapField => JNum(p.creaseGap)
    case CreaseIntervalField => JNum(p.creaseInterval)
    case ApplyBridgesField => JBool(p.applyBridges)
    case ApplyStraightKnifeField => JBool(p.applyStraightKnife)
    case RemoveExternalField => JBool(p.removeExternal)
    case ConnectSegmentsField => JBool(p.connectSegments)
    case DecomposePolylinesField => JBool(p.decomposePolylines)
  }

  /** `to_dict`: one entry per field, the enums by member name. */
  function ToDict(p: Preset): (d: Dict)
    ensures forall f: Field :: f in d
    ensures WellTyped(d)
  {
    map f: Field | true :: FieldValue(p, f)
  }

  /** Every field the object holds has that field's JSON type. */
  predicate WellTyped(d: Dict) {
    forall f :: f in d ==> HasType(f, d[f])
  }

  /** `data.get(key, default)` for each JSON type. */
  function Str(d: Dict, f: Field, default: string): string {
    if f in d && d[f].JStr? then d[f].str else default
  }

  function Num(d: Dict, f: Field, default: real): real {
    if f in d && d[f].JNum? then d[f].num else default
  }

  function Flag(d: Dict, f: Field, default: bool): bool {
    if f in d && d[f].JBool? then d[f].flag else default
  }

  const DEFAULT_NAME: string := "Unnamed"

  /** The preset `from_dict` builds once the enums are looked up. */
  function Build(d: Dict, side: Side, plate: PlateType): Preset {
    Preset(Str(d, NameField, DEFAULT_NAME), side, plate, Str(d, PaperSizeNameField, DEFAULT_PAPER_NAME),
           Num(d, CustomWidthField, 636.0), Num(d, CustomHeightField, 939.0), Flag(d, UseCustomSizeField, false),
           Num(d, CutGapField, 3.0), Num(d, CutIntervalField, 60.0),
           Num(d, CreaseGapField, 2.0), Num(d, CreaseIntervalField, 50.0),
           Flag(d, ApplyBridgesField, true), Flag(d, ApplyStraightKnifeField, true),
           Flag(d, RemoveExternalField, true), Flag(d, ConnectSegmentsField, false),
           Flag(d, DecomposePolylinesField, true))
  }

  /** `from_dict`: each field from its key, or its default when the key is
      missing; no preset when a value has the wrong type or the side or
      plate type is not a member name (the `KeyError` of `Side[...]`). */
  function FromDict(d: Dict): (r: Option<Preset>)
    ensures r.None? <==> !WellTyped(d) || SideFromName(Str(d, SideField, "BACK")).None? ||
                         PlateTypeFromName(Str(d, PlateTypeField, "COPPER")).None?
  {
    if !WellTyped(d) then None
    else
      match (SideFromName(Str(d, SideField, "BACK")), PlateTypeFromName(Str(d, PlateTypeField, "COPPER")))
      case (Some(side), Some(plate)) => Some(Build(d, side, plate))
      case _ => None
  }

  /** Building from a preset's dictionary gives the preset back. */
  lemma BuildToDict(p: Preset)
    ensures Build(ToDict(p), p.side, p.plateType) == p
  {
    var d := ToDict(p);
    assert Str(d, NameField, DEFAULT_NAME) == p.name && Str(d, PaperSizeNameField, DEFAULT_PAPER_NAME) == p.paperSizeName;
    assert Num(d, CustomWidthField, 636.0) == p.customWidth && Num(d, CustomHeightField, 939.0) == p.customHeight;
    assert Num(d, CutGapField, 3.0) == p.cutGap && Num(d, CutIntervalField, 60.0) == p.cutInterval;
    assert Num(d, CreaseGapField, 2.0) == p.creaseGap && Num(d, CreaseIntervalField, 50.0) == p.creaseInterval;
    assert Flag(d, UseCustomSizeField, false) == p.useCustomSize && Flag(d, ApplyBridgesField, true) == p.applyBridges;
    assert Flag(d, ApplyStraightKnifeField, true) == p.applyStraightKnife && Flag(d, RemoveExternalField, true) == p.removeExternal;
    assert Flag(d, ConnectSegmentsField, false) == p.connectSegments && Flag(d, DecomposePolylinesField, true) == p.decomposePolylines;
  }

  /** A preset survives `to_dict` and `from_dict`, enums included. */
  lemma FromDictToDict(p: Preset)
    ensures FromDict(ToDict(p)) == Some(p)
  {
    NameRoundTrips(p.side, p.plateType);
    var d := ToDict(p);
    assert Str(d, SideField, "BACK") == SideName(p.side);
    assert Str(d, PlateTypeField, "COPPER") == PlateTypeName(p.plateType);
    BuildToDict(p);
  }

  /** So no two presets have the same dictionary. */
  lemma ToDictInjective(p: Preset, q: Preset)
    requires ToDict(p) == ToDict(q)
    ensures p == q
  {
    FromDictToDict(p);
    FromDictToDict(q);
  }

  /** The defaults `from_dict` fills in are the declared field defaults, with
      the name "Unnamed". */
  lemma FromDictEmpty()
    ensures FromDict(map[]) == Some(NewPreset(DEFAULT_NAME))
  {
  }

  /** Every field of a parsed preset is what the object holds under its key,
      or the default when the key is missing. */
  lemma FromDictFields(d: Dict)
    requires FromDict(d).Some?
    ensures var p := FromDict(d).value; var defaults := ToDict(NewPreset(DEFAULT_NAME));
      forall f :: ToDict(p)[f] == if f in d then d[f] else defaults[f]
  {
    var p := FromDict(d).value;
    var q := NewPreset(DEFAULT_NAME);
    forall f
      ensures FieldValue(p, f) == if f in d then d[f] else FieldValue(q, f)
    {
      match f
      case SideField =>
        if f in d {
          assert SideName(p.side) == d[f].str;
        }
      case PlateTypeField =>
        if f in d {
          assert PlateTypeName(p.plateType) == d[f].str;
        }
      case _ =>
    }
  }

  /** `get_paper_size`: the custom dimensions when `use_custom_size` is set,
      otherwise the standard size of that name. */
  function GetPaperSize(p: Preset): (r: Result<PaperSize>)
    ensures p.useCustomSize ==> (r.Success? <==> ValidDimensions(p.customWidth, p.customHeight))
    ensures p.useCustomSize && r.Success? ==> r.value.width == p.customWidth && r.value.height == p.customHeight
    ensures !p.useCustomSize ==> (r.Failure? <==> p.paperSizeName !in StandardNames())
    ensures !p.useCustomSize && r.Success? ==> r.value.name == p.paperSizeName
  {
    if p.useCustomSize then Custom(p.customWidth, p.customHeight) else FromStandard(p.paperSizeName)
  }

  /** `get_cut_bridge_settings`: the default settings with the preset's gap
      and interval, or the `ValueError` when either is not positive. */
  function GetCutBridgeSettings(p: Preset): (r: Result<BridgeSettings>)
    ensures r.Success? <==> p.cutGap > 0.0 && p.cutInterval > 0.0
    ensures r.Success? ==> r.value == Default().(gapSize := p.cutGap, targetInterval := p.cutInterval)
  {
    MakeBridgeSettings(20.0, 50.0, p.cutInterval, p.cutGap, 10.0)
  }

  /** `get_crease_bridge_settings`, with the crease gap and interval. */
  function GetCreaseBridgeSettings(p: Preset): (r: Result<BridgeSettings>)
    ensures r.Success? <==> p.creaseGap > 0.0 && p.creaseInterval > 0.0
    ensures r.Success? ==> r.value == Default().(gapSize := p.creaseGap, targetInterval := p.creaseInterval)
  {
    MakeBridgeSettings(20.0, 50.0, p.creaseInterval, p.creaseGap, 10.0)
  }

  /** A preset left at its defaults bridges like `for_cut` and `for_crease`
      and uses the 국전 sheet. */
  lemma DefaultPresetSettings(name: string)
    ensures GetCutBridgeSettings(NewPreset(name)) == Success(ForCut())
    ensures GetCreaseBridgeSettings(NewPreset(name)) == Success(ForCrease())
    ensures GetPaperSize(NewPreset(name)).Success?
  {
    assert DEFAULT_PAPER_NAME == StandardNames()[0];
  }

  /** The built-in presets. */
  const DEFAULT_PRESETS: seq<Preset> := [
    NewPreset("기본값"),
    NewPreset("동판-앞면").(side := Front),
    NewPreset("오토-뒷면").(plateType := Auto),
    NewPreset("A3 크기").(paperSizeName := "A3")
  ]

  /** `str.isalnum` on the characters preset names use: ASCII letters and
      digits and the Hangul syllables. */
  predicate IsAlnum(c: char) {
    ('a' <= c <= 'z') || ('A' <= c <= 'Z') || ('0' <= c <= '9') || ('\U{AC00}' <= c <= '\U{D7A3}')
  }

  predicate SafeChar(c: char) {
    IsAlnum(c) || c == '-' || c == '_'
  }

  /** The file stem of a preset: every other character replaced by `_`. */
  function SafeName(name: string): (r: string)
    ensures |r| == |name|
    ensures forall i :: 0 <= i < |r| ==> SafeChar(r[i])
  {
    seq(|name|, i requires 0 <= i < |name| => if SafeChar(name[i]) then name[i] else '_')
  }

  /** A name made of safe characters only is its own file stem, so the
      replacement is idempotent. */
  lemma SafeNameKeeps(name: string)
    ensures (forall i :: 0 <= i < |name| ==> SafeChar(name[i])) <==> SafeName(name) == name
    ensures SafeName(SafeName(name)) == SafeName(name)
  {
    if SafeName(name) == name {
      assert forall i :: 0 <= i < |name| ==> SafeChar(SafeName(name)[i]);
    }
  }

  const PRESET_SUFFIX: string := ".json"

  /** `get_preset_path`. */
  function PresetPath(dir: Path, name: string): (r: Path)
    ensures Parent(r) == dir && Name(r) == SafeName(name) + PRESET_SUFFIX
  {
    ChildParts(dir, SafeName(name) + PRESET_SUFFIX);
    Child(dir, SafeName(name) + PRESET_SUFFIX)
  }

  /** The last dot of `a + "." + b` is the one after `a` when `b` has none. */
  lemma {:induction false} LastDot(a: string, b: string)
    requires forall k :: 0 <= k < |b| ==> b[k] != '.'
    ensures LastIndexOf(a + "." + b, '.') == |a|
    decreases |b|
  {
    var s := a + "." + b;
    if |b| == 0 {
      assert s[|s| - 1] == '.';
    } else {
      assert s[|s| - 1] == b[|b| - 1];
      assert s[..|s| - 1] == a + "." + b[..|b| - 1];
      LastDot(a, b[..|b| - 1]);
    }
  }

  /** A preset file's suffix is ".json" and its stem the safe name, unless
      the name is empty: then the file is the dot-file ".json", which has no
      suffix. */
  lemma PresetPathSuffix(dir: Path, name: string)
    ensures var file := Name(PresetPath(dir, name));
      name != "" ==> Suffix(file) == PRESET_SUFFIX && Stem(file) == SafeName(name)
    ensures name == "" ==> Suffix(Name(PresetPath(dir, name))) == ""
  {
    var safe := SafeName(name);
    assert safe + PRESET_SUFFIX == safe + "." + "json";
    LastDot(safe, "json");
  }

  /** `presets[i]` is the first preset called `name`. */
  predicate FirstNamed(presets: seq<Preset>, name: string, i: nat) {
    i < |presets| && presets[i].name == name && forall k :: 0 <= k < i ==> presets[k].name != name
  }

  /** `load_preset` without the file: the first built-in preset of that name. */
  function DefaultNamed(presets: seq<Preset>, name: string): (r: Option<Preset>)
    ensures r.None? <==> forall i :: 0 <= i < |presets| ==> presets[i].name != name
    ensures r.Some? ==> r.value.name == name
    ensures r.Some? ==> exists i :: 0 <= i < |presets| && presets[i] == r.value && FirstNamed(presets, name, i)
  {
    if |presets| == 0 then None
    else if presets[0].name == name then Some(presets[0])
    else
      var rest := DefaultNamed(presets[1..], name);
      assert forall i :: 1 <= i < |presets| ==> presets[i] == presets[1..][i - 1];
      rest
  }

  /** The presets directory: each file as the JSON object it holds, or `None`
      when it does not hold one. */
  type Files = map<Path, Option<Dict>>

  /** `load_preset`. */
  function Load(dir: Path, name: string, files: Files): Option<Preset> {
    var path := PresetPath(dir, name);
    if path !in files then DefaultNamed(DEFAULT_PRESETS, name)
    else match files[path]
      case None => None
      case Some(d) => FromDict(d)
  }

  /** `save_preset`: the file of the preset's name holds its dictionary. */
  function Save(dir: Path, p: Preset, files: Files): (r: Files)
    ensures r.Keys == files.Keys + {PresetPath(dir, p.name)}
  {
    files[PresetPath(dir, p.name) := Some(ToDict(p))]
  }

  /** `delete_preset`: the file is gone, and the answer says whether it was
      there. */
  function Delete(dir: Path, name: string, files: Files): (r: (bool, Files))
    ensures r.0 <==> PresetPath(dir, name) in files
    ensures r.1.Keys == files.Keys - {PresetPath(dir, name)}
  {
    var path := PresetPath(dir, name);
    (path in files, files - {path})
  }

  /** A saved preset loads back as it was, and saving leaves the other
      presets' files as they were. */
  lemma SaveLoad(dir: Path, p: Preset, files: Files, other: string)
    ensures Load(dir, p.name, Save(dir, p, files)) == Some(p)
    ensures PresetPath(dir, other) != PresetPath(dir, p.name) ==>
      Load(dir, other, Save(dir, p, files)) == Load(dir, other, files)
  {
    FromDictToDict(p);
  }

  /** Without its file, a name loads as the built-in preset of that name, if
      there is one; after deleting a built-in preset's file it loads as the
      built-in one again. */
  lemma LoadFallback(dir: Path, name: string, files: Files)
    ensures PresetPath(dir, name) !in files ==>
      (Load(dir, name, files).Some? <==> exists i :: 0 <= i < |DEFAULT_PRESETS| && DEFAULT_PRESETS[i].name == name)
    ensures PresetPath(dir, name) !in files && Load(dir, name, files).Some? ==>
      Load(dir, name, files).value.name == name && Load(dir, name, files).value in DEFAULT_PRESETS
    ensures Load(dir, name, Delete(dir, name, files).1) == DefaultNamed(DEFAULT_PRESETS, name)
  {
  }

  /** The names of the built-in presets, in order. */
  function DefaultNames(): (r: seq<string>)
    ensures |r| == |DEFAULT_PRESETS|
    ensures forall i :: 0 <= i < |r| ==> r[i] == DEFAULT_PRESETS[i].name
  {
    seq(|DEFAULT_PRESETS|, i requires 0 <= i < |DEFAULT_PRESETS| => DEFAULT_PRESETS[i].name)
  }

  lemma DefaultNamesDistinct()
    ensures StringOrder.Distinct(DefaultNames())
  {
    var n := DefaultNames();
    assert n[0][0] != n[1][0] && n[0][0] != n[2][0] && n[0][0] != n[3][0];
    assert n[1][0] != n[2][0] && n[1][0] != n[3][0] && n[2][0] != n[3][0];
  }

  /** `data.get("name")` of a listed file when it is a non-empty string. */
  function ListedName(entry: Option<Dict>): Option<string> {
    match entry
    case Some(d) =>
      if NameField in d && d[NameField].JStr? && d[NameField].str != "" then Some(d[NameField].str) else None
    case None => None
  }

  /** `list_presets`' loop: each listed file's name, in listing order, once. */
  function Collected(names: seq<string>, listing: seq<Option<Dict>>): seq<string>
    decreases |listing|
  {
    if |listing| == 0 then names
    else
      var prev := Collected(names, listing[..|listing| - 1]);
      match ListedName(listing[|listing| - 1])
      case Some(n) => if n in prev then prev else prev + [n]
      case None => prev
  }

  /** The collected names stay distinct and are the starting names plus
      every name a listed file gives. */
  lemma {:induction false} CollectedNames(names: seq<string>, listing: seq<Option<Dict>>)
    requires StringOrder.Distinct(names)
    ensures StringOrder.Distinct(Collected(names, listing))
    ensures forall y :: y in Collected(names, listing) <==>
      (y in names || exists i :: 0 <= i < |listing| && ListedName(listing[i]) == Some(y))
    decreases |listing|
  {
    if |listing| > 0 {
      var init := listing[..|listing| - 1];
      CollectedNames(names, init);
      forall y
        ensures (exists i :: 0 <= i < |listing| && ListedName(listing[i]) == Some(y)) <==>
          (exists i :: 0 <= i < |init| && ListedName(init[i]) == Some(y)) || ListedName(listing[|listing| - 1]) == Some(y)
      {
        if exists i :: 0 <= i < |listing| && ListedName(listing[i]) == Some(y) {
          var i :| 0 <= i < |listing| && ListedName(listing[i]) == Some(y);
          if i < |init| {
            assert init[i] == listing[i];
          }
        }
        if exists i :: 0 <= i < |init| && ListedName(init[i]) == Some(y) {
          var i :| 0 <= i < |init| && ListedName(init[i]) == Some(y);
          assert listing[i] == init[i];
        }
      }
    }
  }

  /** The names `list_presets` sorts: the built-in names and, when the
      directory exists, the names of the listed files. */
  function Unsorted(dirExists: bool, listing: seq<Option<Dict>>): seq<string> {
    if dirExists then Collected(DefaultNames(), listing) else DefaultNames()
  }

  /** Python's truth value of a JSON value. */
  predicate Truthy(v: Json) {
    match v
    case JStr(s) => s != ""
    case JNum(n) => n != 0.0
    case JBool(b) => b
  }

  /** A listed file whose `name` is truthy but not a string: `list_presets`
      appends it, and `sorted` then fails comparing it with the built-in
      names. */
  predicate NonStringName(entry: Option<Dict>) {
    entry.Some? && NameField in entry.value &&
    Truthy(entry.value[NameField]) && !entry.value[NameField].JStr?
  }

  /** `list_presets`: `None` when `sorted` raises `TypeError`. */
  function ListSpec(dirExists: bool, listing: seq<Option<Dict>>): Option<seq<string>> {
    if dirExists && exists i :: 0 <= i < |listing| && NonStringName(listing[i]) then None
    else Some(StringOrder.Sort(Unsorted(dirExists, listing)))
  }

  /** The names before sorting are distinct: the built-in ones and those of
      the listed files. */
  lemma UnsortedNames(dirExists: bool, listing: seq<Option<Dict>>)
    ensures StringOrder.Distinct(Unsorted(dirExists, listing))
    ensures forall y :: y in Unsorted(dirExists, listing) <==> (y in DefaultNames() ||
      (dirExists && exists i :: 0 <= i < |listing| && ListedName(listing[i]) == Some(y)))
  {
    DefaultNamesDistinct();
    if dirExists {
      CollectedNames(DefaultNames(), listing);
    }
  }

  /** The listing fails exactly when the directory exists and a listed
      file has a truthy non-string name; otherwise it is strictly ascending
      (so without duplicates), holds every built-in name, and holds exactly
      those and the listed files' names. */
  lemma ListSpecProperties(dirExists: bool, listing: seq<Option<Dict>>)
    ensures ListSpec(dirExists, listing).None? <==>
      (dirExists && exists i :: 0 <= i < |listing| && NonStringName(listing[i]))
    ensures ListSpec(dirExists, listing).Some? ==> var r := ListSpec(dirExists, listing).value;
      StringOrder.StrictlyIncreasing(r) && StringOrder.Distinct(r) &&
      (forall y :: y in DefaultNames() ==> y in r) &&
      (forall y :: y in r <==> (y in DefaultNames() ||
        (dirExists && exists i :: 0 <= i < |listing| && ListedName(listing[i]) == Some(y))))
  {
    UnsortedNames(dirExists, listing);
    StringOrder.SortDistinct(Unsorted(dirExists, listing));
  }

  class PresetManager {
    const presetsDir: Path

    constructor(presetsDir: Path)
      ensures this.presetsDir == presetsDir
    {
      this.presetsDir := presetsDir;
    }

    /** `get_preset_path`. */
    function GetPresetPath(name: string): (r: Path)
      ensures r == PresetPath(presetsDir, name)
      ensures Parent(r) == presetsDir && Name(r) == SafeName(name) + PRESET_SUFFIX
    {
      PresetPath(presetsDir, name)
    }

    /** `load_preset`, with a loop over the built-in presets when the file
        does not exist. */
    method LoadPreset(name: string, files: Files) returns (r: Option<Preset>)
      ensures r == Load(presetsDir, name, files)
    {
      var path := GetPresetPath(name);
      if path !in files {
        for i := 0 to |DEFAULT_PRESETS|
          invariant forall k :: 0 <= k < i ==> DEFAULT_PRESETS[k].name != name
        {
          if DEFAULT_PRESETS[i].name == name {
            ghost var found := DefaultNamed(DEFAULT_PRESETS, name);
            assert found.Some?;
            ghost var j :| 0 <= j < |DEFAULT_PRESETS| && DEFAULT_PRESETS[j] == found.value && FirstNamed(DEFAULT_PRESETS, name, j);
            assert j == i;
            return Some(DEFAULT_PRESETS[i]);
          }
        }
        return None;
      }
      match files[path]
      case None => r := None;
      case Some(d) => r := FromDict(d);
    }

    /** `list_presets`: the built-in names, then each listed file's name not
        seen yet, then sorted; `None` when a non-string name was appended. */
    method ListPresets(dirExists: bool, listing: seq<Option<Dict>>) returns (r: Option<seq<string>>)
      ensures r == ListSpec(dirExists, listing)
    {
      var names := DefaultNames();
      var nonString := false;
      if dirExists {
        for i := 0 to |listing|
          invariant names == Collected(DefaultNames(), listing[..i])
          invariant nonString <==> exists k :: 0 <= k < i && NonStringName(listing[k])
        {
          assert listing[..i + 1][..i] == listing[..i];
          if NonStringName(listing[i]) {
            nonString := true;
          }
          match ListedName(listing[i])
          case Some(n) =>
            if n !in names {
              names := names + [n];
            }
          case None =>
        }
        assert listing[..|listing|] == listing;
      }
      if nonString {
        return None;
      }
      r := Some(StringOrder.Sort(names));
    }

    /** `get_default_preset`. */
    function GetDefaultPreset(): (r: Preset)
      ensures r == DEFAULT_PRESETS[0] && r == NewPreset(r.name)
    {
      DEFAULT_PRESETS[0]
    }
  }
}
