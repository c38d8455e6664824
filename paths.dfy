/** The part of `pathlib.Path` the application services use: a path as its
    components, `/` to add one, `parent`, `name`, `stem` and `suffix`. */
module Paths {
  import opened Strings

  datatype Path = Path(parts: seq<string>)

  /** `p / name`. */
  function Child(p: Path, name: string): (r: Path)
    ensures r.parts == p.parts + [name]
  {
    Path(p.parts + [name])
  }

  /** `p.name`: the last component, empty for the empty path. */
  function Name(p: Path): string {
    if |p.parts| == 0 then "" else p.parts[|p.parts| - 1]
  }

  /** `p.parent`: everything but the last component; the empty path is its
      own parent. */
  function Parent(p: Path): Path {
    if |p.parts| == 0 then p else Path(p.parts[..|p.parts| - 1])
  }

  /** A child's parent and name are what it was built from. */
  lemma ChildParts(p: Path, name: string)
    ensures Parent(Child(p, name)) == p && Name(Child(p, name)) == name
    ensures Child(Parent(Child(p, name)), Name(Child(p, name))) == Child(p, name)
  {
    assert (p.parts + [name])[..|p.parts|] == p.parts;
  }

  /** `str(p)`: the components joined by "/". */
  function PathString(p: Path): string {
    Join("/", p.parts)
  }

  /** `s.rfind(c)`: the last index holding `c`, or -1. */
  function LastIndexOf(s: string, c: char): (i: int)
    ensures -1 <= i < |s|
    ensures i >= 0 ==> s[i] == c
    ensures forall k :: i < k < |s| ==> s[k] != c
  {
    if |s| == 0 then -1
    else if s[|s| - 1] == c then |s| - 1
    else LastIndexOf(s[..|s| - 1], c)
  }

  /** Where the name splits into stem and suffix: at its last dot, unless
      that dot is the first or the last character. */
  predicate HasSuffix(name: string) {
    0 < LastIndexOf(name, '.') < |name| - 1
  }

  /** `suffix`: from the last dot on, or empty. */
  function Suffix(name: string): string {
    if HasSuffix(name) then name[LastIndexOf(name, '.')..] else ""
  }

  /** `stem`: the name without its suffix. */
  function Stem(name: string): string {
    if HasSuffix(name) then name[..LastIndexOf(name, '.')] else name
  }

  /** Stem and suffix split the name; a suffix is a dot followed by at least
      one character that is not a dot, and the stem is never empty unless
      the name is. */
  lemma StemSuffix(name: string)
    ensures Stem(name) + Suffix(name) == name
    ensures Suffix(name) == "" || (|Suffix(name)| >= 2 && Suffix(name)[0] == '.' &&
      forall k :: 1 <= k < |Suffix(name)| ==> Suffix(name)[k] != '.')
    ensures |name| > 0 ==> |Stem(name)| > 0
  {
    if HasSuffix(name) {
      var i := LastIndexOf(name, '.');
      assert name[..i] + name[i..] == name;
      forall k | 1 <= k < |Suffix(name)| ensures Suffix(name)[k] != '.' {
        assert Suffix(name)[k] == name[i + k];
      }
    }
  }
}
