/** Python's `<` on `str` (lexicographic by code point) and `sorted(...)` on
    a list of strings, as insertion into a sorted sequence. */
module StringOrder {

  /** `a < b`: the first differing character decides, and a proper prefix
      comes first. */
  predicate Less(a: string, b: string)
    decreases |a|
  {
    if |a| == 0 then |b| > 0
    else if |b| == 0 then false
    else if a[0] != b[0] then a[0] < b[0]
    else Less(a[1..], b[1..])
  }

  lemma {:induction false} LessIrreflexive(a: string)
    ensures !Less(a, a)
    decreases |a|
  {
    if |a| > 0 {
      LessIrreflexive(a[1..]);
    }
  }

  lemma {:induction false} LessTransitive(a: string, b: string, c: string)
    requires Less(a, b) && Less(b, c)
    ensures Less(a, c)
    decreases |a|
  {
    if |a| > 0 && |b| > 0 && |c| > 0 && a[0] == b[0] && b[0] == c[0] {
      LessTransitive(a[1..], b[1..], c[1..]);
    }
  }

  /** Two different strings are ordered one way or the other, and only one. */
  lemma {:induction false} LessTotal(a: string, b: string)
    ensures a != b <==> Less(a, b) || Less(b, a)
    ensures !(Less(a, b) && Less(b, a))
    decreases |a|
  {
    if |a| > 0 && |b| > 0 && a[0] == b[0] {
      LessTotal(a[1..], b[1..]);
      assert a == [a[0]] + a[1..] && b == [b[0]] + b[1..];
    } else if a == b {
      LessIrreflexive(a);
    }
  }

  /** Ascending: no element is greater than a later one. */
  predicate Sorted(s: seq<string>) {
    forall i, j :: 0 <= i < j < |s| ==> !Less(s[j], s[i])
  }

  predicate StrictlyIncreasing(s: seq<string>) {
    forall i, j :: 0 <= i < j < |s| ==> Less(s[i], s[j])
  }

  predicate Distinct(s: seq<string>) {
    forall i, j :: 0 <= i < j < |s| ==> s[i] != s[j]
  }

  /** Insert `x` just before the first element not less than it. */
  function Insert(x: string, s: seq<string>): (r: seq<string>)
    requires Sorted(s)
    ensures Sorted(r)
    ensures multiset(r) == multiset(s) + multiset{x}
    decreases |s|
  {
    if |s| == 0 || !Less(s[0], x) then
      assert forall j :: 0 <= j < |s| ==> !Less(s[j], x) by {
        forall j | 0 <= j < |s| ensures !Less(s[j], x) {
          if Less(s[j], x) {
            LessTotal(s[0], s[j]);
            if s[0] != s[j] {
              LessTransitive(s[0], s[j], x);
            }
          }
        }
      }
      [x] + s
    else
      var rest := Insert(x, s[1..]);
      assert s == [s[0]] + s[1..];
      assert forall k :: 0 <= k < |rest| ==> !Less(rest[k], s[0]) by {
        forall k | 0 <= k < |rest| ensures !Less(rest[k], s[0]) {
          assert rest[k] in multiset(rest);
          if rest[k] == x {
            LessTotal(s[0], x);
          } else {
            assert rest[k] in multiset(s[1..]);
            var j :| 0 <= j < |s[1..]| && s[1..][j] == rest[k];
            assert s[j + 1] == rest[k];
          }
        }
      }
      [s[0]] + rest
  }

  /** `sorted(xs)`: the same strings as often, in ascending order. */
  function Sort(xs: seq<string>): (r: seq<string>)
    ensures Sorted(r)
    ensures multiset(r) == multiset(xs)
    decreases |xs|
  {
    if |xs| == 0 then []
    else
      assert xs == [xs[0]] + xs[1..];
      Insert(xs[0], Sort(xs[1..]))
  }

  /** Sorting keeps the strings distinct, and then the order is strict. */
  lemma SortDistinct(xs: seq<string>)
    requires Distinct(xs)
    ensures Distinct(Sort(xs)) && StrictlyIncreasing(Sort(xs))
    ensures forall y :: y in Sort(xs) <==> y in xs
  {
    var r := Sort(xs);
    assert forall y :: y in r <==> y in multiset(r);
    assert forall y :: y in xs <==> y in multiset(xs);
    forall y | y in multiset(xs)
      ensures multiset(xs)[y] == 1
    {
      DistinctOnce(xs, y);
    }
    forall i, j | 0 <= i < j < |r|
      ensures r[i] != r[j] && Less(r[i], r[j])
    {
      if r[i] == r[j] {
        TwiceCounted(r, i, j);
      }
      LessTotal(r[i], r[j]);
    }
  }

  /** A distinct sequence holds each of its elements once. */
  lemma {:induction false} DistinctOnce(xs: seq<string>, y: string)
    requires Distinct(xs) && y in xs
    ensures multiset(xs)[y] == 1
    decreases |xs|
  {
    assert xs == [xs[0]] + xs[1..];
    assert multiset(xs) == multiset{xs[0]} + multiset(xs[1..]);
    if xs[0] == y {
      assert y !in xs[1..];
      assert multiset(xs[1..])[y] == 0;
    } else {
      assert Distinct(xs[1..]) by {
        forall i, j | 0 <= i < j < |xs[1..]| ensures xs[1..][i] != xs[1..][j] {
          assert xs[1..][i] == xs[i + 1] && xs[1..][j] == xs[j + 1];
        }
      }
      DistinctOnce(xs[1..], y);
    }
  }

  /** An element at two positions is counted at least twice. */
  lemma TwiceCounted(s: seq<string>, i: nat, j: nat)
    requires i < j < |s| && s[i] == s[j]
    ensures multiset(s)[s[i]] >= 2
  {
    assert s == s[..i] + [s[i]] + s[i + 1..j] + [s[j]] + s[j + 1..];
    assert multiset(s) == multiset(s[..i]) + multiset{s[i]} + multiset(s[i + 1..j]) + multiset{s[j]} + multiset(s[j + 1..]);
  }
}
