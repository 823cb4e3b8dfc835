/**
 * Paths below the ingested folder and the order `sorted()` puts them in.
 * A path is the list of its components; Python orders two paths by comparing
 * these lists, and two components by comparing their code points.
 */
module Paths {
  import opened Ordering

  type Path = seq<string>

  const CharOrder: (char, char) -> bool := (a: char, b: char) => a < b
  const TextOrder: (string, string) -> bool := (a: string, b: string) => LexLess(CharOrder, a, b)

  /** `a < b` for two paths. */
  predicate PathLess(a: Path, b: Path)
  {
    LexLess(TextOrder, a, b)
  }

  predicate PathLessEq(a: Path, b: Path)
  {
    a == b || PathLess(a, b)
  }

  lemma TextOrderIsStrictTotal()
    ensures StrictTotalOrder(TextOrder)
  {
    assert StrictTotalOrder(CharOrder);
    LexStrictTotalOrder(CharOrder, TextOrder);
  }

  lemma PathLessIrreflexive(a: Path)
    ensures !PathLess(a, a)
  {
    TextOrderIsStrictTotal();
    LexIrreflexive(TextOrder, a);
  }

  lemma PathLessTransitive(a: Path, b: Path, c: Path)
    requires PathLess(a, b) && PathLess(b, c)
    ensures PathLess(a, c)
  {
    TextOrderIsStrictTotal();
    LexTransitive(TextOrder, a, b, c);
  }

  lemma PathLessTotal(a: Path, b: Path)
    ensures a == b || PathLess(a, b) || PathLess(b, a)
  {
    TextOrderIsStrictTotal();
    LexTotal(TextOrder, a, b);
  }

  predicate Sorted(s: seq<Path>)
  {
    forall i, j :: 0 <= i < j < |s| ==> PathLessEq(s[i], s[j])
  }

  predicate Distinct<T(==)>(s: seq<T>)
  {
    forall i, j :: 0 <= i < j < |s| ==> s[i] != s[j]
  }

  /** Puts `p` in front of the first element of `s` that does not precede it. */
  function Insert(p: Path, s: seq<Path>): (r: seq<Path>)
    ensures multiset(r) == multiset(s) + multiset{p}
  {
    if s == [] then [p]
    else if PathLess(s[0], p) then
      assert s == [s[0]] + s[1..];
      [s[0]] + Insert(p, s[1..])
    else [p] + s
  }

  /** A sorted list stays sorted with an element in front that precedes or equals all of it. */
  lemma ConsSorted(x: Path, t: seq<Path>)
    requires Sorted(t)
    requires forall k :: 0 <= k < |t| ==> PathLessEq(x, t[k])
    ensures Sorted([x] + t)
  {
    var r := [x] + t;
    forall i, j | 0 <= i < j < |r| ensures PathLessEq(r[i], r[j]) {
      assert r[j] == t[j - 1];
      if i > 0 {
        assert r[i] == t[i - 1];
      }
    }
  }

  lemma {:induction false} InsertKeepsSorted(p: Path, s: seq<Path>)
    requires Sorted(s)
    ensures Sorted(Insert(p, s))
  {
    if s == [] {
    } else if PathLess(s[0], p) {
      var tail := Insert(p, s[1..]);
      InsertKeepsSorted(p, s[1..]);
      forall k | 0 <= k < |tail| ensures PathLessEq(s[0], tail[k]) {
        assert tail[k] in multiset(tail);
        if tail[k] != p {
          assert tail[k] in multiset(s[1..]);
          var m :| 0 <= m < |s[1..]| && s[1..][m] == tail[k];
          assert PathLessEq(s[0], s[m + 1]);
        }
      }
      ConsSorted(s[0], tail);
    } else {
      PathLessTotal(p, s[0]);
      forall k | 0 <= k < |s| ensures PathLessEq(p, s[k]) {
        if k > 0 && p != s[0] && s[0] != s[k] {
          assert PathLessEq(s[0], s[k]);
          PathLessTransitive(p, s[0], s[k]);
        }
      }
      ConsSorted(p, s);
    }
  }

  /** `sorted(s)`: an insertion sort, which for a total order gives the same list as Python's. */
  function Sort(s: seq<Path>): (r: seq<Path>)
    ensures Sorted(r)
    ensures multiset(r) == multiset(s)
  {
    if s == [] then []
    else
      assert s == [s[0]] + s[1..];
      InsertKeepsSorted(s[0], Sort(s[1..]));
      Insert(s[0], Sort(s[1..]))
  }

  lemma MultisetKeepsDistinct<T>(s: seq<T>, t: seq<T>)
    requires multiset(s) == multiset(t)
    requires Distinct(s)
    ensures Distinct(t)
  {
    forall i, j | 0 <= i < j < |t| ensures t[i] != t[j] {
      if t[i] == t[j] {
        var x := t[i];
        assert t == t[..j] + t[j..];
        assert x in multiset(t[..j]) && x in multiset(t[j..]);
        assert multiset(t)[x] >= 2;
        DistinctCountsOnce(s, x);
      }
    }
  }

  lemma {:induction false} DistinctCountsOnce<T>(s: seq<T>, x: T)
    requires Distinct(s)
    ensures multiset(s)[x] <= 1
  {
    if s != [] {
      assert s == [s[0]] + s[1..];
      DistinctCountsOnce(s[1..], x);
      if s[0] == x {
        assert x !in s[1..];
      }
    }
  }

  /** A sorted list without duplicates is strictly increasing. */
  lemma SortedDistinctIsIncreasing(s: seq<Path>)
    requires Sorted(s) && Distinct(s)
    ensures forall i, j :: 0 <= i < j < |s| ==> PathLess(s[i], s[j])
  {
  }
}
