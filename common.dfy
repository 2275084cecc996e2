/** Small value helpers shared by the page models: an Option type, integer min/max,
    the length `Array.from({ length })` produces, index ranges, and the array
    methods the pages call (`filter`, `findIndex`, `indexOf`). */
module Common {

  datatype Option<+T> = None | Some(value: T) {
    /** The value, or `default` for None. */
    function GetOr(default: T): T {
      match this
      case Some(v) => v
      case None => default
    }
  }

  function Min(a: int, b: int): int { if a <= b then a else b }

  function Max(a: int, b: int): int { if a >= b then a else b }

  /** The number of elements `Array.from({ length })` creates for an integral
      `length`: a negative length is clamped to 0. */
  function ArrayLength(length: int): nat { if length < 0 then 0 else length }

  /** `[lo, lo + 1, ..., lo + count - 1]`. */
  function Range(lo: int, count: nat): seq<int> { seq(count, i => lo + i) }

  /** The integers from `lo` through `hi`, both included. */
  ghost function Interval(lo: int, hi: int): (r: set<int>)
    ensures forall d :: d in r <==> lo <= d <= hi
    decreases Max(hi - lo + 1, 0)
  {
    if hi < lo then {} else Interval(lo, hi - 1) + {hi}
  }

  lemma {:induction false} IntervalSize(lo: int, hi: int)
    ensures |Interval(lo, hi)| == Max(hi - lo + 1, 0)
    decreases Max(hi - lo + 1, 0)
  {
    if hi >= lo {
      IntervalSize(lo, hi - 1);
      assert hi !in Interval(lo, hi - 1);
    }
  }

  /** A subset with at least as many elements as its superset is the whole set. */
  lemma SubsetOfEqualSize<T>(a: set<T>, b: set<T>)
    requires a <= b && |a| >= |b|
    ensures a == b
  {
    assert b == a + (b - a);
    assert |b - a| == 0;
  }

  predicate NoDuplicates<T(==)>(s: seq<T>) {
    forall i, j :: 0 <= i < j < |s| ==> s[i] != s[j]
  }

  /** The set of elements of `s`. */
  ghost function Elements<T>(s: seq<T>): set<T> {
    set i | 0 <= i < |s| :: s[i]
  }

  /** A list without duplicates has as many distinct elements as entries. */
  lemma {:induction false} DistinctElements<T>(s: seq<T>)
    requires NoDuplicates(s)
    ensures |Elements(s)| == |s|
    decreases |s|
  {
    if s != [] {
      var t := s[..|s| - 1];
      DistinctElements(t);
      assert Elements(s) == Elements(t) + {s[|s| - 1]} by {
        forall x | x in Elements(s) ensures x in Elements(t) + {s[|s| - 1]} {
          var i :| 0 <= i < |s| && s[i] == x;
          if i < |s| - 1 { assert t[i] == x; }
        }
        forall x | x in Elements(t) ensures x in Elements(s) {
          var i :| 0 <= i < |t| && t[i] == x;
          assert s[i] == x;
        }
      }
      assert s[|s| - 1] !in Elements(t);
    }
  }

  /** A list without duplicates holds each value at most once. */
  lemma {:induction false} DistinctCounts<T>(s: seq<T>, x: T)
    requires NoDuplicates(s)
    ensures multiset(s)[x] <= 1
    decreases |s|
  {
    if s != [] {
      assert s == [s[0]] + s[1..];
      DistinctCounts(s[1..], x);
      if s[0] == x {
        assert x !in s[1..] by {
          forall j | 0 <= j < |s| - 1 ensures s[1..][j] != x {
            assert s[1..][j] == s[j + 1];
          }
        }
      }
    }
  }

  /** `s.filter(keep)`. */
  function Filter<T>(s: seq<T>, keep: T -> bool): seq<T>
    decreases |s|
  {
    if s == [] then []
    else (if keep(s[0]) then [s[0]] else []) + Filter(s[1..], keep)
  }

  /** The filtered list holds exactly the kept elements of `s`, and no more entries. */
  lemma {:induction false} FilterMembers<T>(s: seq<T>, keep: T -> bool)
    ensures forall i :: 0 <= i < |Filter(s, keep)| ==>
              keep(Filter(s, keep)[i]) && Filter(s, keep)[i] in s
    ensures forall i :: 0 <= i < |s| && keep(s[i]) ==> s[i] in Filter(s, keep)
    ensures |Filter(s, keep)| <= |s|
    decreases |s|
  {
    if s != [] {
      FilterMembers(s[1..], keep);
      assert s == [s[0]] + s[1..];
    }
  }

  /** Filtering keeps every copy of a kept value and no copy of a dropped one. */
  lemma {:induction false} FilterCounts<T>(s: seq<T>, keep: T -> bool, x: T)
    ensures multiset(Filter(s, keep))[x] == if keep(x) then multiset(s)[x] else 0
    decreases |s|
  {
    if s != [] {
      assert s == [s[0]] + s[1..];
      FilterCounts(s[1..], keep, x);
    }
  }

  /** Filtering distributes over concatenation, so the kept elements keep their order. */
  lemma {:induction false} FilterConcat<T>(a: seq<T>, b: seq<T>, keep: T -> bool)
    ensures Filter(a + b, keep) == Filter(a, keep) + Filter(b, keep)
    decreases |a|
  {
    if a == [] {
      assert a + b == b;
    } else {
      var head := if keep(a[0]) then [a[0]] else [];
      assert (a + b)[0] == a[0] && (a + b)[1..] == a[1..] + b;
      FilterConcat(a[1..], b, keep);
      calc {
        Filter(a + b, keep);
        head + Filter(a[1..] + b, keep);
        head + (Filter(a[1..], keep) + Filter(b, keep));
        (head + Filter(a[1..], keep)) + Filter(b, keep);
        Filter(a, keep) + Filter(b, keep);
      }
    }
  }

  /** Filtering keeps a list free of duplicates. */
  lemma {:induction false} FilterNoDuplicates<T>(s: seq<T>, keep: T -> bool)
    requires NoDuplicates(s)
    ensures NoDuplicates(Filter(s, keep))
    decreases |s|
  {
    if s != [] {
      FilterNoDuplicates(s[1..], keep);
      FilterMembers(s[1..], keep);
      assert s[0] !in s[1..] by {
        forall j | 0 <= j < |s| - 1 ensures s[1..][j] != s[0] {
          assert s[1..][j] == s[j + 1];
        }
      }
    }
  }

  /** The test `y => y !== x`. */
  function NotEqual<T(==)>(x: T): T -> bool {
    y => y != x
  }

  /** `s.filter(y => y !== x)`: every occurrence of `x` dropped, the rest in order. */
  function Without<T(!new,==)>(s: seq<T>, x: T): (r: seq<T>)
    ensures x !in r
    ensures multiset(r) == multiset(s)[x := 0]
  {
    var r := Filter(s, NotEqual(x));
    FilterMembers(s, NotEqual(x));
    assert multiset(r) == multiset(s)[x := 0] by {
      forall y ensures multiset(r)[y] == multiset(s)[x := 0][y] {
        FilterCounts(s, NotEqual(x), y);
      }
    }
    r
  }

  /** A filter that drops nothing returns its input. */
  lemma {:induction false} FilterKeepsAll<T>(s: seq<T>, keep: T -> bool)
    requires forall i :: 0 <= i < |s| ==> keep(s[i])
    ensures Filter(s, keep) == s
    decreases |s|
  {
    if s != [] {
      FilterKeepsAll(s[1..], keep);
      assert s == [s[0]] + s[1..];
    }
  }

  /** Dropping a value that occurs only at the head leaves the tail. */
  lemma WithoutHead<T(!new)>(s: seq<T>)
    requires |s| > 0 && s[0] !in s[1..]
    ensures Without(s, s[0]) == s[1..]
  {
    assert s == [s[0]] + s[1..];
    FilterConcat([s[0]], s[1..], NotEqual(s[0]));
    FilterKeepsAll(s[1..], NotEqual(s[0]));
  }

  /** `s.findIndex(matches)`, None standing for -1. */
  function FindIndex<T>(s: seq<T>, matches: T -> bool): (r: Option<nat>)
    ensures r.None? <==> forall i :: 0 <= i < |s| ==> !matches(s[i])
    ensures r.Some? ==> r.value < |s| && matches(s[r.value]) &&
                        forall i :: 0 <= i < r.value ==> !matches(s[i])
    decreases |s|
  {
    if s == [] then None
    else if matches(s[0]) then Some(0)
    else
      match FindIndex(s[1..], matches)
      case None => None
      case Some(k) => Some(k + 1)
  }

  /** The first matching index is the one `findIndex` returns. */
  lemma FindIndexIs<T>(s: seq<T>, matches: T -> bool, i: nat)
    requires i < |s| && matches(s[i])
    requires forall j :: 0 <= j < i ==> !matches(s[j])
    ensures FindIndex(s, matches) == Some(i)
  {
  }

  /** `s.indexOf(x)`, None standing for -1. */
  function FirstIndex<T(==)>(s: seq<T>, x: T): (r: Option<nat>)
    ensures r.None? <==> x !in s
    ensures r.Some? ==> r.value < |s| && s[r.value] == x && x !in s[..r.value]
  {
    FindIndex(s, y => y == x)
  }
}
