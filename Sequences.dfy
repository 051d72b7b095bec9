/** Facts about sequences of values shared by the validators. */
module Sequences {

  /** No value occurs twice. */
  predicate Distinct<T(==)>(s: seq<T>) {
    forall i, j :: 0 <= i < j < |s| ==> s[i] != s[j]
  }

  /** The set of values a sequence holds. */
  function Elements<T>(s: seq<T>): set<T> {
    set i | 0 <= i < |s| :: s[i]
  }

  /** The set `{0, 1, ..., n - 1}`. */
  function Range(n: nat): (r: set<int>)
    ensures forall v :: v in r <==> 0 <= v < n
  {
    if n == 0 then {} else Range(n - 1) + {n - 1}
  }

  function Sum(s: seq<int>): int {
    if s == [] then 0 else Sum(s[..|s| - 1]) + s[|s| - 1]
  }

  /** A duplicate-free sequence has as many distinct values as entries. */
  lemma {:induction false} DistinctElementsCount<T>(s: seq<T>)
    requires Distinct(s)
    ensures |Elements(s)| == |s|
  {
    if s != [] {
      var init := s[..|s| - 1];
      assert Distinct(init);
      DistinctElementsCount(init);
      assert Elements(s) == Elements(init) + {s[|s| - 1]};
      assert s[|s| - 1] !in Elements(init);
    }
  }

  lemma {:induction false} RangeCount(n: nat)
    ensures |Range(n)| == n
  {
    if n > 0 {
      RangeCount(n - 1);
    }
  }

  /** A subset as large as its superset is the whole superset. */
  lemma {:induction false} SubsetOfSameSize<T>(a: set<T>, b: set<T>)
    requires a <= b && |a| == |b|
    ensures a == b
  {
    if a != b {
      var v :| v in b && v !in a;
      assert a <= b - {v};
      assert |b - {v}| == |b| - 1;
      SubsetCount(a, b - {v});
    }
  }

  lemma {:induction false} SubsetCount<T>(a: set<T>, b: set<T>)
    requires a <= b
    ensures |a| <= |b|
  {
    if a != {} {
      var v :| v in a;
      SubsetCount(a - {v}, b - {v});
    }
  }

  lemma {:induction false} ElementsCountBound<T>(s: seq<T>)
    ensures |Elements(s)| <= |s|
  {
    if s != [] {
      var init := s[..|s| - 1];
      ElementsCountBound(init);
      assert Elements(s) == Elements(init) + {s[|s| - 1]};
    }
  }

  /** A sequence with as many distinct values as entries has no duplicates. */
  lemma {:induction false} ElementsCountDistinct<T>(s: seq<T>)
    requires |Elements(s)| == |s|
    ensures Distinct(s)
  {
    if !Distinct(s) {
      var i, j :| 0 <= i < j < |s| && s[i] == s[j];
      var t := s[..j] + s[j + 1..];
      assert Elements(s) <= Elements(t) by {
        forall k | 0 <= k < |s|
          ensures s[k] in Elements(t)
        {
          if k < j {
            assert t[k] == s[k];
          } else if k == j {
            assert t[i] == s[j];
          } else {
            assert t[k - 1] == s[k];
          }
        }
      }
      ElementsCountBound(t);
      SubsetCount(Elements(s), Elements(t));
    }
  }
}
