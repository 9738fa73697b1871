/** `Array.prototype.sort` with a comparator, on sequences whose elements it can tell
    apart: the result is then the same for every sorting algorithm and input order. */
module Sorting {

  ghost predicate StrictOrder<T(!new)>(less: (T, T) -> bool) {
    && (forall x :: !less(x, x))
    && (forall x, y, z :: less(x, y) && less(y, z) ==> less(x, z))
  }

  /** No two elements tie. */
  ghost predicate Separated<T>(s: seq<T>, less: (T, T) -> bool) {
    forall i, j :: 0 <= i < j < |s| ==> less(s[i], s[j]) || less(s[j], s[i])
  }

  ghost predicate Increasing<T>(s: seq<T>, less: (T, T) -> bool) {
    forall i, j :: 0 <= i < j < |s| ==> less(s[i], s[j])
  }

  function Insert<T>(x: T, s: seq<T>, less: (T, T) -> bool): seq<T> {
    if s == [] || !less(s[0], x) then [x] + s else [s[0]] + Insert(x, s[1..], less)
  }

  function Sort<T>(s: seq<T>, less: (T, T) -> bool): seq<T> {
    if s == [] then [] else Insert(s[0], Sort(s[1..], less), less)
  }

  lemma {:induction false} InsertAdds<T>(x: T, s: seq<T>, less: (T, T) -> bool)
    ensures multiset(Insert(x, s, less)) == multiset(s) + multiset{x}
  {
    if s != [] {
      assert s == [s[0]] + s[1..];
      if less(s[0], x) { InsertAdds(x, s[1..], less); }
    }
  }

  lemma {:induction false} SortPermutes<T>(s: seq<T>, less: (T, T) -> bool)
    ensures multiset(Sort(s, less)) == multiset(s) && |Sort(s, less)| == |s|
  {
    if s != [] {
      SortPermutes(s[1..], less);
      InsertAdds(s[0], Sort(s[1..], less), less);
      assert s == [s[0]] + s[1..];
    }
    assert |multiset(Sort(s, less))| == |Sort(s, less)|;
  }

  lemma SameElements<T>(a: seq<T>, b: seq<T>, x: T)
    requires multiset(a) == multiset(b)
    ensures x in a <==> x in b
  {
    assert x in a <==> x in multiset(a);
    assert x in b <==> x in multiset(b);
  }

  lemma {:induction false} InsertIncreases<T(!new)>(x: T, s: seq<T>, less: (T, T) -> bool)
    requires StrictOrder(less) && Increasing(s, less)
    requires forall y :: y in s ==> less(x, y) || less(y, x)
    ensures Increasing(Insert(x, s, less), less)
  {
    if s != [] {
      assert s[0] in s;
      if less(s[0], x) {
        var tail := Insert(x, s[1..], less);
        InsertIncreases(x, s[1..], less);
        InsertAdds(x, s[1..], less);
        forall y | y in tail ensures less(s[0], y) {
          assert y in multiset(tail);
          if y != x { assert y in s[1..]; }
        }
      } else {
        forall j | 0 <= j < |s| ensures less(x, s[j]) { }
      }
    }
  }

  lemma {:induction false} SortIncreases<T(!new)>(s: seq<T>, less: (T, T) -> bool)
    requires StrictOrder(less) && Separated(s, less)
    ensures Increasing(Sort(s, less), less)
  {
    if s != [] {
      SortIncreases(s[1..], less);
      forall y | y in Sort(s[1..], less) ensures less(s[0], y) || less(y, s[0]) {
        SortPermutes(s[1..], less);
        SameElements(Sort(s[1..], less), s[1..], y);
      }
      InsertIncreases(s[0], Sort(s[1..], less), less);
    }
  }

  /** An increasing sequence is determined by the set of its elements. */
  lemma {:induction false} IncreasingIsUnique<T(!new)>(a: seq<T>, b: seq<T>, less: (T, T) -> bool)
    requires StrictOrder(less) && Increasing(a, less) && Increasing(b, less)
    requires forall x :: x in a <==> x in b
    ensures a == b
  {
    assert forall i :: 0 <= i < |b| ==> b[i] in a;
    assert forall i :: 0 <= i < |a| ==> a[i] in b;
    if a != [] {
      assert a[0] == b[0];
      forall x ensures x in a[1..] <==> x in b[1..] {
        assert x in a <==> x == a[0] || x in a[1..];
        assert x in b <==> x == b[0] || x in b[1..];
        if x in a[1..] || x in b[1..] { assert x != a[0]; }
      }
      IncreasingIsUnique(a[1..], b[1..], less);
      assert a == [a[0]] + a[1..] && b == [b[0]] + b[1..];
    }
  }

  /** An increasing sequence is its own sort. */
  lemma {:induction false} SortFixes<T(!new)>(s: seq<T>, less: (T, T) -> bool)
    requires StrictOrder(less) && Increasing(s, less)
    ensures Sort(s, less) == s
  {
    if s != [] {
      SortFixes(s[1..], less);
      if |s| > 1 { assert less(s[0], s[1]); }
      assert s == [s[0]] + s[1..];
    }
  }
}
