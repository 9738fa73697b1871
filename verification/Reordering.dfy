/** Lists that differ only in the order of their elements, and what that leaves alone. */
module Reordering {
  import opened Sorting

  /** `p` and `q` are mutually inverse rearrangements of `0..n`. */
  ghost predicate Inverse(p: seq<nat>, q: seq<nat>, n: nat) {
    && |p| == n && |q| == n
    && (forall i :: 0 <= i < n ==> p[i] < n && q[p[i]] == i)
    && (forall j :: 0 <= j < n ==> q[j] < n && p[q[j]] == j)
  }

  ghost predicate Along<T>(a: seq<T>, b: seq<T>, p: seq<nat>, q: seq<nat>) {
    |a| == |b| && Inverse(p, q, |a|) && forall i :: 0 <= i < |a| ==> b[p[i]] == a[i]
  }

  /** The same elements in another order. */
  ghost predicate Reordered<T>(a: seq<T>, b: seq<T>) { exists p, q :: Along(a, b, p, q) }

  lemma AlongGivesMembers<T>(a: seq<T>, b: seq<T>, p: seq<nat>, q: seq<nat>)
    requires Along(a, b, p, q)
    ensures forall x :: x in a <==> x in b
  {
    forall x | x in a ensures x in b { var i :| 0 <= i < |a| && a[i] == x; assert b[p[i]] == x; }
    forall x | x in b ensures x in a { var j :| 0 <= j < |b| && b[j] == x; assert b[p[q[j]]] == a[q[j]]; }
  }

  lemma ReorderedHasMembers<T>(a: seq<T>, b: seq<T>)
    requires Reordered(a, b)
    ensures |a| == |b| && forall x :: x in a <==> x in b
  {
    var p, q :| Along(a, b, p, q);
    AlongGivesMembers(a, b, p, q);
  }

  /** The same relation, in the given order, between all pairs of elements. */
  predicate Pairwise<T>(s: seq<T>, ok: (T, T) -> bool) {
    forall i, j :: 0 <= i < j < |s| ==> ok(s[i], s[j])
  }

  ghost predicate Symmetric<T(!new)>(ok: (T, T) -> bool) { forall x, y :: ok(x, y) ==> ok(y, x) }

  lemma PairwiseIsOrderFree<T(!new)>(a: seq<T>, b: seq<T>, ok: (T, T) -> bool)
    requires Reordered(a, b) && Symmetric(ok) && Pairwise(a, ok)
    ensures Pairwise(b, ok)
  {
    var p, q :| Along(a, b, p, q);
    forall j, k | 0 <= j < k < |b| ensures ok(b[j], b[k]) {
      assert b[j] == a[q[j]] by { assert b[p[q[j]]] == a[q[j]]; }
      assert b[k] == a[q[k]] by { assert b[p[q[k]]] == a[q[k]]; }
      if q[j] < q[k] { assert ok(a[q[j]], a[q[k]]); }
      else { assert q[k] < q[j]; assert ok(a[q[k]], a[q[j]]); }
    }
  }

  /** Sorting forgets the input order. */
  lemma SortIsOrderFree<T(!new)>(a: seq<T>, b: seq<T>, less: (T, T) -> bool)
    requires StrictOrder(less) && Separated(a, less) && Separated(b, less) && Reordered(a, b)
    ensures Sort(a, less) == Sort(b, less)
  {
    ReorderedHasMembers(a, b);
    SortIncreases(a, less);
    SortIncreases(b, less);
    SortPermutes(a, less);
    SortPermutes(b, less);
    forall x ensures x in Sort(a, less) <==> x in Sort(b, less) {
      SameElements(Sort(a, less), a, x);
      SameElements(Sort(b, less), b, x);
    }
    IncreasingIsUnique(Sort(a, less), Sort(b, less), less);
  }

  lemma SortHasMembers<T>(s: seq<T>, less: (T, T) -> bool)
    ensures |Sort(s, less)| == |s| && forall x :: x in Sort(s, less) <==> x in s
  {
    SortPermutes(s, less);
    forall x ensures x in Sort(s, less) <==> x in s { SameElements(Sort(s, less), s, x); }
  }

  // ----- sorting is a reordering

  lemma ReorderedReflexive<T>(a: seq<T>)
    ensures Reordered(a, a)
  {
    var id := seq(|a|, i requires 0 <= i < |a| => i);
    assert Along(a, a, id, id);
  }

  lemma AlongTransitive<T>(a: seq<T>, b: seq<T>, c: seq<T>, p: seq<nat>, q: seq<nat>, p': seq<nat>, q': seq<nat>)
    requires Along(a, b, p, q) && Along(b, c, p', q')
    ensures Reordered(a, c)
  {
    var n := |a|;
    var there := seq(n, i requires 0 <= i < n => p'[p[i]]);
    var back := seq(n, j requires 0 <= j < n => q[q'[j]]);
    assert Along(a, c, there, back);
  }

  lemma ReorderedTransitive<T>(a: seq<T>, b: seq<T>, c: seq<T>)
    requires Reordered(a, b) && Reordered(b, c)
    ensures Reordered(a, c)
  {
    var p, q :| Along(a, b, p, q);
    var p', q' :| Along(b, c, p', q');
    AlongTransitive(a, b, c, p, q, p', q');
  }

  lemma ConsReordered<T>(x: T, a: seq<T>, b: seq<T>)
    requires Reordered(a, b)
    ensures Reordered([x] + a, [x] + b)
  {
    var p, q :| Along(a, b, p, q);
    var n := |a| + 1;
    var there := seq(n, i requires 0 <= i < n => if i == 0 then 0 else p[i - 1] + 1);
    var back := seq(n, i requires 0 <= i < n => if i == 0 then 0 else q[i - 1] + 1);
    assert Along([x] + a, [x] + b, there, back);
  }

  lemma SwapReordered<T>(x: T, y: T, s: seq<T>)
    ensures Reordered([x, y] + s, [y, x] + s)
  {
    var n := |s| + 2;
    var swap := seq(n, i requires 0 <= i < n => if i == 0 then 1 else if i == 1 then 0 else i);
    assert Along([x, y] + s, [y, x] + s, swap, swap);
  }

  lemma SwapThenReordered<T>(x: T, y: T, s: seq<T>, t: seq<T>)
    requires Reordered([x] + s, t)
    ensures Reordered([x, y] + s, [y] + t)
  {
    SwapReordered(x, y, s);
    ConsReordered(y, [x] + s, t);
    assert [y] + ([x] + s) == [y, x] + s;
    ReorderedTransitive([x, y] + s, [y, x] + s, [y] + t);
  }

  lemma {:induction false} InsertReorders<T>(x: T, s: seq<T>, less: (T, T) -> bool)
    ensures Reordered([x] + s, Insert(x, s, less))
  {
    if s != [] && less(s[0], x) {
      InsertReorders(x, s[1..], less);
      SwapThenReordered(x, s[0], s[1..], Insert(x, s[1..], less));
      assert [x] + s == [x, s[0]] + s[1..];
    } else {
      ReorderedReflexive([x] + s);
    }
  }

  lemma {:induction false} SortReorders<T>(s: seq<T>, less: (T, T) -> bool)
    ensures Reordered(s, Sort(s, less))
  {
    if s == [] {
      ReorderedReflexive(s);
    } else {
      SortReorders(s[1..], less);
      ConsReordered(s[0], s[1..], Sort(s[1..], less));
      InsertReorders(s[0], Sort(s[1..], less), less);
      assert s == [s[0]] + s[1..];
      ReorderedTransitive(s, [s[0]] + Sort(s[1..], less), Sort(s, less));
    }
  }

  lemma {:induction false} AppendReordered<T>(x: seq<T>, a: seq<T>, b: seq<T>)
    requires Reordered(a, b)
    ensures Reordered(x + a, x + b)
  {
    if x == [] {
      assert x + a == a && x + b == b;
    } else {
      AppendReordered(x[1..], a, b);
      ConsReordered(x[0], x[1..] + a, x[1..] + b);
      assert [x[0]] + (x[1..] + a) == x + a && [x[0]] + (x[1..] + b) == x + b;
    }
  }

  lemma PrependReordered<T>(a: seq<T>, b: seq<T>, y: seq<T>)
    requires Reordered(a, b)
    ensures Reordered(a + y, b + y)
  {
    var p, q :| Along(a, b, p, q);
    var n := |a| + |y|;
    var there := seq(n, i requires 0 <= i < n => if i < |a| then p[i] else i);
    var back := seq(n, i requires 0 <= i < n => if i < |a| then q[i] else i);
    assert Along(a + y, b + y, there, back);
  }

  // ----- reorderings of lists whose elements may themselves be reordered

  ghost predicate AlongAlike<T>(a: seq<T>, b: seq<T>, p: seq<nat>, q: seq<nat>, alike: (T, T) -> bool) {
    |a| == |b| && Inverse(p, q, |a|) && forall i :: 0 <= i < |a| ==> alike(a[i], b[p[i]])
  }

  ghost predicate ReorderedAlike<T>(a: seq<T>, b: seq<T>, alike: (T, T) -> bool) {
    exists p, q :: AlongAlike(a, b, p, q, alike)
  }

  function Map<T, U>(s: seq<T>, f: T -> U): (r: seq<U>)
    ensures |r| == |s| && forall i :: 0 <= i < |s| ==> r[i] == f(s[i])
  {
    seq(|s|, i requires 0 <= i < |s| => f(s[i]))
  }

  /** If alike elements have equal images, the images are a plain reordering. */
  lemma MapReorders<T, U>(a: seq<T>, b: seq<T>, alike: (T, T) -> bool, f: T -> U)
    requires ReorderedAlike(a, b, alike)
    requires forall x, y :: x in a && alike(x, y) ==> f(x) == f(y)
    ensures Reordered(Map(a, f), Map(b, f))
  {
    var p, q :| AlongAlike(a, b, p, q, alike);
    assert forall i :: 0 <= i < |a| ==> alike(a[i], b[p[i]]);
    assert Along(Map(a, f), Map(b, f), p, q);
  }

  /** Every element of the second list is alike to one of the first. */
  lemma AlikeOrigin<T>(a: seq<T>, b: seq<T>, alike: (T, T) -> bool, y: T) returns (x: T)
    requires ReorderedAlike(a, b, alike) && y in b
    ensures x in a && alike(x, y)
  {
    var p, q :| AlongAlike(a, b, p, q, alike);
    var j :| 0 <= j < |b| && b[j] == y;
    x := a[q[j]];
    assert alike(a[q[j]], b[p[q[j]]]);
  }

  lemma MapOfReordered<T, U>(a: seq<T>, b: seq<T>, f: T -> U)
    requires Reordered(a, b)
    ensures Reordered(Map(a, f), Map(b, f))
  {
    var p, q :| Along(a, b, p, q);
    assert Along(Map(a, f), Map(b, f), p, q);
  }

  lemma MapFixes<T>(s: seq<T>, f: T -> T)
    requires forall x :: x in s ==> f(x) == x
    ensures Map(s, f) == s
  {
  }

  lemma ReorderedSymmetric<T>(a: seq<T>, b: seq<T>)
    requires Reordered(a, b)
    ensures Reordered(b, a)
  {
    var p, q :| Along(a, b, p, q);
    forall j | 0 <= j < |b| ensures a[q[j]] == b[j] { assert b[p[q[j]]] == a[q[j]]; }
    assert Along(b, a, q, p);
  }

  lemma ReorderedAlikeSymmetric<T(!new)>(a: seq<T>, b: seq<T>, alike: (T, T) -> bool)
    requires ReorderedAlike(a, b, alike) && forall x, y :: alike(x, y) ==> alike(y, x)
    ensures ReorderedAlike(b, a, alike)
  {
    var p, q :| AlongAlike(a, b, p, q, alike);
    forall j | 0 <= j < |b| ensures alike(b[j], a[q[j]]) { assert alike(a[q[j]], b[p[q[j]]]); }
    assert AlongAlike(b, a, q, p, alike);
  }

  lemma PairwiseAt<T>(s: seq<T>, ok: (T, T) -> bool, x: T, y: T)
    requires Pairwise(s, ok) && x in s && y in s && x != y
    ensures ok(x, y) || ok(y, x)
  {
    var i :| 0 <= i < |s| && s[i] == x;
    var j :| 0 <= j < |s| && s[j] == y;
    assert i < j || j < i;
  }
}
