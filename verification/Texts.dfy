/** Character classes and the strict order on texts that the sorting code relies on. */
module Texts {

  predicate IsDigit(c: char) { '0' <= c <= '9' }
  predicate IsLower(c: char) { 'a' <= c <= 'z' }
  predicate IsUpper(c: char) { 'A' <= c <= 'Z' }
  predicate IsAlnum(c: char) { IsDigit(c) || IsLower(c) || IsUpper(c) }
  predicate IsHex(c: char) { IsDigit(c) || 'a' <= c <= 'f' }

  /** `\s`, as in `trim()` */
  predicate IsSpace(c: char) { '\t' <= c <= '\r' || c == ' ' || c == '\U{A0}' || c == '\U{FEFF}' }

  /** A first character from one class and `lo..hi` further ones from another. */
  predicate Shape(s: string, first: char -> bool, rest: char -> bool, lo: nat, hi: nat) {
    && lo + 1 <= |s| <= hi + 1
    && first(s[0])
    && forall i :: 1 <= i < |s| ==> rest(s[i])
  }

  /** `^[a-z][a-z0-9-]{0,62}$` */
  predicate IsName(s: string) {
    Shape(s, IsLower, c => IsLower(c) || IsDigit(c) || c == '-', 0, 62)
  }

  predicate IsHexText(s: string, n: nat) {
    |s| == n && forall i :: 0 <= i < |s| ==> IsHex(s[i])
  }

  /** Names are 1 to 63 lower-case letters, digits and hyphens, the first a letter. */
  lemma FormatsExactly(s: string, n: nat)
    ensures IsName(s) <==>
              && 1 <= |s| <= 63 && 'a' <= s[0] <= 'z'
              && forall i :: 0 < i < |s| ==> 'a' <= s[i] <= 'z' || '0' <= s[i] <= '9' || s[i] == '-'
    ensures IsHexText(s, n) <==> |s| == n && forall i :: 0 <= i < |s| ==> s[i] in "0123456789abcdef"
  {
  }

  /** `left < right` on texts: the first difference decides, a prefix comes first. */
  predicate Before(a: string, b: string) {
    if b == [] then false
    else if a == [] then true
    else if a[0] != b[0] then a[0] < b[0]
    else Before(a[1..], b[1..])
  }

  /** One text is before another exactly if it is a proper prefix of it or has the smaller
      character at the first difference. */
  lemma {:induction false} BeforeExactly(a: string, b: string)
    ensures Before(a, b) <==>
              || (a <= b && a != b)
              || exists k :: 0 <= k < |a| && k < |b| && a[..k] == b[..k] && a[k] < b[k]
  {
    if a != [] && b != [] {
      assert a == [a[0]] + a[1..] && b == [b[0]] + b[1..];
      if a[0] == b[0] {
        BeforeExactly(a[1..], b[1..]);
        if k :| 0 <= k < |a| - 1 && k < |b| - 1 && a[1..][..k] == b[1..][..k] && a[1..][k] < b[1..][k] {
          assert a[..k + 1] == [a[0]] + a[1..][..k] && b[..k + 1] == [b[0]] + b[1..][..k];
          assert a[k + 1] < b[k + 1];
        }
        if k :| 0 <= k < |a| && k < |b| && a[..k] == b[..k] && a[k] < b[k] {
          if k > 0 { assert a[1..][..k - 1] == a[..k][1..] == b[..k][1..] == b[1..][..k - 1]; }
        }
      } else {
        assert a[..0] == b[..0];
        if k :| 0 <= k < |a| && k < |b| && a[..k] == b[..k] && a[k] < b[k] {
          if k > 0 { assert a[..k][0] == b[..k][0]; }
        }
      }
    }
  }

  lemma {:induction false} BeforeIsIrreflexive(a: string)
    ensures !Before(a, a)
  {
    if a != [] { BeforeIsIrreflexive(a[1..]); }
  }

  lemma {:induction false} BeforeIsTotal(a: string, b: string)
    ensures a == b || Before(a, b) || Before(b, a)
  {
    if a != [] && b != [] && a[0] == b[0] {
      BeforeIsTotal(a[1..], b[1..]);
      if a[1..] == b[1..] { assert a == [a[0]] + a[1..] && b == [b[0]] + b[1..]; }
    }
  }

  lemma {:induction false} BeforeIsTransitive(a: string, b: string, c: string)
    requires Before(a, b) && Before(b, c)
    ensures Before(a, c)
  {
    if a != [] && a[0] == b[0] == c[0] { BeforeIsTransitive(a[1..], b[1..], c[1..]); }
  }
}
