/** What the conditions on DNS names say about the labels of a name: those that
    normalizeDomain checks after splitting the name at its dots. */
module DomainNames {
  import opened Results
  import opened Texts
  import opened ManifestScalars

  function DotAt(s: string): (k: nat)
    ensures k <= |s| && (forall i :: 0 <= i < k ==> s[i] != '.') && (k < |s| ==> s[k] == '.')
  {
    if s == [] || s[0] == '.' then 0 else 1 + DotAt(s[1..])
  }

  /** `split(".")` */
  function Labels(s: string): (r: seq<string>)
    ensures r != []
    decreases |s|
  {
    var k := DotAt(s);
    if k == |s| then [s] else [s[..k]] + Labels(s[k + 1..])
  }

  predicate LabelChar(c: char) { 'a' <= c <= 'z' || '0' <= c <= '9' || c == '-' }

  /** `^[a-z0-9](?:[a-z0-9-]{0,61}[a-z0-9])?$` */
  predicate GoodLabel(s: string) {
    1 <= |s| <= 63 && s[0] != '-' && s[|s| - 1] != '-' && forall i :: 0 <= i < |s| ==> LabelChar(s[i])
  }

  predicate IsNumber(s: string) { s != [] && forall i :: 0 <= i < |s| ==> '0' <= s[i] <= '9' }

  // ----- one label and the rest

  lemma OneLabel(s: string)
    requires DotAt(s) == |s|
    ensures HasGoodLabels(s) <==> GoodLabel(s)
  {
    assert |s| >= 64 ==> !DotWithin(s, 0);
    if HasGoodLabels(s) {
      assert s[0] == '-' ==> !IsEdge(s, 0 - 1);
      assert s[|s| - 1] == '-' ==> !IsEdge(s, |s| - 1 + 1);
    }
  }

  /** Where the rest begins, boundaries are those of the rest. */
  lemma EdgesOfRest(s: string, k: nat, i: int)
    requires k < |s| && s[k] == '.' && -1 <= i <= |s| - k - 1
    ensures IsEdge(s, k + 1 + i) <==> IsEdge(s[k + 1..], i)
  {
  }

  ghost predicate WindowsOk(s: string) { forall i :: 0 <= i <= |s| - 64 ==> DotWithin(s, i) }

  lemma WindowsOfRest(s: string, k: nat)
    requires k < |s| && s[k] == '.' && DotAt(s) == k
    ensures WindowsOk(s) <==> (k <= 63 || |s| < 64) && WindowsOk(s[k + 1..])
  {
    var b := s[k + 1..];
    forall i | 0 <= i <= |b| - 64 ensures DotWithin(b, i) <==> DotWithin(s, k + 1 + i) {
      assert b[i..i + 64] == s[k + 1 + i..k + 1 + i + 64];
    }
    assert k >= 64 ==> !DotWithin(s, 0);
    if (k <= 63 || |s| < 64) && WindowsOk(b) {
      forall i | 0 <= i <= |s| - 64 ensures DotWithin(s, i) {
        if i <= k { assert s[i..i + 64][k - i] == '.'; }
        else { assert DotWithin(b, i - k - 1); }
      }
    }
  }

  ghost predicate EdgesOk(s: string) {
    forall i :: 0 <= i < |s| && (s[i] == '-' || s[i] == '.') ==> !IsEdge(s, i - 1) && !IsEdge(s, i + 1)
  }

  lemma EdgesSplit(s: string, k: nat)
    requires k < |s| && s[k] == '.' && DotAt(s) == k
    ensures EdgesOk(s) <==>
              && 1 <= k && s[0] != '-' && s[k - 1] != '-'
              && s[k + 1..] != [] && EdgesOk(s[k + 1..])
  {
    var b := s[k + 1..];
    if EdgesOk(s) {
      assert !IsEdge(s, k - 1) && !IsEdge(s, k + 1);
      forall i | 0 <= i < |b| && (b[i] == '-' || b[i] == '.') ensures !IsEdge(b, i - 1) && !IsEdge(b, i + 1) {
        assert s[k + 1 + i] == b[i];
        EdgesOfRest(s, k, i - 1);
        EdgesOfRest(s, k, i + 1);
      }
      assert s[0] == '-' ==> !IsEdge(s, 0 - 1);
      assert s[k - 1] == '-' ==> !IsEdge(s, k - 1 + 1);
    }
    if 1 <= k && s[0] != '-' && s[k - 1] != '-' && b != [] && EdgesOk(b) {
      forall i | 0 <= i < |s| && (s[i] == '-' || s[i] == '.') ensures !IsEdge(s, i - 1) && !IsEdge(s, i + 1) {
        if i > k {
          assert b[i - k - 1] == s[i];
          EdgesOfRest(s, k, i - k - 2);
          EdgesOfRest(s, k, i - k);
        } else if i == k {
          assert b[0] == '.' ==> !IsEdge(b, 0 - 1);
          assert s[k + 1] == b[0];
        }
      }
    }
  }

  lemma FirstLabel(s: string, k: nat)
    requires k < |s| && s[k] == '.' && DotAt(s) == k
    ensures HasGoodLabels(s) <==> GoodLabel(s[..k]) && HasGoodLabels(s[k + 1..])
  {
    var a, b := s[..k], s[k + 1..];
    EdgesSplit(s, k);
    WindowsOfRest(s, k);
    assert s == a + ['.'] + b;
    CharsSplit(s, k);
  }

  ghost predicate CharsOk(s: string) { forall i :: 0 <= i < |s| ==> LabelChar(s[i]) || s[i] == '.' }

  lemma CharsSplit(s: string, k: nat)
    requires k < |s| && s[k] == '.' && DotAt(s) == k
    ensures CharsOk(s) <==> (forall i :: 0 <= i < k ==> LabelChar(s[..k][i])) && CharsOk(s[k + 1..])
  {
    var b := s[k + 1..];
    if CharsOk(s) {
      forall i | 0 <= i < |b| ensures LabelChar(b[i]) || b[i] == '.' { assert s[k + 1 + i] == b[i]; }
      forall i | 0 <= i < k ensures LabelChar(s[..k][i]) { assert s[i] == s[..k][i]; }
    }
    if (forall i :: 0 <= i < k ==> LabelChar(s[..k][i])) && CharsOk(b) {
      forall i | 0 <= i < |s| ensures LabelChar(s[i]) || s[i] == '.' {
        if i < k { assert s[..k][i] == s[i]; }
        else if i > k { assert b[i - k - 1] == s[i]; }
      }
    }
  }

  // ----- all labels

  lemma {:induction false} LabelsExactly(s: string)
    ensures HasGoodLabels(s) <==> forall l :: l in Labels(s) ==> GoodLabel(l)
    decreases |s|
  {
    var k := DotAt(s);
    if k == |s| { OneLabel(s); }
    else {
      FirstLabel(s, k);
      LabelsExactly(s[k + 1..]);
    }
  }

  lemma {:induction false} DotsExactly(s: string)
    ensures '.' in s <==> |Labels(s)| >= 2
  {
  }

  lemma NumberOfRest(s: string, k: nat)
    requires k < |s| && s[k] == '.' && DotAt(s) == k
    ensures EndsInNumber(s) <==> EndsInNumber(s[k + 1..])
  {
    var b := s[k + 1..];
    if j :| 0 <= j < |b| && NumberFrom(b, j) {
      EdgesOfRest(s, k, j - 1);
      assert NumberFrom(s, k + 1 + j);
    }
    if j :| 0 <= j < |s| && NumberFrom(s, j) {
      assert j > k;
      EdgesOfRest(s, k, j - k - 2);
      assert NumberFrom(b, j - k - 1);
    }
  }

  lemma {:induction false} NumberExactly(s: string)
    ensures EndsInNumber(s) <==> IsNumber(Labels(s)[|Labels(s)| - 1])
    decreases |s|
  {
    var k := DotAt(s);
    if k == |s| {
      if IsNumber(s) { assert NumberFrom(s, 0); }
    } else {
      NumberOfRest(s, k);
      NumberExactly(s[k + 1..]);
    }
  }

  /** A text is a DNS name if and only if it has at most 253 characters and, in lower case,
      at least two labels, each of 1 to 63 letters, digits and inner hyphens, the last of
      which is not a number. */
  lemma DomainExactly(s: string)
    ensures DomainOk(s) <==>
              var labels := Labels(Lower(s));
              && |s| <= 253 && |labels| >= 2
              && (forall l :: l in labels ==> GoodLabel(l))
              && !IsNumber(labels[|labels| - 1])
  {
    LabelsExactly(Lower(s));
    DotsExactly(Lower(s));
    NumberExactly(Lower(s));
  }

  /** An SSH host may have a single label, and the last may be a number. */
  lemma SshHostExactly(s: string)
    ensures SshHostOk(s) <==>
              |s| <= 253 && forall l :: l in Labels(Lower(s)) ==> GoodLabel(l)
  {
    LabelsExactly(Lower(s));
  }

  /** SSH user names and host key aliases. */
  lemma SshNamesExactly(s: string)
    ensures IsUserName(s) <==>
              && 1 <= |s| <= 31 && ('a' <= s[0] <= 'z' || s[0] == '_')
              && forall i :: 0 < i < |s| ==> LabelChar(s[i]) || s[i] == '_'
    ensures IsAlias(s) <==>
              && 1 <= |s| <= 253 && IsAlnum(s[0])
              && forall i :: 0 < i < |s| ==> IsAlnum(s[i]) || s[i] in {'.', '_', '-'}
  {
  }
}
