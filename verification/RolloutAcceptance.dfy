/** Which rollout contracts normalizeEdgeRollout accepts, said on the input itself. */
module RolloutAcceptance {
  import opened Results
  import opened Texts
  import opened Sorting
  import opened Reordering
  import RequestPath
  import opened RolloutContract

  // ----- modes

  predicate IsOctal(c: char) { '0' <= c <= '7' }

  function OctalDigit(c: char): int { c as int - '0' as int }

  /** `Number.parseInt(s, 8)` */
  function OctalValue(s: string): int { if s == [] then 0 else OctalValue(s[..|s| - 1]) * 8 + OctalDigit(s[|s| - 1]) }

  /** Bit `1 << k` of a number. */
  predicate HasBit(n: int, unit: int)
    requires unit > 0
  {
    n / unit % 2 == 1
  }

  /** A mode is accepted if and only if it is four octal digits, the first a zero, without
      the write bits of group and world: `mode & 0o022 == 0`. */
  lemma ModeExactly(s: string)
    ensures IsMode(s) <==>
              && |s| == 4 && s[0] == '0' && (forall i :: 0 <= i < 4 ==> IsOctal(s[i]))
              && !HasBit(OctalValue(s), 16) && !HasBit(OctalValue(s), 2)
  {
    if |s| == 4 && s[0] == '0' && forall i :: 0 <= i < 4 ==> IsOctal(s[i]) {
      FourDigits(s);
      WriteBits(OctalDigit(s[1]), OctalDigit(s[2]), OctalDigit(s[3]));
      ReadOnlyExactly(s[2]);
      ReadOnlyExactly(s[3]);
    }
  }

  lemma ReadOnlyExactly(c: char)
    requires IsOctal(c)
    ensures IsReadOnlyDigit(c) <==> OctalDigit(c) / 2 % 2 == 0
  {
  }

  lemma WriteBits(a: int, b: int, c: int)
    requires 0 <= a < 8 && 0 <= b < 8 && 0 <= c < 8
    ensures var n := a * 64 + b * 8 + c; n / 2 % 2 == c / 2 % 2 && n / 16 % 2 == b / 2 % 2
  {
    var n := a * 64 + b * 8 + c;
    assert n / 2 == a * 32 + b * 4 + c / 2;
    assert n / 16 == a * 4 + (b * 8 + c) / 16 && (b * 8 + c) / 16 == b / 2;
  }

  lemma FourDigits(s: string)
    requires |s| == 4
    ensures OctalValue(s) ==
              ((OctalDigit(s[0]) * 8 + OctalDigit(s[1])) * 8 + OctalDigit(s[2])) * 8 + OctalDigit(s[3])
  {
    var a, b, c := s[..1], s[..2], s[..3];
    assert a[..0] == [] && b[..1] == a && c[..2] == b;
    assert OctalValue(a) == OctalDigit(s[0]);
    assert OctalValue(b) == OctalValue(a) * 8 + OctalDigit(s[1]);
    assert OctalValue(c) == OctalValue(b) * 8 + OctalDigit(s[2]);
  }

  // ----- paths

  predicate GoodComponent(s: string) {
    && 1 <= |s| <= 255 && s != "." && s != ".."
    && forall i :: 0 <= i < |s| ==> IsAlnum(s[i]) || s[i] in {'.', '_', '@', '+', '-'}
  }

  predicate GoodPath(s: string) {
    && 2 <= |s| <= 4096 && s[0] == '/'
    && forall component :: component in RequestPath.Segments(s[1..]) ==> GoodComponent(component)
  }

  lemma PathExactly(s: string)
    ensures IsArtifactPath(s) <==> GoodPath(s)
  {
    if |s| >= 2 {
      var components := RequestPath.Segments(s[1..]);
      forall i | 0 <= i < |components| ensures IsComponent(components[i]) <==> GoodComponent(components[i]) { }
      forall c | c in components ensures IsComponent(c) <==> GoodComponent(c) { }
    }
  }

  // ----- the whole

  predicate GoodArtifact(a: Artifact) {
    && IsName(a.id) && GoodPath(a.path) && IsHexText(a.sha256, 64)
    && IsAccount(a.owner) && IsAccount(a.group) && IsMode(a.mode) && a.kind == "regular-file"
  }

  /** Account names and deployment ids, character by character. */
  lemma NamesExactly(s: string)
    ensures IsAccount(s) <==>
              && 1 <= |s| <= 32 && ('a' <= s[0] <= 'z' || s[0] == '_')
              && forall i :: 0 < i < |s| ==> 'a' <= s[i] <= 'z' || '0' <= s[i] <= '9' || s[i] in {'_', '-'}
    ensures IsOperationId(s) <==>
              16 <= |s| <= 128 && IsAlnum(s[0]) && forall i :: 0 < i < |s| ==> IsAlnum(s[i]) || s[i] in {'.', '_', '~', '-'}
  {
  }

  /** normalizeEdgeRollout accepts a contract if and only if its head is right, it lists 1
      to 256 regular files, each well-formed, and no two of them share an id or a path; the
      result then has the same fields, with the same artifacts sorted by id. */
  lemma AcceptedExactly(r: Rollout)
    ensures Normalize(r).Some? <==>
              && r.apiVersion == "lazyedge.lazying.art/v1alpha1" && r.kind == "EdgeRollout" && IsName(r.name)
              && IsHexText(r.edgeProjectDigest, 64) && IsOperationId(r.deploymentId)
              && 1 <= |r.artifacts| <= 256
              && (forall a :: a in r.artifacts ==> GoodArtifact(a))
              && (forall i, j :: 0 <= i < j < |r.artifacts| ==>
                    r.artifacts[i].id != r.artifacts[j].id && r.artifacts[i].path != r.artifacts[j].path)
    ensures Normalize(r).Some? ==>
              && Normalize(r).value == r.(artifacts := Normalize(r).value.artifacts)
              && Reordered(r.artifacts, Normalize(r).value.artifacts)
              && (forall i, j :: 0 <= i < j < |r.artifacts| ==>
                    Before(Normalize(r).value.artifacts[i].id, Normalize(r).value.artifacts[j].id))
  {
    forall a ensures ArtifactOk(a) <==> GoodArtifact(a) { PathExactly(a.path); }
    DistinctExactly(r.artifacts);
    if Normalize(r).Some? {
      SortReorders(r.artifacts, ArtifactBefore);
      SortedById(r);
    }
  }

  lemma DistinctExactly(artifacts: seq<Artifact>)
    ensures Pairwise(artifacts, ArtifactsDiffer) <==>
              forall i, j :: 0 <= i < j < |artifacts| ==>
                artifacts[i].id != artifacts[j].id && artifacts[i].path != artifacts[j].path
  {
    if Pairwise(artifacts, ArtifactsDiffer) {
      forall i, j | 0 <= i < j < |artifacts|
        ensures artifacts[i].id != artifacts[j].id && artifacts[i].path != artifacts[j].path
      {
        assert ArtifactsDiffer(artifacts[i], artifacts[j]);
      }
    }
  }

  lemma SortedById(r: Rollout)
    requires RolloutOk(r)
    ensures var sorted := Sort(r.artifacts, ArtifactBefore);
            |sorted| == |r.artifacts| && forall i, j :: 0 <= i < j < |sorted| ==> Before(sorted[i].id, sorted[j].id)
  {
    var sorted := Sort(r.artifacts, ArtifactBefore);
    NormalizeIsIdempotent(r);
    SortPermutes(r.artifacts, ArtifactBefore);
    forall i, j | 0 <= i < j < |sorted| ensures Before(sorted[i].id, sorted[j].id) {
      assert ArtifactBefore(sorted[i], sorted[j]) && ArtifactsDiffer(sorted[i], sorted[j]);
    }
  }
}
