/** Rollout contracts (src/rollout-contract.js): validation, the in-place sort of the
    artifacts, and their digest. */
module RolloutContract {
  import opened Results
  import opened Texts
  import opened Sorting
  import opened Reordering
  import RequestPath

  datatype Artifact = Artifact(
    id: string, path: string, sha256: string, owner: string, group: string, mode: string, kind: string)

  datatype Rollout = Rollout(
    apiVersion: string, kind: string, name: string,
    edgeProjectDigest: string, deploymentId: string, artifacts: seq<Artifact>)

  const API_VERSION := "lazyedge.lazying.art/v1alpha1"
  const KIND := "EdgeRollout"
  const ARTIFACT_TYPE := "regular-file"
  const MAXIMUM_ARTIFACT_COUNT := 256

  // ----- one artifact

  predicate IsArtifactChar(c: char) { IsAlnum(c) || c == '.' || c == '_' || c == '@' || c == '+' || c == '-' }

  predicate IsComponent(s: string) {
    1 <= |s| <= 255 && !RequestPath.IsDot(s) && forall i :: 0 <= i < |s| ==> IsArtifactChar(s[i])
  }

  predicate AreComponents(components: seq<string>) { forall i :: 0 <= i < |components| ==> IsComponent(components[i]) }

  /** canonicalArtifactPath */
  predicate IsArtifactPath(s: string) {
    2 <= |s| <= 4096 && s[0] == '/' && AreComponents(RequestPath.Segments(s[1..]))
  }

  /** The write bit of an octal digit is clear. */
  predicate IsReadOnlyDigit(c: char) { c == '0' || c == '1' || c == '4' || c == '5' }

  /** artifactMode: `0[0-7]{3}` without group or world write permission. */
  predicate IsMode(s: string) {
    |s| == 4 && s[0] == '0' && '0' <= s[1] <= '7' && IsReadOnlyDigit(s[2]) && IsReadOnlyDigit(s[3])
  }

  predicate IsAccount(s: string) {
    Shape(s, c => IsLower(c) || c == '_', c => IsLower(c) || IsDigit(c) || c == '_' || c == '-', 0, 31)
  }

  predicate IsOperationId(s: string) {
    Shape(s, IsAlnum, c => IsAlnum(c) || c == '.' || c == '_' || c == '~' || c == '-', 15, 127)
  }

  /** normalizeArtifact accepts: it copies the fields. */
  predicate ArtifactOk(a: Artifact) {
    && IsName(a.id) && IsArtifactPath(a.path) && IsHexText(a.sha256, 64)
    && IsAccount(a.owner) && IsAccount(a.group) && IsMode(a.mode) && a.kind == ARTIFACT_TYPE
  }

  // ----- order and uniqueness

  /** compareArtifacts(a, b) < 0 */
  predicate ArtifactBefore(a: Artifact, b: Artifact) { Before(a.id, b.id) || (a.id == b.id && Before(a.path, b.path)) }

  predicate ArtifactsDiffer(a: Artifact, b: Artifact) { a.id != b.id && a.path != b.path }

  // ----- the specification

  predicate ArtifactsOk(artifacts: seq<Artifact>) {
    && 1 <= |artifacts| <= MAXIMUM_ARTIFACT_COUNT
    && (forall a :: a in artifacts ==> ArtifactOk(a))
    && Pairwise(artifacts, ArtifactsDiffer)
  }

  predicate RolloutOk(r: Rollout) {
    && r.apiVersion == API_VERSION && r.kind == KIND && IsName(r.name)
    && IsHexText(r.edgeProjectDigest, 64) && IsOperationId(r.deploymentId)
    && ArtifactsOk(r.artifacts)
  }

  /** normalizeEdgeRollout */
  function Normalize(r: Rollout): Option<Rollout> {
    if RolloutOk(r) then Some(r.(artifacts := Sort(r.artifacts, ArtifactBefore))) else None
  }

  // ----- the sort in place

  /** Moves `a[i]` into the sorted rest of the array. */
  method InsertInPlace(a: array<Artifact>, i: nat)
    requires i < a.Length
    modifies a
    ensures a[..] == old(a[..])[..i] + Insert(old(a[..])[i], old(a[..])[i + 1..], ArtifactBefore)
  {
    ghost var was := a[..];
    var x := a[i];
    var j := i;
    while j + 1 < a.Length && ArtifactBefore(a[j + 1], x)
      invariant i <= j < a.Length
      invariant forall k :: 0 <= k < i || j < k < a.Length ==> a[k] == was[k]
      invariant forall k :: i <= k < j ==> a[k] == was[k + 1]
      invariant forall k :: i < k <= j ==> ArtifactBefore(was[k], x)
    {
      a[j] := a[j + 1];
      j := j + 1;
    }
    a[j] := x;
    Inserted(was, i, j, a[..]);
  }

  /** The elements before `i` and after `j` have stayed, those between have moved down. */
  lemma Inserted(was: seq<Artifact>, i: nat, j: nat, now: seq<Artifact>)
    requires i <= j < |was| == |now| && now[j] == was[i]
    requires forall k :: 0 <= k < i || j < k < |was| ==> now[k] == was[k]
    requires forall k :: i <= k < j ==> now[k] == was[k + 1]
    requires forall k :: i < k <= j ==> ArtifactBefore(was[k], was[i])
    requires j + 1 < |was| ==> !ArtifactBefore(was[j + 1], was[i])
    ensures now == was[..i] + Insert(was[i], was[i + 1..], ArtifactBefore)
  {
    var passed, above := was[i + 1..j + 1], was[j + 1..];
    assert passed + above == was[i + 1..];
    InsertPassesAll(was[i], passed, above);
    Moved(was, i, j, now);
  }

  lemma Moved(was: seq<Artifact>, i: nat, j: nat, now: seq<Artifact>)
    requires i <= j < |was| == |now| && now[j] == was[i]
    requires forall k :: 0 <= k < i || j < k < |was| ==> now[k] == was[k]
    requires forall k :: i <= k < j ==> now[k] == was[k + 1]
    ensures now == was[..i] + (was[i + 1..j + 1] + ([was[i]] + was[j + 1..]))
  {
  }

  lemma {:induction false} InsertPassesAll(x: Artifact, passed: seq<Artifact>, above: seq<Artifact>)
    requires forall k :: 0 <= k < |passed| ==> ArtifactBefore(passed[k], x)
    requires above != [] ==> !ArtifactBefore(above[0], x)
    ensures Insert(x, passed + above, ArtifactBefore) == passed + ([x] + above)
  {
    if passed == [] {
      assert passed + above == above;
    } else {
      InsertPassesAll(x, passed[1..], above);
      assert (passed + above)[1..] == passed[1..] + above;
    }
  }

  /** `artifacts.sort(compareArtifacts)`, which is stable. */
  method SortInPlace(a: array<Artifact>)
    modifies a
    ensures a[..] == Sort(old(a[..]), ArtifactBefore)
  {
    ghost var was := a[..];
    var i := a.Length;
    assert was[..i] + [] == was;
    while i > 0
      invariant 0 <= i <= a.Length
      invariant a[..] == was[..i] + Sort(was[i..], ArtifactBefore)
    {
      i := i - 1;
      OneMoreSorted(was, i);
      InsertInPlace(a, i);
    }
    assert was[0..] == was;
  }

  lemma OneMoreSorted(was: seq<Artifact>, i: nat)
    requires i < |was|
    ensures Sort(was[i..], ArtifactBefore) == Insert(was[i], Sort(was[i + 1..], ArtifactBefore), ArtifactBefore)
    ensures var s := was[..i + 1] + Sort(was[i + 1..], ArtifactBefore);
            s[..i] == was[..i] && s[i] == was[i] && s[i + 1..] == Sort(was[i + 1..], ArtifactBefore)
  {
    assert was[i..][0] == was[i] && was[i..][1..] == was[i + 1..];
  }

  /** normalizeArtifacts: an array of the right length is filled by index, then sorted. */
  method NormalizeArtifacts(artifacts: seq<Artifact>) returns (result: Option<seq<Artifact>>)
    ensures result == if 1 <= |artifacts| <= MAXIMUM_ARTIFACT_COUNT && forall a :: a in artifacts ==> ArtifactOk(a)
                      then Some(Sort(artifacts, ArtifactBefore)) else None
  {
    if !(1 <= |artifacts| <= MAXIMUM_ARTIFACT_COUNT) { return None; }
    var a := new Artifact[|artifacts|](_ => artifacts[0]);
    for i := 0 to |artifacts|
      invariant a[..i] == artifacts[..i]
      invariant forall x :: x in artifacts[..i] ==> ArtifactOk(x)
    {
      if !ArtifactOk(artifacts[i]) { assert artifacts[i] in artifacts; return None; }
      a[i] := artifacts[i];
      assert artifacts[..i + 1] == artifacts[..i] + [artifacts[i]];
    }
    assert a[..] == artifacts && artifacts[..|artifacts|] == artifacts;
    SortInPlace(a);
    return Some(a[..]);
  }

  /** The uniqueness loop, with its two sets. */
  method CheckUnique(artifacts: seq<Artifact>) returns (ok: bool)
    ensures ok <==> Pairwise(artifacts, ArtifactsDiffer)
  {
    var ids: set<string>, paths: set<string> := {}, {};
    for i := 0 to |artifacts|
      invariant ids == set x | x in artifacts[..i] :: x.id
      invariant paths == set x | x in artifacts[..i] :: x.path
      invariant Pairwise(artifacts[..i], ArtifactsDiffer)
    {
      var x := artifacts[i];
      assert artifacts[..i + 1] == artifacts[..i] + [x];
      assert forall k :: 0 <= k < i ==> artifacts[..i][k] == artifacts[k];
      if x.id in ids || x.path in paths {
        ghost var y :| y in artifacts[..i] && (y.id == x.id || y.path == x.path);
        ghost var k :| 0 <= k < i && artifacts[k] == y;
        assert !ArtifactsDiffer(artifacts[k], artifacts[i]);
        return false;
      }
      ids, paths := ids + {x.id}, paths + {x.path};
    }
    assert artifacts[..|artifacts|] == artifacts;
    return true;
  }

  method NormalizeEdgeRollout(r: Rollout) returns (result: Option<Rollout>)
    ensures result == Normalize(r)
  {
    if r.apiVersion != API_VERSION || r.kind != KIND || !IsName(r.name) { return None; }
    var artifacts := NormalizeArtifacts(r.artifacts);
    if artifacts.None? { return None; }
    var unique := CheckUnique(artifacts.value);
    UniqueUnsorted(r.artifacts);
    if !unique || !IsHexText(r.edgeProjectDigest, 64) || !IsOperationId(r.deploymentId) { return None; }
    return Some(r.(artifacts := artifacts.value));
  }

  lemma UniqueUnsorted(artifacts: seq<Artifact>)
    ensures Pairwise(Sort(artifacts, ArtifactBefore), ArtifactsDiffer) <==> Pairwise(artifacts, ArtifactsDiffer)
  {
    var sorted := Sort(artifacts, ArtifactBefore);
    SortReorders(artifacts, ArtifactBefore);
    ReorderedSymmetric(artifacts, sorted);
    if Pairwise(sorted, ArtifactsDiffer) { PairwiseIsOrderFree(sorted, artifacts, ArtifactsDiffer); }
    if Pairwise(artifacts, ArtifactsDiffer) { PairwiseIsOrderFree(artifacts, sorted, ArtifactsDiffer); }
  }

  // ----- normal forms

  lemma ArtifactOrder()
    ensures StrictOrder(ArtifactBefore)
  {
    forall a ensures !Before(a, a) { BeforeIsIrreflexive(a); }
    forall a, b, c | Before(a, b) && Before(b, c) ensures Before(a, c) { BeforeIsTransitive(a, b, c); }
  }

  lemma ArtifactsSeparated(s: seq<Artifact>)
    requires Pairwise(s, ArtifactsDiffer)
    ensures Separated(s, ArtifactBefore)
  {
    forall i, j | 0 <= i < j < |s| ensures ArtifactBefore(s[i], s[j]) || ArtifactBefore(s[j], s[i]) {
      assert ArtifactsDiffer(s[i], s[j]);
      BeforeIsTotal(s[i].id, s[j].id);
    }
  }

  lemma ArtifactsAreOrderFree(a: seq<Artifact>, b: seq<Artifact>)
    requires ArtifactsOk(a) && Reordered(a, b)
    ensures ArtifactsOk(b) && Sort(b, ArtifactBefore) == Sort(a, ArtifactBefore)
  {
    ReorderedHasMembers(a, b);
    PairwiseIsOrderFree(a, b, ArtifactsDiffer);
    ArtifactsSeparated(a);
    ArtifactsSeparated(b);
    ArtifactOrder();
    SortIsOrderFree(a, b, ArtifactBefore);
  }

  /** The same contract up to the order of its artifacts. */
  ghost predicate Alike(r: Rollout, q: Rollout) {
    q == r.(artifacts := q.artifacts) && Reordered(r.artifacts, q.artifacts)
  }

  lemma AlikeNormalizesAlike(r: Rollout, q: Rollout)
    requires Alike(r, q)
    ensures Normalize(q) == Normalize(r)
  {
    ReorderedSymmetric(r.artifacts, q.artifacts);
    if RolloutOk(r) { ArtifactsAreOrderFree(r.artifacts, q.artifacts); }
    if RolloutOk(q) { ArtifactsAreOrderFree(q.artifacts, r.artifacts); }
  }

  lemma NormalizeIsIdempotent(r: Rollout)
    requires Normalize(r).Some?
    ensures Normalize(Normalize(r).value) == Normalize(r) && Alike(r, Normalize(r).value)
    ensures Increasing(Normalize(r).value.artifacts, ArtifactBefore)
  {
    SortReorders(r.artifacts, ArtifactBefore);
    AlikeNormalizesAlike(r, Normalize(r).value);
    ArtifactsSeparated(r.artifacts);
    ArtifactOrder();
    SortIncreases(r.artifacts, ArtifactBefore);
  }

  /** Two accepted contracts have the same normal form exactly when they are alike. */
  lemma NormalFormDecidesAlike(r: Rollout, q: Rollout)
    requires RolloutOk(r) && RolloutOk(q)
    ensures Normalize(r) == Normalize(q) <==> Alike(r, q)
  {
    if Normalize(r) == Normalize(q) {
      SortReorders(r.artifacts, ArtifactBefore);
      SortReorders(q.artifacts, ArtifactBefore);
      ReorderedSymmetric(q.artifacts, Sort(q.artifacts, ArtifactBefore));
      ReorderedTransitive(r.artifacts, Sort(r.artifacts, ArtifactBefore), q.artifacts);
    }
    if Alike(r, q) { AlikeNormalizesAlike(r, q); }
  }
}
