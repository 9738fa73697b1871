/** `edgeRolloutDigest`: the canonical text of the normalised contract.  SHA-256 is
    modelled by the text itself. */
module RolloutDigest {
  import opened Results
  import opened StableText
  import opened StableUniqueness
  import opened JsonObjects
  import opened RolloutContract

  const ARTIFACT_KEYS := ["id", "path", "sha256", "owner", "group", "mode", "type"]
  const METADATA_KEYS := ["name"]
  const SPEC_KEYS := ["edgeProjectDigest", "deploymentId", "artifacts"]
  const ROLLOUT_KEYS := ["apiVersion", "kind", "metadata", "spec"]

  lemma KeysDiffer()
    ensures AllDifferent(ARTIFACT_KEYS) && AllDifferent(METADATA_KEYS)
    ensures AllDifferent(SPEC_KEYS) && AllDifferent(ROLLOUT_KEYS)
  {
    assert ARTIFACT_KEYS[3][0] == 'o' && ARTIFACT_KEYS[4][0] == 'g';
    assert ARTIFACT_KEYS[1][0] == 'p' && ARTIFACT_KEYS[5][0] == 'm' && ARTIFACT_KEYS[6][0] == 't';
  }

  function ArtifactFields(a: Artifact): seq<Option<Value>> {
    [Some(String(a.id)), Some(String(a.path)), Some(String(a.sha256)), Some(String(a.owner)),
     Some(String(a.group)), Some(String(a.mode)), Some(String(a.kind))]
  }

  function ArtifactValue(a: Artifact): Value { Object(ARTIFACT_KEYS, ArtifactFields(a)) }

  function SpecFields(r: Rollout): seq<Option<Value>> {
    [Some(String(r.edgeProjectDigest)), Some(String(r.deploymentId)), Some(List(r.artifacts, ArtifactValue))]
  }

  function RolloutFields(r: Rollout): seq<Option<Value>> {
    [Some(String(r.apiVersion)), Some(String(r.kind)),
     Some(Object(METADATA_KEYS, [Some(String(r.name))])), Some(Object(SPEC_KEYS, SpecFields(r)))]
  }

  function RolloutValue(r: Rollout): Value { Object(ROLLOUT_KEYS, RolloutFields(r)) }

  // ----- the value determines the contract

  lemma ArtifactValueIsInjective(a: Artifact, b: Artifact)
    requires Same(ArtifactValue(a), ArtifactValue(b))
    ensures a == b
  {
    KeysDiffer();
    var x, y := ArtifactFields(a), ArtifactFields(b);
    SameObjects(ARTIFACT_KEYS, x, y);
    SameString(x, y, 0, a.id, b.id);
    SameString(x, y, 1, a.path, b.path);
    SameString(x, y, 2, a.sha256, b.sha256);
    SameString(x, y, 3, a.owner, b.owner);
    SameString(x, y, 4, a.group, b.group);
    SameString(x, y, 5, a.mode, b.mode);
    SameString(x, y, 6, a.kind, b.kind);
  }

  lemma SpecIsInjective(r: Rollout, q: Rollout)
    requires Same(Object(SPEC_KEYS, SpecFields(r)), Object(SPEC_KEYS, SpecFields(q)))
    ensures r.edgeProjectDigest == q.edgeProjectDigest && r.deploymentId == q.deploymentId && r.artifacts == q.artifacts
  {
    KeysDiffer();
    var x, y := SpecFields(r), SpecFields(q);
    SameObjects(SPEC_KEYS, x, y);
    SameString(x, y, 0, r.edgeProjectDigest, q.edgeProjectDigest);
    SameString(x, y, 1, r.deploymentId, q.deploymentId);
    assert SameField(x[2], y[2]);
    forall a, b | a in r.artifacts && b in q.artifacts && Same(ArtifactValue(a), ArtifactValue(b)) ensures a == b {
      ArtifactValueIsInjective(a, b);
    }
    ListIsInjective(r.artifacts, q.artifacts, ArtifactValue);
  }

  lemma NameIsInjective(a: string, b: string)
    requires Same(Object(METADATA_KEYS, [Some(String(a))]), Object(METADATA_KEYS, [Some(String(b))]))
    ensures a == b
  {
    KeysDiffer();
    SameObjects(METADATA_KEYS, [Some(String(a))], [Some(String(b))]);
    SameString([Some(String(a))], [Some(String(b))], 0, a, b);
  }

  lemma RolloutValueIsInjective(r: Rollout, q: Rollout)
    requires Same(RolloutValue(r), RolloutValue(q))
    ensures r == q
  {
    KeysDiffer();
    var x, y := RolloutFields(r), RolloutFields(q);
    SameObjects(ROLLOUT_KEYS, x, y);
    SameString(x, y, 0, r.apiVersion, q.apiVersion);
    SameString(x, y, 1, r.kind, q.kind);
    assert SameField(x[2], y[2]) && SameField(x[3], y[3]);
    NameIsInjective(r.name, q.name);
    SpecIsInjective(r, q);
  }

  // ----- the digest

  lemma SpecIsValid(r: Rollout)
    ensures Valid(Object(SPEC_KEYS, SpecFields(r)))
  {
    KeysDiffer();
    forall a | a in r.artifacts ensures Valid(ArtifactValue(a)) { ObjectIsValid(ARTIFACT_KEYS, ArtifactFields(a)); }
    ListIsValid(r.artifacts, ArtifactValue);
    ObjectIsValid(SPEC_KEYS, SpecFields(r));
  }

  lemma RolloutValueIsValid(r: Rollout)
    ensures Valid(RolloutValue(r))
  {
    KeysDiffer();
    SpecIsValid(r);
    ObjectIsValid(METADATA_KEYS, [Some(String(r.name))]);
    ObjectIsValid(ROLLOUT_KEYS, RolloutFields(r));
  }

  /** edgeRolloutDigest: it fails when normalisation does. */
  function Digest(r: Rollout): Option<Text> {
    if RolloutOk(r) then Some(Stable(RolloutValue(Normalize(r).value))) else None
  }

  /** Two accepted contracts have the same digest exactly when they are equal up to the
      order of their artifacts. */
  lemma DigestDecidesAlike(r: Rollout, q: Rollout)
    requires RolloutOk(r) && RolloutOk(q)
    ensures Digest(r) == Digest(q) <==> Alike(r, q)
  {
    NormalFormDecidesAlike(r, q);
    SameDigestSameForm(Normalize(r).value, Normalize(q).value);
  }

  lemma SameDigestSameForm(r: Rollout, q: Rollout)
    ensures Stable(RolloutValue(r)) == Stable(RolloutValue(q)) <==> r == q
  {
    RolloutValueIsValid(r);
    RolloutValueIsValid(q);
    PrintsAlikeIffSame(RolloutValue(r), RolloutValue(q));
    if Same(RolloutValue(r), RolloutValue(q)) { RolloutValueIsInjective(r, q); }
  }
}
