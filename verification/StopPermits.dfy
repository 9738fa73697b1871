/** Stop permits and the records that stand for them (src/rollout-authority.js).

    SHA-256 is modelled as a constructor, so it is injective; timestamps are epoch
    milliseconds already parsed from their canonical text. */
module StopPermits {
  import opened Results

  const PERMIT_KIND := "lazyedge.stop-permit"
  const SCHEMA_VERSION := 1
  const MAX_LIFETIME_MS := 5 * 60 * 1000
  type Milliseconds = int

  datatype Claims = Claims(
    planDigest: string, operationId: string, role: string, unit: string, invocationId: string,
    pid: int, procStartTicks: string, unitDigest: string, listenerSet: seq<string>,
    admissionGeneration: string, proofKind: string, proofDigest: string)

  datatype Permit = Permit(
    schemaVersion: int, kind: string, claims: Claims,
    issuedAt: Milliseconds, expiresAt: Milliseconds, nonce: string)

  datatype Digest = Sha256(preimage: Permit)

  datatype StoreRecord = StoreRecord(
    schemaVersion: int, kind: string, nonce: string, permitDigest: Digest, expiresAt: Milliseconds)

  function RecordOf(permit: Permit): StoreRecord {
    StoreRecord(SCHEMA_VERSION, PERMIT_KIND, permit.nonce, Sha256(permit), permit.expiresAt)
  }

  /** The digest pins the whole permit, although a record shows only part of it. */
  lemma RecordDeterminesPermit(p: Permit, q: Permit)
    requires RecordOf(p) == RecordOf(q)
    ensures p == q
  {
    assert RecordOf(p).permitDigest.preimage == RecordOf(q).permitDigest.preimage;
  }
}
