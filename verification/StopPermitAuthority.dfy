/** Issuing and consuming stop permits over a store (src/rollout-authority.js).

    Each call of the clock and of the process-identity reader is a parameter, so
    nothing is assumed about how they behave. */
module StopPermitAuthority {
  import opened Results
  import opened Texts
  import opened Numbers
  import opened StopPermits

  datatype Code =
    | InvalidPermit | NonceReused | NotYetValid | Expired | ClaimMismatch | ProcessMismatch
    | AlreadyConsumed | StoreMismatch

  datatype Identity = Identity(pid: int, procStartTicks: string)

  datatype Authorization = Authorization(
    claims: Claims, permitIssuedAt: Milliseconds, expiresAt: Milliseconds, verifiedAt: Milliseconds, nonce: string)

  // ----- formats

  predicate IsOpaqueChar(c: char) { IsAlnum(c) || c in "._:-" }

  predicate IsStartTicks(s: string) { Shape(s, c => '1' <= c <= '9', IsDigit, 0, 31) }

  predicate IsUnit(s: string) {
    && ".service" == s[if |s| < 8 then 0 else |s| - 8..]
    && |s| > 8
    && Shape(s[..|s| - 8], IsAlnum, c => IsAlnum(c) || c in ":_.@-", 0, 126)
  }

  predicate IsListener(s: string) { Shape(s, IsAlnum, c => IsAlnum(c) || c in "._:/@[]-", 0, 255) }

  /** Sorted without duplicates is strictly increasing. */
  predicate ValidListenerSet(listeners: seq<string>) {
    && |listeners| <= 64
    && (forall i :: 0 <= i < |listeners| ==> IsListener(listeners[i]))
    && (forall i :: 0 < i < |listeners| ==> Before(listeners[i - 1], listeners[i]))
  }

  /** 43 base64url characters whose unused last two bits are zero. */
  predicate IsNonce(s: string) {
    && |s| == 43
    && (forall i :: 0 <= i < |s| ==> IsAlnum(s[i]) || s[i] in "_-")
    && s[42] in "AEIMQUYcgkosw048"
  }

  predicate ValidClaims(c: Claims) {
    && 1 <= c.pid <= MAX_SAFE_INTEGER
    && IsHexText(c.planDigest, 64)
    && Shape(c.operationId, IsAlnum, x => IsAlnum(x) || x in "._~-", 15, 127)
    && IsName(c.role)
    && IsUnit(c.unit)
    && IsHexText(c.invocationId, 32)
    && IsStartTicks(c.procStartTicks)
    && IsHexText(c.unitDigest, 64)
    && ValidListenerSet(c.listenerSet)
    && Shape(c.admissionGeneration, IsAlnum, IsOpaqueChar, 0, 127)
    && IsName(c.proofKind)
    && IsHexText(c.proofDigest, 64)
  }

  /** What normalizePermit accepts; it returns its argument unchanged. */
  predicate ValidPermit(p: Permit) {
    && p.schemaVersion == SCHEMA_VERSION && p.kind == PERMIT_KIND
    && ValidClaims(p.claims)
    && p.issuedAt < p.expiresAt <= p.issuedAt + MAX_LIFETIME_MS
    && IsNonce(p.nonce)
  }

  /** assertPermitTime. */
  function TimeError(p: Permit, now: Milliseconds): Option<Code> {
    if now < p.issuedAt then Some(NotYetValid)
    else if p.expiresAt <= now then Some(Expired)
    else None
  }

  predicate InTime(p: Permit, now: Milliseconds) { p.issuedAt <= now < p.expiresAt }

  predicate SameProcess(p: Permit, identity: Option<Identity>) {
    identity == Some(Identity(p.claims.pid, p.claims.procStartTicks))
  }

  // ----- the store, one undisturbed call at a time

  datatype Consumption = Yes | No | Refused

  class FileStopPermitStore {
    var active: map<string, StoreRecord>
    var spent: map<string, StoreRecord>
    ghost var offered: set<StoreRecord>   // every record an issue call was given

    ghost predicate Valid()
      reads this
    {
      && (forall n :: n in active ==> n !in spent && active[n].nonce == n && active[n] in offered)
      && (forall n :: n in spent ==> spent[n].nonce == n && spent[n] in offered)
    }

    constructor ()
      ensures Valid() && active == map[] && spent == map[] && offered == {}
    {
      active, spent, offered := map[], map[], {};
    }

    method Issue(record: StoreRecord) returns (ok: bool)
      requires Valid()
      modifies this
      ensures Valid() && offered == old(offered) + {record} && spent == old(spent)
      ensures ok <==> record.nonce !in old(active) && record.nonce !in old(spent)
      ensures active == if ok then old(active)[record.nonce := record] else old(active)
    {
      offered := offered + {record};
      if record.nonce in active { return false; }
      active := active[record.nonce := record];
      if record.nonce in spent {
        active := map n | n in active && n != record.nonce :: active[n];
        return false;
      }
      return true;
    }

    predicate Consumable(record: StoreRecord)
      reads this
    {
      record.nonce !in spent && record.nonce in active && active[record.nonce] == record
    }

    /** Yes for the offered record of an unspent nonce, refused where the nonce has another record. */
    function Answer(expected: StoreRecord): Consumption
      reads this
    {
      var n := expected.nonce;
      if Consumable(expected) then Yes
      else if (n in spent && spent[n] != expected) || (n !in spent && n in active) then Refused
      else No
    }

    method Consume(expected: StoreRecord) returns (r: Consumption)
      requires Valid()
      modifies this
      ensures Valid() && offered == old(offered)
      ensures r == old(Answer(expected))
      ensures r == Yes <==> old(Consumable(expected))
      ensures r == Refused <==> var n := expected.nonce;
                                if n in old(spent) then old(spent)[n] != expected
                                else n in old(active) && old(active)[n] != expected
      ensures spent == if r == Yes then old(spent)[expected.nonce := expected] else old(spent)
      ensures active == if r == Yes then old(active) - {expected.nonce} else old(active)
    {
      var n := expected.nonce;
      if n in spent { return if spent[n] == expected then No else Refused; }
      if n !in active { return No; }
      if active[n] != expected { return Refused; }
      spent := spent[n := active[n]];
      active := active - {n};
      return Yes;
    }
  }

  // ----- the two operations

  /** What one call of consumeStopPermit is given and observes: its arguments, the clock
      before and after the store's answer, and the process identity both times. */
  datatype Call = Call(
    permit: Permit, expected: Claims,
    t0: Milliseconds, i0: Option<Identity>, t1: Milliseconds,
    t2: Milliseconds, i1: Option<Identity>, t3: Milliseconds)

  /** The checks made before the store is asked. */
  function Refusal(c: Call): Option<Code> {
    if !ValidPermit(c.permit) || !ValidClaims(c.expected) then Some(InvalidPermit)
    else if c.permit.claims != c.expected then Some(ClaimMismatch)
    else if !InTime(c.permit, c.t0) then TimeError(c.permit, c.t0)
    else if !SameProcess(c.permit, c.i0) then Some(ProcessMismatch)
    else TimeError(c.permit, c.t1)
  }

  /** What the call answers once the store has answered. */
  function Outcome(c: Call, consumed: Consumption): Result<Authorization, Code> {
    if consumed == Refused then Failure(StoreMismatch)
    else if consumed == No then Failure(AlreadyConsumed)
    else if !InTime(c.permit, c.t2) then Failure(TimeError(c.permit, c.t2).value)
    else if !SameProcess(c.permit, c.i1) then Failure(ProcessMismatch)
    else if !InTime(c.permit, c.t3) then Failure(TimeError(c.permit, c.t3).value)
    else Success(Authorization(c.permit.claims, c.permit.issuedAt, c.permit.expiresAt, c.t3, c.permit.nonce))
  }

  method IssueStopPermit(
    store: FileStopPermitStore, claims: Claims, issuedAt: Milliseconds, expiresAt: Milliseconds, nonce: string,
    before: Milliseconds, after: Milliseconds)
    returns (r: Result<Permit, Code>)
    requires store.Valid()
    modifies store
    ensures store.Valid() && store.spent == old(store.spent)
    ensures var p := Permit(SCHEMA_VERSION, PERMIT_KIND, claims, issuedAt, expiresAt, nonce);
            var unused := nonce !in old(store.active) && nonce !in old(store.spent);
            && (r.Success? <==> ValidPermit(p) && InTime(p, before) && unused && InTime(p, after))
            && (r.Success? ==> r.value == p)
            && store.active == (if ValidPermit(p) && InTime(p, before) && unused
                                then old(store.active)[nonce := RecordOf(p)] else old(store.active))
            && store.offered == (if ValidPermit(p) && InTime(p, before)
                                 then old(store.offered) + {RecordOf(p)} else old(store.offered))
  {
    var p := Permit(SCHEMA_VERSION, PERMIT_KIND, claims, issuedAt, expiresAt, nonce);
    if !ValidPermit(p) { return Failure(InvalidPermit); }
    var early := TimeError(p, before);
    if early.Some? { return Failure(early.value); }
    var ok := store.Issue(RecordOf(p));
    if !ok { return Failure(NonceReused); }
    var late := TimeError(p, after);
    if late.Some? { return Failure(late.value); }
    return Success(p);
  }

  /** Characters of a text, the first from one class, the others from a wider one. */
  predicate Spelled(s: string, least: nat, most: nat, others: string) {
    && least <= |s| <= most && s != [] && IsAlnum(s[0])
    && forall i :: 1 <= i < |s| ==> IsAlnum(s[i]) || s[i] in others
  }

  predicate Hex(s: string, n: nat) { |s| == n && forall i :: 0 <= i < n ==> '0' <= s[i] <= '9' || 'a' <= s[i] <= 'f' }

  /** Exactly which claims are accepted, field by field. */
  lemma ClaimsExactly(c: Claims)
    ensures ValidClaims(c) <==>
              && 1 <= c.pid <= 0x1F_FFFF_FFFF_FFFF
              && Hex(c.planDigest, 64) && Hex(c.invocationId, 32) && Hex(c.unitDigest, 64) && Hex(c.proofDigest, 64)
              && Spelled(c.operationId, 16, 128, "._~-") && Spelled(c.admissionGeneration, 1, 128, "._:-")
              && IsName(c.role) && IsName(c.proofKind)
              && 9 <= |c.unit| <= 135 && c.unit[|c.unit| - 8..] == ".service"
              && Spelled(c.unit[..|c.unit| - 8], 1, 127, ":_.@-")
              && 1 <= |c.procStartTicks| <= 32 && c.procStartTicks[0] != '0'
              && (forall i :: 0 <= i < |c.procStartTicks| ==> IsDigit(c.procStartTicks[i]))
              && |c.listenerSet| <= 64
              && (forall i :: 0 <= i < |c.listenerSet| ==> Spelled(c.listenerSet[i], 1, 256, "._:/@[]-"))
              && (forall i :: 0 < i < |c.listenerSet| ==> Before(c.listenerSet[i - 1], c.listenerSet[i]))
  {
    assert IsUnit(c.unit) <==>
             9 <= |c.unit| <= 135 && c.unit[|c.unit| - 8..] == ".service" && Spelled(c.unit[..|c.unit| - 8], 1, 127, ":_.@-");
    assert IsStartTicks(c.procStartTicks) <==>
             && 1 <= |c.procStartTicks| <= 32 && c.procStartTicks[0] != '0'
             && forall i :: 0 <= i < |c.procStartTicks| ==> IsDigit(c.procStartTicks[i]);
  }

  predicate Nonce(s: string) {
    && |s| == 43 && (forall i :: 0 <= i < 43 ==> IsAlnum(s[i]) || s[i] in "_-") && s[42] in "AEIMQUYcgkosw048"
  }

  /** Exactly which permits are well-formed. */
  lemma PermitExactly(p: Permit)
    ensures ValidPermit(p) <==>
              && p.schemaVersion == 1 && p.kind == "lazyedge.stop-permit" && Nonce(p.nonce) && ValidClaims(p.claims)
              && 0 < p.expiresAt - p.issuedAt <= 300_000
  {
  }

  /** Exactly when a call is authorized, on the fields of the permit: it is well-formed and
      lives at most five minutes, its claims are the expected ones, every clock reading
      lies in its lifetime, both process readings show its process, and the store says yes. */
  lemma AuthorizedExactly(c: Call, consumed: Consumption)
    ensures var p := c.permit;
            Refusal(c).None? && Outcome(c, consumed).Success? <==>
              && p.schemaVersion == 1 && p.kind == "lazyedge.stop-permit" && Nonce(p.nonce)
              && p.issuedAt < p.expiresAt && p.expiresAt - p.issuedAt <= 300_000
              && ValidClaims(p.claims) && c.expected == p.claims
              && p.issuedAt <= c.t0 < p.expiresAt && p.issuedAt <= c.t1 < p.expiresAt
              && p.issuedAt <= c.t2 < p.expiresAt && p.issuedAt <= c.t3 < p.expiresAt
              && c.i0 == Some(Identity(p.claims.pid, p.claims.procStartTicks))
              && c.i1 == Some(Identity(p.claims.pid, p.claims.procStartTicks))
              && consumed == Yes
    ensures Outcome(c, consumed).Success? ==>
              Outcome(c, consumed).value ==
                Authorization(c.permit.claims, c.permit.issuedAt, c.permit.expiresAt, c.t3, c.permit.nonce)
  {
  }

  /** A permit is spent exactly when nothing refuses it and it is consumable, even if a
      later check then refuses it.  An authorization repeats a permit whose record some
      issue call stored, and is verified within its lifetime. */
  method ConsumeStopPermit(store: FileStopPermitStore, c: Call) returns (r: Result<Authorization, Code>)
    requires store.Valid()
    modifies store
    ensures store.Valid() && store.offered == old(store.offered)
    ensures var p := c.permit;
            var spend := Refusal(c).None? && old(store.Consumable(RecordOf(p)));
            && store.spent == (if spend then old(store.spent)[p.nonce := RecordOf(p)] else old(store.spent))
            && store.active == (if spend then old(store.active) - {p.nonce} else old(store.active))
            && (r.Success? <==> spend && InTime(p, c.t2) && SameProcess(p, c.i1) && InTime(p, c.t3))
    ensures r == if Refusal(c).Some? then Failure(Refusal(c).value)
                 else Outcome(c, old(store.Answer(RecordOf(c.permit))))
    ensures r.Success? ==>
      && RecordOf(c.permit) in store.offered && RecordOf(c.permit) in store.spent.Values
      && r.value == Authorization(c.expected, c.permit.issuedAt, c.permit.expiresAt, c.t3, c.permit.nonce)
      && r.value.permitIssuedAt <= r.value.verifiedAt < r.value.expiresAt
      && r.value.verifiedAt - r.value.permitIssuedAt < MAX_LIFETIME_MS
  {
    var p := c.permit;
    if !ValidPermit(p) || !ValidClaims(c.expected) { return Failure(InvalidPermit); }
    if p.claims != c.expected { return Failure(ClaimMismatch); }
    var late := TimeError(p, c.t0);
    if late.Some? { return Failure(late.value); }
    if !SameProcess(p, c.i0) { return Failure(ProcessMismatch); }
    late := TimeError(p, c.t1);
    if late.Some? { return Failure(late.value); }
    var consumed := store.Consume(RecordOf(p));
    if consumed == Refused { return Failure(StoreMismatch); }
    if consumed == No { return Failure(AlreadyConsumed); }
    assert p.nonce in store.spent;
    late := TimeError(p, c.t2);
    if late.Some? { return Failure(late.value); }
    if !SameProcess(p, c.i1) { return Failure(ProcessMismatch); }
    late := TimeError(p, c.t3);
    if late.Some? { return Failure(late.value); }
    return Success(Authorization(p.claims, p.issuedAt, p.expiresAt, c.t3, p.nonce));
  }
}
