/** Authorizations over the store as a state machine: what consumeStopPermit returns
    while issuers and consumers of one nonce interleave, are killed and lose power. */
module StopPermitAuthorization {
  import opened Results
  import opened StopPermits
  import opened StopPermitAuthority
  import Store = StopPermitStore
  import Safety = StopPermitSafety

  /** Every issue task was given the record of a permit, and every consume task belongs
      to a call that passed the checks before the store. */
  ghost predicate Callers(s: Store.State, issued: map<Store.TaskId, Permit>, calls: map<Store.TaskId, Call>) {
    forall u :: u in s.tasks ==>
      if Safety.Issuing(s.tasks[u])
      then u in issued && s.tasks[u].record == RecordOf(issued[u])
      else u in calls && Refusal(calls[u]).None? && s.tasks[u].record == RecordOf(calls[u].permit)
  }

  /** What the call behind a consume task has returned, if it has. */
  function Returned(t: Store.Task, c: Call): Option<Result<Authorization, Code>> {
    if !t.Done? || t.issue || t.answer == Store.Killed then None
    else Some(Outcome(c, match t.answer case Yes => Yes case No => No case _ => Refused))
  }

  /** For any clock readings and any interleaving: an authorization carries exactly the
      claims, lifetime and nonce of a permit whose record some issue call has written, is verified
      within that lifetime and less than five minutes after its beginning, and the call
      had presented those very claims. */
  lemma AuthorizationIsBound(
    actions: seq<Store.Action>, issued: map<Store.TaskId, Permit>, calls: map<Store.TaskId, Call>, a: Store.TaskId,
    auth: Authorization) returns (u: Store.TaskId)
    requires Store.Exec(Store.START, actions).Some?
    requires var s := Store.Exec(Store.START, actions).value;
             && Callers(s, issued, calls)
             && a in s.tasks && a in calls && Returned(s.tasks[a], calls[a]) == Some(Success(auth))
    ensures var s := Store.Exec(Store.START, actions).value;
            u in s.writers && u in s.tasks && Safety.Issuing(s.tasks[u]) && u in issued
    ensures var p := issued[u];
            && auth == Authorization(p.claims, p.issuedAt, p.expiresAt, auth.verifiedAt, p.nonce)
            && calls[a].permit == p && calls[a].expected == p.claims
            && p.issuedAt <= auth.verifiedAt < p.expiresAt
            && auth.verifiedAt - p.issuedAt < MAX_LIFETIME_MS
            && SameProcess(p, calls[a].i0) && SameProcess(p, calls[a].i1)
  {
    var s := Store.Exec(Store.START, actions).value;
    var p := calls[a].permit;
    Safety.ConsumedPermitWasIssued(actions, issued, a, p);
    u :| u in s.writers && u in s.tasks && Safety.Issuing(s.tasks[u]) && u in issued && issued[u] == p;
  }

  /** No two calls ever return an authorization for one nonce. */
  lemma AuthorizedAtMostOnce(
    actions: seq<Store.Action>, calls: map<Store.TaskId, Call>, a: Store.TaskId, b: Store.TaskId)
    requires Store.Exec(Store.START, actions).Some?
    requires var s := Store.Exec(Store.START, actions).value;
             && a in s.tasks && a in calls && b in s.tasks && b in calls
             && Returned(s.tasks[a], calls[a]).Some? && Returned(s.tasks[a], calls[a]).value.Success?
             && Returned(s.tasks[b], calls[b]).Some? && Returned(s.tasks[b], calls[b]).value.Success?
    ensures a == b
  {
    Safety.ConsumedAtMostOnce(actions, a, b);
  }
}
