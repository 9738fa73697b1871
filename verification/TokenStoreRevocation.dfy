/** When exactly a verification that waits for a refresh can still accept a token that
    was revoked before: when the refresh has had its last look at the file before. */
module TokenStoreRevocation {
  import opened Results
  import Texts
  import opened TokenRecords
  import opened TokenStoreRuns
  import opened TokenStoreSafety

  predicate Within(k: nat, low: nat, high: Option<nat>) { low <= k && (high.Some? ==> k <= high.value) }

  /** The refresh in flight, if it succeeds, leaves the cache at a publication within the
      bounds; what it has not looked at yet is only bounded from below. */
  predicate LooksWithin(inst: Instance, low: nat, high: Option<nat>) {
    match inst.refresh
    case NoRefresh => false
    case Inspect(_) => high.None?
    case Inspected(_, found) => if found == inst.fingerprint then Within(found, low, high) else high.None?
    case Reload(_) => high.None?
    case Loaded(_, found) => Within(found, low, high)
  }

  /** Verification `v` of instance `i` asks `q` and is answered from a publication within
      the bounds; the first `low` publications end with this content. */
  ghost predicate Awaits(
    s: State, i: InstanceId, v: VerifyId, q: Query, low: nat, high: Option<nat>, content: Records)
  {
    && low <= |s.files| && Content(s.files, low) == content
    && i in s.instances && v in s.instances[i].verifies
    && match s.instances[i].verifies[v]
       case Waits(q', _) => q' == q && LooksWithin(s.instances[i], low, high)
       case Ready(q', _) => q' == q && Within(s.instances[i].fingerprint, low, high)
       case Answered(q', _, _, seen, _) => q' == q && Within(seen, low, high)
       case Threw(q') => q' == q
  }

  /** While a refresh is in flight no mutation of its instance takes a step. */
  lemma NoMutationBeside(s: State, initial: nat, i: InstanceId, c: Choice)
    requires Inv(s, initial) && Enabled(s, Mutation(i, c))
    ensures s.instances[i].refresh.NoRefresh?
  {
    assert MutationOk(s, i, s.instances[i]);
  }

  lemma MutationKeepsAwaiting(
    s: State, initial: nat, c: Choice, j: InstanceId,
    i: InstanceId, v: VerifyId, q: Query, low: nat, high: Option<nat>, content: Records)
    requires Inv(s, initial) && Enabled(s, Mutation(j, c)) && Awaits(s, i, v, q, low, high, content)
    ensures Awaits(Apply(s, Mutation(j, c)), i, v, q, low, high, content)
  {
    ContentStays(s.files, Apply(s, Mutation(j, c)).files, low);
    if i == j { NoMutationBeside(s, initial, i, c); }
  }

  lemma RefreshKeepsAwaiting(
    s: State, a: Action,
    i: InstanceId, v: VerifyId, q: Query, low: nat, high: Option<nat>, content: Records)
    requires Enabled(s, a) && (a.RefreshLook? || a.RefreshStep?) && Awaits(s, i, v, q, low, high, content)
    ensures Awaits(Apply(s, a), i, v, q, low, high, content)
  {
  }

  lemma VerifyKeepsAwaiting(
    s: State, a: Action,
    i: InstanceId, v: VerifyId, q: Query, low: nat, high: Option<nat>, content: Records)
    requires Enabled(s, a) && (a.BeginVerify? || a.Answer?) && Awaits(s, i, v, q, low, high, content)
    ensures Awaits(Apply(s, a), i, v, q, low, high, content)
  {
  }

  lemma AwaitsStays(
    s: State, initial: nat, a: Action,
    i: InstanceId, v: VerifyId, q: Query, low: nat, high: Option<nat>, content: Records)
    requires Inv(s, initial) && Enabled(s, a) && Awaits(s, i, v, q, low, high, content)
    ensures Awaits(Apply(s, a), i, v, q, low, high, content)
  {
    if a.Mutation? { MutationKeepsAwaiting(s, initial, a.c, a.i, i, v, q, low, high, content); }
    else if a.BeginVerify? || a.Answer? { VerifyKeepsAwaiting(s, a, i, v, q, low, high, content); }
    else if a.RefreshLook? || a.RefreshStep? { RefreshKeepsAwaiting(s, a, i, v, q, low, high, content); }
  }

  lemma {:induction false} AwaitsThroughout(
    existing: Option<Records>, actions: seq<Action>, more: seq<Action>,
    i: InstanceId, v: VerifyId, q: Query, low: nat, high: Option<nat>, content: Records)
    requires actions <= more && After(existing, actions).Some? && After(existing, more).Some?
    requires Awaits(After(existing, actions).value, i, v, q, low, high, content)
    ensures Awaits(After(existing, more).value, i, v, q, low, high, content)
    decreases |more|
  {
    if |more| == |actions| {
      assert more == actions;
    } else {
      var last := |more| - 1;
      AwaitsThroughout(existing, actions, more[..last], i, v, q, low, high, content);
      ReachableInv(existing, more[..last]);
      AwaitsStays(After(existing, more[..last]).value, Initial(existing), more[last], i, v, q, low, high, content);
    }
  }

  ghost predicate Awaiting(s: State, i: InstanceId, v: VerifyId, q: Query) {
    Alive(s, i) && v in s.instances[i].verifies && s.instances[i].verifies[v].Waits? && s.instances[i].verifies[v].q == q
  }

  ghost predicate AcceptedBy(s: State, i: InstanceId, v: VerifyId) {
    && i in s.instances && v in s.instances[i].verifies
    && s.instances[i].verifies[v].Answered? && s.instances[i].verifies[v].answer.Accepted?
  }

  /** The last look of the refresh in flight came before publication `n`; it will not
      look again, as it found the cached fingerprint or has read the file. */
  predicate LastLookMissed(inst: Instance, n: nat) {
    match inst.refresh
    case Inspected(_, found) => found < n && found == inst.fingerprint
    case Loaded(_, found) => found < n
    case _ => false
  }

  ghost predicate RevokedIn(files: seq<Records>, n: nat, id: Id) {
    n <= |files| && id in Content(files, n) && Content(files, n)[id].revokedAt.Some?
  }

  /** A verification that awaits a refresh, its own or one in flight, whose last look at
      the file does not precede the publication of a revocation, never accepts the
      token, however the run goes on. */
  lemma LaterLookHonoursRevocation(
    existing: Option<Records>, actions: seq<Action>, more: seq<Action>, i: InstanceId, v: VerifyId, q: Query, n: nat)
    requires q.tokenSet.Some? ==> Texts.IsName(q.tokenSet.value)
    requires actions <= more && After(existing, actions).Some? && After(existing, more).Some?
    requires var s := After(existing, actions).value;
             && Awaiting(s, i, v, q) && !LastLookMissed(s.instances[i], n)
             && Initial(existing) <= n && RevokedIn(s.files, n, q.token.id)
    ensures !AcceptedBy(After(existing, more).value, i, v)
  {
    var s := After(existing, actions).value;
    ReachableInv(existing, actions);
    assert MutationOk(s, i, s.instances[i]);
    AwaitsThroughout(existing, actions, more, i, v, q, n, None, Content(s.files, n));
    if AcceptedBy(After(existing, more).value, i, v) { AcceptedTokenWasPublished(existing, more, i, v); }
  }

  /** In particular when the verification begins the refresh itself. */
  lemma RefreshHonoursRevocation(
    existing: Option<Records>, actions: seq<Action>, more: seq<Action>, i: InstanceId, v: VerifyId, q: Query)
    requires q.tokenSet.Some? ==> Texts.IsName(q.tokenSet.value)
    requires After(existing, actions).Some? && After(existing, more).Some?
    requires var s := After(existing, actions).value;
             && Enabled(s, BeginVerify(i, v, q, true))
             && !Mutating(s.instances[i]) && s.instances[i].refresh.NoRefresh?
             && RevokedIn(s.files, |s.files|, q.token.id)
    requires actions + [BeginVerify(i, v, q, true)] <= more
    ensures !AcceptedBy(After(existing, more).value, i, v)
  {
    var s := After(existing, actions).value;
    var begun := actions + [BeginVerify(i, v, q, true)];
    assert begun[..|begun| - 1] == actions;
    ReachableInv(existing, actions);
    LaterLookHonoursRevocation(existing, begun, more, i, v, q, |s.files|);
  }

  // ----- a missed look accepts what the file said then

  /** If a verification accepts after a missed look, the file said so at that look. */
  lemma MissedLookDecides(
    existing: Option<Records>, actions: seq<Action>, more: seq<Action>, i: InstanceId, v: VerifyId, q: Query, n: nat)
    returns (now: Milliseconds)
    requires actions <= more && After(existing, actions).Some? && After(existing, more).Some?
    requires var s := After(existing, actions).value; Awaiting(s, i, v, q) && LastLookMissed(s.instances[i], n)
    requires AcceptedBy(After(existing, more).value, i, v)
    ensures var s := After(existing, actions).value;
            var found := s.instances[i].refresh.found;
            found <= |s.files| && Decide(Content(s.files, found), q, now).Accepted?
  {
    var s := After(existing, actions).value;
    ReachableInv(existing, actions);
    assert MutationOk(s, i, s.instances[i]);
    var found := s.instances[i].refresh.found;
    AwaitsThroughout(existing, actions, more, i, v, q, found, Some(found), Content(s.files, found));
    ReachableInv(existing, more);
    now := AcceptedAt(After(existing, more).value, Initial(existing), i, v, q, found, Content(s.files, found));
  }

  lemma AcceptedAt(s: State, initial: nat, i: InstanceId, v: VerifyId, q: Query, found: nat, content: Records)
    returns (now: Milliseconds)
    requires Inv(s, initial) && Awaits(s, i, v, q, found, Some(found), content) && AcceptedBy(s, i, v)
    ensures Decide(content, q, now).Accepted?
  {
    assert VerifyOk(s.files, s.instances[i].fingerprint, s.instances[i].verifies[v]);
    now := s.instances[i].verifies[v].now;
  }

  function ReadyOnes(inst: Instance): set<VerifyId> { set v | v in inst.verifies && inst.verifies[v].Ready? }

  /** Continuations that are due run first. */
  lemma AnswerReady(existing: Option<Records>, actions: seq<Action>, s: State, i: InstanceId)
    returns (more: seq<Action>, s': State)
    requires After(existing, actions) == Some(s) && Alive(s, i)
    ensures actions <= more && After(existing, more) == Some(s') && s'.files == s.files && Alive(s', i)
    ensures AllAnswered(s'.instances[i]) && s'.instances[i] == s.instances[i].(verifies := s'.instances[i].verifies)
    ensures forall v :: v in s.instances[i].verifies && !s.instances[i].verifies[v].Ready? ==>
              v in s'.instances[i].verifies && s'.instances[i].verifies[v] == s.instances[i].verifies[v]
    decreases |ReadyOnes(s.instances[i])|
  {
    if v :| v in s.instances[i].verifies && s.instances[i].verifies[v].Ready? {
      more, s' := More(existing, actions, s, Answer(i, v, 0));
      assert ReadyOnes(s'.instances[i]) == ReadyOnes(s.instances[i]) - {v};
      more, s' := AnswerReady(existing, more, s', i);
    } else {
      more, s' := actions, s;
    }
  }

  /** And what the file said then can still be the answer. */
  lemma MissedLookCanAccept(
    existing: Option<Records>, actions: seq<Action>, i: InstanceId, v: VerifyId, q: Query, n: nat, now: Milliseconds)
    returns (more: seq<Action>)
    requires After(existing, actions).Some?
    requires var s := After(existing, actions).value;
             && Awaiting(s, i, v, q) && LastLookMissed(s.instances[i], n) && s.instances[i].refresh.found <= |s.files|
             && Decide(Content(s.files, s.instances[i].refresh.found), q, now).Accepted?
    ensures actions <= more && After(existing, more).Some? && AcceptedBy(After(existing, more).value, i, v)
  {
    var s := After(existing, actions).value;
    var s': State;
    ReachableInv(existing, actions);
    assert MutationOk(s, i, s.instances[i]);
    more, s' := AnswerReady(existing, actions, s, i);
    more, s' := More(existing, more, s', RefreshStep(i, true));
    more, s' := More(existing, more, s', Answer(i, v, now));
  }

  /** The exact condition: a waiting verification can still accept a token whose
      revocation was published if and only if the last look of its refresh came before,
      and what the file said then is acceptable at some time. */
  lemma RevokedAcceptedExactly(
    existing: Option<Records>, actions: seq<Action>, i: InstanceId, v: VerifyId, q: Query, n: nat)
    requires q.tokenSet.Some? ==> Texts.IsName(q.tokenSet.value)
    requires After(existing, actions).Some?
    requires var s := After(existing, actions).value;
             Awaiting(s, i, v, q) && Initial(existing) <= n && RevokedIn(s.files, n, q.token.id)
    ensures var s := After(existing, actions).value;
            (exists more :: actions <= more && After(existing, more).Some? && AcceptedBy(After(existing, more).value, i, v))
            <==> && LastLookMissed(s.instances[i], n) && s.instances[i].refresh.found <= |s.files|
                 && exists now :: Decide(Content(s.files, s.instances[i].refresh.found), q, now).Accepted?
  {
    var s := After(existing, actions).value;
    if more :| actions <= more && After(existing, more).Some? && AcceptedBy(After(existing, more).value, i, v) {
      if !LastLookMissed(s.instances[i], n) { LaterLookHonoursRevocation(existing, actions, more, i, v, q, n); }
      var now := MissedLookDecides(existing, actions, more, i, v, q, n);
    }
    if LastLookMissed(s.instances[i], n) && s.instances[i].refresh.found <= |s.files| {
      if now :| Decide(Content(s.files, s.instances[i].refresh.found), q, now).Accepted? {
        var more := MissedLookCanAccept(existing, actions, i, v, q, n, now);
      }
    }
  }

  // ----- such a run

  const OK := Choice(true, "", "", 0)

  lemma More(existing: Option<Records>, actions: seq<Action>, s: State, a: Action) returns (more: seq<Action>, s': State)
    requires After(existing, actions) == Some(s) && Enabled(s, a)
    ensures After(existing, more) == Some(s') && s' == Apply(s, a) && actions <= more
  {
    more, s' := actions + [a], Apply(s, a);
    assert more[..|more| - 1] == actions;
  }

  /** An instance alone with a free lock revokes a token at time 0 and reports it. */
  lemma RevokeAlone(existing: Option<Records>, actions: seq<Action>, s: State, i: InstanceId, id: Id)
    returns (more: seq<Action>, s': State)
    requires After(existing, actions) == Some(s) && s.lock.None?
    requires i in s.instances && s.instances[i] == Opened(s.files)
    requires Fits(Content(s.files, |s.files|), Revoke(id, 0))
    ensures After(existing, more) == Some(s')
    ensures var now := Made(Content(s.files, |s.files|), Revoke(id, 0));
            && s'.files == s.files + [now] && s'.lock.None?
            && s'.reports == s.reports + [Report(Revoke(id, 0), |s.files| + 1)]
            && s'.instances == s.instances[i := Opened(s'.files)]
  {
    more, s' := RevokeUnderLock(existing, actions, s, i, id);
    more, s' := PublishRevocation(existing, more, s', i, id);
    more, s' := ReportRevocation(existing, more, s', i, id);
  }

  lemma ReportRevocation(existing: Option<Records>, actions: seq<Action>, s: State, i: InstanceId, id: Id)
    returns (more: seq<Action>, s': State)
    requires After(existing, actions) == Some(s) && Alive(s, i) && s.lock == Some(i)
    requires s.instances[i].pc == Stating(Revoke(id, 0)) && AllAnswered(s.instances[i])
    ensures After(existing, more) == Some(s')
    ensures s' == s.(lock := None, reports := s.reports + [Report(Revoke(id, 0), |s.files|)],
                     instances := s.instances[i := s.instances[i].(fingerprint := |s.files|, pc := Idle)])
  {
    more, s' := More(existing, actions, s, Mutation(i, OK));
    assert s'.instances[i] == s.instances[i].(fingerprint := |s.files|, pc := Releasing(Persisted(Revoke(id, 0), |s.files|)));
    more, s' := More(existing, more, s', Mutation(i, OK));
  }

  lemma PublishRevocation(
    existing: Option<Records>, actions: seq<Action>, s: State, i: InstanceId, id: Id)
    returns (more: seq<Action>, s': State)
    requires After(existing, actions) == Some(s) && Alive(s, i)
    requires s.instances[i].pc == Publishing(Revoke(id, 0)) && AllAnswered(s.instances[i])
    ensures actions <= more && After(existing, more) == Some(s')
    ensures s' == s.(files := s.files + [s.instances[i].records],
                     instances := s.instances[i := s.instances[i].(pc := Stating(Revoke(id, 0)))])
  {
    more, s' := More(existing, actions, s, Mutation(i, OK));
    assert s'.instances[i] == s.instances[i].(pc := Syncing(Revoke(id, 0)));
    more, s' := More(existing, more, s', Mutation(i, OK));
  }

  lemma RevokeUnderLock(existing: Option<Records>, actions: seq<Action>, s: State, i: InstanceId, id: Id)
    returns (more: seq<Action>, s': State)
    requires After(existing, actions) == Some(s) && s.lock.None?
    requires i in s.instances && s.instances[i] == Opened(s.files)
    requires Fits(Content(s.files, |s.files|), Revoke(id, 0))
    ensures After(existing, more) == Some(s')
    ensures i in s'.instances && s' == s.(lock := Some(i), instances := s.instances[i := s'.instances[i]])
    ensures s'.instances[i] == Opened(s.files).(records := Made(Content(s.files, |s.files|), Revoke(id, 0)),
                                                pc := Publishing(Revoke(id, 0)))
  {
    more, s' := More(existing, actions, s, Mutate(i, Withdraw(id)));
    more, s' := More(existing, more, s', Mutation(i, OK));
    more, s' := More(existing, more, s', Mutation(i, OK));
    more, s' := More(existing, more, s', Mutation(i, OK));
  }

  /** A verification that begins after a revocation was published and reported, but
      joins a refresh that had looked at the file before, accepts the revoked token. */
  lemma JoinedRefreshMissesRevocation(token: Token, record: Record, q: Query)
    returns (actions: seq<Action>, begun: seq<Action>, revoked: State, s: State)
    requires q == Query(token, None, None)
    requires record.digest == token && record.revokedAt.None? && 0 < record.expiresAt
    requires record.scope == Scope(None, None, None, None)
    ensures After(Some(map[token.id := record]), begun) == Some(revoked) && begun <= actions
    ensures revoked.reports == [Report(Revoke(token.id, 0), 2)] && 0 in revoked.instances && 1 !in revoked.instances[0].verifies
    ensures After(Some(map[token.id := record]), actions) == Some(s)
    ensures 0 in s.instances && 1 in s.instances[0].verifies
    ensures s.instances[0].verifies[1] == Answered(q, Some(1), Accepted(record), 1, 0)
  {
    var existing := Some(map[token.id := record]);
    actions, revoked := RevokedBeneath(existing, token, record, q);
    begun := actions;
    actions, s := More(existing, actions, revoked, BeginVerify(0, 1, q, true));
    assert s.instances[0].verifies[1] == Waits(q, 1);
    actions, s := More(existing, actions, s, RefreshStep(0, true));
    assert s.instances[0].verifies[1] == Ready(q, Some(1));
    actions, s := More(existing, actions, s, Answer(0, 1, 0));
  }

  lemma RevokedBeneath(existing: Option<Records>, token: Token, record: Record, q: Query)
    returns (actions: seq<Action>, s: State)
    requires existing == Some(map[token.id := record]) && record.revokedAt.None?
    ensures After(existing, actions) == Some(s) && s.reports == [Report(Revoke(token.id, 0), 2)]
    ensures Alive(s, 0)
    ensures s.instances[0] == Instance(true, map[token.id := record], 1, Idle, Inspected(1, 1), 0, map[0 := Waits(q, 1)])
  {
    var file := map[token.id := record];
    actions, s := [], Start(existing);
    assert s.files == [file];
    actions, s := More(existing, actions, s, Open(0));
    actions, s := More(existing, actions, s, Open(1));
    actions, s := More(existing, actions, s, BeginVerify(0, 0, q, true));
    actions, s := More(existing, actions, s, RefreshLook(0));
    actions, s := RevokeAlone(existing, actions, s, 1, token.id);
  }
}
