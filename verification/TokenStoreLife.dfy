/** The ordinary life of a token: one instance issues it, another accepts it for exactly
    as long as its expiry says, and for the requests in its scope, until it is revoked. */
module TokenStoreLife {
  import opened Results
  import Texts
  import opened TokenRecords
  import opened TokenStoreRuns
  import opened TokenStoreSafety
  import opened TokenStoreRevocation

  /** The record that `issue` makes at time `at`. */
  function Issued(tokenSet: string, expiresAt: Milliseconds, scope: Scope, token: Token, at: Milliseconds): Record {
    Record(tokenSet, token, at, expiresAt, None, scope)
  }

  /** An instance alone with a free lock issues a token at time `at` and reports it. */
  lemma IssueAlone(
    existing: Option<Records>, actions: seq<Action>, s: State, i: InstanceId,
    tokenSet: string, expiry: Expiry, scope: Scope, token: Token, at: Milliseconds)
    returns (more: seq<Action>, s': State)
    requires After(existing, actions) == Some(s) && s.lock.None?
    requires i in s.instances && s.instances[i] == Opened(s.files)
    requires token.id !in Content(s.files, |s.files|) && Expiration(expiry, at).Some?
    ensures After(existing, more) == Some(s')
    ensures var record := Issued(tokenSet, Expiration(expiry, at).value, scope, token, at);
            && s'.files == s.files + [Content(s.files, |s.files|)[token.id := record]] && s'.lock.None?
            && s'.reports == s.reports + [Report(Add(token.id, record), |s.files| + 1)]
            && s'.instances == s.instances[i := Opened(s'.files)]
  {
    var record := Issued(tokenSet, Expiration(expiry, at).value, scope, token, at);
    more, s' := Write(existing, actions, s, i, Issue(tokenSet, expiry, scope), token, at, record);
    more, s' := More(existing, more, s', Mutation(i, OK));
    more, s' := More(existing, more, s', Mutation(i, OK));
    more, s' := ReleaseAndReport(existing, more, s', i, s.files, Add(token.id, record), record);
  }

  lemma Write(
    existing: Option<Records>, actions: seq<Action>, s: State, i: InstanceId,
    op: Op, token: Token, at: Milliseconds, record: Record)
    returns (more: seq<Action>, s': State)
    requires After(existing, actions) == Some(s) && s.lock.None? && op.Issue?
    requires i in s.instances && s.instances[i] == Opened(s.files)
    requires token.id !in Content(s.files, |s.files|) && Expiration(op.expiry, at).Some?
    requires record == Issued(op.tokenSet, Expiration(op.expiry, at).value, op.scope, token, at)
    ensures After(existing, more) == Some(s')
    ensures i in s'.instances && s' == s.(lock := Some(i), instances := s.instances[i := s'.instances[i]])
    ensures s'.instances[i] == Opened(s.files).(records := Content(s.files, |s.files|)[token.id := record],
                                                pc := Publishing(Add(token.id, record)))
  {
    more, s' := More(existing, actions, s, Mutate(i, op));
    more, s' := More(existing, more, s', Mutation(i, OK));
    more, s' := More(existing, more, s', Mutation(i, OK));
    more, s' := More(existing, more, s', Mutation(i, Choice(true, token.id, token.secret, at)));
  }

  lemma ReleaseAndReport(
    existing: Option<Records>, actions: seq<Action>, s: State, i: InstanceId, seen: seq<Records>, change: Change, record: Record)
    returns (more: seq<Action>, s': State)
    requires After(existing, actions) == Some(s) && s.lock == Some(i) && i in s.instances
    requires var records := Content(seen, |seen|)[change.id := record];
             && s.files == seen + [records]
             && s.instances[i] == Opened(seen).(records := records, pc := Stating(change))
    ensures After(existing, more) == Some(s')
    ensures s' == s.(lock := None, instances := s.instances[i := Opened(s.files)],
                     reports := s.reports + [Report(change, |s.files|)])
  {
    more, s' := More(existing, actions, s, Mutation(i, OK));
    assert s'.instances[i] == Opened(s.files).(pc := Releasing(Persisted(change, |s.files|)));
    assert s' == s.(instances := s.instances[i := s'.instances[i]]);
    more, s' := More(existing, more, s', Mutation(i, OK));
    assert s'.instances == s.instances[i := Opened(s.files)];
  }

  /** A verification that begins its own refresh on an idle instance whose cache is behind
      takes over the file and answers from it. */
  lemma VerifyAlone(
    existing: Option<Records>, actions: seq<Action>, s: State, i: InstanceId, v: VerifyId, q: Query, now: Milliseconds)
    returns (more: seq<Action>, s': State)
    requires After(existing, actions) == Some(s) && Alive(s, i)
    requires var inst := s.instances[i];
             inst.pc.Idle? && inst.refresh.NoRefresh? && inst.verifies == map[] && inst.fingerprint < |s.files|
    ensures After(existing, more) == Some(s') && s'.files == s.files && s'.reports == s.reports
    ensures i in s'.instances && v in s'.instances[i].verifies
    ensures s'.instances[i].verifies[v] ==
              Answered(q, Some(|s.files|), Decide(Content(s.files, |s.files|), q, now), |s.files|, now)
  {
    var n := |s.files|;
    more, s' := More(existing, actions, s, BeginVerify(i, v, q, true));
    more, s' := More(existing, more, s', RefreshLook(i));
    more, s' := More(existing, more, s', RefreshStep(i, true));
    assert s'.instances[i].refresh == Reload(n) && s'.instances[i].verifies == map[v := Waits(q, n)];
    more, s' := More(existing, more, s', RefreshLook(i));
    more, s' := Adopt(existing, more, s', i, v, q, now);
  }

  lemma Adopt(
    existing: Option<Records>, actions: seq<Action>, s: State, i: InstanceId, v: VerifyId, q: Query, now: Milliseconds)
    returns (more: seq<Action>, s': State)
    requires After(existing, actions) == Some(s) && Alive(s, i)
    requires s.instances[i].refresh == Loaded(|s.files|, |s.files|) && s.instances[i].verifies == map[v := Waits(q, |s.files|)]
    ensures After(existing, more) == Some(s') && s'.files == s.files && s'.reports == s.reports
    ensures i in s'.instances && v in s'.instances[i].verifies
    ensures s'.instances[i].verifies[v] ==
              Answered(q, Some(|s.files|), Decide(Content(s.files, |s.files|), q, now), |s.files|, now)
  {
    more, s' := More(existing, actions, s, RefreshStep(i, true));
    assert s'.instances[i].verifies == map[v := Ready(q, Some(|s.files|))];
    more, s' := More(existing, more, s', Answer(i, v, now));
  }

  /** A mutation in which a system call fails publishes and reports nothing by that call,
      takes its change back out of the cache, and leaves the fingerprint. */
  lemma FailingMutation(files: seq<Records>, lock: Option<InstanceId>, i: InstanceId, inst: Instance, c: Choice)
    requires !c.ok && !inst.pc.Idle? && !inst.pc.Waiting?
    ensures var (files', lock', inst', report) := MutationStep(files, lock, i, inst, c);
            && files' == files && lock' == lock && report == None && inst'.fingerprint == inst.fingerprint
            && inst'.pc == (if inst.pc.Locking? || inst.pc.Releasing? then Idle else Releasing(Failed))
            && inst' == inst.(pc := inst'.pc, records := inst'.records)
            && (!inst.pc.Publishing? && !inst.pc.Syncing? && !inst.pc.Stating? ==> inst'.records == inst.records)
            && (inst.pc.Publishing? || inst.pc.Syncing? || inst.pc.Stating? ==>
                  var id := inst.pc.change.id;
                  && inst'.records - {id} == inst.records - {id}
                  && (inst.pc.change.Add? ==> id !in inst'.records)
                  && (inst.pc.change.Revoke? && id in inst.records ==>
                        id in inst'.records && inst'.records[id] == inst.records[id].(revokedAt := None)))
  {
  }

  /** A verification for which no refresh is due, with none in flight, answers from the
      cache and leaves everything else as it was. */
  lemma VerifyFromCache(
    existing: Option<Records>, actions: seq<Action>, s: State, i: InstanceId, v: VerifyId, q: Query, now: Milliseconds)
    returns (more: seq<Action>, s': State)
    requires After(existing, actions) == Some(s) && Alive(s, i)
    requires s.instances[i].pc.Idle? && s.instances[i].refresh.NoRefresh? && v !in s.instances[i].verifies
    ensures After(existing, more) == Some(s') && i in s'.instances && v in s'.instances[i].verifies
    ensures var w := Answered(q, None, Decide(s.instances[i].records, q, now), s.instances[i].fingerprint, now);
            s' == s.(instances := s.instances[i := s.instances[i].(verifies := s.instances[i].verifies[v := w])])
  {
    more, s' := More(existing, actions, s, BeginVerify(i, v, q, false));
    more, s' := More(existing, more, s', Answer(i, v, now));
    var inst := s.instances[i];
    var w := Answered(q, None, Decide(inst.records, q, now), inst.fingerprint, now);
    assert inst.verifies[v := Ready(q, None)][v := w] == inst.verifies[v := w];
    assert s'.instances[i] == inst.(verifies := inst.verifies[v := w]);
    assert s'.instances == s.instances[i := s'.instances[i]];
  }

  /** A verification is refused at once if and only if its instance is at work on a
      mutation, or 32 others already wait for the refresh in flight; and it waits if and
      only if a refresh is in flight or due. */
  lemma BusyVerifyIsRefused(s: State, i: InstanceId, v: VerifyId, q: Query, due: bool)
    requires Enabled(s, BeginVerify(i, v, q, due))
    ensures var inst := s.instances[i];
            var w := Apply(s, BeginVerify(i, v, q, due)).instances[i].verifies[v];
            && (w.Answered? <==> !inst.pc.Idle? || (!inst.refresh.NoRefresh? && inst.waiters >= 32))
            && (w.Answered? ==> w.answer == Rejected)
            && (w.Waits? <==> inst.pc.Idle? && if inst.refresh.NoRefresh? then due else inst.waiters < 32)
            && (w.Waits? ==> w.started == if inst.refresh.NoRefresh? then |s.files| else inst.refresh.since)
  {
  }

  /** Two instances open, and the first issues a token. */
  lemma OpenAndIssue(
    existing: Option<Records>, tokenSet: string, seconds: int, scope: Scope, token: Token, at: Milliseconds)
    returns (actions: seq<Action>, s: State)
    requires 1 <= seconds <= 31_622_400 && token.id !in Content(Start(existing).files, |Start(existing).files|)
    ensures After(existing, actions) == Some(s)
    ensures var before := Start(existing).files;
            var record := Issued(tokenSet, at + 1000 * seconds, scope, token, at);
            && s.files == before + [Content(before, |before|)[token.id := record]]
            && s.reports == [Report(Add(token.id, record), |s.files|)]
            && 1 in s.instances && s.instances[1] == Opened(before)
  {
    s := Start(existing);
    actions := [];
    actions, s := More(existing, actions, s, Open(0));
    actions, s := More(existing, actions, s, Open(1));
    ExpirationExactly(In(seconds), at);
    assert Expiration(In(seconds), at) == Some(at + 1000 * seconds);
    actions, s := IssueAlone(existing, actions, s, 0, tokenSet, In(seconds), scope, token, at);
  }

  predicate InScope(scope: Scope, context: Context) {
    && (scope.serviceIds.Some? ==> context.serviceId in scope.serviceIds.value)
    && (scope.hosts.Some? ==> context.host in scope.hosts.value)
    && (scope.methods.Some? ==> context.verb in scope.methods.value)
    && (scope.paths.Some? ==> context.path in scope.paths.value)
  }

  lemma AcceptedUntil(records: Records, record: Record, q: Query, now: Milliseconds)
    requires q.token.id in records && records[q.token.id] == record && record.digest == q.token
    requires record.revokedAt == None && q.tokenSet == Some(record.tokenSet) && Texts.IsName(record.tokenSet)
    requires q.context.Some?
    ensures Decide(records, q, now).Accepted? <==> InScope(record.scope, q.context.value) && now < record.expiresAt
  {
    AcceptedIsVouched(records, q, now);
  }

  /** A token issued for n seconds at time `at` is accepted by another instance for
      exactly the requests in its scope, at exactly the times before at + 1000 n. */
  lemma IssuedForSeconds(
    existing: Option<Records>, tokenSet: string, seconds: int, scope: Scope, token: Token, at: Milliseconds,
    context: Context, now: Milliseconds)
    returns (actions: seq<Action>, s: State)
    requires Texts.IsName(tokenSet) && 1 <= seconds <= 31_622_400
    requires token.id !in Content(Start(existing).files, |Start(existing).files|)
    ensures After(existing, actions) == Some(s) && 1 in s.instances && 0 in s.instances[1].verifies
    ensures |s.reports| == 1 && s.reports[0].change.Add? && s.reports[0].change.id == token.id
    ensures s.instances[1].verifies[0].Answered?
    ensures s.instances[1].verifies[0].answer.Accepted? <==> InScope(scope, context) && now < at + 1000 * seconds
  {
    var q := Query(token, Some(tokenSet), Some(context));
    var record := Issued(tokenSet, at + 1000 * seconds, scope, token, at);
    actions, s := OpenAndIssue(existing, tokenSet, seconds, scope, token, at);
    var records := Content(s.files, |s.files|);
    actions, s := VerifyAlone(existing, actions, s, 1, 0, q, now);
    AcceptedUntil(records, record, q, now);
  }
}
