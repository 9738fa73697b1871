/** What every run of the token store keeps: the file history, the coherence of each
    instance's cache, and the revocations that a refreshed verification honours. */
module TokenStoreSafety {
  import opened Results
  import Texts
  import opened TokenRecords
  import opened TokenStoreRuns

  // ----- the invariant

  predicate Tentative(pc: Pc) { pc.Publishing? || pc.Syncing? || pc.Stating? }

  ghost predicate CacheOk(files: seq<Records>, inst: Instance) {
    && inst.fingerprint <= |files|
    && (if Tentative(inst.pc)
        then Fits(Content(files, inst.fingerprint), inst.pc.change)
             && inst.records == Made(Content(files, inst.fingerprint), inst.pc.change)
        else inst.records == Content(files, inst.fingerprint))
  }

  ghost predicate PublishingOk(files: seq<Records>, inst: Instance) {
    && (inst.pc.Publishing? ==> inst.fingerprint == |files|)
    && (inst.pc.Syncing? || inst.pc.Stating? ==>
          |files| == inst.fingerprint + 1 && files[inst.fingerprint] == inst.records)
    && (Pending(inst.pc) ==> Brought(files, inst.pc.outcome.version, inst.pc.outcome.change))
  }

  /** Publication number `n` made exactly this change. */
  ghost predicate Brought(files: seq<Records>, n: nat, change: Change) {
    && 1 <= n <= |files|
    && Fits(Content(files, n - 1), change)
    && Content(files, n) == Made(Content(files, n - 1), change)
  }

  predicate Pending(pc: Pc) { pc.Releasing? && pc.outcome.Persisted? }

  /** The publication that a mutation has made and not reported yet. */
  function Number(files: seq<Records>, pc: Pc): Option<nat> {
    if pc.Syncing? || pc.Stating? then Some(|files|)
    else if Pending(pc) then Some(pc.outcome.version)
    else None
  }

  /** No publication is reported twice. */
  ghost predicate ReportsApart(s: State) {
    && (forall i, k :: Alive(s, i) && 0 <= k < |s.reports| ==>
          Number(s.files, s.instances[i].pc) != Some(s.reports[k].version))
    && (forall i, j :: Alive(s, i) && Alive(s, j) && i != j && Number(s.files, s.instances[i].pc).Some? ==>
          Number(s.files, s.instances[i].pc) != Number(s.files, s.instances[j].pc))
  }

  ghost predicate FlightOk(files: seq<Records>, inst: Instance) {
    && (!inst.refresh.NoRefresh? ==> inst.refresh.since <= |files|)
    && (inst.refresh.Inspected? || inst.refresh.Loaded? ==> inst.refresh.since <= inst.refresh.found <= |files|)
    && (forall v :: v in inst.verifies && inst.verifies[v].Waits? ==>
          !inst.refresh.NoRefresh? && inst.verifies[v].started == inst.refresh.since)
  }

  ghost predicate MutationOk(s: State, i: InstanceId, inst: Instance) {
    && CacheOk(s.files, inst)
    && PublishingOk(s.files, inst)
    && (Critical(inst.pc) ==> s.lock == Some(i))
    && (!inst.refresh.NoRefresh? ==> inst.pc.Idle? || inst.pc.Waiting?)
    && FlightOk(s.files, inst)
    && (Critical(inst.pc) || inst.pc.Releasing? ==> AllAnswered(inst))
  }

  ghost predicate VerifyOk(files: seq<Records>, fingerprint: nat, w: Verify) {
    match w
    case Waits(_, started) => started <= |files|
    case Ready(_, since) => since.Some? ==> since.value <= fingerprint
    case Answered(q, since, answer, seen, now) =>
      && seen <= |files| && (since.Some? ==> since.value <= seen)
      && (answer.Accepted? ==> answer == Decide(Content(files, seen), q, now))
    case Threw(_) => true
  }

  ghost predicate VerifiesOk(files: seq<Records>, inst: Instance) {
    forall v :: v in inst.verifies ==> VerifyOk(files, inst.fingerprint, inst.verifies[v])
  }

  ghost predicate ReportsOk(files: seq<Records>, reports: seq<Report>) {
    && (forall k :: 0 <= k < |reports| ==> Brought(files, reports[k].version, reports[k].change))
    && (forall j, k :: 0 <= j < k < |reports| ==> reports[j].version != reports[k].version)
  }

  ghost predicate Inv(s: State, initial: nat) {
    && History(s.files, initial)
    && ReportsOk(s.files, s.reports)
    && ReportsApart(s)
    && (forall i :: i in s.instances ==> VerifiesOk(s.files, s.instances[i]))
    && (forall i :: Alive(s, i) ==> MutationOk(s, i, s.instances[i]))
  }

  // ----- nothing about the past depends on later publications

  ghost predicate Extends(files: seq<Records>, files': seq<Records>) {
    files' == files || (|files'| == |files| + 1 && files'[..|files|] == files)
  }

  lemma ContentStays(files: seq<Records>, files': seq<Records>, n: nat)
    requires Extends(files, files') && n <= |files|
    ensures Content(files', n) == Content(files, n)
  {
    if files' != files && n > 0 { assert files'[..|files|][n - 1] == files'[n - 1]; }
  }

  lemma BroughtStays(files: seq<Records>, files': seq<Records>, n: nat, change: Change)
    requires Extends(files, files') && Brought(files, n, change)
    ensures Brought(files', n, change)
  {
    ContentStays(files, files', n - 1);
    ContentStays(files, files', n);
  }

  lemma VerifiesStay(files: seq<Records>, files': seq<Records>, inst: Instance)
    requires Extends(files, files') && VerifiesOk(files, inst)
    ensures VerifiesOk(files', inst)
  {
    forall v | v in inst.verifies ensures VerifyOk(files', inst.fingerprint, inst.verifies[v]) {
      var w := inst.verifies[v];
      if w.Answered? && w.seen <= |files| { ContentStays(files, files', w.seen); }
    }
  }

  lemma ReportsStay(files: seq<Records>, files': seq<Records>, reports: seq<Report>)
    requires Extends(files, files') && ReportsOk(files, reports)
    ensures ReportsOk(files', reports)
  {
    forall k | 0 <= k < |reports| ensures Brought(files', reports[k].version, reports[k].change) {
      BroughtStays(files, files', reports[k].version, reports[k].change);
    }
  }

  /** The others keep their promises: one that is not in the critical section does not
      mind a publication, one that is excludes it. */
  lemma OtherStays(s: State, s': State, j: InstanceId, inst: Instance)
    requires MutationOk(s, j, inst) && Extends(s.files, s'.files)
    requires !Critical(inst.pc) || (s'.files == s.files && s'.lock == s.lock)
    ensures MutationOk(s', j, inst)
  {
    ContentStays(s.files, s'.files, inst.fingerprint);
    if Pending(inst.pc) { BroughtStays(s.files, s'.files, inst.pc.outcome.version, inst.pc.outcome.change); }
  }

  // ----- a mutation's own step

  lemma ReloadStep(files: seq<Records>, inst: Instance, op: Op, c: Choice)
    requires inst.pc == Reloading(op) && (op.Issue? ==> c.id !in Content(files, |files|))
    ensures var inst' := Operate(Loading(files, |files|, inst), op, c);
            && CacheOk(files, inst') && PublishingOk(files, inst') && Number(files, inst'.pc).None?
            && (Critical(inst'.pc) || inst'.pc.Releasing?)
            && inst'.verifies == inst.verifies && inst'.refresh == inst.refresh && inst'.fingerprint == |files|
  {
  }

  lemma RollBackStep(files: seq<Records>, inst: Instance)
    requires CacheOk(files, inst) && Tentative(inst.pc)
    ensures var inst' := RollBack(inst, inst.pc.change);
            CacheOk(files, inst') && inst' == inst.(records := inst'.records, pc := Releasing(Failed))
  {
    UndoneRestores(Content(files, inst.fingerprint), inst.pc.change);
  }

  lemma PublishStep(files: seq<Records>, initial: nat, inst: Instance)
    requires CacheOk(files, inst) && PublishingOk(files, inst) && inst.pc.Publishing? && History(files, initial)
    ensures var files', inst' := files + [inst.records], inst.(pc := Syncing(inst.pc.change));
            CacheOk(files', inst') && PublishingOk(files', inst') && History(files', initial) && Extends(files, files')
  {
    Published(files, initial, inst.pc.change);
    ContentStays(files, files + [inst.records], |files|);
  }

  lemma StatStep(files: seq<Records>, inst: Instance)
    requires CacheOk(files, inst) && PublishingOk(files, inst) && inst.pc.Stating?
    ensures var inst' := inst.(fingerprint := |files|, pc := Releasing(Persisted(inst.pc.change, |files|)));
            CacheOk(files, inst') && PublishingOk(files, inst')
  {
  }

  /** What a mutation's step does to the shared state. */
  lemma MutationShape(s: State, initial: nat, i: InstanceId, inst: Instance, c: Choice)
    requires History(s.files, initial) && ReportsOk(s.files, s.reports) && MutationOk(s, i, inst) && Mutating(inst)
    ensures var (files', lock', _, report) := MutationStep(s.files, s.lock, i, inst, c);
            && Extends(s.files, files') && History(files', initial)
            && (files' != s.files ==> Critical(inst.pc))
            && (lock' == s.lock || (s.lock.None? && lock' == Some(i)) || (s.lock == Some(i) && lock'.None?))
            && (report.Some? ==> files' == s.files && Brought(s.files, report.value.version, report.value.change)
                                 && Number(s.files, inst.pc) == Some(report.value.version))
  {
    if inst.pc.Publishing? { PublishStep(s.files, initial, inst); }
  }

  lemma LockingOwn(s: State, s': State, i: InstanceId, inst: Instance, c: Choice)
    requires MutationOk(s, i, inst) && Mutating(inst) && AllAnswered(inst)
    requires (inst.pc.Waiting? && inst.refresh.NoRefresh?) || inst.pc.Locking? || inst.pc.Releasing?
    requires var (files', lock', _, _) := MutationStep(s.files, s.lock, i, inst, c);
             s'.files == files' && s'.lock == lock'
    ensures MutationOk(s', i, MutationStep(s.files, s.lock, i, inst, c).2)
    ensures MutationStep(s.files, s.lock, i, inst, c).2.verifies == inst.verifies
  {
  }

  lemma PersistOwn(s: State, s': State, i: InstanceId, inst: Instance, c: Choice)
    requires MutationOk(s, i, inst) && Mutating(inst) && AllAnswered(inst)
    requires Tentative(inst.pc)
    requires var (files', lock', _, _) := MutationStep(s.files, s.lock, i, inst, c);
             s'.files == files' && s'.lock == lock'
    ensures MutationOk(s', i, MutationStep(s.files, s.lock, i, inst, c).2)
    ensures MutationStep(s.files, s.lock, i, inst, c).2.verifies == inst.verifies
  {
    if !c.ok { RollBackStep(s.files, inst); }
    else if inst.pc.Publishing? { PublishOwn(s, s', i, inst); }
    else if inst.pc.Stating? { StatStep(s.files, inst); }
  }

  /** What a mutation's step makes of its own instance. */
  lemma MutationOwn(s: State, s': State, i: InstanceId, inst: Instance, c: Choice)
    requires MutationOk(s, i, inst) && Mutating(inst) && AllAnswered(inst)
    requires inst.pc.Waiting? ==> inst.refresh.NoRefresh?
    requires inst.pc.Reloading? && inst.pc.op.Issue? ==> c.id !in Content(s.files, |s.files|)
    requires var (files', lock', _, _) := MutationStep(s.files, s.lock, i, inst, c);
             s'.files == files' && s'.lock == lock'
    ensures MutationOk(s', i, MutationStep(s.files, s.lock, i, inst, c).2)
    ensures MutationStep(s.files, s.lock, i, inst, c).2.verifies == inst.verifies
  {
    if Tentative(inst.pc) { PersistOwn(s, s', i, inst, c); }
    else if !inst.pc.Reloading? { LockingOwn(s, s', i, inst, c); }
    else if c.ok { ReloadStep(s.files, inst, inst.pc.op, c); }
  }

  lemma PublishOwn(s: State, s': State, i: InstanceId, inst: Instance)
    requires MutationOk(s, i, inst) && AllAnswered(inst) && inst.pc.Publishing?
    requires s'.files == s.files + [inst.records] && s'.lock == s.lock
    ensures MutationOk(s', i, inst.(pc := Syncing(inst.pc.change)))
  {
    ContentStays(s.files, s'.files, |s.files|);
  }

  lemma ReportAdded(files: seq<Records>, reports: seq<Report>, r: Report)
    requires ReportsOk(files, reports) && Brought(files, r.version, r.change)
    requires forall k :: 0 <= k < |reports| ==> reports[k].version != r.version
    ensures ReportsOk(files, reports + [r])
  {
  }

  lemma MutationReports(s: State, initial: nat, i: InstanceId, c: Choice)
    requires Inv(s, initial) && Enabled(s, Mutation(i, c))
    ensures ReportsOk(Apply(s, Mutation(i, c)).files, Apply(s, Mutation(i, c)).reports)
  {
    var (files', _, _, report) := MutationStep(s.files, s.lock, i, s.instances[i], c);
    MutationShape(s, initial, i, s.instances[i], c);
    ReportsStay(s.files, files', s.reports);
    if report.Some? { ReportAdded(files', s.reports, report.value); }
  }

  /** A mutation's step gives its publication a new number, keeps it or reports it. */
  lemma NumberStep(files: seq<Records>, lock: Option<InstanceId>, i: InstanceId, inst: Instance, c: Choice)
    requires PublishingOk(files, inst)
    ensures var (files', _, inst', report) := MutationStep(files, lock, i, inst, c);
            && (Number(files', inst'.pc).Some? ==>
                  && report.None?
                  && (if files' == files then Number(files', inst'.pc) == Number(files, inst.pc)
                      else Number(files', inst'.pc) == Some(|files| + 1)))
            && (files' != files ==> |files'| == |files| + 1 && Critical(inst.pc) && report.None?)
  {
  }

  lemma MutationApart(s: State, initial: nat, i: InstanceId, c: Choice)
    requires Inv(s, initial) && Enabled(s, Mutation(i, c))
    ensures ReportsApart(Apply(s, Mutation(i, c)))
  {
    var s' := Apply(s, Mutation(i, c));
    assert MutationOk(s, i, s.instances[i]);
    NumberStep(s.files, s.lock, i, s.instances[i], c);
    MutationShape(s, initial, i, s.instances[i], c);
    forall j | Alive(s', j) && j != i && Number(s'.files, s'.instances[j].pc).Some?
      ensures Number(s'.files, s'.instances[j].pc) == Number(s.files, s.instances[j].pc)
      ensures Number(s.files, s.instances[j].pc).value <= |s.files|
    {
      assert Alive(s, j) && MutationOk(s, j, s.instances[j]);
    }
  }

  lemma MutationKeepsOther(s: State, initial: nat, i: InstanceId, c: Choice, j: InstanceId)
    requires Inv(s, initial) && Enabled(s, Mutation(i, c)) && Alive(s, j) && j != i
    ensures MutationOk(Apply(s, Mutation(i, c)), j, s.instances[j])
  {
    MutationShape(s, initial, i, s.instances[i], c);
    assert MutationOk(s, i, s.instances[i]) && MutationOk(s, j, s.instances[j]);
    OtherStays(s, Apply(s, Mutation(i, c)), j, s.instances[j]);
  }

  lemma MutationVerifies(s: State, initial: nat, i: InstanceId, c: Choice, j: InstanceId)
    requires Inv(s, initial) && Enabled(s, Mutation(i, c)) && j in s.instances
    ensures VerifiesOk(Apply(s, Mutation(i, c)).files, Apply(s, Mutation(i, c)).instances[j])
  {
    var (files', _, inst', _) := MutationStep(s.files, s.lock, i, s.instances[i], c);
    MutationShape(s, initial, i, s.instances[i], c);
    VerifiesStay(s.files, files', s.instances[j]);
    if i == j { SettledVerifies(s, i, c, files'); }
  }

  lemma SettledVerifies(s: State, i: InstanceId, c: Choice, files: seq<Records>)
    requires Enabled(s, Mutation(i, c)) && VerifiesOk(files, s.instances[i])
    ensures VerifiesOk(files, MutationStep(s.files, s.lock, i, s.instances[i], c).2)
  {
    var inst, inst' := s.instances[i], MutationStep(s.files, s.lock, i, s.instances[i], c).2;
    assert inst'.verifies == inst.verifies;
    forall v | v in inst'.verifies ensures VerifyOk(files, inst'.fingerprint, inst'.verifies[v]) {
      assert VerifyOk(files, inst.fingerprint, inst.verifies[v]) && !inst.verifies[v].Ready?;
    }
  }

  lemma MutationKeepsInv(s: State, initial: nat, i: InstanceId, c: Choice)
    requires Inv(s, initial) && Enabled(s, Mutation(i, c))
    ensures Inv(Apply(s, Mutation(i, c)), initial)
  {
    var s' := Apply(s, Mutation(i, c));
    MutationShape(s, initial, i, s.instances[i], c);
    MutationReports(s, initial, i, c);
    MutationApart(s, initial, i, c);
    MutationOwn(s, s', i, s.instances[i], c);
    forall j | j in s'.instances ensures VerifiesOk(s'.files, s'.instances[j]) { MutationVerifies(s, initial, i, c, j); }
    forall j | Alive(s', j) ensures MutationOk(s', j, s'.instances[j]) {
      if j != i { MutationKeepsOther(s, initial, i, c, j); }
    }
  }

  // ----- verifications and refreshes

  lemma BeginOk(s: State, i: InstanceId, inst: Instance, v: VerifyId, q: Query, due: bool)
    requires MutationOk(s, i, inst) && VerifiesOk(s.files, inst)
    ensures var inst' := Begun(s.files, inst, v, q, due);
            MutationOk(s, i, inst') && VerifiesOk(s.files, inst')
  {
  }

  lemma SettledOk(s: State, i: InstanceId, inst: Instance, ok: bool)
    requires MutationOk(s, i, inst) && VerifiesOk(s.files, inst) && AllAnswered(inst) && !Critical(inst.pc)
    requires !inst.refresh.NoRefresh? && (ok ==> inst.refresh.since <= inst.fingerprint)
    ensures MutationOk(s, i, Settled(inst, ok)) && VerifiesOk(s.files, Settled(inst, ok))
  {
    forall v | v in inst.verifies
      ensures VerifyOk(s.files, inst.fingerprint, Settled(inst, ok).verifies[v])
    {
      assert VerifyOk(s.files, inst.fingerprint, inst.verifies[v]);
    }
  }

  /** An instance between mutations takes a whole file, or nothing. */
  lemma LoadingOk(s: State, i: InstanceId, inst: Instance, n: nat)
    requires MutationOk(s, i, inst) && VerifiesOk(s.files, inst) && AllAnswered(inst)
    requires inst.pc.Idle? || inst.pc.Waiting?
    requires n <= |s.files|
    ensures var inst' := Loading(s.files, n, inst);
            MutationOk(s, i, inst') && VerifiesOk(s.files, inst') && AllAnswered(inst')
  {
    forall v | v in inst.verifies ensures VerifyOk(s.files, n, inst.verifies[v]) {
      assert VerifyOk(s.files, inst.fingerprint, inst.verifies[v]);
    }
  }

  lemma LookOk(s: State, i: InstanceId, inst: Instance)
    requires MutationOk(s, i, inst) && VerifiesOk(s.files, inst)
    ensures var inst' := Looked(s.files, inst); MutationOk(s, i, inst') && VerifiesOk(s.files, inst')
  {
  }

  lemma RefreshOk(s: State, i: InstanceId, inst: Instance, ok: bool)
    requires MutationOk(s, i, inst) && VerifiesOk(s.files, inst) && AllAnswered(inst)
    requires !inst.refresh.NoRefresh?
    ensures var inst' := Refreshed(s.files, inst, ok);
            MutationOk(s, i, inst') && VerifiesOk(s.files, inst')
  {
    if !ok {
      LoadingOk(s, i, inst, 0);
      SettledOk(s, i, Loading(s.files, 0, inst), false);
    } else if inst.refresh.Loaded? {
      LoadingOk(s, i, inst, inst.refresh.found);
      SettledOk(s, i, Loading(s.files, inst.refresh.found, inst), true);
    } else if inst.refresh.Inspected? && inst.fingerprint == inst.refresh.found {
      SettledOk(s, i, inst, true);
    }
  }

  lemma AnswerOk(s: State, i: InstanceId, inst: Instance, v: VerifyId, now: Milliseconds)
    requires MutationOk(s, i, inst) && VerifiesOk(s.files, inst) && v in inst.verifies && inst.verifies[v].Ready?
    ensures MutationOk(s, i, Answering(inst, v, now)) && VerifiesOk(s.files, Answering(inst, v, now))
  {
    assert VerifyOk(s.files, inst.fingerprint, inst.verifies[v]);
  }

  // ----- every action keeps the invariant

  /** Only instance `i` changes, and for the better. */
  lemma PutKeepsInv(s: State, initial: nat, i: InstanceId, inst: Instance)
    requires Inv(s, initial) && VerifiesOk(s.files, inst) && (inst.alive ==> MutationOk(s, i, inst))
    requires inst.alive && Number(s.files, inst.pc).Some? ==> Alive(s, i) && inst.pc == s.instances[i].pc
    ensures Inv(Put(s, i, inst), initial)
  {
    var s' := Put(s, i, inst);
    forall j | Alive(s', j) ensures MutationOk(s', j, s'.instances[j]) {
      if j != i { assert Alive(s, j); }
    }
  }

  lemma ReapKeepsInv(s: State, initial: nat)
    requires Inv(s, initial) && Enabled(s, ReapLock)
    ensures Inv(Apply(s, ReapLock), initial)
  {
    var s' := Apply(s, ReapLock);
    forall j | Alive(s', j) ensures MutationOk(s', j, s'.instances[j]) { assert Alive(s, j); }
  }

  lemma ActionKeepsInv(s: State, initial: nat, a: Action)
    requires Inv(s, initial) && Enabled(s, a)
    ensures Inv(Apply(s, a), initial)
  {
    match a {
      case Open(i) => PutKeepsInv(s, initial, i, Opened(s.files));
      case Die(i) => PutKeepsInv(s, initial, i, s.instances[i].(alive := false));
      case ReapLock => ReapKeepsInv(s, initial);
      case Mutate(i, op) => PutKeepsInv(s, initial, i, s.instances[i].(pc := Waiting(op)));
      case Mutation(i, c) => MutationKeepsInv(s, initial, i, c);
      case BeginVerify(i, v, q, due) =>
        BeginOk(s, i, s.instances[i], v, q, due);
        PutKeepsInv(s, initial, i, Begun(s.files, s.instances[i], v, q, due));
      case RefreshLook(i) =>
        LookOk(s, i, s.instances[i]);
        PutKeepsInv(s, initial, i, Looked(s.files, s.instances[i]));
      case RefreshStep(i, ok) =>
        RefreshOk(s, i, s.instances[i], ok);
        PutKeepsInv(s, initial, i, Refreshed(s.files, s.instances[i], ok));
      case Answer(i, v, now) =>
        AnswerOk(s, i, s.instances[i], v, now);
        PutKeepsInv(s, initial, i, Answering(s.instances[i], v, now));
    }
  }

  function Initial(existing: Option<Records>): nat { if existing.Some? then 1 else 0 }

  lemma {:induction false} ReachableInv(existing: Option<Records>, actions: seq<Action>)
    requires After(existing, actions).Some?
    ensures Inv(After(existing, actions).value, Initial(existing))
    decreases |actions|
  {
    if actions != [] {
      var last := |actions| - 1;
      ReachableInv(existing, actions[..last]);
      ActionKeepsInv(After(existing, actions[..last]).value, Initial(existing), actions[last]);
    }
  }

  // ----- the theorems

  /** Every published file is its predecessor with exactly one record added or exactly
      one revocation set; so nothing issued is lost, no revocation undone or re-dated. */
  lemma EveryFileIsOneChange(existing: Option<Records>, actions: seq<Action>, n: nat)
    requires After(existing, actions).Some? && Initial(existing) <= n < |After(existing, actions).value.files|
    ensures var files := After(existing, actions).value.files;
            OneChange(Content(files, n), Content(files, n + 1))
  {
    ReachableInv(existing, actions);
  }

  lemma FilesNeverForget(existing: Option<Records>, actions: seq<Action>, m: nat, n: nat)
    requires After(existing, actions).Some?
    requires Initial(existing) <= m <= n <= |After(existing, actions).value.files|
    ensures var files := After(existing, actions).value.files; Keeps(Content(files, m), Content(files, n))
  {
    ReachableInv(existing, actions);
    LaterKeepsEarlier(After(existing, actions).value.files, Initial(existing), m, n);
  }

  /** A reported success has a publication of its own, and every later file shows it. */
  lemma SuccessIsPermanent(existing: Option<Records>, actions: seq<Action>, k: nat, n: nat)
    requires After(existing, actions).Some? && k < |After(existing, actions).value.reports|
    requires After(existing, actions).value.reports[k].version <= n <= |After(existing, actions).value.files|
    ensures var s := After(existing, actions).value;
            && (forall j :: 0 <= j < |s.reports| && j != k ==> s.reports[j].version != s.reports[k].version)
            && match s.reports[k].change
               case Add(id, record) =>
                 id in Content(s.files, n) && Content(s.files, n)[id].(revokedAt := None) == record
               case Revoke(id, at) => id in Content(s.files, n) && Content(s.files, n)[id].revokedAt == Some(at)
  {
    ReachableInv(existing, actions);
    var s := After(existing, actions).value;
    LaterKeepsEarlier(s.files, Initial(existing), s.reports[k].version, n);
    BroughtShows(s.files, s.reports[k].version, s.reports[k].change);
  }

  lemma BroughtShows(files: seq<Records>, n: nat, change: Change)
    requires Brought(files, n, change)
    ensures match change
            case Add(id, record) => id in Content(files, n) && Content(files, n)[id] == record && record.revokedAt.None?
            case Revoke(id, at) => id in Content(files, n) && Content(files, n)[id].revokedAt == Some(at)
  {
  }

  /** Whenever an instance is not mutating, a cached fingerprint equal to the file's
      means cached records equal to the file's. */
  lemma CacheCoherence(existing: Option<Records>, actions: seq<Action>, i: InstanceId)
    requires After(existing, actions).Some? && Alive(After(existing, actions).value, i)
    requires var s := After(existing, actions).value;
             !Mutating(s.instances[i]) && s.instances[i].fingerprint == |s.files|
    ensures var s := After(existing, actions).value;
            s.instances[i].records == Content(s.files, |s.files|)
  {
    ReachableInv(existing, actions);
  }

  /** An accepted token was vouched for by one published file, no older than the
      refresh that was awaited, and was revoked in no file up to that one. */
  lemma AcceptedTokenWasPublished(existing: Option<Records>, actions: seq<Action>, i: InstanceId, v: VerifyId)
    requires After(existing, actions).Some? && i in After(existing, actions).value.instances
    requires var inst := After(existing, actions).value.instances[i];
             v in inst.verifies && inst.verifies[v].Answered? && inst.verifies[v].answer.Accepted?
             && (inst.verifies[v].q.tokenSet.Some? ==> Texts.IsName(inst.verifies[v].q.tokenSet.value))
    ensures var s := After(existing, actions).value; var w := s.instances[i].verifies[v];
            && w.seen <= |s.files| && (w.since.Some? ==> w.since.value <= w.seen)
            && w.q.token.id in Content(s.files, w.seen)
            && w.answer.record == Content(s.files, w.seen)[w.q.token.id]
            && var record, c := w.answer.record, w.q.context;
            && record.digest == w.q.token && record.revokedAt == None && w.now < record.expiresAt
            && (w.q.tokenSet.Some? ==> record.tokenSet == w.q.tokenSet.value)
            && (record.scope.serviceIds.Some? ==> c.Some? && c.value.serviceId in record.scope.serviceIds.value)
            && (record.scope.hosts.Some? ==> c.Some? && c.value.host in record.scope.hosts.value)
            && (record.scope.methods.Some? ==> c.Some? && c.value.verb in record.scope.methods.value)
            && (record.scope.paths.Some? ==> c.Some? && c.value.path in record.scope.paths.value)
            && forall n: nat :: Initial(existing) <= n <= w.seen && w.q.token.id in Content(s.files, n) ==>
                 Content(s.files, n)[w.q.token.id].revokedAt.None?
  {
    ReachableInv(existing, actions);
    var s := After(existing, actions).value;
    var w := s.instances[i].verifies[v];
    assert VerifyOk(s.files, s.instances[i].fingerprint, w);
    AcceptedIsVouched(Content(s.files, w.seen), w.q, w.now);
    UnrevokedBefore(s.files, Initial(existing), w.q.token.id, w.seen);
  }

  /** When a verification comes to its answer, it accepts if and only if the cache has the
      token with the right digest and token set, unrevoked and unexpired, and each part of
      its scope is absent or contains the request's value. */
  lemma AnswerExactly(existing: Option<Records>, actions: seq<Action>, i: InstanceId, v: VerifyId, now: Milliseconds)
    requires After(existing, actions).Some? && Enabled(After(existing, actions).value, TokenStoreRuns.Answer(i, v, now))
    requires var q := After(existing, actions).value.instances[i].verifies[v].q;
             q.tokenSet.Some? ==> Texts.IsName(q.tokenSet.value)
    ensures var s := After(existing, actions).value;
            var q, records := s.instances[i].verifies[v].q, s.instances[i].records;
            var w := Apply(s, TokenStoreRuns.Answer(i, v, now)).instances[i].verifies[v];
            && w.Answered? && w.q == q && w.now == now
            && (w.answer.Accepted? <==>
                  && q.token.id in records
                  && var record := records[q.token.id];
                  && record.digest == q.token && record.revokedAt == None && now < record.expiresAt
                  && (q.tokenSet.Some? ==> record.tokenSet == q.tokenSet.value)
                  && (record.scope.serviceIds.Some? ==> q.context.Some? && q.context.value.serviceId in record.scope.serviceIds.value)
                  && (record.scope.hosts.Some? ==> q.context.Some? && q.context.value.host in record.scope.hosts.value)
                  && (record.scope.methods.Some? ==> q.context.Some? && q.context.value.verb in record.scope.methods.value)
                  && (record.scope.paths.Some? ==> q.context.Some? && q.context.value.path in record.scope.paths.value))
            && (w.answer.Accepted? ==> w.answer.record == records[q.token.id])
  {
    var s := After(existing, actions).value;
    AcceptedIsVouched(s.instances[i].records, s.instances[i].verifies[v].q, now);
  }

  lemma UnrevokedBefore(files: seq<Records>, initial: nat, id: Id, seen: nat)
    requires History(files, initial) && seen <= |files|
    requires id in Content(files, seen) && Content(files, seen)[id].revokedAt.None?
    ensures forall n: nat :: initial <= n <= seen && id in Content(files, n) ==> Content(files, n)[id].revokedAt.None?
  {
    forall n: nat | initial <= n <= seen && id in Content(files, n) ensures Content(files, n)[id].revokedAt.None? {
      LaterKeepsEarlier(files, initial, n, seen);
    }
  }
}
