/** A stop permit is consumed at most once over every interleaving of issuers and
    consumers, kills and power losses, and issued at most once exactly as long as no
    power loss takes both of its names. */
module StopPermitSafety {
  import opened Results
  import opened StopPermits
  import opened StopPermitStore

  // ----- consuming

  /** Its link succeeded and it has not answered yet. */
  predicate Linker(t: Task) {
    t.Consume? &&
    (t.cpc.SyncLink? || t.cpc.OpenConsumed? || t.cpc.ReadConsumed? || t.cpc.Unlink? || t.cpc.SyncUnlink?
     || t.cpc.OpenDurable? || t.cpc.ReadDurable? || t.cpc.Finally? || t.cpc.SyncFinally?)
  }

  predicate LinkSynced(t: Task) {
    Linker(t) && !t.cpc.SyncLink? && !t.cpc.Finally? && !t.cpc.SyncFinally?
  }

  predicate Consumed(t: Task) { t.Done? && !t.issue && t.answer == Yes }

  predicate Claimant(t: Task) { Linker(t) || Consumed(t) }

  /** The spent name survives any power loss. */
  predicate Durable(n: Name) { None !in n.possible }

  predicate NamesOk(d: Disk) {
    d.active.now in d.active.possible && d.spent.now in d.spent.possible
  }

  predicate ClaimOk(spent: Name, t: Task) {
    && (Linker(t) ==> spent.now.Some?)
    && (LinkSynced(t) || Consumed(t) ==> Durable(spent))
  }

  ghost predicate ConsumeInv(s: State) {
    && NamesOk(s.disk)
    && (forall u :: u in s.tasks ==> ClaimOk(s.disk.spent, s.tasks[u]))
    && (forall u, v :: u in s.tasks && v in s.tasks && Claimant(s.tasks[u]) && Claimant(s.tasks[v]) ==> u == v)
  }

  /** How one step can change the spent name. */
  lemma SpentChanges(d: Disk, t: Task, c: Choice)
    requires NamesOk(d)
    ensures var (d', t') := TaskStep(d, t, c);
            && NamesOk(d')
            && (|| d'.spent == d.spent
                || d'.spent == Synced(d.spent)
                || (d.spent.now.None? && d'.spent == Set(d.spent, d.active.now) && d.active.now.Some?
                    && t.Consume? && t.cpc.Link?))
  {
    if t.Issue? { IssueKeepsSpent(d, t, c); }
    else if t.Consume? && !IsLook(t.cpc) { ConsumeSpent(d, t, c); }
  }

  lemma IssueKeepsSpent(d: Disk, t: Task, c: Choice)
    requires NamesOk(d) && t.Issue?
    ensures var d' := IssueStep(d, t, c).0;
            NamesOk(d') && (d'.spent == d.spent || d'.spent == Synced(d.spent))
  {
  }

  lemma ConsumeSpent(d: Disk, t: Task, c: Choice)
    requires NamesOk(d) && t.Consume? && !IsLook(t.cpc)
    ensures var d' := ConsumeStep(d, t, c).0;
            && NamesOk(d')
            && (|| d'.spent == d.spent
                || d'.spent == Synced(d.spent)
                || (d.spent.now.None? && d'.spent == Set(d.spent, d.active.now) && d.active.now.Some? && t.cpc.Link?))
  {
  }

  /** The stepping consumer's own claim. */
  lemma MyClaimOk(d: Disk, t: Task, c: Choice)
    requires NamesOk(d) && ClaimOk(d.spent, t)
    ensures var (d', t') := TaskStep(d, t, c);
            ClaimOk(d'.spent, t') && (Claimant(t') ==> Claimant(t) || d.spent.now.None?)
  {
    if t.Consume? && IsLook(t.cpc) {
      assert !Claimant(LookStep(d, t, c));
    } else if t.Issue? {
      assert !Claimant(IssueStep(d, t, c).1);
    }
  }

  lemma StepKeepsConsumeInv(s: State, id: TaskId, c: Choice)
    requires ConsumeInv(s) && Enabled(s, Step(id, c))
    ensures ConsumeInv(Apply(s, Step(id, c)))
  {
    var t := s.tasks[id];
    var s' := Apply(s, Step(id, c));
    SpentChanges(s.disk, t, c);
    MyClaimOk(s.disk, t, c);
    forall u | u in s'.tasks ensures ClaimOk(s'.disk.spent, s'.tasks[u]) {
      if u != id { OtherClaimOk(s, id, s'.disk.spent, u); }
    }
    forall u, v | u in s'.tasks && v in s'.tasks && Claimant(s'.tasks[u]) && Claimant(s'.tasks[v]) ensures u == v {
      NoNewRival(s, id, s'.tasks[id], u, v);
    }
  }

  lemma OtherClaimOk(s: State, id: TaskId, spent: Name, u: TaskId)
    requires ConsumeInv(s) && u in s.tasks
    requires || spent == s.disk.spent || spent == Synced(s.disk.spent)
             || (s.disk.spent.now.None? && spent == Set(s.disk.spent, s.disk.active.now) && s.disk.active.now.Some?)
    ensures ClaimOk(spent, s.tasks[u])
  {
    assert ClaimOk(s.disk.spent, s.tasks[u]);
  }

  /** A new claimant appears only while the spent name is absent, hence without a rival. */
  lemma NoNewRival(s: State, id: TaskId, t': Task, u: TaskId, v: TaskId)
    requires ConsumeInv(s) && id in s.tasks && u in s.tasks && v in s.tasks
    requires Claimant(t') ==> Claimant(s.tasks[id]) || s.disk.spent.now.None?
    requires Claimant(s.tasks[id := t'][u]) && Claimant(s.tasks[id := t'][v])
    ensures u == v
  {
    var w := if u == id then v else u;
    assert w != id ==> ClaimOk(s.disk.spent, s.tasks[w]);
  }

  lemma ApplyKeepsConsumeInv(s: State, a: Action)
    requires ConsumeInv(s) && Enabled(s, a)
    ensures ConsumeInv(Apply(s, a))
  {
    if a.Step? { StepKeepsConsumeInv(s, a.id, a.c); }
    else {
      var s' := Apply(s, a);
      forall u | u in s'.tasks ensures ClaimOk(s'.disk.spent, s'.tasks[u]) {
        if u in s.tasks { assert ClaimOk(s.disk.spent, s.tasks[u]); }
      }
    }
  }

  lemma {:induction false} ReachableConsumeInv(actions: seq<Action>)
    requires Exec(START, actions).Some?
    ensures ConsumeInv(Exec(START, actions).value)
    decreases |actions|
  {
    if actions != [] {
      var last := |actions| - 1;
      ReachableConsumeInv(actions[..last]);
      ApplyKeepsConsumeInv(Exec(START, actions[..last]).value, actions[last]);
    }
  }

  /** At most one consume ever answers yes, whatever fails or is lost. */
  lemma ConsumedAtMostOnce(actions: seq<Action>, a: TaskId, b: TaskId)
    requires Exec(START, actions).Some?
    requires a in Exec(START, actions).value.tasks && Consumed(Exec(START, actions).value.tasks[a])
    requires b in Exec(START, actions).value.tasks && Consumed(Exec(START, actions).value.tasks[b])
    ensures a == b
    ensures Durable(Exec(START, actions).value.disk.spent)
  {
    ReachableConsumeInv(actions);
    var s := Exec(START, actions).value;
    assert ClaimOk(s.disk.spent, s.tasks[a]);
  }

  // ----- issuing

  /** It created the active name and has not given it up. */
  predicate Publisher(t: Task) {
    t.Issue? && !t.ipc.OpenActive? && !t.ipc.SyncRemoved?
  }

  predicate Issued(t: Task) { t.Done? && t.issue && t.answer == Yes }

  /** It has seen the spent name absent after writing its record. */
  predicate Candidate(t: Task) {
    Issued(t) || (t.Issue? && (t.ipc.OpenPublished? || t.ipc.ReadPublished? || t.ipc.SyncPublished?))
  }

  predicate PublisherOk(d: Disk, t: Task) {
    Publisher(t) ==> d.active.now == Some(t.ino) || d.spent.now.Some?
  }

  ghost predicate NoPublisher(s: State) {
    forall u :: u in s.tasks ==> !Publisher(s.tasks[u])
  }

  /** A nonce that was issued has a name; while that is the active one, no issuer may remove it. */
  ghost predicate IssueInv(s: State) {
    && (forall u :: u in s.tasks ==> PublisherOk(s.disk, s.tasks[u]))
    && (forall u, v :: u in s.tasks && v in s.tasks && u != v && Publisher(s.tasks[u]) && Publisher(s.tasks[v]) ==>
          s.disk.spent.now.Some?)
    && (forall u, v :: u in s.tasks && v in s.tasks && Candidate(s.tasks[u]) && Candidate(s.tasks[v]) ==> u == v)
    && (forall u :: u in s.tasks && Issued(s.tasks[u]) ==>
          s.disk.spent.now.Some? || (s.disk.active.now.Some? && NoPublisher(s)))
  }

  /** Some issue has answered yes. */
  ghost predicate AnyIssued(s: State) {
    exists u :: u in s.tasks && Issued(s.tasks[u])
  }

  /** A power loss that leaves neither name of an issued nonce. */
  ghost predicate TakesBothNames(s: State, a: Action) {
    a.PowerLoss? && a.active == None && a.spent == None && AnyIssued(s)
  }

  /** A power loss can take both names of an issued nonce. */
  ghost predicate Exposed(s: State) {
    AnyIssued(s) && None in s.disk.active.possible && None in s.disk.spent.possible
  }

  /** No action of the run takes both names of an issued nonce. */
  ghost predicate KeepsAName(actions: seq<Action>)
    requires Exec(START, actions).Some?
    decreases |actions|
  {
    actions == [] ||
    (var last := |actions| - 1;
     KeepsAName(actions[..last]) && !TakesBothNames(Exec(START, actions[..last]).value, actions[last]))
  }

  /** Only a consumer past its link, or an issuer with a file of its own, removes the active name. */
  predicate ActiveChange(d: Disk, t: Task, d': Disk) {
    || d'.active == d.active
    || d'.active == Synced(d.active)
    || (d'.active == Set(d.active, None) && (Publisher(t) || (Linker(t) && !t.cpc.SyncLink?)))
    || (d.active.now.None? && d'.active.now.Some? && t.Issue? && t.ipc.OpenActive?)
  }

  lemma ActiveChanges(d: Disk, t: Task, c: Choice)
    ensures ActiveChange(d, t, TaskStep(d, t, c).0)
  {
    if t.Issue? { IssueActive(d, t, c); }
    else if t.Consume? && !IsLook(t.cpc) { ConsumeActive(d, t, c); }
  }

  lemma IssueActive(d: Disk, t: Task, c: Choice)
    requires t.Issue?
    ensures ActiveChange(d, t, IssueStep(d, t, c).0)
  {
  }

  lemma ConsumeActive(d: Disk, t: Task, c: Choice)
    requires t.Consume? && !IsLook(t.cpc)
    ensures ActiveChange(d, t, ConsumeStep(d, t, c).0)
  {
  }

  lemma MyPublisherOk(d: Disk, t: Task, c: Choice)
    requires PublisherOk(d, t)
    ensures var (d', t') := TaskStep(d, t, c); PublisherOk(d', t')
  {
    if t.Issue? { IssuerOk(d, t, c); }
    else { RoleChanges(d, t, c); }
  }

  lemma IssuerOk(d: Disk, t: Task, c: Choice)
    requires PublisherOk(d, t) && t.Issue?
    ensures var (d', t') := IssueStep(d, t, c); PublisherOk(d', t')
  {
  }

  /** Another publisher keeps its name, or a spent name exists. */
  lemma OtherPublisherOk(s: State, id: TaskId, c: Choice, u: TaskId)
    requires ConsumeInv(s) && IssueInv(s) && Enabled(s, Step(id, c)) && u in s.tasks && u != id
    ensures PublisherOk(TaskStep(s.disk, s.tasks[id], c).0, s.tasks[u])
  {
    var t := s.tasks[id];
    ActiveChanges(s.disk, t, c);
    SpentChanges(s.disk, t, c);
    assert PublisherOk(s.disk, s.tasks[u]) && PublisherOk(s.disk, t);
    assert ClaimOk(s.disk.spent, s.tasks[u]) && ClaimOk(s.disk.spent, t);
  }

  /** How a step can make a task a publisher, a candidate or an issuer that answered yes. */
  lemma RoleChanges(d: Disk, t: Task, c: Choice)
    ensures var (d', t') := TaskStep(d, t, c);
            && (Publisher(t') ==> Publisher(t) || (d.active.now.None? && t.Issue? && t.ipc.OpenActive?))
            && (Candidate(t') ==> Candidate(t) || (d.spent.now.None? && Publisher(t)))
            && (Issued(t') ==> Issued(t) || (Publisher(t) && Candidate(t) && d' == SyncDirectory(d)))
  {
    if t.Issue? { IssuerRoleChanges(d, t, c); }
    else if t.Consume? && IsLook(t.cpc) { assert !Candidate(LookStep(d, t, c)); }
  }

  lemma IssuerRoleChanges(d: Disk, t: Task, c: Choice)
    requires t.Issue?
    ensures var (d', t') := IssueStep(d, t, c);
            && (Publisher(t') ==> Publisher(t) || (d.active.now.None? && t.ipc.OpenActive?))
            && (Candidate(t') ==> Candidate(t) || (d.spent.now.None? && Publisher(t)))
            && (Issued(t') ==> Publisher(t) && Candidate(t) && d' == SyncDirectory(d))
  {
  }

  lemma PublishersStayApart(s: State, id: TaskId, c: Choice, u: TaskId, v: TaskId)
    requires ConsumeInv(s) && IssueInv(s) && Enabled(s, Step(id, c)) && u in s.tasks && v in s.tasks && u != v
    requires var t' := TaskStep(s.disk, s.tasks[id], c).1;
             Publisher(s.tasks[id := t'][u]) && Publisher(s.tasks[id := t'][v])
    ensures TaskStep(s.disk, s.tasks[id], c).0.spent.now.Some?
  {
    RoleChanges(s.disk, s.tasks[id], c);
    SpentChanges(s.disk, s.tasks[id], c);
    assert PublisherOk(s.disk, s.tasks[u]) && PublisherOk(s.disk, s.tasks[v]);
  }

  lemma CandidatesStayApart(s: State, id: TaskId, c: Choice, u: TaskId, v: TaskId)
    requires ConsumeInv(s) && IssueInv(s) && Enabled(s, Step(id, c)) && u in s.tasks && v in s.tasks
    requires var t' := TaskStep(s.disk, s.tasks[id], c).1;
             Candidate(s.tasks[id := t'][u]) && Candidate(s.tasks[id := t'][v])
    ensures u == v
  {
    RoleChanges(s.disk, s.tasks[id], c);
    var w := if u == id then v else u;
    assert w != id && Issued(s.tasks[w]) ==> s.disk.spent.now.Some? || NoPublisher(s);
  }

  lemma IssuedStaysNamed(s: State, id: TaskId, c: Choice, u: TaskId)
    requires ConsumeInv(s) && IssueInv(s) && Enabled(s, Step(id, c)) && u in s.tasks
    requires var t' := TaskStep(s.disk, s.tasks[id], c).1; Issued(s.tasks[id := t'][u])
    ensures var (d', t') := TaskStep(s.disk, s.tasks[id], c);
            d'.spent.now.Some? || (d'.active.now.Some? && NoPublisher(s.(tasks := s.tasks[id := t'])))
  {
    var t := s.tasks[id];
    RoleChanges(s.disk, t, c);
    ActiveChanges(s.disk, t, c);
    SpentChanges(s.disk, t, c);
    assert PublisherOk(s.disk, t) && ClaimOk(s.disk.spent, t);
    if u == id {
      assert Publisher(t);
    } else {
      assert s.disk.spent.now.Some? || (s.disk.active.now.Some? && NoPublisher(s));
    }
  }

  lemma StepKeepsIssueInv(s: State, id: TaskId, c: Choice)
    requires ConsumeInv(s) && IssueInv(s) && Enabled(s, Step(id, c))
    ensures IssueInv(Apply(s, Step(id, c)))
  {
    var s' := Apply(s, Step(id, c));
    MyPublisherOk(s.disk, s.tasks[id], c);
    forall u | u in s'.tasks ensures PublisherOk(s'.disk, s'.tasks[u]) {
      if u != id { OtherPublisherOk(s, id, c, u); }
    }
    forall u, v | u in s'.tasks && v in s'.tasks && u != v && Publisher(s'.tasks[u]) && Publisher(s'.tasks[v])
      ensures s'.disk.spent.now.Some?
    {
      PublishersStayApart(s, id, c, u, v);
    }
    forall u, v | u in s'.tasks && v in s'.tasks && Candidate(s'.tasks[u]) && Candidate(s'.tasks[v]) ensures u == v {
      CandidatesStayApart(s, id, c, u, v);
    }
    forall u | u in s'.tasks && Issued(s'.tasks[u])
      ensures s'.disk.spent.now.Some? || (s'.disk.active.now.Some? && NoPublisher(s'))
    {
      IssuedStaysNamed(s, id, c, u);
    }
  }

  /** A beginning or a kill leaves the disk alone and gives nobody a new role. */
  lemma OtherActionsKeepIssueInv(s: State, a: Action)
    requires IssueInv(s) && Enabled(s, a) && !a.Step? && !a.PowerLoss?
    ensures IssueInv(Apply(s, a))
  {
    var s' := Apply(s, a);
    forall u | u in s'.tasks ensures PublisherOk(s'.disk, s'.tasks[u]) {
      if u in s.tasks { assert PublisherOk(s.disk, s.tasks[u]); }
    }
    forall u | u in s'.tasks && Issued(s'.tasks[u])
      ensures s'.disk.spent.now.Some? || (s'.disk.active.now.Some? && NoPublisher(s'))
    {
      assert Issued(s.tasks[u]);
    }
  }

  /** After a power loss nobody is at work. */
  lemma LossKeepsIssueInv(s: State, a: Action)
    requires IssueInv(s) && Enabled(s, a) && a.PowerLoss? && !TakesBothNames(s, a)
    ensures IssueInv(Apply(s, a))
  {
    var s' := Apply(s, a);
    forall u | u in s'.tasks ensures s'.tasks[u].Done? && (Issued(s'.tasks[u]) ==> Issued(s.tasks[u])) {
    }
    assert NoPublisher(s');
  }

  lemma ApplyKeepsIssueInv(s: State, a: Action)
    requires ConsumeInv(s) && IssueInv(s) && Enabled(s, a) && !TakesBothNames(s, a)
    ensures IssueInv(Apply(s, a))
  {
    if a.Step? { StepKeepsIssueInv(s, a.id, a.c); }
    else if a.PowerLoss? { LossKeepsIssueInv(s, a); }
    else { OtherActionsKeepIssueInv(s, a); }
  }

  lemma {:induction false} ReachableIssueInv(actions: seq<Action>)
    requires Exec(START, actions).Some? && KeepsAName(actions)
    ensures IssueInv(Exec(START, actions).value)
    decreases |actions|
  {
    if actions != [] {
      var last := |actions| - 1;
      ReachableConsumeInv(actions[..last]);
      ReachableIssueInv(actions[..last]);
      ApplyKeepsIssueInv(Exec(START, actions[..last]).value, actions[last]);
    }
  }

  /** At most one issue ever answers yes, whatever fails, as long as no power loss
      takes both names of an issued nonce. */
  lemma IssuedAtMostOnce(actions: seq<Action>, a: TaskId, b: TaskId)
    requires Exec(START, actions).Some? && KeepsAName(actions)
    requires a in Exec(START, actions).value.tasks && Issued(Exec(START, actions).value.tasks[a])
    requires b in Exec(START, actions).value.tasks && Issued(Exec(START, actions).value.tasks[b])
    ensures a == b
  {
    ReachableIssueInv(actions);
  }

  // ----- only issued records are consumed

  predicate Issuing(t: Task) { t.Issue? || (t.Done? && t.issue) }

  /** Some issue call has written this record. */
  ghost predicate Offered(s: State, r: StoreRecord) {
    exists u :: u in s.writers && u in s.tasks && Issuing(s.tasks[u]) && s.tasks[u].record == r
  }

  ghost predicate OfferedInv(s: State) {
    && (forall i :: i in s.disk.files && s.disk.files[i].content.Some? ==> Offered(s, s.disk.files[i].content.value))
    && (forall u :: u in s.tasks && Consumed(s.tasks[u]) ==> Offered(s, s.tasks[u].record))
    && (forall u :: u in s.tasks && s.tasks[u].Issue? && s.tasks[u].ipc.Sync? ==> u in s.writers)
  }

  /** New text comes from an issuer's own record, and a yes from text that was read. */
  lemma ContentChanges(d: Disk, t: Task, c: Choice)
    ensures var (d', t') := TaskStep(d, t, c);
            && t'.record == t.record
            && (Issuing(t') <==> Issuing(t))
            && (forall i :: i in d'.files && d'.files[i].content.Some? ==>
                  || (i in d.files && d.files[i].content == d'.files[i].content)
                  || (t.Issue? && d'.files[i].content == Some(t.record)
                      && (t.ipc.Sync? || (t.ipc.Write? && (c.ok || c.wrote)))))
            && (t'.Issue? && t'.ipc.Sync? ==> t.ipc.Write? && c.ok)
            && (Consumed(t') && !Consumed(t) ==> exists i :: i in d.files && d.files[i].content == Some(t.record))
  {
    if t.Consume? && IsLook(t.cpc) { assert !Consumed(LookStep(d, t, c)); }
    else if t.Consume? { ConsumeContent(d, t, c); }
  }

  lemma ConsumeContent(d: Disk, t: Task, c: Choice)
    requires t.Consume? && !IsLook(t.cpc)
    ensures var (d', t') := ConsumeStep(d, t, c);
            && t'.record == t.record && !Issuing(t') && d'.files == d.files
            && (Consumed(t') ==> exists i :: i in d.files && d.files[i].content == Some(t.record))
  {
  }

  lemma OfferedStays(s: State, a: Action, r: StoreRecord)
    requires Enabled(s, a) && Offered(s, r)
    ensures Offered(Apply(s, a), r)
  {
    var u :| u in s.writers && u in s.tasks && Issuing(s.tasks[u]) && s.tasks[u].record == r;
    if a.Step? && a.id == u { ContentChanges(s.disk, s.tasks[u], a.c); }
    assert Issuing(Apply(s, a).tasks[u]);
  }

  lemma WritingOffers(s: State, id: TaskId, c: Choice)
    requires OfferedInv(s) && Enabled(s, Step(id, c)) && s.tasks[id].Issue?
    requires s.tasks[id].ipc.Sync? || (s.tasks[id].ipc.Write? && (c.ok || c.wrote))
    ensures Offered(Apply(s, Step(id, c)), s.tasks[id].record)
  {
    ContentChanges(s.disk, s.tasks[id], c);
    var s' := Apply(s, Step(id, c));
    assert id in s'.writers && Issuing(s'.tasks[id]);
  }

  lemma ApplyKeepsOfferedInv(s: State, a: Action)
    requires OfferedInv(s) && Enabled(s, a)
    ensures OfferedInv(Apply(s, a))
  {
    var s' := Apply(s, a);
    if a.Step? { ContentChanges(s.disk, s.tasks[a.id], a.c); }
    forall i | i in s'.disk.files && s'.disk.files[i].content.Some?
      ensures Offered(s', s'.disk.files[i].content.value)
    {
      var r := s'.disk.files[i].content.value;
      if i in s.disk.files && s.disk.files[i].content == Some(r) { OfferedStays(s, a, r); }
      else { WritingOffers(s, a.id, a.c); }
    }
    forall u | u in s'.tasks && Consumed(s'.tasks[u]) ensures Offered(s', s'.tasks[u].record) {
      OfferedStays(s, a, s'.tasks[u].record);
    }
  }

  lemma {:induction false} ReachableOfferedInv(actions: seq<Action>)
    requires Exec(START, actions).Some?
    ensures OfferedInv(Exec(START, actions).value)
    decreases |actions|
  {
    if actions != [] {
      var last := |actions| - 1;
      ReachableOfferedInv(actions[..last]);
      ApplyKeepsOfferedInv(Exec(START, actions[..last]).value, actions[last]);
    }
  }

  /** If every issue call stores the record of the permit it was given, the permit whose
      consumption answers yes is, claim for claim, that of a call whose record was written. */
  lemma ConsumedPermitWasIssued(actions: seq<Action>, issued: map<TaskId, Permit>, a: TaskId, permit: Permit)
    requires Exec(START, actions).Some?
    requires var tasks := Exec(START, actions).value.tasks;
             && a in tasks && Consumed(tasks[a]) && tasks[a].record == RecordOf(permit)
             && forall u :: u in tasks && Issuing(tasks[u]) ==> u in issued && tasks[u].record == RecordOf(issued[u])
    ensures var s := Exec(START, actions).value;
            exists u :: u in s.writers && u in s.tasks && Issuing(s.tasks[u]) && u in issued && issued[u] == permit
  {
    ReachableOfferedInv(actions);
    var s := Exec(START, actions).value;
    assert Offered(s, RecordOf(permit));
    var u :| u in s.writers && u in s.tasks && Issuing(s.tasks[u]) && s.tasks[u].record == RecordOf(permit);
    RecordDeterminesPermit(issued[u], permit);
  }
}
