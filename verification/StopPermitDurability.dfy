/** An issued record stays on offer until it is spent, unless a power loss takes it;
    and no power loss can, unless a handover failed. */
module StopPermitDurability {
  import opened Results
  import opened StopPermits
  import opened StopPermitStore
  import opened StopPermitSafety

  // ----- the record on offer

  /** The active name leads to this record. */
  predicate Offers(d: Disk, r: StoreRecord) {
    d.active.now.Some? && d.active.now.value in d.files && d.files[d.active.now.value].content == Some(r)
  }

  /** A power loss after which an issued nonce is neither spent nor offers its record. */
  ghost predicate TakesTheRecord(s: State, a: Action)
    requires Enabled(s, a)
  {
    a.PowerLoss? && a.spent == None
    && exists u :: u in s.tasks && Issued(s.tasks[u]) && !Offers(Apply(s, a).disk, s.tasks[u].record)
  }

  /** No action of the run takes the record of an issued nonce. */
  ghost predicate KeepsTheRecord(actions: seq<Action>)
    requires Exec(START, actions).Some?
    decreases |actions|
  {
    actions == [] ||
    (var last := |actions| - 1;
     KeepsTheRecord(actions[..last]) && !TakesTheRecord(Exec(START, actions[..last]).value, actions[last]))
  }

  /** Its file holds the whole record, and has been synced. */
  predicate Written(t: Task) {
    t.Issue? && (t.ipc.StatWritten? || (t.ipc.OpenSpent? && t.ipc.second) || Candidate(t))
  }

  predicate FileOk(d: Disk, t: Task) {
    && (t.Issue? && t.ipc.Sync? ==>
          d.spent.now.Some? || (t.ino in d.files && d.files[t.ino].content == Some(t.record)))
    && (Written(t) ==> d.spent.now.Some? || (t.ino in d.files && d.files[t.ino] == File(Some(t.record), true)))
  }

  ghost predicate FilesOk(s: State) {
    forall u :: u in s.tasks ==> FileOk(s.disk, s.tasks[u])
  }

  ghost predicate RecordInv(s: State) {
    && FilesOk(s)
    && forall u :: u in s.tasks && Issued(s.tasks[u]) ==> s.disk.spent.now.Some? || Offers(s.disk, s.tasks[u].record)
  }

  /** Files are written by their creators only. */
  lemma FileChanges(d: Disk, t: Task, c: Choice)
    ensures var (d', t') := TaskStep(d, t, c);
            || d'.files == d.files
            || (Publisher(t) && t.ino in d'.files && d'.files == d.files[t.ino := d'.files[t.ino]])
            || (d.active.now.None? && d'.files == d.files[t'.ino := File(None, false)] && t'.Issue?)
  {
    if t.Issue? { IssueFiles(d, t, c); }
    else if t.Consume? && !IsLook(t.cpc) { ConsumeFiles(d, t, c); }
  }

  lemma IssueFiles(d: Disk, t: Task, c: Choice)
    requires t.Issue?
    ensures var (d', t') := IssueStep(d, t, c);
            || d'.files == d.files
            || (Publisher(t) && t.ino in d'.files && d'.files == d.files[t.ino := d'.files[t.ino]])
            || (d.active.now.None? && d'.files == d.files[t'.ino := File(None, false)] && t'.Issue?)
  {
  }

  lemma ConsumeFiles(d: Disk, t: Task, c: Choice)
    requires t.Consume? && !IsLook(t.cpc)
    ensures ConsumeStep(d, t, c).0.files == d.files
  {
  }

  /** The stepping issuer's own file. */
  lemma MyFileOk(d: Disk, t: Task, c: Choice)
    requires NamesOk(d) && FileOk(d, t)
    ensures var (d', t') := TaskStep(d, t, c); FileOk(d', t')
  {
    if t.Issue? { assert d.spent.now.Some? ==> IssueStep(d, t, c).0.spent.now.Some?; }
    else { RoleChanges(d, t, c); }
  }

  /** Another issuer's file. */
  lemma OtherFileOk(s: State, id: TaskId, c: Choice, u: TaskId)
    requires ConsumeInv(s) && IssueInv(s) && FilesOk(s) && Enabled(s, Step(id, c)) && u in s.tasks && u != id
    ensures FileOk(TaskStep(s.disk, s.tasks[id], c).0, s.tasks[u])
  {
    FileChanges(s.disk, s.tasks[id], c);
    SpentChanges(s.disk, s.tasks[id], c);
    assert FileOk(s.disk, s.tasks[u]) && PublisherOk(s.disk, s.tasks[u]) && PublisherOk(s.disk, s.tasks[id]);
  }

  lemma ApplyKeepsFilesOk(s: State, a: Action)
    requires ConsumeInv(s) && IssueInv(s) && FilesOk(s) && Enabled(s, a)
    ensures FilesOk(Apply(s, a))
  {
    var s' := Apply(s, a);
    forall u | u in s'.tasks ensures FileOk(s'.disk, s'.tasks[u]) {
      if u in s.tasks { assert FileOk(s.disk, s.tasks[u]); }
      if a.Step? && u == a.id { MyFileOk(s.disk, s.tasks[u], a.c); }
      if a.Step? && u != a.id { OtherFileOk(s, a.id, a.c, u); }
    }
  }

  /** A step takes a record off offer only when a spent name exists. */
  lemma StepKeepsOffer(s: State, id: TaskId, c: Choice, r: StoreRecord)
    requires ConsumeInv(s) && IssueInv(s) && Enabled(s, Step(id, c))
    requires s.disk.spent.now.Some? || (Offers(s.disk, r) && NoPublisher(s))
    ensures var d' := TaskStep(s.disk, s.tasks[id], c).0; d'.spent.now.Some? || Offers(d', r)
  {
    FileChanges(s.disk, s.tasks[id], c);
    ActiveChanges(s.disk, s.tasks[id], c);
    SpentChanges(s.disk, s.tasks[id], c);
    assert ClaimOk(s.disk.spent, s.tasks[id]);
  }

  lemma ApplyKeepsRecordInv(s: State, a: Action)
    requires ConsumeInv(s) && IssueInv(s) && RecordInv(s) && Enabled(s, a) && !TakesTheRecord(s, a)
    ensures RecordInv(Apply(s, a))
  {
    var s' := Apply(s, a);
    ApplyKeepsFilesOk(s, a);
    forall u | u in s'.tasks && Issued(s'.tasks[u])
      ensures s'.disk.spent.now.Some? || Offers(s'.disk, s'.tasks[u].record)
    {
      if a.Step? {
        IssuedStaysOffered(s, a.id, a.c, u);
      } else {
        assert Issued(s.tasks[u]);
      }
    }
  }

  lemma IssuedStaysOffered(s: State, id: TaskId, c: Choice, u: TaskId)
    requires ConsumeInv(s) && IssueInv(s) && RecordInv(s) && Enabled(s, Step(id, c)) && u in s.tasks
    requires var t' := TaskStep(s.disk, s.tasks[id], c).1; Issued(s.tasks[id := t'][u])
    ensures var (d', t') := TaskStep(s.disk, s.tasks[id], c);
            d'.spent.now.Some? || Offers(d', s.tasks[id := t'][u].record)
  {
    var t := s.tasks[id];
    RoleChanges(s.disk, t, c);
    ContentChanges(s.disk, t, c);
    if Issued(s.tasks[u]) {
      StepKeepsOffer(s, id, c, s.tasks[u].record);
    } else {
      assert PublisherOk(s.disk, t) && FileOk(s.disk, t);
    }
  }

  lemma {:induction false} ReachableRecordInv(actions: seq<Action>)
    requires Exec(START, actions).Some? && KeepsTheRecord(actions)
    ensures KeepsAName(actions) && RecordInv(Exec(START, actions).value)
    decreases |actions|
  {
    if actions != [] {
      var last := |actions| - 1;
      ReachableRecordInv(actions[..last]);
      ReachableConsumeInv(actions[..last]);
      ReachableIssueInv(actions[..last]);
      ApplyKeepsRecordInv(Exec(START, actions[..last]).value, actions[last]);
    }
  }

  // ----- what no power loss can take

  predicate HandoverOk(spent: Name, t: Task) {
    Linker(t) && !t.cpc.SyncLink? ==> Durable(spent)
  }

  /** No power loss takes the active name or its record away. */
  predicate Safe(d: Disk, r: StoreRecord) {
    && d.active.now.Some? && d.active.possible == {d.active.now}
    && d.active.now.value in d.files && d.files[d.active.now.value] == File(Some(r), true)
  }

  ghost predicate DurableInv(s: State) {
    && (forall u :: u in s.tasks ==> HandoverOk(s.disk.spent, s.tasks[u]))
    && (forall u :: u in s.tasks && Issued(s.tasks[u]) ==>
          Durable(s.disk.spent) || (Safe(s.disk, s.tasks[u].record) && NoPublisher(s)))
  }

  lemma MyHandoverOk(d: Disk, t: Task, c: Choice)
    requires HandoverOk(d.spent, t) && ClaimOk(d.spent, t) && NamesOk(d)
    requires !(t.Consume? && t.cpc.SyncLink? && !c.ok)
    ensures var (d', t') := TaskStep(d, t, c); HandoverOk(d'.spent, t')
  {
    if t.Issue? { assert !Linker(IssueStep(d, t, c).1); }
    else if t.Consume? && IsLook(t.cpc) { assert !Linker(LookStep(d, t, c)); }
  }

  /** The handover of another consumer stays durable. */
  lemma OtherHandoverOk(s: State, id: TaskId, c: Choice, u: TaskId)
    requires ConsumeInv(s) && DurableInv(s) && Enabled(s, Step(id, c)) && u in s.tasks && u != id
    ensures HandoverOk(TaskStep(s.disk, s.tasks[id], c).0.spent, s.tasks[u])
  {
    SpentChanges(s.disk, s.tasks[id], c);
    assert HandoverOk(s.disk.spent, s.tasks[u]);
    assert ClaimOk(s.disk.spent, s.tasks[u]);
  }

  lemma StepKeepsSafe(s: State, id: TaskId, c: Choice, r: StoreRecord)
    requires ConsumeInv(s) && IssueInv(s) && DurableInv(s) && Enabled(s, Step(id, c))
    requires Durable(s.disk.spent) || (Safe(s.disk, r) && NoPublisher(s))
    ensures var (d', t') := TaskStep(s.disk, s.tasks[id], c);
            Durable(d'.spent) || (Safe(d', r) && NoPublisher(s.(tasks := s.tasks[id := t'])))
  {
    FileChanges(s.disk, s.tasks[id], c);
    RoleChanges(s.disk, s.tasks[id], c);
    ActiveChanges(s.disk, s.tasks[id], c);
    SpentChanges(s.disk, s.tasks[id], c);
    assert HandoverOk(s.disk.spent, s.tasks[id]);
  }

  lemma IssuedStaysDurable(s: State, id: TaskId, c: Choice, u: TaskId)
    requires ConsumeInv(s) && IssueInv(s) && FilesOk(s) && DurableInv(s) && Enabled(s, Step(id, c)) && u in s.tasks
    requires var t' := TaskStep(s.disk, s.tasks[id], c).1; Issued(s.tasks[id := t'][u])
    ensures var (d', t') := TaskStep(s.disk, s.tasks[id], c);
            || Durable(d'.spent)
            || (Safe(d', s.tasks[id := t'][u].record) && NoPublisher(s.(tasks := s.tasks[id := t'])))
  {
    var t := s.tasks[id];
    RoleChanges(s.disk, t, c);
    ContentChanges(s.disk, t, c);
    if Issued(s.tasks[u]) {
      StepKeepsSafe(s, id, c, s.tasks[u].record);
    } else {
      assert PublisherOk(s.disk, t) && FileOk(s.disk, t);
      FileChanges(s.disk, t, c);
      assert t.ipc.SyncPublished?;
    }
  }

  lemma ApplyKeepsHandovers(s: State, a: Action)
    requires ConsumeInv(s) && DurableInv(s) && Enabled(s, a) && !Apply(s, a).failedHandover
    ensures forall u :: u in Apply(s, a).tasks ==> HandoverOk(Apply(s, a).disk.spent, Apply(s, a).tasks[u])
  {
    var s' := Apply(s, a);
    forall u | u in s'.tasks ensures HandoverOk(s'.disk.spent, s'.tasks[u]) {
      if u in s.tasks { assert HandoverOk(s.disk.spent, s.tasks[u]) && ClaimOk(s.disk.spent, s.tasks[u]); }
      if a.Step? && u == a.id { MyHandoverOk(s.disk, s.tasks[u], a.c); }
      if a.Step? && u != a.id { OtherHandoverOk(s, a.id, a.c, u); }
    }
  }

  lemma ApplyKeepsDurableInv(s: State, a: Action)
    requires ConsumeInv(s) && IssueInv(s) && FilesOk(s) && DurableInv(s)
    requires Enabled(s, a) && !Apply(s, a).failedHandover
    ensures DurableInv(Apply(s, a)) && !TakesTheRecord(s, a)
  {
    var s' := Apply(s, a);
    ApplyKeepsHandovers(s, a);
    forall u | u in s'.tasks && Issued(s'.tasks[u])
      ensures Durable(s'.disk.spent) || (Safe(s'.disk, s'.tasks[u].record) && NoPublisher(s'))
    {
      if a.Step? { IssuedStaysDurable(s, a.id, a.c, u); } else { assert Issued(s.tasks[u]); }
    }
  }

  lemma {:induction false} ReachableDurableInv(actions: seq<Action>)
    requires Exec(START, actions).Some? && !Exec(START, actions).value.failedHandover
    ensures KeepsTheRecord(actions) && DurableInv(Exec(START, actions).value)
    decreases |actions|
  {
    if actions != [] {
      var last := |actions| - 1;
      ReachableDurableInv(actions[..last]);
      ReachableRecordInv(actions[..last]);
      ReachableConsumeInv(actions[..last]);
      ReachableIssueInv(actions[..last]);
      ApplyKeepsDurableInv(Exec(START, actions[..last]).value, actions[last]);
    }
  }

  /** Unless the directory fsync after some successful link has failed, no power loss
      takes an issued record, and none can take both names of an issued nonce. */
  lemma SoundHandoverKeepsTheRecord(actions: seq<Action>)
    requires Exec(START, actions).Some? && !Exec(START, actions).value.failedHandover
    ensures KeepsTheRecord(actions) && KeepsAName(actions) && !Exposed(Exec(START, actions).value)
  {
    ReachableDurableInv(actions);
    ReachableRecordInv(actions);
  }
}
