/** The ordinary life of a journal over its system calls: created, opened and mutated
    under the lease, and a live holder's lease refused to others. */
module RolloutJournalLife {
  import opened Results
  import opened RolloutPhases
  import opened RolloutLease
  import opened RolloutLeaseRuns
  import opened RolloutLeaseSafety
  import opened RolloutJournalRun

  /** The lease directory of this handle, with exactly its owner record. */
  predicate Owns(d: Disk, id: TaskId, t: Task) {
    d.lease == Some(t.meta) && t.meta in d.dirs && d.dirs[t.meta] == HeldDir(id, t)
  }

  /** The record at the state path is replaced. */
  function Recorded(d: Disk, next: Journal): Disk { d.(journal := Some(next), published := d.published + [next]) }

  /** An ownership check of a handle that owns its lease goes on to its work. */
  lemma CheckOwned(running: map<Pid, nat>, id: TaskId, d0: Disk, t0: Task, d: Disk, t: Task, w: Work)
    requires Reaches(running, id, d0, t0, d, t) && t.pc == LookExists(Working(w)) && Owns(d, id, t)
    ensures Reaches(running, id, d0, t0, d, Go(t, Held(w)))
  {
    OwnIsMine(d, id, t);
    Inspect(running, id, d0, t0, d, t, Working(w), Go(t, Held(w)));
  }

  lemma StartStep(running: map<Pid, nat>, id: TaskId, d: Disk, t: Task, c: Choice)
    requires t.pc == Held(Starting) && Intact(d)
    ensures TaskStep(running, d, id, t, c) ==
              (d, Go(t, Held(match t.job
                             case Open(_, _) => ReadState(None)
                             case Create(plan, operation) => CheckExisting(None, Initial(plan, operation, c.now)))))
  {
  }

  /** A record that can be read. */
  lemma ReadStep(running: map<Pid, nat>, id: TaskId, d: Disk, t: Task, m: Option<Stamped>)
    requires t.pc == Held(ReadState(m)) && Intact(d)
    requires d.journal.Some? && ValidState(d.journal.value) && Bound(t, d.journal.value)
    ensures m == None ==> TaskStep(running, d, id, t, OK) == (d, Go(t, Held(Idle)))
    ensures m.Some? && Next(d.journal.value, m.value.mutation, m.value.now).Success? ==>
              TaskStep(running, d, id, t, OK) ==
                (d, Go(t, LookExists(Working(CheckExisting(d.journal, Next(d.journal.value, m.value.mutation, m.value.now).value)))))
  {
  }

  lemma ExistingStep(running: map<Pid, nat>, id: TaskId, d: Disk, t: Task, base: Option<Journal>, next: Journal)
    requires t.pc == Held(CheckExisting(base, next)) && Intact(d) && ValidState(next) && d.journal.Some? == base.Some?
    ensures TaskStep(running, d, id, t, OK) == (d, Go(t, Held(WriteTemporary(base, next))))
  {
  }

  lemma TemporaryStep(running: map<Pid, nat>, id: TaskId, d: Disk, t: Task, base: Option<Journal>, next: Journal)
    requires t.pc == Held(WriteTemporary(base, next)) && Intact(d)
    ensures TaskStep(running, d, id, t, OK) == (d, Go(t, LookExists(Working(Publish(base, next)))))
  {
  }

  /** From the existence check to the brink of publishing. */
  lemma PrepareSteps(
    running: map<Pid, nat>, id: TaskId, d0: Disk, t0: Task, d: Disk, t: Task, base: Option<Journal>, next: Journal)
    requires Reaches(running, id, d0, t0, d, t) && t.pc == Held(CheckExisting(base, next)) && Owns(d, id, t)
    requires ValidState(next) && d.journal.Some? == base.Some?
    ensures Reaches(running, id, d0, t0, d, Go(t, Held(Publish(base, next))))
  {
    var writing, looking := Go(t, Held(WriteTemporary(base, next))), Go(t, LookExists(Working(Publish(base, next))));
    ExistingStep(running, id, d, t, base, next);
    Then(running, id, d0, t0, d, t, OK, d, writing);
    TemporaryStep(running, id, d, writing, base, next);
    Then(running, id, d0, t0, d, writing, OK, d, looking);
    CheckOwned(running, id, d0, t0, d, looking, Publish(base, next));
  }

  /** The read back of a record that has just been put in place. */
  lemma ReadBackStep(running: map<Pid, nat>, id: TaskId, d: Disk, t: Task, base: Option<Journal>)
    requires t.pc == Held(ReadBack(base)) && Intact(d)
    requires d.journal.Some? && ValidState(d.journal.value) && Bound(t, d.journal.value)
    ensures TaskStep(running, d, id, t, OK) == (d, Go(t, if base.None? then Held(Idle) else LookExists(Working(Idle))))
  {
  }

  lemma PublishStep(running: map<Pid, nat>, id: TaskId, d: Disk, t: Task, base: Option<Journal>, next: Journal)
    requires t.pc == Held(Publish(base, next)) && Intact(d) && d.journal.Some? == base.Some?
    ensures TaskStep(running, d, id, t, OK) == (Recorded(d, next), Go(t, Held(SyncState(base))))
  {
  }

  /** From there to the record in place. */
  lemma PlaceSteps(
    running: map<Pid, nat>, id: TaskId, d0: Disk, t0: Task, d: Disk, t: Task, base: Option<Journal>, next: Journal)
    requires Reaches(running, id, d0, t0, d, t) && t.pc == Held(Publish(base, next)) && Intact(d)
    requires d.journal.Some? == base.Some?
    ensures Reaches(running, id, d0, t0, Recorded(d, next), Go(t, Held(ReadBack(base))))
  {
    var d', syncing := Recorded(d, next), Go(t, Held(SyncState(base)));
    PublishStep(running, id, d, t, base, next);
    Then(running, id, d0, t0, d, t, OK, d', syncing);
    Then(running, id, d0, t0, d', syncing, OK, d', Go(t, Held(ReadBack(base))));
  }

  /** And read back. */
  lemma PublishSteps(
    running: map<Pid, nat>, id: TaskId, d0: Disk, t0: Task, d: Disk, t: Task, base: Option<Journal>, next: Journal)
    requires Reaches(running, id, d0, t0, d, t) && t.pc == Held(Publish(base, next)) && Intact(d)
    requires ValidState(next) && Bound(t, next) && d.journal.Some? == base.Some?
    ensures Reaches(running, id, d0, t0, Recorded(d, next),
                    Go(t, if base.None? then Held(Idle) else LookExists(Working(Idle))))
  {
    var d', reading := Recorded(d, next), Go(t, Held(ReadBack(base)));
    PlaceSteps(running, id, d0, t0, d, t, base, next);
    ReadBackStep(running, id, d', reading, base);
    Then(running, id, d0, t0, d', reading, OK, d', Go(t, if base.None? then Held(Idle) else LookExists(Working(Idle))));
  }

  /** Alone and without I/O errors, a creation on an empty path publishes the initial
      record and returns a handle. */
  lemma CreateAlone(actions: seq<Action>, s: State, id: TaskId, plan: string, operation: string, now: Timestamp)
    returns (more: seq<Action>, s': State)
    requires After(actions) == Some(s) && Live(s, id) && s.tasks[id].pc == Held(Starting)
    requires s.tasks[id].job == Create(plan, operation) && Owns(s.disk, id, s.tasks[id]) && s.disk.journal == None
    requires ValidPlanDigest(plan) && ValidOperationId(operation)
    ensures actions <= more && After(more) == Some(s')
    ensures s' == s.(disk := Recorded(s.disk, Initial(plan, operation, now)), tasks := s.tasks[id := Go(s.tasks[id], Held(Idle))])
  {
    var t, next := s.tasks[id], Initial(plan, operation, now);
    InitialIsValid(plan, operation, now);
    Stay(s.running, id, s.disk, t);
    StartStep(s.running, id, s.disk, t, OK.(now := now));
    Then(s.running, id, s.disk, t, s.disk, t, OK.(now := now), s.disk, Go(t, Held(CheckExisting(None, next))));
    PrepareSteps(s.running, id, s.disk, t, s.disk, Go(t, Held(CheckExisting(None, next))), None, next);
    PublishSteps(s.running, id, s.disk, t, s.disk, Go(t, Held(Publish(None, next))), None, next);
    more, s' := RunTo(actions, s, id, Recorded(s.disk, next), Go(t, Held(Idle)));
  }

  /** Opening a valid record of the expected plan and operation returns a handle. */
  lemma OpenAlone(actions: seq<Action>, s: State, id: TaskId) returns (more: seq<Action>, s': State)
    requires After(actions) == Some(s) && Live(s, id) && s.tasks[id].pc == Held(Starting) && s.tasks[id].job.Open?
    requires s.disk.journal.Some? && ValidState(s.disk.journal.value) && Bound(s.tasks[id], s.disk.journal.value)
    requires Intact(s.disk)
    ensures actions <= more && After(more) == Some(s')
    ensures s' == s.(tasks := s.tasks[id := Go(s.tasks[id], Held(Idle))])
  {
    var t := s.tasks[id];
    Stay(s.running, id, s.disk, t);
    StartStep(s.running, id, s.disk, t, OK);
    Then(s.running, id, s.disk, t, s.disk, t, OK, s.disk, Go(t, Held(ReadState(None))));
    ReadStep(s.running, id, s.disk, Go(t, Held(ReadState(None))), None);
    Then(s.running, id, s.disk, t, s.disk, Go(t, Held(ReadState(None))), OK, s.disk, Go(t, Held(Idle)));
    more, s' := RunTo(actions, s, id, s.disk, Go(t, Held(Idle)));
  }

  lemma ReadSteps(running: map<Pid, nat>, id: TaskId, d: Disk, t: Task, m: Stamped, next: Journal)
    requires t.pc == LookExists(Working(ReadState(Some(m)))) && Owns(d, id, t) && d.journal.Some?
    requires ValidState(d.journal.value) && Bound(t, d.journal.value)
    requires Next(d.journal.value, m.mutation, m.now) == Success(next)
    ensures Reaches(running, id, d, t, d, Go(t, Held(CheckExisting(d.journal, next))))
  {
    var looking := Go(t, LookExists(Working(CheckExisting(d.journal, next))));
    Stay(running, id, d, t);
    CheckOwned(running, id, d, t, d, t, ReadState(Some(m)));
    ReadStep(running, id, d, Go(t, Held(ReadState(Some(m)))), Some(m));
    Then(running, id, d, t, d, Go(t, Held(ReadState(Some(m)))), OK, d, looking);
    CheckOwned(running, id, d, t, d, looking, CheckExisting(d.journal, next));
  }

  lemma MutateSteps(running: map<Pid, nat>, id: TaskId, d: Disk, t: Task, m: Stamped, next: Journal)
    requires t.pc == LookExists(Working(ReadState(Some(m)))) && Owns(d, id, t) && d.journal.Some?
    requires ValidState(d.journal.value) && Bound(t, d.journal.value)
    requires Next(d.journal.value, m.mutation, m.now) == Success(next) && ValidState(next) && Bound(t, next)
    ensures Reaches(running, id, d, t, Recorded(d, next), Go(t, Held(Idle)))
  {
    ReadSteps(running, id, d, t, m, next);
    PrepareSteps(running, id, d, t, d, Go(t, Held(CheckExisting(d.journal, next))), d.journal, next);
    PublishSteps(running, id, d, t, d, Go(t, Held(Publish(d.journal, next))), d.journal, next);
    CheckOwned(running, id, d, t, Recorded(d, next), Go(t, LookExists(Working(Idle))), Idle);
  }

  lemma NextStaysBound(t: Task, state: Journal, m: Mutation, now: Timestamp)
    requires ValidState(state) && Bound(t, state) && Next(state, m, now).Success?
    ensures ValidState(Next(state, m, now).value) && Bound(t, Next(state, m, now).value)
  {
    NextIsValid(state, m, now);
    ReplayKeepsIdentity(state, [Stamped(m, now)]);
    assert [Stamped(m, now)][..0] == [];
    assert Replay(state, []) == Success(state);
  }

  /** Alone and without I/O errors, a legal mutation publishes its record and the handle
      stays open. */
  lemma MutateAlone(actions: seq<Action>, s: State, id: TaskId, m: Stamped) returns (more: seq<Action>, s': State)
    requires After(actions) == Some(s) && Live(s, id) && s.tasks[id].pc == Held(Idle) && Owns(s.disk, id, s.tasks[id])
    requires s.disk.journal.Some? && ValidState(s.disk.journal.value) && Bound(s.tasks[id], s.disk.journal.value)
    requires Next(s.disk.journal.value, m.mutation, m.now).Success?
    ensures actions <= more && After(more) == Some(s')
    ensures s' == s.(disk := Recorded(s.disk, Next(s.disk.journal.value, m.mutation, m.now).value))
  {
    var t, next := s.tasks[id], Next(s.disk.journal.value, m.mutation, m.now).value;
    var asked := Apply(s, Mutate(id, m));
    NextStaysBound(t, s.disk.journal.value, m.mutation, m.now);
    MutateSteps(s.running, id, s.disk, Go(t, LookExists(Working(ReadState(Some(m))))), m, next);
    assert (actions + [Mutate(id, m)])[..|actions|] == actions;
    more, s' := RunTo(actions + [Mutate(id, m)], asked, id, Recorded(s.disk, next), Go(t, Held(Idle)));
    assert Go(t, Held(Idle)) == t;
  }

  /** A caller that meets the lease of a running process is refused, and changes nothing. */
  lemma LiveLeaseIsRefused(actions: seq<Action>, s: State, id: TaskId, owner: Owner)
    returns (more: seq<Action>, s': State)
    requires After(actions) == Some(s) && Live(s, id) && s.tasks[id].pc.Mkdir? && Intact(s.disk) && s.disk.lease.Some?
    requires LeaseDir(s.disk).value.owner == Some(File(owner, true)) && LeaseDir(s.disk).value.reaper.None?
    requires Running(s.running, owner.process)
    ensures actions <= more && After(more) == Some(s') && s'.disk == s.disk
    ensures id in s'.tasks && s'.tasks[id].pc.Finished?
  {
    var t := s.tasks[id];
    var seen := t.(seen := Found(s.disk), pc := ReadTicks);
    assert ExactHeld(Found(s.disk)) && Found(s.disk).owner == Some(owner);
    Stay(s.running, id, s.disk, t);
    Then(s.running, id, s.disk, t, s.disk, t, OK, s.disk, Go(t, LookExists(FirstLook)));
    Inspect(s.running, id, s.disk, t, s.disk, Go(t, LookExists(FirstLook)), FirstLook, seen);
    Then(s.running, id, s.disk, t, s.disk, seen, OK, s.disk, Go(seen, Finished));
    more, s' := RunTo(actions, s, id, s.disk, Go(seen, Finished));
  }

  // ----- an open handle reads its own plan and operation

  /** The create or open call has returned, and the handle has not been released. */
  predicate OpenHandle(pc: Pc) {
    (pc.Held? && !Opening(pc.work)) || (IsLook(pc) && pc.why.Working? && !Opening(pc.why.work))
  }

  /** A record that this call may work on. */
  predicate BoundRecord(journal: Option<Journal>, t: Task) {
    && journal.Some? && ValidState(journal.value)
    && journal.value.planDigest ==
         (match t.job case Create(plan, _) => plan case Open(plan, _) => plan)
    && journal.value.operationId ==
         (match t.job case Create(_, operation) => operation case Open(_, operation) => operation)
  }

  ghost predicate HandlesBound(s: State) {
    forall u :: Live(s, u) && OpenHandle(s.tasks[u].pc) ==> BoundRecord(s.disk.journal, s.tasks[u])
  }

  lemma OwnWorkStaysBound(d: Disk, t: Task, c: Choice)
    requires t.pc.Held? && RolloutJournalRun.WorkOk(d.journal, t.pc.work) && (OpenHandle(t.pc) ==> BoundRecord(d.journal, t))
    ensures var (d', t') := WorkStep(d, t, c); OpenHandle(t'.pc) ==> BoundRecord(d'.journal, t')
  {
    var w := t.pc.work;
    if w.Publish? && w.base.Some? { SuccessorFacts(w.base.value, w.next); }
  }

  lemma OtherStepsOpenNothing(running: map<Pid, nat>, d: Disk, id: TaskId, t: Task, c: Choice)
    requires Intact(d) && !t.pc.Held?
    ensures var (d', t') := TaskStep(running, d, id, t, c);
            d'.journal == d.journal && t'.job == t.job && (OpenHandle(t'.pc) ==> OpenHandle(t.pc))
  {
    OtherStepsLeaveJournal(running, d, id, t, c);
    if IsLook(t.pc) { LookOpensNothing(d, id, t, c); }
    else if IsAcquire(t.pc) { AcquireOpensNothing(d, id, t, c); }
    else if IsClean(t.pc) { assert !OpenHandle(CleanStep(d, id, t, c).1.pc); }
    else if IsReap(t.pc) { assert !OpenHandle(ReapStep(running, d, id, t, c).1.pc); }
    else if IsTomb(t.pc) { assert !OpenHandle(TombStep(d, id, t, c).1.pc); }
  }

  lemma AcquireOpensNothing(d: Disk, id: TaskId, t: Task, c: Choice)
    requires Intact(d) && IsAcquire(t.pc)
    ensures var (d', t') := AcquireStep(d, id, t, c); t'.job == t.job && !OpenHandle(t'.pc)
  {
  }

  lemma LookOpensNothing(d: Disk, id: TaskId, t: Task, c: Choice)
    requires Intact(d) && IsLook(t.pc)
    ensures var t' := LookStep(d, id, t, c); t'.job == t.job && (OpenHandle(t'.pc) ==> OpenHandle(t.pc))
  {
  }

  lemma StepKeepsHandlesBound(s: State, id: TaskId, c: Choice)
    requires JournalInv(s) && HandlesBound(s) && Live(s, id)
    ensures HandlesBound(Apply(s, Step(id, c)))
  {
    var s' := Apply(s, Step(id, c));
    var t := s.tasks[id];
    StepKeepsProcess(s.running, s.disk, id, t, c);
    if t.pc.Held? {
      HeldStepIsWork(s.running, s.disk, id, t, c);
      OwnWorkStaysBound(s.disk, t, c);
    } else {
      OtherStepsOpenNothing(s.running, s.disk, id, t, c);
    }
    forall u | Live(s', u) && OpenHandle(s'.tasks[u].pc) ensures BoundRecord(s'.disk.journal, s'.tasks[u]) {
      if u != id {
        MyTaskOk(s, u);
        MyTaskOk(s, id);
      }
    }
  }

  lemma {:induction false} ReachableHandlesBound(actions: seq<Action>)
    requires After(actions).Some?
    ensures HandlesBound(After(actions).value)
    decreases |actions|
  {
    if actions != [] {
      var last := |actions| - 1;
      var s, a := After(actions[..last]).value, actions[last];
      ReachableHandlesBound(actions[..last]);
      ReachableJournalInv(actions[..last]);
      if a.Step? { StepKeepsHandlesBound(s, a.id, a.c); }
      else {
        ReachableInv(actions[..last]);
        var s' := Apply(s, a);
        forall u | Live(s', u) && OpenHandle(s'.tasks[u].pc) ensures BoundRecord(s'.disk.journal, s'.tasks[u]) {
          if u in s.tasks { assert Live(s, u); }
        }
      }
    }
  }

  /** Whatever happens, the record at the state path belongs to the plan and the operation
      that every live open handle was created or opened for. */
  lemma OpenHandleIsBound(actions: seq<Action>, id: TaskId)
    requires After(actions).Some?
    requires Live(After(actions).value, id) && After(actions).value.tasks[id].pc == Held(Idle)
    ensures BoundRecord(After(actions).value.disk.journal, After(actions).value.tasks[id])
  {
    ReachableHandlesBound(actions);
  }

  // ----- work needs the lease

  /** The ownership check at the end of an acquisition and before each work step and each
      release of a live handle, whatever others do and if no system call of it fails: it
      finds the caller's own directory and owner, and goes on if and only if it saw no stray
      reaper.json there; otherwise the acquisition is undone, the work is given up, and a
      release ends silently. */
  lemma OwnershipCheckSteps(actions: seq<Action>, id: TaskId, c: Choice)
    requires After(actions).Some? && Live(After(actions).value, id) && Intact(After(actions).value.disk) && c.ok
    requires var pc := After(actions).value.tasks[id].pc; IsLook(pc) && (pc.why.Working? || pc.why.Releasing? || pc.why.Acquired?)
    ensures var s := After(actions).value; var t := s.tasks[id];
            var pc, pc' := t.pc, Apply(s, Step(id, c)).tasks[id].pc;
            && s.disk.lease.Some?
            && (pc.LookExists? ==> pc' == LookMeta(pc.why))
            && (pc.LookMeta? ==> pc' == LookEntries(pc.why, t.meta))
            && (pc.LookEntries? ==>
                  && pc'.LookOwner? && pc'.why == pc.why && pc'.ino == pc.ino
                  && (pc'.entries == {OwnerJson} <==> LeaseDir(s.disk).value.reaper == None))
            && (pc.LookOwner? ==>
                  pc' == if pc.ino == t.meta && pc.entries == {OwnerJson}
                         then (match pc.why case Working(w) => Held(w) case Releasing => ReleaseUnlink case _ => Held(Starting))
                         else if pc.why.Releasing? then Finished else if pc.why.Acquired? then CleanOwnerStat
                         else if Opening(pc.why.work) then LookExists(Releasing) else Held(Idle))
  {
    var s := After(actions).value;
    InspectorKeepsLease(actions, id);
    CheckStep(s.disk, id, s.tasks[id], c);
    assert Apply(s, Step(id, c)).tasks[id] == LookStep(s.disk, id, s.tasks[id], c);
  }

  lemma InspectorKeepsLease(actions: seq<Action>, id: TaskId)
    requires After(actions).Some? && Live(After(actions).value, id)
    requires var pc := After(actions).value.tasks[id].pc; IsLook(pc) && (pc.why.Working? || pc.why.Releasing? || pc.why.Acquired?)
    ensures var s := After(actions).value;
            Intact(s.disk) && s.disk.lease == Some(s.tasks[id].meta) && ReadOwner(s.disk) == Some(Me(id, s.tasks[id]))
  {
    ReachableInv(actions);
    MyTaskOk(After(actions).value, id);
  }

  lemma CheckStep(d: Disk, id: TaskId, t: Task, c: Choice)
    requires Intact(d) && d.lease == Some(t.meta) && ReadOwner(d) == Some(Me(id, t)) && c.ok
    requires IsLook(t.pc) && (t.pc.why.Working? || t.pc.why.Releasing? || t.pc.why.Acquired?)
    ensures var pc, pc' := t.pc, LookStep(d, id, t, c).pc;
            && (pc.LookExists? ==> pc' == LookMeta(pc.why))
            && (pc.LookMeta? ==> pc' == LookEntries(pc.why, t.meta))
            && (pc.LookEntries? ==>
                  && pc'.LookOwner? && pc'.why == pc.why && pc'.ino == pc.ino
                  && (pc'.entries == {OwnerJson} <==> LeaseDir(d).value.reaper == None))
            && (pc.LookOwner? ==>
                  pc' == if pc.ino == t.meta && pc.entries == {OwnerJson}
                         then (match pc.why case Working(w) => Held(w) case Releasing => ReleaseUnlink case _ => Held(Starting))
                         else if pc.why.Releasing? then Finished else if pc.why.Acquired? then CleanOwnerStat
                         else if Opening(pc.why.work) then LookExists(Releasing) else Held(Idle))
  {
    var dir := LeaseDir(d).value;
    assert OwnerJson in Entries(dir) && (ReaperJson in Entries(dir) <==> dir.reaper.Some?);
  }
}
