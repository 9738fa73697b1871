/** The records published at the state path form one run of the phase machine,
    across every handle, process and crash. */
module RolloutJournalRun {
  import opened Results
  import opened RolloutPhases
  import opened RolloutLease
  import opened RolloutLeaseSafety

  ghost predicate Follows(before: Journal, after: Journal) {
    exists m, now :: Next(before, m, now) == Success(after)
  }

  predicate IsInitial(state: Journal) {
    ValidState(state) && state == Initial(state.planDigest, state.operationId, state.updatedAt)
  }

  /** A creation followed by legal transitions. */
  ghost predicate PhaseRun(records: seq<Journal>) {
    && (records != [] ==> IsInitial(records[0]))
    && (forall i :: 0 < i < |records| ==> Follows(records[i - 1], records[i]))
  }

  ghost predicate JournalOk(d: Disk) {
    && PhaseRun(d.published)
    && d.journal == (if d.published == [] then None else Some(d.published[|d.published| - 1]))
  }

  function WorkOf(pc: Pc): Work {
    if pc.Held? then pc.work
    else if IsLook(pc) && pc.why.Working? then pc.why.work
    else Idle
  }

  /** What a publication in progress knows: nobody has changed the record it read. */
  ghost predicate WorkOk(journal: Option<Journal>, w: Work) {
    match w
    case CheckExisting(base, next) => BaseOk(journal, base, next)
    case WriteTemporary(base, next) => ValidState(next) && BaseOk(journal, base, next)
    case Publish(base, next) => ValidState(next) && BaseOk(journal, base, next)
    case _ => true
  }

  ghost predicate BaseOk(journal: Option<Journal>, base: Option<Journal>, next: Journal) {
    if base.Some? then journal == base && Follows(base.value, next)
    else next == Initial(next.planDigest, next.operationId, next.updatedAt)
  }

  ghost predicate JournalInv(s: State) {
    && Inv(s)
    && JournalOk(s.disk)
    && (forall u :: Live(s, u) ==> WorkOk(s.disk.journal, WorkOf(s.tasks[u].pc)))
  }

  lemma AppendKeepsJournalOk(d: Disk, base: Option<Journal>, next: Journal)
    requires JournalOk(d) && ValidState(next) && BaseOk(d.journal, base, next)
    requires base.None? ==> d.journal.None?
    ensures JournalOk(d.(journal := Some(next), published := d.published + [next]))
  {
    var records := d.published + [next];
    forall i | 0 < i < |records| ensures Follows(records[i - 1], records[i]) {
      if i < |d.published| {
        assert Follows(d.published[i - 1], d.published[i]);
      }
    }
  }

  /** The working task itself. */
  lemma WorkStepOk(d: Disk, t: Task, c: Choice)
    requires JournalOk(d) && t.pc.Held? && WorkOk(d.journal, t.pc.work)
    ensures var (d', t') := WorkStep(d, t, c);
            JournalOk(d') && WorkOk(d'.journal, WorkOf(t'.pc))
  {
    var w := t.pc.work;
    var (d', t') := WorkStep(d, t, c);
    if w.Publish? && d' != d { AppendKeepsJournalOk(d, w.base, w.next); }
    if w.ReadState? && WorkOf(t'.pc).CheckExisting? {
      assert Next(d.journal.value, w.m.value.mutation, w.m.value.now) == Success(WorkOf(t'.pc).next);
    }
  }

  lemma AcquireLeavesJournal(running: map<Pid, nat>, d: Disk, id: TaskId, t: Task, c: Choice)
    requires Intact(d) && (IsAcquire(t.pc) || IsClean(t.pc))
    ensures var (d', t') := TaskStep(running, d, id, t, c);
            && d'.journal == d.journal && d'.published == d.published
            && (WorkOf(t'.pc) == WorkOf(t.pc) || WorkOf(t'.pc) == Starting || WorkOf(t'.pc) == Idle)
  {
  }

  lemma ReapLeavesJournal(running: map<Pid, nat>, d: Disk, id: TaskId, t: Task, c: Choice)
    requires Intact(d) && !IsLook(t.pc) && (IsReap(t.pc) || IsTomb(t.pc))
    ensures var (d', t') := TaskStep(running, d, id, t, c);
            && d'.journal == d.journal && d'.published == d.published
            && (WorkOf(t'.pc) == WorkOf(t.pc) || WorkOf(t'.pc) == Starting || WorkOf(t'.pc) == Idle)
  {
  }

  /** Every step outside the journal work leaves the record alone and starts no publication. */
  lemma OtherStepsLeaveJournal(running: map<Pid, nat>, d: Disk, id: TaskId, t: Task, c: Choice)
    requires Intact(d) && !t.pc.Held?
    ensures var (d', t') := TaskStep(running, d, id, t, c);
            && d'.journal == d.journal && d'.published == d.published
            && (WorkOf(t'.pc) == WorkOf(t.pc) || WorkOf(t'.pc) == Starting || WorkOf(t'.pc) == Idle)
  {
    if IsLook(t.pc) { LookLeavesJournal(d, id, t, c); }
    else if IsAcquire(t.pc) || IsClean(t.pc) { AcquireLeavesJournal(running, d, id, t, c); }
    else if IsReap(t.pc) || IsTomb(t.pc) { ReapLeavesJournal(running, d, id, t, c); }
  }

  lemma LookLeavesJournal(d: Disk, id: TaskId, t: Task, c: Choice)
    requires Intact(d) && IsLook(t.pc)
    ensures var t' := LookStep(d, id, t, c);
            WorkOf(t'.pc) == WorkOf(t.pc) || WorkOf(t'.pc) == Starting || WorkOf(t'.pc) == Idle
  {
    var why := t.pc.why;
    assert WorkOf(Threw(t, why).pc) == Idle;
    match t.pc
    case LookExists(_) => ConclusionLeavesJournal(id, t, why, None);
    case LookOwner(_, ino, entries) =>
      ConclusionLeavesJournal(id, t, why, Some(Inspection(ino, ReadOwner(d), entries)));
    case _ =>
  }

  lemma ConclusionLeavesJournal(id: TaskId, t: Task, why: Why, i: Option<Inspection>)
    requires Looking(t.pc, why)
    ensures var w := WorkOf(Concluded(id, t, why, i).pc); w == WorkOf(t.pc) || w == Starting || w == Idle
  {
  }

  /** A live task other than the one that works has no publication in progress. */
  lemma OthersAreIdle(s: State, id: TaskId, u: TaskId)
    requires Inv(s) && Live(s, id) && s.tasks[id].pc.Held? && Live(s, u) && u != id
    ensures WorkOf(s.tasks[u].pc) == Idle
  {
    MyTaskOk(s, id);
    MyTaskOk(s, u);
  }

  lemma HeldStepIsWork(running: map<Pid, nat>, d: Disk, id: TaskId, t: Task, c: Choice)
    requires Intact(d) && t.pc.Held?
    ensures TaskStep(running, d, id, t, c) == WorkStep(d, t, c)
  {
  }

  /** The mover's effect on the record and on its own publication. */
  lemma MyStepOk(running: map<Pid, nat>, d: Disk, id: TaskId, t: Task, c: Choice, d': Disk, t': Task)
    requires Intact(d) && JournalOk(d) && WorkOk(d.journal, WorkOf(t.pc))
    requires TaskStep(running, d, id, t, c) == (d', t')
    ensures JournalOk(d') && WorkOk(d'.journal, WorkOf(t'.pc))
    ensures !t.pc.Held? ==> d'.journal == d.journal
  {
    if t.pc.Held? {
      HeldStepIsWork(running, d, id, t, c);
      WorkStepOk(d, t, c);
    } else {
      OtherStepsLeaveJournal(running, d, id, t, c);
    }
  }

  lemma OthersStillOk(s: State, id: TaskId, journal: Option<Journal>, u: TaskId)
    requires JournalInv(s) && Live(s, id) && Live(s, u) && u != id
    requires !s.tasks[id].pc.Held? ==> journal == s.disk.journal
    ensures WorkOk(journal, WorkOf(s.tasks[u].pc))
  {
    if s.tasks[id].pc.Held? { OthersAreIdle(s, id, u); }
  }

  lemma StepKeepsJournalInv(s: State, id: TaskId, c: Choice)
    requires JournalInv(s) && Live(s, id)
    ensures JournalInv(Apply(s, Step(id, c)))
  {
    ApplyKeepsInv(s, Step(id, c));
    var s' := Apply(s, Step(id, c));
    MyStepOk(s.running, s.disk, id, s.tasks[id], c, s'.disk, s'.tasks[id]);
    forall u | Live(s', u) ensures WorkOk(s'.disk.journal, WorkOf(s'.tasks[u].pc)) {
      if u != id {
        assert Live(s, u);
        OthersStillOk(s, id, s'.disk.journal, u);
      }
    }
  }

  lemma ApplyKeepsJournalInv(s: State, a: Action)
    requires JournalInv(s) && Enabled(s, a)
    ensures JournalInv(Apply(s, a))
  {
    ApplyKeepsInv(s, a);
    if a.Step? { StepKeepsJournalInv(s, a.id, a.c); }
    else {
      var s' := Apply(s, a);
      forall u | Live(s', u) ensures WorkOk(s'.disk.journal, WorkOf(s'.tasks[u].pc)) {
        if u in s.tasks { assert Live(s, u); }
      }
    }
  }

  lemma {:induction false} ReachableJournalInv(actions: seq<Action>)
    requires After(actions).Some?
    ensures JournalInv(After(actions).value)
    decreases |actions|
  {
    if actions != [] {
      var last := |actions| - 1;
      ReachableJournalInv(actions[..last]);
      ApplyKeepsJournalInv(After(actions[..last]).value, actions[last]);
    }
  }

  // ----- consequences for the published records

  lemma NextKeepsBinding(before: Journal, m: Mutation, now: Timestamp)
    requires Next(before, m, now).Success?
    ensures var after := Next(before, m, now).value;
            after.planDigest == before.planDigest && after.operationId == before.operationId
  {
  }

  lemma SuccessorFacts(before: Journal, after: Journal)
    requires ValidState(before) && Follows(before, after)
    ensures ValidState(after) && after.sequence == before.sequence + 1
    ensures after.planDigest == before.planDigest && after.operationId == before.operationId
    ensures before.terminalReceipt.None?
  {
    var m, now :| Next(before, m, now) == Success(after);
    NextIsValid(before, m, now);
    NextKeepsBinding(before, m, now);
  }

  /** A record of a run with what its place says about it. */
  ghost predicate InPlace(records: seq<Journal>, i: nat)
    requires i < |records|
  {
    && ValidState(records[i]) && records[i].sequence == i
    && records[i].planDigest == records[0].planDigest && records[i].operationId == records[0].operationId
  }

  lemma NextInPlace(records: seq<Journal>, i: nat)
    requires 0 < i < |records| && InPlace(records, i - 1) && Follows(records[i - 1], records[i])
    ensures InPlace(records, i)
  {
    SuccessorFacts(records[i - 1], records[i]);
  }

  lemma {:induction false} RunSequence(records: seq<Journal>, i: nat)
    requires PhaseRun(records) && i < |records|
    ensures InPlace(records, i)
  {
    if i > 0 {
      RunSequence(records, i - 1);
      NextInPlace(records, i);
    }
  }

  lemma OnlyLastIsTerminal(records: seq<Journal>, i: nat)
    requires PhaseRun(records) && i + 1 < |records|
    ensures records[i].terminalReceipt.None?
  {
    RunSequence(records, i);
    assert Follows(records[i], records[i + 1]);
    SuccessorFacts(records[i], records[i + 1]);
  }

  /** The records ever published are a run of the phase machine for one plan and
      operation: the i-th has sequence i, so no two mutations publish from the same
      sequence, at most 17 exist, and only the last can be terminal. */
  lemma PublishedRecordsArePhaseRun(actions: seq<Action>)
    requires After(actions).Some?
    ensures var d := After(actions).value.disk;
            && PhaseRun(d.published)
            && |d.published| <= 17
            && d.journal == (if d.published == [] then None else Some(d.published[|d.published| - 1]))
            && (forall i :: 0 <= i < |d.published| ==>
                  && ValidState(d.published[i])
                  && d.published[i].sequence == i
                  && d.published[i].planDigest == d.published[0].planDigest
                  && d.published[i].operationId == d.published[0].operationId
                  && (d.published[i].terminalReceipt.Some? ==> i == |d.published| - 1))
  {
    ReachableJournalInv(actions);
    var p := After(actions).value.disk.published;
    forall i | 0 <= i < |p|
      ensures && ValidState(p[i]) && p[i].sequence == i
              && p[i].planDigest == p[0].planDigest && p[i].operationId == p[0].operationId
              && (p[i].terminalReceipt.Some? ==> i == |p| - 1)
    {
      RunSequence(p, i);
      if i + 1 < |p| { OnlyLastIsTerminal(p, i); }
    }
    if p != [] { SequenceBound(p[|p| - 1]); }
  }

  /** One action publishes at most one record, and never takes one back. */
  lemma ActionPublishesAtMostOne(s: State, a: Action)
    requires Enabled(s, a)
    ensures var p, q := s.disk.published, Apply(s, a).disk.published;
            q == p || (q == p + [q[|q| - 1]] && q != [] && a.Step?)
  {
    if a.Step? && !s.tasks[a.id].pc.Held? {
      OtherStepsLeaveJournal(s.running, s.disk, a.id, s.tasks[a.id], a.c);
    }
  }

  lemma {:induction false} PublishedOnlyGrows(actions: seq<Action>, from: nat)
    requires from <= |actions| && After(actions).Some? && After(actions[..from]).Some?
    ensures After(actions[..from]).value.disk.published <= After(actions).value.disk.published
    decreases |actions|
  {
    if from < |actions| {
      var last := |actions| - 1;
      assert actions[..last][..from] == actions[..from];
      PublishedOnlyGrows(actions[..last], from);
      ActionPublishesAtMostOne(After(actions[..last]).value, actions[last]);
    } else {
      assert actions[..from] == actions;
    }
  }

  /** A terminal record ends every run that it is part of. */
  lemma TerminalIsLast(before: seq<Journal>, after: seq<Journal>)
    requires PhaseRun(after) && before != [] && before <= after
    requires before[|before| - 1].terminalReceipt.Some?
    ensures after == before
  {
    if |before| < |after| { OnlyLastIsTerminal(after, |before| - 1); }
  }

  /** Once terminal, the record at the state path is final. */
  lemma TerminalRecordIsFinal(actions: seq<Action>, from: nat)
    requires from <= |actions| && After(actions).Some? && After(actions[..from]).Some?
    requires After(actions[..from]).value.disk.journal.Some?
    requires After(actions[..from]).value.disk.journal.value.terminalReceipt.Some?
    ensures After(actions).value.disk.journal == After(actions[..from]).value.disk.journal
  {
    ReachableJournalInv(actions[..from]);
    ReachableJournalInv(actions);
    PublishedOnlyGrows(actions, from);
    TerminalIsLast(After(actions[..from]).value.disk.published, After(actions).value.disk.published);
  }
}
