/** When exactly the token-store lock excludes: as long as no reaper's rename takes the
    directory of a task that is still working in it. */
module TokenLockExclusion {
  import opened Results
  import opened Numbers
  import opened TokenLock
  import opened TokenLockSafety
  import opened TokenLockRuns

  // ----- the one harmful action

  /** A rename that succeeds while the creator of the lock directory is still at work. */
  predicate TakesWorking(s: State, a: Action) {
    && a.Step? && a.c.ok && Live(s, a.id) && s.tasks[a.id].pc.Rename? && Intact(s.disk)
    && CanMove(s.disk, s.tasks[a.id].ino) && Active(s, LockDir(s.disk).value.creator, 1)
  }

  /** No action of the run is such a rename. */
  predicate KeepsWorking(actions: seq<Action>)
    decreases |actions|
  {
    actions != [] ==>
      var last := |actions| - 1;
      && KeepsWorking(actions[..last])
      && (After(actions[..last]).Some? ==> !TakesWorking(After(actions[..last]).value, actions[last]))
  }

  // ----- without it the lock directory belongs to whoever works

  /** Every live task at work made the lock directory, and finds there what it wrote. */
  ghost predicate WorkInv(s: State) {
    && Intact(s.disk)
    && ProcessesOk(s)
    && (forall u :: Live(s, u) ==> OwningOk(s.disk, u, s.tasks[u]))
  }

  /** What a task at work relies on. */
  predicate SameWork(d: Disk, d': Disk)
    requires Intact(d) && Intact(d')
  {
    && d'.lock == d.lock
    && (d.lock.Some? ==>
          LockDir(d').value.creator == LockDir(d).value.creator && LockDir(d').value.owner == LockDir(d).value.owner)
  }

  lemma InspectStepBeside(s: State, id: TaskId, t: Task, c: Choice)
    requires Intact(s.disk) && IsInspect(t.pc)
    ensures var (d', t') := InspectStep(s, id, t, c); Intact(d') && SameWork(s.disk, d') && !Owning(t'.pc)
  {
  }

  lemma QuarantineStepBeside(d: Disk, id: TaskId, t: Task, c: Choice)
    requires Intact(d) && Stage(t.pc) == 3 && !t.pc.Rename?
    ensures var (d', t') := QuarantineStep(d, id, t, c); Intact(d') && SameWork(d, d') && !Owning(t'.pc)
  {
    if !(t.pc.WriteMarker? || t.pc.DropStat? || t.pc.DropUnlink?) { EndQuarantineUninvolved(t, t.pc.owns, c); }
  }

  lemma RenameStepBeside(d: Disk, id: TaskId, t: Task, c: Choice)
    requires Intact(d) && t.pc.Rename?
    ensures var (d', t') := QuarantineStep(d, id, t, c);
            && Intact(d') && !Owning(t'.pc) && (d' == d || (c.ok && CanMove(d, t.ino)))
  {
    RenameShape(d, id, t, c);
  }

  /** The mover's own promise; the step of one not at work leaves the work of others alone,
      unless it makes the lock directory or takes it from nobody. */
  lemma StepBeside(s: State, id: TaskId, c: Choice)
    requires WorkInv(s) && Live(s, id) && !TakesWorking(s, Step(id, c))
    ensures var (d', t') := TaskStep(s, id, c);
            && Intact(d') && OwningOk(d', id, t')
            && (|| Owning(s.tasks[id].pc)
                || SameWork(s.disk, d')
                || s.disk.lock.None?
                || !Active(s, LockDir(s.disk).value.creator, 1))
  {
    var t := s.tasks[id];
    assert OwningOk(s.disk, id, t);
    if t.pc.WriteOwner? { WriteOwnerOwn(s.disk, id, t, c); }
    else if IsAcquire(t.pc) { AcquireOwn(s.disk, id, t, c); }
    else if IsRelease(t.pc) { ReleaseOwn(s.disk, id, t, c); }
    else if IsInspect(t.pc) { InspectStepBeside(s, id, t, c); }
    else if t.pc.Rename? { RenameStepBeside(s.disk, id, t, c); }
    else if Stage(t.pc) == 3 { QuarantineStepBeside(s.disk, id, t, c); }
  }

  lemma WorkIsActive(s: State, u: TaskId)
    requires WorkInv(s) && Live(s, u) && Owning(s.tasks[u].pc)
    ensures s.disk.lock.Some? && LockDir(s.disk).value.creator == Me(u, s.tasks[u])
    ensures Active(s, LockDir(s.disk).value.creator, 1)
  {
    assert OwningOk(s.disk, u, s.tasks[u]);
  }

  lemma OnlyOneWorks(s: State, a: TaskId, b: TaskId)
    requires WorkInv(s) && Live(s, a) && Owning(s.tasks[a].pc) && Live(s, b) && Owning(s.tasks[b].pc)
    ensures a == b
  {
    WorkIsActive(s, a);
    WorkIsActive(s, b);
  }

  lemma StepKeepsWorkInv(s: State, id: TaskId, c: Choice)
    requires WorkInv(s) && Enabled(s, Step(id, c)) && !TakesWorking(s, Step(id, c))
    ensures WorkInv(Apply(s, Step(id, c)))
  {
    var s' := Apply(s, Step(id, c));
    StepBeside(s, id, c);
    StageNeverFalls(s, id, c);
    forall u | Live(s', u) ensures OwningOk(s'.disk, u, s'.tasks[u]) {
      if u != id && Owning(s.tasks[u].pc) {
        WorkIsActive(s, u);
        if Owning(s.tasks[id].pc) { OnlyOneWorks(s, u, id); }
        assert OwningOk(s.disk, u, s.tasks[u]);
      }
    }
  }

  lemma ApplyKeepsWorkInv(s: State, a: Action)
    requires WorkInv(s) && Enabled(s, a) && !TakesWorking(s, a)
    ensures WorkInv(Apply(s, a))
  {
    if a.Step? { StepKeepsWorkInv(s, a.id, a.c); }
    else {
      var s' := Apply(s, a);
      forall u | Live(s', u) ensures OwningOk(s'.disk, u, s'.tasks[u]) {
        if u in s.tasks { assert Live(s, u) && OwningOk(s.disk, u, s.tasks[u]); }
      }
    }
  }

  lemma {:induction false} ReachableWorkInv(actions: seq<Action>)
    requires After(actions).Some? && KeepsWorking(actions)
    ensures WorkInv(After(actions).value)
    decreases |actions|
  {
    if actions != [] {
      var last := |actions| - 1;
      ReachableWorkInv(actions[..last]);
      ApplyKeepsWorkInv(After(actions[..last]).value, actions[last]);
    }
  }

  /** As long as no rename takes a working task's directory, at most one live task
      acquires, holds or releases the lock, whatever was judged about owners and markers. */
  lemma UntakenExclusion(actions: seq<Action>, a: TaskId, b: TaskId)
    requires After(actions).Some? && KeepsWorking(actions)
    requires Live(After(actions).value, a) && Owning(After(actions).value.tasks[a].pc)
    requires Live(After(actions).value, b) && Owning(After(actions).value.tasks[b].pc)
    ensures a == b
  {
    ReachableWorkInv(actions);
    OnlyOneWorks(After(actions).value, a, b);
  }

  /** In such a run a live holder's directory stays at the lock path with its owner record. */
  lemma HolderKeepsItsLock(actions: seq<Action>, id: TaskId)
    requires After(actions).Some? && KeepsWorking(actions)
    requires Live(After(actions).value, id) && After(actions).value.tasks[id].pc.Held?
    ensures var s := After(actions).value;
            && Intact(s.disk) && s.disk.lock == Some(s.tasks[id].meta)
            && ReadOwner(s.disk) == Some(Owner(Me(id, s.tasks[id]), s.tasks[id].process))
  {
    ReachableWorkInv(actions);
    assert OwningOk(After(actions).value.disk, id, After(actions).value.tasks[id]);
  }

  // ----- with it two tasks work

  ghost predicate TwoWork(s: State) {
    exists a, b :: Live(s, a) && Live(s, b) && a != b && Owning(s.tasks[a].pc) && Owning(s.tasks[b].pc)
  }

  ghost predicate CanTakeWorking(s: State) { exists a :: Enabled(s, a) && TakesWorking(s, a) }

  /** The task whose directory is taken. */
  function Robbed(s: State): TaskId
    requires Intact(s.disk) && s.disk.lock.Some?
  {
    LockDir(s.disk).value.creator.task
  }

  /** After such a rename the lock path is free, and the robbed task works on. */
  lemma Taken(s: State, a: Action)
    requires Enabled(s, a) && TakesWorking(s, a)
    ensures var s' := Apply(s, a); var u := Robbed(s);
            && s'.disk.lock.None? && s'.running == s.running && Live(s', u) && s'.tasks[u] == s.tasks[u]
            && Owning(s.tasks[u].pc) && u != a.id
  {
  }

  /** A new call in the reaper's process then makes the lock directory anew. */
  lemma TakingLosesExclusion(actions: seq<Action>, a: Action) returns (more: seq<Action>)
    requires After(actions).Some? && Enabled(After(actions).value, a) && TakesWorking(After(actions).value, a)
    ensures actions <= more && After(more).Some? && TwoWork(After(more).value)
  {
    var s := After(actions).value;
    var u, p := Robbed(s), s.tasks[a.id].process;
    Extend(actions, a);
    var s' := Apply(s, a);
    Taken(s, a);
    var id := Unused(s'.tasks.Keys);
    var ino := Unused(s'.disk.dirs.Keys);
    Extend(actions + [a], Begin(id, p));
    var begun := Apply(s', Begin(id, p));
    more := actions + [a] + [Begin(id, p)];
    var made := Step(id, OK.(ino := ino));
    Extend(more, made);
    more := more + [made];
    var after := Apply(begun, made);
    assert after.tasks[id].pc.StatNew? && Live(after, id);
    assert after.tasks[u] == s.tasks[u] && Live(after, u);
  }

  /** If the robbed task holds the lock, a second one can come to hold it. */
  lemma TakingFromHolderMakesTwo(actions: seq<Action>, a: Action) returns (more: seq<Action>, id: TaskId)
    requires After(actions).Some? && Enabled(After(actions).value, a) && TakesWorking(After(actions).value, a)
    requires var s := After(actions).value; s.tasks[Robbed(s)].pc.Held?
    ensures actions <= more && After(more).Some?
    ensures var s, u := After(more).value, Robbed(After(actions).value);
            id != u && Live(s, u) && s.tasks[u].pc.Held? && Live(s, id) && s.tasks[id].pc.Held?
  {
    var s := After(actions).value;
    var u, p := Robbed(s), s.tasks[a.id].process;
    Extend(actions, a);
    var s' := Apply(s, a);
    Taken(s, a);
    id := Unused(s'.tasks.Keys);
    var ino := Unused(s'.disk.dirs.Keys);
    Extend(actions + [a], Begin(id, p));
    more, s' := AcquireAlone(actions + [a] + [Begin(id, p)], Apply(s', Begin(id, p)), id, ino);
  }

  /** A run that stops keeping goes through a state in which a working task's directory can be taken. */
  lemma {:induction false} TakingAfter(actions: seq<Action>, more: seq<Action>) returns (k: nat)
    requires actions <= more && After(more).Some? && KeepsWorking(actions) && !KeepsWorking(more)
    ensures |actions| <= k < |more| && After(more[..k]).Some? && CanTakeWorking(After(more[..k]).value)
    decreases |more|
  {
    var last := |more| - 1;
    assert |actions| == |more| ==> actions == more;
    if KeepsWorking(more[..last]) {
      k := last;
    } else {
      k := TakingAfter(actions, more[..last]);
      assert more[..last][..k] == more[..k];
    }
  }

  /** The exact condition: two live tasks can come to work at once if and only if the
      run can come to a state in which a rename may take a working task's directory. */
  lemma ExclusionLostExactly(actions: seq<Action>)
    requires After(actions).Some? && KeepsWorking(actions)
    ensures (exists more :: actions <= more && After(more).Some? && TwoWork(After(more).value))
            <==> (exists more :: actions <= more && After(more).Some? && CanTakeWorking(After(more).value))
  {
    if more :| actions <= more && After(more).Some? && TwoWork(After(more).value) {
      if KeepsWorking(more) {
        var a, b :| Live(After(more).value, a) && Live(After(more).value, b) && a != b
                    && Owning(After(more).value.tasks[a].pc) && Owning(After(more).value.tasks[b].pc);
        UntakenExclusion(more, a, b);
      }
      var k := TakingAfter(actions, more);
      assert actions <= more[..k];
    }
    if more :| actions <= more && After(more).Some? && CanTakeWorking(After(more).value) {
      var a :| Enabled(After(more).value, a) && TakesWorking(After(more).value, a);
      var lost := TakingLosesExclusion(more, a);
      assert actions <= lost;
    }
  }

  // ----- sound judgements never take a working task's directory

  lemma SoundRenameTakesNobody(byAge: bool, s: State, a: Action)
    requires Inv(byAge, s) && Enabled(s, a)
    ensures !TakesWorking(s, a)
  {
    if TakesWorking(s, a) {
      RenamingReaper(byAge, s, a.id);
    }
  }

  lemma {:induction false} SoundRunKeepsWorking(byAge: bool, actions: seq<Action>)
    requires After(actions).Some? && SoundRun(byAge, actions)
    ensures KeepsWorking(actions)
    decreases |actions|
  {
    if actions != [] {
      var last := |actions| - 1;
      SoundRunKeepsWorking(byAge, actions[..last]);
      ReachableInv(byAge, actions[..last]);
      SoundRenameTakesNobody(byAge, After(actions[..last]).value, actions[last]);
    }
  }

  /** In a run with sound staleness judgements, at most one live task acquires,
      holds or releases the lock; in particular two are never in the critical section. */
  lemma LockMutualExclusion(byAge: bool, actions: seq<Action>, a: TaskId, b: TaskId)
    requires After(actions).Some? && SoundRun(byAge, actions)
    requires Live(After(actions).value, a) && Owning(After(actions).value.tasks[a].pc)
    requires Live(After(actions).value, b) && Owning(After(actions).value.tasks[b].pc)
    ensures a == b
  {
    SoundRunKeepsWorking(byAge, actions);
    UntakenExclusion(actions, a, b);
  }

  /** As long as no lock is reaped by its age, it excludes: whatever is judged about
      markers, at most one live task acquires, holds or releases it. */
  lemma AgelessMutualExclusion(actions: seq<Action>, a: TaskId, b: TaskId)
    requires After(actions).Some? && AgelessRun(actions)
    requires Live(After(actions).value, a) && Owning(After(actions).value.tasks[a].pc)
    requires Live(After(actions).value, b) && Owning(After(actions).value.tasks[b].pc)
    ensures a == b
  {
    AgelessRunIsSound(actions);
    LockMutualExclusion(false, actions, a, b);
  }
}
