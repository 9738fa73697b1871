/** What every run of the token-store lock keeps whose staleness judgements are sound.
    Where ownerless directories may be reaped by their age (`byAge`), everything rests
    on the markers; otherwise on the owner records. */
module TokenLockSafety {
  import opened Results
  import opened TokenLock

  // ----- what each program counter promises

  predicate Owning(pc: Pc) { Stage(pc) == 1 }

  predicate OwnerFileWritten(pc: Pc) {
    pc.CheckStat? || pc.CheckOwner? || pc.Held? || pc.ReleaseStat? || pc.ReleaseOwner? || pc.ReleaseUnlink?
  }

  predicate OwningOk(d: Disk, id: TaskId, t: Task)
    requires Intact(d)
  {
    Owning(t.pc) ==>
      && d.lock.Some?
      && LockDir(d).value.creator == Me(id, t)
      && (!t.pc.StatNew? ==> t.meta == d.lock.value)
      && (t.pc.StatNew? || t.pc.OpenOwner? ==> LockDir(d).value.owner.None?)
      && (t.pc.WriteOwner? ==> t.pc.dir == d.lock.value && LockDir(d).value.owner == Some(MyFile(id, t, false)))
      && (OwnerFileWritten(t.pc) ==> LockDir(d).value.owner == Some(MyFile(id, t, true)))
  }

  /** The directory `i` was given up by its creator, and it is still at the lock path
      or lies as a non-empty tombstone under its own name. */
  predicate Tracked(s: State, i: Ino, creator: OwnerId) {
    && i in s.disk.dirs && s.disk.dirs[i].creator == creator && Gone(s, creator)
    && (s.disk.lock == Some(i) || (i in s.disk.tombs && s.disk.tombs[i] == i && !Empty(s.disk.dirs[i])))
  }

  /** If the lock directory is the one aimed at, a marker that nobody else removes keeps it non-empty. */
  predicate Pinned(s: State, target: OwnerId, me: OwnerId)
    requires Intact(s.disk)
  {
    var dir := LockDir(s.disk);
    dir.Some? && dir.value.creator == target ==>
      dir.value.marker.Some? &&
      (dir.value.marker.value.owner.id == me || MarkerGone(s, dir.value.marker.value.owner.id))
  }

  predicate PinnedByDead(s: State, target: OwnerId)
    requires Intact(s.disk)
  {
    var dir := LockDir(s.disk);
    dir.Some? && dir.value.creator == target ==>
      dir.value.marker.Some? && MarkerGone(s, dir.value.marker.value.owner.id)
  }

  /** If the lock directory is the one aimed at, it still has its owner record. */
  predicate Recorded(s: State, target: OwnerId)
    requires Intact(s.disk)
  {
    var dir := LockDir(s.disk);
    dir.Some? && dir.value.creator == target ==> dir.value.owner.Some?
  }

  predicate SeenDir(pc: Pc) {
    pc.LookOwner? || pc.Judge? || Judged(pc)
  }

  predicate Judged(pc: Pc) {
    pc.OpenMarker? || pc.ReadMarker? || pc.JudgeMarker? || Aiming(pc)
  }

  /** Between its marker and its rename. */
  predicate Aiming(pc: Pc) {
    pc.WriteMarker? || pc.QuarantineStat? || pc.QuarantineOwner? || pc.Rename?
  }

  /** What lstat of the inspected directory established. */
  predicate LookFacts(s: State, t: Task) {
    Reached(s, t.look, 1) && (t.abandoned ==> Tracked(s, t.ino, t.look))
  }

  /** What reading its owner established. */
  predicate TargetFacts(s: State, t: Task) {
    && t.target == (if t.owner.Some? then t.owner.value.id else t.look)
    && Reached(s, t.target, 1)
    && (t.owner.Some? ==> t.owner.value.process == s.tasks[t.target.task].process)
  }

  /** What a sound judgement established. */
  predicate JudgedFacts(s: State, t: Task) {
    Gone(s, t.target) && (t.owner.None? ==> t.abandoned)
  }

  predicate InspectingOk(byAge: bool, s: State, id: TaskId, t: Task)
    requires Intact(s.disk)
  {
    && (SeenDir(t.pc) ==> LookFacts(s, t))
    && (SeenDir(t.pc) && !t.pc.LookOwner? ==> TargetFacts(s, t))
    && (Judged(t.pc) ==> JudgedFacts(s, t))
    && (!byAge && Judged(t.pc) ==> t.owner.Some?)
    && (byAge && t.pc.JudgeMarker? && t.markerGone ==> PinnedByDead(s, t.target))
  }

  predicate AimingOk(byAge: bool, s: State, id: TaskId, t: Task)
    requires Intact(s.disk)
  {
    var dir := LockDir(s.disk);
    && (byAge && Aiming(t.pc) ==> Pinned(s, t.target, Me(id, t)))
    && (!byAge && t.pc.Rename? ==> Recorded(s, t.target))
    && (t.pc.QuarantineOwner? && dir.Some? && dir.value.creator == t.target ==> s.disk.lock == Some(t.ino))
    && (t.pc.Rename? ==> Tracked(s, t.ino, t.target))
    && (byAge && t.pc.DropUnlink? ==>
          dir.Some? && dir.value.marker.Some? && dir.value.marker.value.owner.id == Me(id, t))
  }

  predicate TaskOk(byAge: bool, s: State, id: TaskId)
    requires Intact(s.disk) && id in s.tasks
  {
    && OwningOk(s.disk, id, s.tasks[id])
    && InspectingOk(byAge, s, id, s.tasks[id])
    && AimingOk(byAge, s, id, s.tasks[id])
  }

  // ----- the invariant

  ghost predicate DirsOk(s: State) {
    && (forall i :: i in s.disk.dirs ==> Reached(s, s.disk.dirs[i].creator, 1))
    && (forall i :: i in s.disk.dirs && s.disk.dirs[i].owner.Some? ==>
          var dir := s.disk.dirs[i];
          dir.owner.value.owner == Owner(dir.creator, s.tasks[dir.creator.task].process))
    && (forall i :: i in s.disk.dirs && s.disk.dirs[i].marker.Some? ==>
          Reached(s, s.disk.dirs[i].marker.value.owner.id, 3))
  }

  ghost predicate TombsOk(d: Disk) {
    forall k :: k in d.tombs ==> d.tombs[k] == k && k in d.dirs && Some(k) != d.lock
  }

  ghost predicate ProcessesOk(s: State) {
    && s.running !! s.retired
    && (forall u :: u in s.tasks ==> s.tasks[u].process in s.running + s.retired)
  }

  ghost predicate Inv(byAge: bool, s: State) {
    && Intact(s.disk)
    && TombsOk(s.disk)
    && DirsOk(s)
    && ProcessesOk(s)
    && (forall u :: Live(s, u) ==> TaskOk(byAge, s, u))
  }

  // ----- what is over stays over

  lemma StageNeverFalls(s: State, id: TaskId, c: Choice)
    requires Intact(s.disk) && id in s.tasks
    ensures var t, t' := s.tasks[id], TaskStep(s, id, c).1;
            && t'.process == t.process
            && (t'.round == t.round + 1 || (t'.round == t.round && Stage(t.pc) <= Stage(t'.pc)))
  {
    var t := s.tasks[id];
    if IsAcquire(t.pc) { AcquireStage(s.disk, id, t, c); }
    else if IsRelease(t.pc) { ReleaseStage(s.disk, id, t, c); }
    else if IsInspect(t.pc) { InspectStage(s, id, t, c); }
    else if Stage(t.pc) == 3 { QuarantineStage(s.disk, id, t, c); }
  }

  lemma AcquireStage(d: Disk, id: TaskId, t: Task, c: Choice)
    requires Intact(d) && IsAcquire(t.pc)
    ensures var t' := AcquireStep(d, id, t, c).1;
            t'.process == t.process && t'.round == t.round && Stage(t.pc) <= Stage(t'.pc)
  {
  }

  lemma ReleaseStage(d: Disk, id: TaskId, t: Task, c: Choice)
    requires Intact(d) && IsRelease(t.pc)
    ensures var t' := ReleaseStep(d, id, t, c).1;
            t'.process == t.process && t'.round == t.round && 1 <= Stage(t'.pc)
  {
  }

  lemma InspectStage(s: State, id: TaskId, t: Task, c: Choice)
    requires Intact(s.disk) && IsInspect(t.pc)
    ensures var t' := InspectStep(s, id, t, c).1;
            && t'.process == t.process
            && (t'.round == t.round + 1 || (t'.round == t.round && 2 <= Stage(t'.pc)))
  {
  }

  predicate GoesOn(t: Task, t': Task) {
    t'.process == t.process && (t'.round == t.round + 1 || (t'.round == t.round && 3 <= Stage(t'.pc)))
  }

  lemma EndQuarantineGoesOn(t: Task, owns: bool, c: Choice)
    ensures forall outcome: Outcome :: GoesOn(t, EndQuarantine(t, owns, outcome, c))
  {
  }

  lemma MarkerStepGoesOn(d: Disk, id: TaskId, t: Task, c: Choice)
    requires Intact(d) && (t.pc.WriteMarker? || t.pc.DropStat? || t.pc.DropUnlink?)
    ensures GoesOn(t, QuarantineStep(d, id, t, c).1)
  {
  }

  lemma QuarantineStage(d: Disk, id: TaskId, t: Task, c: Choice)
    requires Intact(d) && Stage(t.pc) == 3
    ensures GoesOn(t, QuarantineStep(d, id, t, c).1)
  {
    if t.pc.WriteMarker? || t.pc.DropStat? || t.pc.DropUnlink? { MarkerStepGoesOn(d, id, t, c); }
    else { EndQuarantineGoesOn(t, t.pc.owns, c); }
  }

  /** `s'` is at most one step of task `id` ahead of `s`, and processes may have exited. */
  ghost predicate Later(s: State, s': State) {
    && (forall u :: u in s.tasks ==>
          && u in s'.tasks && s'.tasks[u].process == s.tasks[u].process
          && (|| s.tasks[u].round < s'.tasks[u].round
              || (s'.tasks[u].round == s.tasks[u].round && Stage(s.tasks[u].pc) <= Stage(s'.tasks[u].pc))))
    && (forall u :: u in s.tasks && Live(s', u) ==> Live(s, u))
  }

  lemma LaterKeeps(s: State, s': State, id: OwnerId)
    requires Later(s, s')
    ensures forall n :: Reached(s, id, n) ==> Reached(s', id, n)
    ensures Gone(s, id) ==> Gone(s', id)
    ensures MarkerGone(s, id) ==> MarkerGone(s', id)
  {
  }

  lemma StepIsLater(s: State, id: TaskId, c: Choice)
    requires Enabled(s, Step(id, c))
    ensures Later(s, Apply(s, Step(id, c)))
  {
    StageNeverFalls(s, id, c);
  }

  // ----- a step of one task keeps the other tasks' promises

  /** The others are untouched, nobody new runs, and what is over stays over. */
  ghost predicate Beside(s: State, s': State, id: TaskId) {
    && Later(s, s')
    && Intact(s'.disk)
    && s'.running == s.running
    && s'.tasks.Keys == s.tasks.Keys
    && (forall u :: u in s.tasks && u != id ==> s'.tasks[u] == s.tasks[u])
  }

  lemma InspectingFrame(byAge: bool, s: State, s': State, id: TaskId, u: TaskId)
    requires Inv(byAge, s) && Beside(s, s', id) && Live(s, u) && u != id
    requires forall i, c :: Tracked(s, i, c) ==> Tracked(s', i, c)
    requires byAge ==> forall c :: PinnedByDead(s, c) && Gone(s, c) ==> PinnedByDead(s', c)
    ensures InspectingOk(byAge, s', u, s'.tasks[u])
  {
    var t := s.tasks[u];
    assert TaskOk(byAge, s, u);
    LaterKeeps(s, s', t.look);
    LaterKeeps(s, s', t.target);
  }

  lemma AimingFrame(byAge: bool, s: State, s': State, id: TaskId, u: TaskId)
    requires Inv(byAge, s) && Beside(s, s', id) && Live(s, u) && u != id
    requires forall i, c :: Tracked(s, i, c) ==> Tracked(s', i, c)
    requires !byAge && s.tasks[u].pc.Rename? ==> Recorded(s', s.tasks[u].target)
    requires byAge && Aiming(s.tasks[u].pc) ==> Pinned(s', s.tasks[u].target, Me(u, s.tasks[u]))
    requires var dir := LockDir(s'.disk);
             && (s.tasks[u].pc.QuarantineOwner? && dir.Some? && dir.value.creator == s.tasks[u].target ==>
                   s'.disk.lock == Some(s.tasks[u].ino))
             && (byAge && s.tasks[u].pc.DropUnlink? ==>
                   dir.Some? && dir.value.marker.Some? && dir.value.marker.value.owner.id == Me(u, s.tasks[u]))
    ensures AimingOk(byAge, s', u, s'.tasks[u])
  {
    assert TaskOk(byAge, s, u);
  }

  /** The lock path keeps its directory; elsewhere only texts may change. */
  ghost predicate SameLock(d: Disk, d': Disk)
    requires Intact(d) && Intact(d')
  {
    && d'.lock == d.lock && d'.tombs == d.tombs && d'.dirs.Keys == d.dirs.Keys
    && (forall i :: i in d.dirs ==>
          && d'.dirs[i].creator == d.dirs[i].creator
          && (Some(i) != d.lock ==> (Empty(d'.dirs[i]) <==> Empty(d.dirs[i]))))
  }

  function MarkerId(d: Disk): Option<OwnerId>
    requires Intact(d)
  {
    var dir := LockDir(d);
    if dir.Some? && dir.value.marker.Some? then Some(dir.value.marker.value.owner.id) else None
  }

  lemma SameLockKeepsTracked(s: State, s': State, i: Ino, c: OwnerId)
    requires Intact(s.disk) && Intact(s'.disk) && Later(s, s') && SameLock(s.disk, s'.disk) && Tracked(s, i, c)
    ensures Tracked(s', i, c)
  {
    LaterKeeps(s, s', c);
  }

  /** Steps that leave the lock directory in place: writing in it, or in a tombstone. */
  lemma SameLockKeepsOther(byAge: bool, s: State, s': State, id: TaskId, u: TaskId)
    requires Inv(byAge, s) && Live(s, id) && Beside(s, s', id) && Live(s, u) && u != id
    requires SameLock(s.disk, s'.disk)
    requires Owning(s.tasks[id].pc)
             || (s.disk.lock.Some? ==> LockDir(s'.disk).value.owner == LockDir(s.disk).value.owner)
    requires || !byAge
             || MarkerId(s'.disk) == MarkerId(s.disk)
             || (MarkerId(s.disk) == None && MarkerId(s'.disk) == Some(Me(id, s.tasks[id])))
             || (MarkerId(s.disk) == Some(Me(id, s.tasks[id])) && MarkerId(s'.disk) == None && Stage(s.tasks[id].pc) == 3)
    ensures TaskOk(byAge, s', u)
  {
    assert TaskOk(byAge, s, u) && TaskOk(byAge, s, id);
    forall i, c | Tracked(s, i, c) ensures Tracked(s', i, c) { SameLockKeepsTracked(s, s', i, c); }
    forall c | byAge && PinnedByDead(s, c) && Gone(s, c) ensures PinnedByDead(s', c) { DeadPinStays(byAge, s, s', id, c); }
    InspectingFrame(byAge, s, s', id, u);
    if byAge && Aiming(s.tasks[u].pc) { PinStays(byAge, s, s', id, u); }
    if !byAge && s.tasks[u].pc.Rename? { RecordStays(byAge, s, s', id, u); }
    AimingFrame(byAge, s, s', id, u);
    OwningFrame(byAge, s, s', id, u);
  }

  lemma OwningFrame(byAge: bool, s: State, s': State, id: TaskId, u: TaskId)
    requires Inv(byAge, s) && Live(s, id) && Beside(s, s', id) && Live(s, u) && u != id && SameLock(s.disk, s'.disk)
    requires Owning(s.tasks[id].pc)
             || (s.disk.lock.Some? ==> LockDir(s'.disk).value.owner == LockDir(s.disk).value.owner)
    ensures OwningOk(s'.disk, u, s'.tasks[u])
  {
    assert TaskOk(byAge, s, u) && TaskOk(byAge, s, id);
  }

  lemma DeadPinStays(byAge: bool, s: State, s': State, id: TaskId, c: OwnerId)
    requires Inv(byAge, s) && Live(s, id) && Beside(s, s', id) && SameLock(s.disk, s'.disk)
    requires PinnedByDead(s, c)
    requires || MarkerId(s'.disk) == MarkerId(s.disk)
             || MarkerId(s.disk) == None
             || (MarkerId(s.disk) == Some(Me(id, s.tasks[id])) && Stage(s.tasks[id].pc) == 3)
    ensures PinnedByDead(s', c)
  {
    var dir := LockDir(s.disk);
    if dir.Some? && dir.value.creator == c {
      LaterKeeps(s, s', dir.value.marker.value.owner.id);
    }
  }

  lemma PinStays(byAge: bool, s: State, s': State, id: TaskId, u: TaskId)
    requires Inv(byAge, s) && Live(s, id) && Beside(s, s', id) && Live(s, u) && u != id && SameLock(s.disk, s'.disk)
    requires byAge && Aiming(s.tasks[u].pc)
    requires || MarkerId(s'.disk) == MarkerId(s.disk)
             || MarkerId(s.disk) == None
             || (MarkerId(s.disk) == Some(Me(id, s.tasks[id])) && Stage(s.tasks[id].pc) == 3)
    ensures Pinned(s', s.tasks[u].target, Me(u, s.tasks[u]))
  {
    assert TaskOk(byAge, s, u);
    var dir := LockDir(s.disk);
    if dir.Some? && dir.value.creator == s.tasks[u].target {
      LaterKeeps(s, s', dir.value.marker.value.owner.id);
    }
  }

  /** Nobody but its creator removes the owner record of a directory. */
  lemma RecordStays(byAge: bool, s: State, s': State, id: TaskId, u: TaskId)
    requires Inv(byAge, s) && Live(s, id) && Beside(s, s', id) && Live(s, u) && u != id && SameLock(s.disk, s'.disk)
    requires !byAge && s.tasks[u].pc.Rename?
    requires Owning(s.tasks[id].pc)
             || (s.disk.lock.Some? ==> LockDir(s'.disk).value.owner == LockDir(s.disk).value.owner)
    ensures Recorded(s', s.tasks[u].target)
  {
    assert TaskOk(byAge, s, u) && TaskOk(byAge, s, id);
  }

  /** A new lock directory: nobody aims at its creator, and nobody relied on the absence. */
  lemma MkdirKeepsOther(byAge: bool, s: State, s': State, id: TaskId, u: TaskId, i: Ino)
    requires Inv(byAge, s) && Live(s, id) && Beside(s, s', id) && Live(s, u) && u != id
    requires s.tasks[id].pc.Mkdir? && s.disk.lock.None? && i !in s.disk.dirs
    requires s'.disk == WithDir(s.disk, i, Dir(Me(id, s.tasks[id]), None, None)).(lock := Some(i))
    ensures TaskOk(byAge, s', u)
  {
    assert TaskOk(byAge, s, u);
    forall j, c | Tracked(s, j, c) ensures Tracked(s', j, c) { LaterKeeps(s, s', c); }
    forall c | PinnedByDead(s, c) && Gone(s, c) ensures PinnedByDead(s', c) { }
    InspectingFrame(byAge, s, s', id, u);
    AimingFrame(byAge, s, s', id, u);
  }

  /** The lock path loses a directory that nobody else relies on. */
  lemma LockLostKeepsOther(byAge: bool, s: State, s': State, id: TaskId, u: TaskId)
    requires Inv(byAge, s) && Live(s, id) && Beside(s, s', id) && Live(s, u) && u != id
    requires s.disk.lock.Some? && s'.disk.lock.None?
    requires forall i, c :: Tracked(s, i, c) ==> Tracked(s', i, c)
    requires !Owning(s.tasks[u].pc) && (byAge ==> !s.tasks[u].pc.DropUnlink?)
    ensures TaskOk(byAge, s', u)
  {
    InspectingFrame(byAge, s, s', id, u);
    AimingFrame(byAge, s, s', id, u);
  }

  /** Its owner removes the empty lock directory. */
  lemma RmdirKeepsOther(byAge: bool, s: State, s': State, id: TaskId, u: TaskId)
    requires Inv(byAge, s) && Live(s, id) && Beside(s, s', id) && Live(s, u) && u != id
    requires Owning(s.tasks[id].pc) && s.disk.lock.Some? && Empty(LockDir(s.disk).value)
    requires s'.disk == Rmdir(s.disk)
    ensures TaskOk(byAge, s', u)
  {
    assert TaskOk(byAge, s, u) && TaskOk(byAge, s, id);
    forall i, c | Tracked(s, i, c) ensures Tracked(s', i, c) { LaterKeeps(s, s', c); }
    LockLostKeepsOther(byAge, s, s', id, u);
  }

  /** A rename that succeeds moves the directory that was judged stale. */
  lemma RenameTakesTarget(byAge: bool, s: State, id: TaskId)
    requires Inv(byAge, s) && Live(s, id) && s.tasks[id].pc.Rename? && CanMove(s.disk, s.tasks[id].ino)
    ensures s.disk.lock == Some(s.tasks[id].ino)
    ensures LockDir(s.disk).value.creator == s.tasks[id].target && Gone(s, s.tasks[id].target)
    ensures byAge ==> Pinned(s, s.tasks[id].target, Me(id, s.tasks[id]))
    ensures !Empty(LockDir(s.disk).value)
  {
    assert TaskOk(byAge, s, id);
  }

  lemma RenameKeepsTracked(byAge: bool, s: State, s': State, id: TaskId, i: Ino, c: OwnerId)
    requires Inv(byAge, s) && Live(s, id) && Beside(s, s', id)
    requires s.tasks[id].pc.Rename? && CanMove(s.disk, s.tasks[id].ino) && s'.disk == Move(s.disk, s.tasks[id].ino)
    requires Tracked(s, i, c)
    ensures Tracked(s', i, c)
  {
    RenameTakesTarget(byAge, s, id);
    LaterKeeps(s, s', c);
  }

  lemma RenameKeepsOther(byAge: bool, s: State, s': State, id: TaskId, u: TaskId)
    requires Inv(byAge, s) && Live(s, id) && Beside(s, s', id) && Live(s, u) && u != id
    requires s.tasks[id].pc.Rename? && CanMove(s.disk, s.tasks[id].ino) && s'.disk == Move(s.disk, s.tasks[id].ino)
    ensures TaskOk(byAge, s', u)
  {
    assert TaskOk(byAge, s, u);
    RenameTakesTarget(byAge, s, id);
    forall i, c | Tracked(s, i, c) ensures Tracked(s', i, c) { RenameKeepsTracked(byAge, s, s', id, i, c); }
    LockLostKeepsOther(byAge, s, s', id, u);
  }

  // ----- the mover's own promise

  lemma MkdirOwn(d: Disk, id: TaskId, t: Task, c: Choice)
    requires Intact(d) && (t.pc.Mkdir? || t.pc.StatNew?) && OwningOk(d, id, t)
    ensures var (d', t') := AcquireStep(d, id, t, c);
            Intact(d') && OwningOk(d', id, t') && (Owning(t'.pc) || t'.pc.Finished? || t'.pc.LookStat?)
  {
  }

  lemma AcquireOwn(d: Disk, id: TaskId, t: Task, c: Choice)
    requires Intact(d) && OwningOk(d, id, t) && IsAcquire(t.pc) && !t.pc.WriteOwner?
    ensures var (d', t') := AcquireStep(d, id, t, c);
            Intact(d') && OwningOk(d', id, t') && (Owning(t'.pc) || t'.pc.Finished? || t'.pc.LookStat?)
  {
    if t.pc.Mkdir? || t.pc.StatNew? { MkdirOwn(d, id, t, c); }
  }

  lemma WriteOwnerOwn(d: Disk, id: TaskId, t: Task, c: Choice)
    requires Intact(d) && OwningOk(d, id, t) && t.pc.WriteOwner?
    ensures var (d', t') := AcquireStep(d, id, t, c);
            Intact(d') && OwningOk(d', id, t') && Owning(t'.pc)
  {
  }

  lemma ReleaseOwn(d: Disk, id: TaskId, t: Task, c: Choice)
    requires Intact(d) && OwningOk(d, id, t) && IsRelease(t.pc)
    ensures var (d', t') := ReleaseStep(d, id, t, c);
            Intact(d') && OwningOk(d', id, t') && (Owning(t'.pc) || t'.pc.Finished? || t'.pc.LookStat?)
  {
  }

  predicate Uninvolved(pc: Pc) {
    pc.Mkdir? || pc.LookStat? || pc.Finished? || pc.CheckMoved? || pc.DropStat?
  }

  lemma UninvolvedOk(byAge: bool, s: State, id: TaskId)
    requires Intact(s.disk) && id in s.tasks && Uninvolved(s.tasks[id].pc)
    ensures TaskOk(byAge, s, id)
  {
  }

  lemma OwningIsEnough(byAge: bool, s: State, id: TaskId)
    requires Intact(s.disk) && id in s.tasks && OwningOk(s.disk, id, s.tasks[id]) && Owning(s.tasks[id].pc)
    ensures TaskOk(byAge, s, id)
  {
  }

  /** `s'` is `s` after task `id` has changed the disk to `d` and itself to `t`. */
  ghost predicate Into(byAge: bool, s: State, s': State, id: TaskId, d: Disk, t: Task) {
    Inv(byAge, s) && Live(s, id) && s' == s.(disk := d, tasks := s.tasks[id := t]) && Later(s, s')
  }

  predicate SameInspection(t: Task, t': Task) {
    && t'.ino == t.ino && t'.owner == t.owner && t'.look == t.look && t'.target == t.target
    && t'.abandoned == t.abandoned
  }

  lemma LookFactsStay(s: State, s': State, t: Task)
    requires Later(s, s') && LookFacts(s, t) && (t.abandoned ==> Tracked(s', t.ino, t.look))
    ensures LookFacts(s', t)
  {
    LaterKeeps(s, s', t.look);
  }

  lemma TargetFactsStay(s: State, s': State, t: Task)
    requires Later(s, s') && TargetFacts(s, t)
    ensures TargetFacts(s', t)
  {
    LaterKeeps(s, s', t.target);
  }

  lemma JudgedFactsStay(s: State, s': State, t: Task)
    requires Later(s, s') && JudgedFacts(s, t)
    ensures JudgedFacts(s', t)
  {
    LaterKeeps(s, s', t.target);
  }

  lemma TrackedStays(byAge: bool, s: State, s': State, id: TaskId, d: Disk, t: Task, i: Ino, c: OwnerId)
    requires Into(byAge, s, s', id, d, t) && Intact(d) && SameLock(s.disk, d) && Tracked(s, i, c)
    ensures Tracked(s', i, c)
  {
    SameLockKeepsTracked(s, s', i, c);
  }

  // Each inspecting step: first what it computes, then what that promises.

  lemma LookStatShape(s: State, id: TaskId, t: Task, c: Choice)
    requires Intact(s.disk) && t.pc.LookStat?
    ensures var (d', t') := InspectStep(s, id, t, c);
            && d' == s.disk
            && (Uninvolved(t'.pc) ||
                (s.disk.lock.Some? && t'.pc.LookOwner? && t'.ino == s.disk.lock.value
                 && t'.look == LockDir(s.disk).value.creator && t'.abandoned == Gone(s, t'.look)))
  {
  }

  lemma LookStatOk(byAge: bool, s: State, s': State, id: TaskId, c: Choice, d: Disk, t: Task)
    requires Into(byAge, s, s', id, d, t) && s.tasks[id].pc.LookStat? && InspectStep(s, id, s.tasks[id], c) == (d, t)
    ensures d == s.disk && TaskOk(byAge, s', id)
  {
    LookStatShape(s, id, s.tasks[id], c);
    if Uninvolved(t.pc) { UninvolvedOk(byAge, s', id); }
    else { LaterKeeps(s, s', t.look); }
  }

  lemma LookOwnerShape(s: State, id: TaskId, t: Task, c: Choice)
    requires Intact(s.disk) && t.pc.LookOwner?
    ensures var (d', t') := InspectStep(s, id, t, c);
            && d' == s.disk
            && (t'.pc.Finished? ||
                (t'.pc.Judge? && t'.owner == ReadOwner(s.disk) && t'.ino == t.ino && t'.look == t.look
                 && t'.abandoned == t.abandoned
                 && t'.target == (if t'.owner.Some? then t'.owner.value.id else t.look)))
  {
  }

  lemma OwnerRead(byAge: bool, s: State)
    requires Inv(byAge, s) && ReadOwner(s.disk).Some?
    ensures var found := ReadOwner(s.disk).value;
            && Reached(s, found.id, 1) && found.process == s.tasks[found.id.task].process
            && LockDir(s.disk).value.creator == found.id
  {
  }

  lemma LookOwnerOk(byAge: bool, s: State, s': State, id: TaskId, c: Choice, d: Disk, t: Task)
    requires Into(byAge, s, s', id, d, t) && s.tasks[id].pc.LookOwner? && InspectStep(s, id, s.tasks[id], c) == (d, t)
    ensures d == s.disk && TaskOk(byAge, s', id)
  {
    LookOwnerShape(s, id, s.tasks[id], c);
    if t.pc.Finished? { UninvolvedOk(byAge, s', id); } else { ToJudge(byAge, s, s', id, d, t); }
  }

  lemma ToJudge(byAge: bool, s: State, s': State, id: TaskId, d: Disk, t: Task)
    requires Into(byAge, s, s', id, d, t) && d == s.disk && s.tasks[id].pc.LookOwner? && t.pc.Judge?
    requires t.ino == s.tasks[id].ino && t.look == s.tasks[id].look && t.abandoned == s.tasks[id].abandoned
    requires t.owner == ReadOwner(s.disk) && t.target == (if t.owner.Some? then t.owner.value.id else t.look)
    ensures TaskOk(byAge, s', id)
  {
    assert TaskOk(byAge, s, id);
    if t.abandoned { TrackedStays(byAge, s, s', id, d, t, t.ino, t.look); }
    LookFactsStay(s, s', t);
    if t.owner.Some? { OwnerRead(byAge, s); }
    assert TargetFacts(s, t);
    TargetFactsStay(s, s', t);
  }

  lemma JudgeShape(s: State, id: TaskId, t: Task, c: Choice)
    requires Intact(s.disk) && t.pc.Judge?
    ensures var (d', t') := InspectStep(s, id, t, c);
            && d' == s.disk
            && (Uninvolved(t'.pc) || (t' == Go(t, OpenMarker) && Stale(s.running, t, t.owner, c)))
  {
  }

  lemma JudgeOk(byAge: bool, s: State, s': State, id: TaskId, c: Choice, d: Disk, t: Task)
    requires Into(byAge, s, s', id, d, t) && s.tasks[id].pc.Judge? && InspectStep(s, id, s.tasks[id], c) == (d, t)
    requires SoundJudgement(byAge, s, Step(id, c))
    ensures d == s.disk && TaskOk(byAge, s', id)
  {
    JudgeShape(s, id, s.tasks[id], c);
    if Uninvolved(t.pc) { UninvolvedOk(byAge, s', id); }
    else { JudgedIsGone(byAge, s, id); ToOpenMarker(byAge, s, s', id, d, t); }
  }

  lemma ToOpenMarker(byAge: bool, s: State, s': State, id: TaskId, d: Disk, t: Task)
    requires Into(byAge, s, s', id, d, t) && d == s.disk && s.tasks[id].pc.Judge? && t == Go(s.tasks[id], OpenMarker)
    requires JudgedFacts(s, s.tasks[id]) && (byAge || t.owner.Some?)
    ensures TaskOk(byAge, s', id)
  {
    assert LookFacts(s, s.tasks[id]) && TargetFacts(s, s.tasks[id]) by { assert TaskOk(byAge, s, id); }
    FactsStay(byAge, s, s', id, d, t);
    assert OwningOk(d, id, t);
  }

  /** After a sound judgement the target has been given up. */
  lemma JudgedIsGone(byAge: bool, s: State, id: TaskId)
    requires Inv(byAge, s) && Live(s, id) && s.tasks[id].pc.Judge?
    requires var t := s.tasks[id]; if t.owner.Some? then Gone(s, t.owner.value.id) else t.abandoned
    ensures JudgedFacts(s, s.tasks[id])
  {
    assert TaskOk(byAge, s, id);
  }

  lemma FactsStay(byAge: bool, s: State, s': State, id: TaskId, d: Disk, t: Task)
    requires Into(byAge, s, s', id, d, t) && Intact(d) && SameLock(s.disk, d)
    requires SameInspection(s.tasks[id], t)
    requires LookFacts(s, s.tasks[id]) && TargetFacts(s, s.tasks[id]) && JudgedFacts(s, s.tasks[id])
    ensures LookFacts(s', t) && TargetFacts(s', t) && JudgedFacts(s', t)
  {
    if t.abandoned { TrackedStays(byAge, s, s', id, d, t, t.ino, t.look); }
    LookFactsStay(s, s', t);
    TargetFactsStay(s, s', t);
    JudgedFactsStay(s, s', t);
  }

  lemma OpenMarkerShape(s: State, id: TaskId, t: Task, c: Choice)
    requires Intact(s.disk) && t.pc.OpenMarker?
    ensures var (d', t') := InspectStep(s, id, t, c);
            && Intact(d') && SameLock(s.disk, d')
            && (s.disk.lock.Some? ==> LockDir(d').value.owner == LockDir(s.disk).value.owner)
            && (if t'.pc.WriteMarker?
                then && t' == Go(t, t'.pc) && MarkerId(s.disk) == None && MarkerId(d') == Some(Me(id, t))
                     && s.disk.lock.Some?
                     && d' == WithDir(s.disk, s.disk.lock.value,
                                      LockDir(s.disk).value.(marker := Some(MyFile(id, t, false))))
                else d' == s.disk && (Uninvolved(t'.pc) || t' == Go(t, ReadMarker)))
  {
  }

  lemma OpenMarkerOk(byAge: bool, s: State, s': State, id: TaskId, c: Choice, d: Disk, t: Task)
    requires Into(byAge, s, s', id, d, t) && s.tasks[id].pc.OpenMarker? && InspectStep(s, id, s.tasks[id], c) == (d, t)
    ensures Intact(d) && TaskOk(byAge, s', id)
  {
    OpenMarkerShape(s, id, s.tasks[id], c);
    if Uninvolved(t.pc) { UninvolvedOk(byAge, s', id); } else { ToMarker(byAge, s, s', id, d, t); }
  }

  lemma ToMarker(byAge: bool, s: State, s': State, id: TaskId, d: Disk, t: Task)
    requires Into(byAge, s, s', id, d, t) && Intact(d) && SameLock(s.disk, d) && s.tasks[id].pc.OpenMarker?
    requires t == Go(s.tasks[id], t.pc)
    requires t.pc.ReadMarker? || (t.pc.WriteMarker? && MarkerId(d) == Some(Me(id, t)))
    ensures TaskOk(byAge, s', id)
  {
    assert TaskOk(byAge, s, id);
    FactsStay(byAge, s, s', id, d, t);
    assert InspectingOk(byAge, s', id, t);
    if t.pc.WriteMarker? { OwnMarkerPins(byAge, s', id, t); }
  }

  lemma OwnMarkerPins(byAge: bool, s: State, id: TaskId, t: Task)
    requires Intact(s.disk) && MarkerId(s.disk) == Some(Me(id, t)) && t.pc.WriteMarker?
    ensures AimingOk(byAge, s, id, t)
  {
  }

  lemma ReadMarkerShape(s: State, id: TaskId, t: Task, c: Choice)
    requires Intact(s.disk) && t.pc.ReadMarker?
    ensures var (d', t') := InspectStep(s, id, t, c);
            && d' == s.disk
            && (Uninvolved(t'.pc) ||
                (t'.pc.JudgeMarker? && SameInspection(t, t') && MarkerId(s.disk).Some?
                 && t'.markerGone == MarkerGone(s, MarkerId(s.disk).value)))
  {
  }

  lemma ReadMarkerOk(byAge: bool, s: State, s': State, id: TaskId, c: Choice, d: Disk, t: Task)
    requires Into(byAge, s, s', id, d, t) && s.tasks[id].pc.ReadMarker? && InspectStep(s, id, s.tasks[id], c) == (d, t)
    ensures d == s.disk && TaskOk(byAge, s', id)
  {
    ReadMarkerShape(s, id, s.tasks[id], c);
    if Uninvolved(t.pc) { UninvolvedOk(byAge, s', id); return; }
    assert TaskOk(byAge, s, id);
    FactsStay(byAge, s, s', id, d, t);
    LaterKeeps(s, s', MarkerId(s.disk).value);
  }

  lemma JudgeMarkerShape(s: State, id: TaskId, t: Task, c: Choice)
    requires Intact(s.disk) && t.pc.JudgeMarker?
    ensures var (d', t') := InspectStep(s, id, t, c);
            && d' == s.disk
            && (Uninvolved(t'.pc) || (t' == Go(t, QuarantineStat(false)) && Stale(s.running, t, t.markerOwner, c)))
  {
  }

  lemma JudgeMarkerOk(byAge: bool, s: State, s': State, id: TaskId, c: Choice, d: Disk, t: Task)
    requires Into(byAge, s, s', id, d, t) && s.tasks[id].pc.JudgeMarker? && InspectStep(s, id, s.tasks[id], c) == (d, t)
    requires SoundJudgement(byAge, s, Step(id, c))
    ensures d == s.disk && TaskOk(byAge, s', id)
  {
    JudgeMarkerShape(s, id, s.tasks[id], c);
    if Uninvolved(t.pc) { UninvolvedOk(byAge, s', id); return; }
    assert TaskOk(byAge, s, id);
    FactsStay(byAge, s, s', id, d, t);
    if byAge {
      assert PinnedByDead(s, t.target);
      PinStaysForMe(byAge, s, s', id, d, t);
    }
  }

  /** The mover's own pin survives any step that leaves the lock directory's marker. */
  lemma PinStaysForMe(byAge: bool, s: State, s': State, id: TaskId, d: Disk, t: Task)
    requires Into(byAge, s, s', id, d, t) && Intact(d) && SameLock(s.disk, d) && MarkerId(d) == MarkerId(s.disk)
    requires t.target == s.tasks[id].target && t.round == s.tasks[id].round
    requires Pinned(s, t.target, Me(id, t))
    ensures Pinned(s', t.target, Me(id, t))
  {
    if MarkerId(d).Some? { LaterKeeps(s, s', MarkerId(d).value); }
  }

  lemma WriteMarkerShape(d: Disk, id: TaskId, t: Task, c: Choice)
    requires Intact(d) && t.pc.WriteMarker?
    ensures var (d', t') := QuarantineStep(d, id, t, c);
            && Intact(d') && SameLock(d, d') && MarkerId(d') == MarkerId(d)
            && (d.lock.Some? ==> LockDir(d').value.owner == LockDir(d).value.owner)
            && (t'.pc.Finished? || t' == Go(t, QuarantineStat(true)))
  {
  }

  lemma WriteMarkerOk(byAge: bool, s: State, s': State, id: TaskId, c: Choice, d: Disk, t: Task)
    requires Into(byAge, s, s', id, d, t) && s.tasks[id].pc.WriteMarker? && QuarantineStep(s.disk, id, s.tasks[id], c) == (d, t)
    ensures Intact(d) && TaskOk(byAge, s', id)
  {
    WriteMarkerShape(s.disk, id, s.tasks[id], c);
    if t.pc.Finished? { UninvolvedOk(byAge, s', id); return; }
    assert TaskOk(byAge, s, id);
    FactsStay(byAge, s, s', id, d, t);
    if byAge { PinStaysForMe(byAge, s, s', id, d, t); }
  }

  lemma EndQuarantineUninvolved(t: Task, owns: bool, c: Choice)
    ensures forall outcome: Outcome :: Uninvolved(EndQuarantine(t, owns, outcome, c).pc)
  {
  }

  lemma QuarantineStatShape(d: Disk, id: TaskId, t: Task, c: Choice)
    requires Intact(d) && t.pc.QuarantineStat?
    ensures var (d', t') := QuarantineStep(d, id, t, c);
            d' == d && (Uninvolved(t'.pc) || (t' == Go(t, QuarantineOwner(t.pc.owns)) && d.lock == Some(t.ino)))
  {
    EndQuarantineUninvolved(t, t.pc.owns, c);
  }

  lemma QuarantineStatOk(byAge: bool, s: State, s': State, id: TaskId, c: Choice, d: Disk, t: Task)
    requires Into(byAge, s, s', id, d, t) && s.tasks[id].pc.QuarantineStat? && QuarantineStep(s.disk, id, s.tasks[id], c) == (d, t)
    ensures d == s.disk && TaskOk(byAge, s', id)
  {
    QuarantineStatShape(s.disk, id, s.tasks[id], c);
    if Uninvolved(t.pc) { UninvolvedOk(byAge, s', id); } else { ToQuarantineOwner(byAge, s, s', id, d, t); }
  }

  lemma ToQuarantineOwner(byAge: bool, s: State, s': State, id: TaskId, d: Disk, t: Task)
    requires Into(byAge, s, s', id, d, t) && d == s.disk && s.tasks[id].pc.QuarantineStat?
    requires t == Go(s.tasks[id], QuarantineOwner(s.tasks[id].pc.owns)) && d.lock == Some(t.ino)
    ensures TaskOk(byAge, s', id)
  {
    assert TaskOk(byAge, s, id);
    FactsStay(byAge, s, s', id, d, t);
    if byAge { PinStaysForMe(byAge, s, s', id, d, t); }
  }

  lemma QuarantineOwnerShape(d: Disk, id: TaskId, t: Task, c: Choice)
    requires Intact(d) && t.pc.QuarantineOwner?
    ensures var (d', t') := QuarantineStep(d, id, t, c);
            && d' == d
            && (Uninvolved(t'.pc) ||
                (t' == Go(t, Rename(t.pc.owns))
                 && (t.owner.Some? ==> ReadOwner(d).Some? && ReadOwner(d).value.id == t.owner.value.id)))
  {
    EndQuarantineUninvolved(t, t.pc.owns, c);
  }

  /** Before the rename the inspected directory is known to be the one aimed at. */
  lemma QuarantineOwnerTracks(byAge: bool, s: State, id: TaskId)
    requires Inv(byAge, s) && Live(s, id) && s.tasks[id].pc.QuarantineOwner?
    requires var t := s.tasks[id];
             t.owner.Some? ==> ReadOwner(s.disk).Some? && ReadOwner(s.disk).value.id == t.owner.value.id
    ensures Tracked(s, s.tasks[id].ino, s.tasks[id].target)
  {
    assert TaskOk(byAge, s, id);
    if s.tasks[id].owner.Some? { OwnerRead(byAge, s); }
  }

  lemma QuarantineOwnerOk(byAge: bool, s: State, s': State, id: TaskId, c: Choice, d: Disk, t: Task)
    requires Into(byAge, s, s', id, d, t) && s.tasks[id].pc.QuarantineOwner?
    requires QuarantineStep(s.disk, id, s.tasks[id], c) == (d, t)
    ensures d == s.disk && TaskOk(byAge, s', id)
  {
    QuarantineOwnerShape(s.disk, id, s.tasks[id], c);
    if Uninvolved(t.pc) { UninvolvedOk(byAge, s', id); } else { ToRename(byAge, s, s', id, d, t); }
  }

  lemma ToRename(byAge: bool, s: State, s': State, id: TaskId, d: Disk, t: Task)
    requires Into(byAge, s, s', id, d, t) && d == s.disk && s.tasks[id].pc.QuarantineOwner?
    requires t == Go(s.tasks[id], t.pc) && t.pc.Rename?
    requires t.owner.Some? ==> ReadOwner(s.disk).Some? && ReadOwner(s.disk).value.id == t.owner.value.id
    ensures TaskOk(byAge, s', id)
  {
    assert TaskOk(byAge, s, id);
    FactsStay(byAge, s, s', id, d, t);
    if byAge { PinStaysForMe(byAge, s, s', id, d, t); }
    QuarantineOwnerTracks(byAge, s, id);
    TrackedStays(byAge, s, s', id, d, t, t.ino, t.target);
  }

  lemma RenameShape(d: Disk, id: TaskId, t: Task, c: Choice)
    requires Intact(d) && t.pc.Rename?
    ensures var (d', t') := QuarantineStep(d, id, t, c);
            && (d' == d || (CanMove(d, t.ino) && d' == Move(d, t.ino)))
            && Intact(d') && Uninvolved(t'.pc)
  {
    EndQuarantineUninvolved(t, t.pc.owns, c);
  }

  lemma DropShape(d: Disk, id: TaskId, t: Task, c: Choice)
    requires Intact(d) && (t.pc.CheckMoved? || t.pc.DropStat?)
    ensures var (d', t') := QuarantineStep(d, id, t, c);
            && d' == d
            && (Uninvolved(t'.pc) || (t'.pc.DropUnlink? && t' == Go(t, t'.pc) && MarkerId(d) == Some(Me(id, t))))
  {
    if t.pc.CheckMoved? { EndQuarantineUninvolved(t, t.pc.owns, c); }
  }

  lemma DropOk(byAge: bool, s: State, s': State, id: TaskId, c: Choice, d: Disk, t: Task)
    requires Into(byAge, s, s', id, d, t) && (s.tasks[id].pc.CheckMoved? || s.tasks[id].pc.DropStat?)
    requires QuarantineStep(s.disk, id, s.tasks[id], c) == (d, t)
    ensures d == s.disk && TaskOk(byAge, s', id)
  {
    DropShape(s.disk, id, s.tasks[id], c);
    if Uninvolved(t.pc) { UninvolvedOk(byAge, s', id); }
  }

  lemma DropUnlinkShape(d: Disk, id: TaskId, t: Task, c: Choice)
    requires Intact(d) && t.pc.DropUnlink?
    ensures var (d', t') := QuarantineStep(d, id, t, c);
            Uninvolved(t'.pc) && (d' == d || d' == UnlinkMarker(d))
  {
  }

  // ----- directories and tombstones stay in order

  lemma DirsFrame(byAge: bool, s: State, s': State, id: TaskId, d: Disk, t: Task)
    requires Into(byAge, s, s', id, d, t)
    requires d.dirs.Keys <= s.disk.dirs.Keys
    requires forall i :: i in d.dirs ==>
               && d.dirs[i].creator == s.disk.dirs[i].creator
               && (|| d.dirs[i].owner.None?
                   || (s.disk.dirs[i].owner.Some? && d.dirs[i].owner.value.owner == s.disk.dirs[i].owner.value.owner)
                   || (d.dirs[i].owner.value.owner == Owner(d.dirs[i].creator, s.tasks[id].process)
                       && d.dirs[i].creator.task == id))
               && (|| d.dirs[i].marker.None?
                   || (s.disk.dirs[i].marker.Some? && d.dirs[i].marker.value.owner == s.disk.dirs[i].marker.value.owner)
                   || Reached(s', d.dirs[i].marker.value.owner.id, 3))
    requires t.process == s.tasks[id].process
    ensures DirsOk(s')
  {
    forall i | i in d.dirs ensures Reached(s', d.dirs[i].creator, 1) { LaterKeeps(s, s', d.dirs[i].creator); }
    forall i | i in d.dirs && d.dirs[i].owner.Some?
      ensures d.dirs[i].owner.value.owner == Owner(d.dirs[i].creator, s'.tasks[d.dirs[i].creator.task].process)
    {
    }
    forall i | i in d.dirs && d.dirs[i].marker.Some? ensures Reached(s', d.dirs[i].marker.value.owner.id, 3) {
      LaterKeeps(s, s', d.dirs[i].marker.value.owner.id);
    }
  }

  /** What a step must leave true, apart from the mover's own promise. */
  ghost predicate Orderly(byAge: bool, s: State, s': State, id: TaskId) {
    && s.tasks.Keys <= s'.tasks.Keys
    && Intact(s'.disk) && TombsOk(s'.disk) && DirsOk(s')
    && (forall u :: Live(s, u) && u != id ==> TaskOk(byAge, s', u))
  }

  lemma UnchangedIsOrderly(byAge: bool, s: State, s': State, id: TaskId, d: Disk, t: Task)
    requires Into(byAge, s, s', id, d, t) && d == s.disk && t.process == s.tasks[id].process
    ensures Orderly(byAge, s, s', id)
  {
    DirsFrame(byAge, s, s', id, d, t);
    forall u | Live(s, u) && u != id ensures TaskOk(byAge, s', u) { SameLockKeepsOther(byAge, s, s', id, u); }
  }

  /** Writing in the lock directory its own owner file, or removing that. */
  lemma OwnerChangeIsOrderly(byAge: bool, s: State, s': State, id: TaskId, d: Disk, t: Task, dir: Dir)
    requires Into(byAge, s, s', id, d, t) && t.process == s.tasks[id].process
    requires Owning(s.tasks[id].pc) && s.disk.lock.Some?
    requires d == WithDir(s.disk, s.disk.lock.value, dir) && dir == LockDir(s.disk).value.(owner := dir.owner)
    requires dir.owner.Some? ==> dir.owner.value.owner == Owner(Me(id, s.tasks[id]), t.process)
    ensures Orderly(byAge, s, s', id)
  {
    OwnerWritten(s.disk, dir);
    OwnerDirs(byAge, s, s', id, d, t, dir);
    forall u | Live(s, u) && u != id ensures TaskOk(byAge, s', u) { SameLockKeepsOther(byAge, s, s', id, u); }
  }

  /** Only the owner file of the lock directory differs. */
  lemma OwnerWritten(d: Disk, dir: Dir)
    requires Intact(d) && d.lock.Some? && dir == LockDir(d).value.(owner := dir.owner)
    ensures var d' := WithDir(d, d.lock.value, dir);
            Intact(d') && SameLock(d, d') && MarkerId(d') == MarkerId(d)
  {
  }

  lemma OwnerDirs(byAge: bool, s: State, s': State, id: TaskId, d: Disk, t: Task, dir: Dir)
    requires Into(byAge, s, s', id, d, t) && t.process == s.tasks[id].process
    requires Owning(s.tasks[id].pc) && s.disk.lock.Some?
    requires d == WithDir(s.disk, s.disk.lock.value, dir) && dir == LockDir(s.disk).value.(owner := dir.owner)
    requires dir.owner.Some? ==> dir.owner.value.owner == Owner(Me(id, s.tasks[id]), t.process)
    ensures DirsOk(s')
  {
    assert TaskOk(byAge, s, id);
    DirsFrame(byAge, s, s', id, d, t);
  }

  lemma MkdirIsOrderly(byAge: bool, s: State, s': State, id: TaskId, d: Disk, t: Task, i: Ino)
    requires Into(byAge, s, s', id, d, t) && t == Go(s.tasks[id], StatNew)
    requires s.tasks[id].pc.Mkdir? && s.disk.lock.None? && i !in s.disk.dirs
    requires d == WithDir(s.disk, i, Dir(Me(id, t), None, None)).(lock := Some(i))
    ensures Orderly(byAge, s, s', id)
  {
    forall j | j in s.disk.dirs ensures Reached(s', s.disk.dirs[j].creator, 1) {
      LaterKeeps(s, s', s.disk.dirs[j].creator);
    }
    forall j | j in s.disk.dirs && s.disk.dirs[j].marker.Some?
      ensures Reached(s', s.disk.dirs[j].marker.value.owner.id, 3)
    {
      LaterKeeps(s, s', s.disk.dirs[j].marker.value.owner.id);
    }
    assert DirsOk(s');
    forall u | Live(s, u) && u != id ensures TaskOk(byAge, s', u) { MkdirKeepsOther(byAge, s, s', id, u, i); }
  }

  lemma RmdirIsOrderly(byAge: bool, s: State, s': State, id: TaskId, d: Disk, t: Task)
    requires Into(byAge, s, s', id, d, t) && t.process == s.tasks[id].process
    requires Owning(s.tasks[id].pc) && d == Rmdir(s.disk)
    ensures Orderly(byAge, s, s', id)
  {
    if d == s.disk { UnchangedIsOrderly(byAge, s, s', id, d, t); return; }
    DirsFrame(byAge, s, s', id, d, t);
    forall u | Live(s, u) && u != id ensures TaskOk(byAge, s', u) { RmdirKeepsOther(byAge, s, s', id, u); }
  }

  /** Creating, writing or removing its own marker. */
  lemma MarkerChangeIsOrderly(byAge: bool, s: State, s': State, id: TaskId, d: Disk, t: Task)
    requires Into(byAge, s, s', id, d, t) && t.process == s.tasks[id].process && Intact(d) && SameLock(s.disk, d)
    requires s.disk.lock.Some? ==> LockDir(d).value.owner == LockDir(s.disk).value.owner
    requires || !byAge
             || MarkerId(d) == MarkerId(s.disk)
             || (MarkerId(s.disk) == None && MarkerId(d) == Some(Me(id, s.tasks[id])))
             || (MarkerId(s.disk) == Some(Me(id, s.tasks[id])) && MarkerId(d) == None && Stage(s.tasks[id].pc) == 3)
    requires DirsOk(s')
    ensures Orderly(byAge, s, s', id)
  {
    forall u | Live(s, u) && u != id ensures TaskOk(byAge, s', u) { SameLockKeepsOther(byAge, s, s', id, u); }
  }

  /** Only the marker of the lock directory differs. */
  lemma MarkerWritten(d: Disk, dir: Dir)
    requires Intact(d) && d.lock.Some? && dir == LockDir(d).value.(marker := dir.marker)
    ensures var d' := WithDir(d, d.lock.value, dir);
            && Intact(d') && SameLock(d, d') && LockDir(d') == Some(dir)
            && MarkerId(d') == (if dir.marker.Some? then Some(dir.marker.value.owner.id) else None)
  {
  }

  lemma MarkerDirs(byAge: bool, s: State, s': State, id: TaskId, d: Disk, t: Task, dir: Dir)
    requires Into(byAge, s, s', id, d, t) && t.process == s.tasks[id].process
    requires s.disk.lock.Some? && dir == LockDir(s.disk).value.(marker := dir.marker)
    requires d == WithDir(s.disk, s.disk.lock.value, dir)
    requires dir.marker.Some? ==> Reached(s', dir.marker.value.owner.id, 3)
    ensures DirsOk(s')
  {
    DirsFrame(byAge, s, s', id, d, t);
  }

  /** Unlinking its own marker, or, where nothing rests on markers, any. */
  lemma MarkerGoneIsOrderly(byAge: bool, s: State, s': State, id: TaskId, d: Disk, t: Task)
    requires Into(byAge, s, s', id, d, t) && t.process == s.tasks[id].process && s.tasks[id].pc.DropUnlink?
    requires (byAge ==> MarkerId(s.disk) == Some(Me(id, s.tasks[id]))) && d == UnlinkMarker(s.disk) && d != s.disk
    ensures Orderly(byAge, s, s', id)
  {
    var dir := LockDir(s.disk).value.(marker := None);
    MarkerWritten(s.disk, dir);
    MarkerDirs(byAge, s, s', id, d, t, dir);
    MarkerChangeIsOrderly(byAge, s, s', id, d, t);
  }

  lemma NewMarkerDirs(byAge: bool, s: State, s': State, id: TaskId, d: Disk, t: Task, dir: Dir)
    requires Into(byAge, s, s', id, d, t) && t.process == s.tasks[id].process && t.pc.WriteMarker?
    requires s.disk.lock.Some? && dir == LockDir(s.disk).value.(marker := Some(MyFile(id, t, false)))
    requires d == WithDir(s.disk, s.disk.lock.value, dir)
    ensures DirsOk(s')
  {
    assert Reached(s', Me(id, t), 3);
    MarkerDirs(byAge, s, s', id, d, t, dir);
  }

  lemma NewMarkerIsOrderly(byAge: bool, s: State, s': State, id: TaskId, d: Disk, t: Task, dir: Dir)
    requires Into(byAge, s, s', id, d, t) && t == Go(s.tasks[id], t.pc) && t.pc.WriteMarker?
    requires s.disk.lock.Some? && MarkerId(s.disk) == None
    requires dir == LockDir(s.disk).value.(marker := Some(MyFile(id, t, false)))
    requires d == WithDir(s.disk, s.disk.lock.value, dir)
    ensures Orderly(byAge, s, s', id)
  {
    MarkerWritten(s.disk, dir);
    NewMarkerDirs(byAge, s, s', id, d, t, dir);
    MarkerChangeIsOrderly(byAge, s, s', id, d, t);
  }

  lemma RenameIsOrderly(byAge: bool, s: State, s': State, id: TaskId, d: Disk, t: Task)
    requires Into(byAge, s, s', id, d, t) && t.process == s.tasks[id].process && s.tasks[id].pc.Rename?
    requires CanMove(s.disk, s.tasks[id].ino) && d == Move(s.disk, s.tasks[id].ino)
    ensures Orderly(byAge, s, s', id)
  {
    RenameTakesTarget(byAge, s, id);
    MoveKeepsTombs(s.disk, s.tasks[id].ino);
    DirsFrame(byAge, s, s', id, d, t);
    OthersSurviveRename(byAge, s, s', id, d, t);
  }

  lemma MoveKeepsTombs(d: Disk, name: Ino)
    requires Intact(d) && TombsOk(d) && CanMove(d, name) && d.lock == Some(name)
    ensures Intact(Move(d, name)) && TombsOk(Move(d, name))
  {
  }

  lemma OthersSurviveRename(byAge: bool, s: State, s': State, id: TaskId, d: Disk, t: Task)
    requires Into(byAge, s, s', id, d, t) && s.tasks[id].pc.Rename? && Intact(d)
    requires CanMove(s.disk, s.tasks[id].ino) && d == Move(s.disk, s.tasks[id].ino)
    ensures forall u :: Live(s, u) && u != id ==> TaskOk(byAge, s', u)
  {
    forall u | Live(s, u) && u != id ensures TaskOk(byAge, s', u) { RenameKeepsOther(byAge, s, s', id, u); }
  }

  // ----- every step keeps the invariant

  lemma AcquireShape(d: Disk, id: TaskId, t: Task, c: Choice)
    requires Intact(d) && OwningOk(d, id, t) && IsAcquire(t.pc) && !t.pc.Mkdir?
    ensures var (d', t') := AcquireStep(d, id, t, c);
            && t'.process == t.process
            && (d' == d ||
                (exists w :: d' == WithDir(d, d.lock.value, LockDir(d).value.(owner := Some(MyFile(id, t, w))))))
  {
    var (d', t') := AcquireStep(d, id, t, c);
    if d' != d {
      assert d' == WithDir(d, d.lock.value, LockDir(d).value.(owner := Some(MyFile(id, t, t.pc.WriteOwner?))));
    }
  }

  lemma ReleaseShape(d: Disk, id: TaskId, t: Task, c: Choice)
    requires Intact(d) && OwningOk(d, id, t) && IsRelease(t.pc)
    ensures var (d', t') := ReleaseStep(d, id, t, c);
            && t'.process == t.process
            && (d' == d || d' == Rmdir(d) || d' == WithDir(d, d.lock.value, LockDir(d).value.(owner := None)))
  {
  }

  lemma MkdirStepKeeps(byAge: bool, s: State, s': State, id: TaskId, c: Choice, d: Disk, t: Task)
    requires Into(byAge, s, s', id, d, t) && s.tasks[id].pc.Mkdir? && AcquireStep(s.disk, id, s.tasks[id], c) == (d, t)
    ensures Orderly(byAge, s, s', id) && TaskOk(byAge, s', id)
  {
    AcquireOwn(s.disk, id, s.tasks[id], c);
    if d == s.disk { UnchangedIsOrderly(byAge, s, s', id, d, t); UninvolvedOk(byAge, s', id); }
    else { MkdirIsOrderly(byAge, s, s', id, d, t, c.ino); OwningIsEnough(byAge, s', id); }
  }

  lemma OwnDone(byAge: bool, s: State, id: TaskId)
    requires Intact(s.disk) && id in s.tasks && OwningOk(s.disk, id, s.tasks[id])
    requires Owning(s.tasks[id].pc) || s.tasks[id].pc.Finished? || s.tasks[id].pc.LookStat?
    ensures TaskOk(byAge, s, id)
  {
    if Owning(s.tasks[id].pc) { OwningIsEnough(byAge, s, id); } else { UninvolvedOk(byAge, s, id); }
  }

  lemma AcquireStepKeeps(byAge: bool, s: State, s': State, id: TaskId, c: Choice, d: Disk, t: Task)
    requires Into(byAge, s, s', id, d, t) && IsAcquire(s.tasks[id].pc) && !s.tasks[id].pc.Mkdir?
    requires AcquireStep(s.disk, id, s.tasks[id], c) == (d, t)
    ensures Orderly(byAge, s, s', id) && TaskOk(byAge, s', id)
  {
    assert TaskOk(byAge, s, id);
    AcquireShape(s.disk, id, s.tasks[id], c);
    if s.tasks[id].pc.WriteOwner? { WriteOwnerOwn(s.disk, id, s.tasks[id], c); }
    else { AcquireOwn(s.disk, id, s.tasks[id], c); }
    OwnDone(byAge, s', id);
    if d == s.disk { UnchangedIsOrderly(byAge, s, s', id, d, t); }
    else {
      var w :| d == WithDir(s.disk, s.disk.lock.value, LockDir(s.disk).value.(owner := Some(MyFile(id, s.tasks[id], w))));
      OwnerChangeIsOrderly(byAge, s, s', id, d, t, LockDir(s.disk).value.(owner := Some(MyFile(id, s.tasks[id], w))));
    }
  }

  lemma ReleaseStepKeeps(byAge: bool, s: State, s': State, id: TaskId, c: Choice, d: Disk, t: Task)
    requires Into(byAge, s, s', id, d, t) && IsRelease(s.tasks[id].pc) && ReleaseStep(s.disk, id, s.tasks[id], c) == (d, t)
    ensures Orderly(byAge, s, s', id) && TaskOk(byAge, s', id)
  {
    assert TaskOk(byAge, s, id);
    ReleaseShape(s.disk, id, s.tasks[id], c);
    ReleaseOwn(s.disk, id, s.tasks[id], c);
    OwnDone(byAge, s', id);
    if d == s.disk { UnchangedIsOrderly(byAge, s, s', id, d, t); }
    else if d == Rmdir(s.disk) { RmdirIsOrderly(byAge, s, s', id, d, t); }
    else { OwnerChangeIsOrderly(byAge, s, s', id, d, t, LockDir(s.disk).value.(owner := None)); }
  }

  lemma OpenMarkerKeeps(byAge: bool, s: State, s': State, id: TaskId, c: Choice, d: Disk, t: Task)
    requires Into(byAge, s, s', id, d, t) && s.tasks[id].pc.OpenMarker? && InspectStep(s, id, s.tasks[id], c) == (d, t)
    requires t.process == s.tasks[id].process
    ensures Orderly(byAge, s, s', id) && TaskOk(byAge, s', id)
  {
    OpenMarkerOk(byAge, s, s', id, c, d, t);
    OpenMarkerShape(s, id, s.tasks[id], c);
    if d == s.disk { UnchangedIsOrderly(byAge, s, s', id, d, t); }
    else { NewMarkerIsOrderly(byAge, s, s', id, d, t, LockDir(s.disk).value.(marker := Some(MyFile(id, t, false)))); }
  }

  lemma InspectStepKeeps(byAge: bool, s: State, s': State, id: TaskId, c: Choice, d: Disk, t: Task)
    requires Into(byAge, s, s', id, d, t) && IsInspect(s.tasks[id].pc) && InspectStep(s, id, s.tasks[id], c) == (d, t)
    requires SoundJudgement(byAge, s, Step(id, c)) && t.process == s.tasks[id].process
    ensures Orderly(byAge, s, s', id) && TaskOk(byAge, s', id)
  {
    if s.tasks[id].pc.OpenMarker? { OpenMarkerKeeps(byAge, s, s', id, c, d, t); return; }
    match s.tasks[id].pc {
      case LookStat => LookStatOk(byAge, s, s', id, c, d, t);
      case LookOwner => LookOwnerOk(byAge, s, s', id, c, d, t);
      case Judge => JudgeOk(byAge, s, s', id, c, d, t);
      case ReadMarker => ReadMarkerOk(byAge, s, s', id, c, d, t);
      case JudgeMarker => JudgeMarkerOk(byAge, s, s', id, c, d, t);
    }
    UnchangedIsOrderly(byAge, s, s', id, d, t);
  }

  lemma WriteMarkerDirs(byAge: bool, s: State, s': State, id: TaskId, c: Choice, d: Disk, t: Task)
    requires Into(byAge, s, s', id, d, t) && s.tasks[id].pc.WriteMarker? && QuarantineStep(s.disk, id, s.tasks[id], c) == (d, t)
    requires t.process == s.tasks[id].process
    ensures DirsOk(s')
  {
    DirsFrame(byAge, s, s', id, d, t);
  }

  lemma WriteMarkerKeeps(byAge: bool, s: State, s': State, id: TaskId, c: Choice, d: Disk, t: Task)
    requires Into(byAge, s, s', id, d, t) && s.tasks[id].pc.WriteMarker? && QuarantineStep(s.disk, id, s.tasks[id], c) == (d, t)
    requires t.process == s.tasks[id].process
    ensures Orderly(byAge, s, s', id) && TaskOk(byAge, s', id)
  {
    WriteMarkerOk(byAge, s, s', id, c, d, t);
    WriteMarkerDirs(byAge, s, s', id, c, d, t);
    WriteMarkerShape(s.disk, id, s.tasks[id], c);
    MarkerChangeIsOrderly(byAge, s, s', id, d, t);
  }

  lemma DropUnlinkKeeps(byAge: bool, s: State, s': State, id: TaskId, c: Choice, d: Disk, t: Task)
    requires Into(byAge, s, s', id, d, t) && s.tasks[id].pc.DropUnlink? && QuarantineStep(s.disk, id, s.tasks[id], c) == (d, t)
    requires t.process == s.tasks[id].process
    ensures Orderly(byAge, s, s', id) && TaskOk(byAge, s', id)
  {
    assert TaskOk(byAge, s, id);
    DropUnlinkShape(s.disk, id, s.tasks[id], c);
    UninvolvedOk(byAge, s', id);
    if d == s.disk { UnchangedIsOrderly(byAge, s, s', id, d, t); } else { MarkerGoneIsOrderly(byAge, s, s', id, d, t); }
  }

  lemma QuarantineStepKeeps(byAge: bool, s: State, s': State, id: TaskId, c: Choice, d: Disk, t: Task)
    requires Into(byAge, s, s', id, d, t) && Stage(s.tasks[id].pc) == 3 && QuarantineStep(s.disk, id, s.tasks[id], c) == (d, t)
    requires t.process == s.tasks[id].process
    ensures Orderly(byAge, s, s', id) && TaskOk(byAge, s', id)
  {
    match s.tasks[id].pc {
      case WriteMarker(_) => WriteMarkerKeeps(byAge, s, s', id, c, d, t); return;
      case DropUnlink(_) => DropUnlinkKeeps(byAge, s, s', id, c, d, t); return;
      case Rename(_) =>
        RenameShape(s.disk, id, s.tasks[id], c);
        UninvolvedOk(byAge, s', id);
        if d != s.disk { RenameIsOrderly(byAge, s, s', id, d, t); return; }
      case QuarantineStat(_) => QuarantineStatOk(byAge, s, s', id, c, d, t);
      case QuarantineOwner(_) => QuarantineOwnerOk(byAge, s, s', id, c, d, t);
      case CheckMoved(_) => DropOk(byAge, s, s', id, c, d, t);
      case DropStat(_) => DropOk(byAge, s, s', id, c, d, t);
    }
    UnchangedIsOrderly(byAge, s, s', id, d, t);
  }

  lemma TaskStepKeeps(byAge: bool, s: State, s': State, id: TaskId, c: Choice, d: Disk, t: Task)
    requires Into(byAge, s, s', id, d, t) && TaskStep(s, id, c) == (d, t)
    requires SoundJudgement(byAge, s, Step(id, c)) && t.process == s.tasks[id].process
    ensures Orderly(byAge, s, s', id) && TaskOk(byAge, s', id)
  {
    var pc := s.tasks[id].pc;
    if pc.Mkdir? { MkdirStepKeeps(byAge, s, s', id, c, d, t); }
    else if IsAcquire(pc) { AcquireStepKeeps(byAge, s, s', id, c, d, t); }
    else if IsRelease(pc) { ReleaseStepKeeps(byAge, s, s', id, c, d, t); }
    else if IsInspect(pc) { InspectStepKeeps(byAge, s, s', id, c, d, t); }
    else if Stage(pc) == 3 { QuarantineStepKeeps(byAge, s, s', id, c, d, t); }
    else { UnchangedIsOrderly(byAge, s, s', id, d, t); UninvolvedOk(byAge, s', id); }
  }

  lemma StepKeepsInv(byAge: bool, s: State, id: TaskId, c: Choice)
    requires Inv(byAge, s) && Enabled(s, Step(id, c)) && SoundJudgement(byAge, s, Step(id, c))
    ensures Inv(byAge, Apply(s, Step(id, c)))
  {
    StepIsLater(s, id, c);
    StageNeverFalls(s, id, c);
    var (d, t) := TaskStep(s, id, c);
    OrderlyIsInv(byAge, s, Apply(s, Step(id, c)), id, c, d, t);
  }

  lemma OrderlyIsInv(byAge: bool, s: State, s': State, id: TaskId, c: Choice, d: Disk, t: Task)
    requires Into(byAge, s, s', id, d, t) && TaskStep(s, id, c) == (d, t)
    requires SoundJudgement(byAge, s, Step(id, c)) && t.process == s.tasks[id].process
    ensures Inv(byAge, s')
  {
    TaskStepKeeps(byAge, s, s', id, c, d, t);
    forall u | Live(s', u) ensures TaskOk(byAge, s', u) {
      if u != id { assert Live(s, u); }
    }
  }

  lemma ProcessActionKeepsInv(byAge: bool, s: State, a: Action)
    requires Inv(byAge, s) && Enabled(s, a) && (a.Spawn? || a.Exit?)
    ensures Inv(byAge, Apply(s, a))
  {
    var s' := Apply(s, a);
    assert Later(s, s');
    assert s'.disk == s.disk && s'.tasks == s.tasks;
    forall u | Live(s', u) ensures TaskOk(byAge, s', u) { SameDiskKeepsTask(byAge, s, s', u); }
    SameDiskKeepsDirs(byAge, s, s');
  }

  lemma SameDiskKeepsDirs(byAge: bool, s: State, s': State)
    requires Inv(byAge, s) && Later(s, s') && s'.disk == s.disk
    ensures DirsOk(s')
  {
    forall i | i in s.disk.dirs ensures Reached(s', s.disk.dirs[i].creator, 1) {
      LaterKeeps(s, s', s.disk.dirs[i].creator);
    }
    forall i | i in s.disk.dirs && s.disk.dirs[i].marker.Some?
      ensures Reached(s', s.disk.dirs[i].marker.value.owner.id, 3)
    {
      LaterKeeps(s, s', s.disk.dirs[i].marker.value.owner.id);
    }
  }

  lemma SameDiskKeepsTask(byAge: bool, s: State, s': State, u: TaskId)
    requires Inv(byAge, s) && Later(s, s') && s'.disk == s.disk && Live(s, u) && u in s'.tasks && s'.tasks[u] == s.tasks[u]
    ensures TaskOk(byAge, s', u)
  {
    var t := s.tasks[u];
    assert TaskOk(byAge, s, u);
    LaterKeeps(s, s', t.look);
    LaterKeeps(s, s', t.target);
    if MarkerId(s.disk).Some? { LaterKeeps(s, s', MarkerId(s.disk).value); }
  }

  lemma BeginKeepsInv(byAge: bool, s: State, a: Action)
    requires Inv(byAge, s) && Enabled(s, a) && a.Begin?
    ensures Inv(byAge, Apply(s, a))
  {
    var s' := Apply(s, a);
    assert Later(s, s');
    forall u | Live(s', u) ensures TaskOk(byAge, s', u) {
      if u == a.id { UninvolvedOk(byAge, s', u); } else { SameDiskKeepsTask(byAge, s, s', u); }
    }
    SameDiskKeepsDirs(byAge, s, s');
  }

  lemma ReleaseKeepsInv(byAge: bool, s: State, a: Action)
    requires Inv(byAge, s) && Enabled(s, a) && a.Release?
    ensures Inv(byAge, Apply(s, a))
  {
    var s' := Apply(s, a);
    assert Later(s, s');
    assert TaskOk(byAge, s, a.id);
    OwningIsEnough(byAge, s', a.id);
    forall u | Live(s', u) ensures TaskOk(byAge, s', u) {
      if u != a.id { SameDiskKeepsTask(byAge, s, s', u); }
    }
    SameDiskKeepsDirs(byAge, s, s');
  }

  lemma {:induction false} ReachableInv(byAge: bool, actions: seq<Action>)
    requires After(actions).Some? && SoundRun(byAge, actions)
    ensures Inv(byAge, After(actions).value)
    decreases |actions|
  {
    if actions != [] {
      var last := |actions| - 1;
      ReachableInv(byAge, actions[..last]);
      ActionKeepsInv(byAge, After(actions[..last]).value, actions[last]);
    }
  }

  lemma ActionKeepsInv(byAge: bool, s: State, a: Action)
    requires Inv(byAge, s) && Enabled(s, a) && SoundJudgement(byAge, s, a)
    ensures Inv(byAge, Apply(s, a))
  {
    if a.Step? { StepKeepsInv(byAge, s, a.id, a.c); }
    else if a.Spawn? || a.Exit? { ProcessActionKeepsInv(byAge, s, a); }
    else if a.Begin? { BeginKeepsInv(byAge, s, a); }
    else { ReleaseKeepsInv(byAge, s, a); }
  }

  // ----- the theorems

  lemma TrackedMoves(s: State, i: Ino, creator: OwnerId)
    requires Intact(s.disk) && TombsOk(s.disk) && Tracked(s, i, creator)
    ensures CanMove(s.disk, i) <==> s.disk.lock == Some(i)
    ensures s.disk.lock != Some(i) ==> i in s.disk.tombs && s.disk.tombs[i] == i && !Empty(s.disk.dirs[i])
  {
  }

  lemma GoneIsNotOwned(byAge: bool, s: State, i: Ino, creator: OwnerId, u: TaskId)
    requires Inv(byAge, s) && Tracked(s, i, creator) && s.disk.lock == Some(i) && Live(s, u)
    ensures !Owning(s.tasks[u].pc)
  {
    assert TaskOk(byAge, s, u);
  }

  /** A reaper's rename succeeds exactly when the directory it judged stale is still
      at the lock path; a delayed one finds a non-empty tombstone under that name. */
  lemma DelayedReaperCannotMoveSuccessor(byAge: bool, actions: seq<Action>, id: TaskId)
    requires After(actions).Some? && SoundRun(byAge, actions)
    requires Live(After(actions).value, id) && After(actions).value.tasks[id].pc.Rename?
    ensures var s := After(actions).value; var t := s.tasks[id];
            && Intact(s.disk) && Gone(s, t.target)
            && t.ino in s.disk.dirs && s.disk.dirs[t.ino].creator == t.target
            && (CanMove(s.disk, t.ino) <==> s.disk.lock == Some(t.ino))
            && (s.disk.lock != Some(t.ino) ==>
                  t.ino in s.disk.tombs && s.disk.tombs[t.ino] == t.ino && !Empty(s.disk.dirs[t.ino]))
            && (s.disk.lock == Some(t.ino) ==> forall u :: Live(s, u) ==> !Owning(s.tasks[u].pc))
  {
    ReachableInv(byAge, actions);
    RenamingReaper(byAge, After(actions).value, id);
  }

  lemma RenamingReaper(byAge: bool, s: State, id: TaskId)
    requires Inv(byAge, s) && Live(s, id) && s.tasks[id].pc.Rename?
    ensures var t := s.tasks[id];
            && Tracked(s, t.ino, t.target)
            && (CanMove(s.disk, t.ino) <==> s.disk.lock == Some(t.ino))
            && (s.disk.lock != Some(t.ino) ==>
                  t.ino in s.disk.tombs && s.disk.tombs[t.ino] == t.ino && !Empty(s.disk.dirs[t.ino]))
            && (s.disk.lock == Some(t.ino) ==> forall u :: Live(s, u) ==> !Owning(s.tasks[u].pc))
  {
    var t := s.tasks[id];
    assert TaskOk(byAge, s, id);
    TrackedMoves(s, t.ino, t.target);
    if s.disk.lock == Some(t.ino) {
      forall u | Live(s, u) ensures !Owning(s.tasks[u].pc) { GoneIsNotOwned(byAge, s, t.ino, t.target, u); }
    }
  }

  // ----- runs in which no lock is reaped by its age

  /** Every lock directory judged stale has a recorded owner of the judge's own host,
      found dead.  Nothing is said about markers. */
  predicate AgelessRun(actions: seq<Action>)
    decreases |actions|
  {
    actions != [] ==>
      var last := |actions| - 1;
      && AgelessRun(actions[..last])
      && (After(actions[..last]).Some? ==> AgelessJudgement(After(actions[..last]).value, actions[last]))
  }

  predicate AgelessJudgement(s: State, a: Action) {
    a.Step? && a.id in s.tasks && s.tasks[a.id].pc.Judge?
      && Stale(s.running, s.tasks[a.id], s.tasks[a.id].owner, a.c) ==>
        IsAlive(s.running, s.tasks[a.id], s.tasks[a.id].owner, a.c) == Dead
  }

  /** Judging a recorded owner of this host dead is sound, by the process table alone. */
  lemma LocalDeathIsSound(byAge: bool, s: State, id: TaskId, c: Choice)
    requires Inv(byAge, s) && Live(s, id) && s.tasks[id].pc.Judge?
    requires IsAlive(s.running, s.tasks[id], s.tasks[id].owner, c) == Dead
    ensures SoundOwner(s, Step(id, c)) && KnownOwner(s, Step(id, c))
  {
    assert TaskOk(byAge, s, id);
    assert TargetFacts(s, s.tasks[id]);
  }

  lemma {:induction false} AgelessRunIsSound(actions: seq<Action>)
    requires After(actions).Some? && AgelessRun(actions)
    ensures SoundRun(false, actions)
    decreases |actions|
  {
    if actions != [] {
      var last := |actions| - 1;
      var s, a := After(actions[..last]).value, actions[last];
      AgelessRunIsSound(actions[..last]);
      ReachableInv(false, actions[..last]);
      if a.Step? && s.tasks[a.id].pc.Judge? && Stale(s.running, s.tasks[a.id], s.tasks[a.id].owner, a.c) {
        LocalDeathIsSound(false, s, a.id, a.c);
      }
    }
  }
}
