/** Mutual exclusion of the rollout lease, over every run. */
module RolloutLeaseSafety {
  import opened Results
  import opened RolloutPhases
  import opened RolloutLease

  // ----- what a program counter promises about the lease path

  /** Everything a task relies on: what is at the lease path. */
  datatype View = Absent | Present(ino: Ino, dir: Dir)

  function ViewOf(d: Disk): View
    requires Intact(d)
  {
    if d.lease.Some? then Present(d.lease.value, d.dirs[d.lease.value]) else Absent
  }

  predicate OwningWhy(why: Why) { why.Acquired? || why.Releasing? || why.Working? }

  function WhyOf(pc: Pc): Option<Why> {
    if IsLook(pc) then Some(pc.why) else None
  }

  predicate Looking(pc: Pc, why: Why) { WhyOf(pc) == Some(why) }

  /** From its mkdir until it gives the directory up. */
  predicate Owning(pc: Pc) {
    || (IsAcquire(pc) && !pc.Mkdir?)
    || (IsLook(pc) && OwningWhy(pc.why))
    || IsClean(pc)
    || pc.Held?
  }

  predicate WithoutOwnerFile(pc: Pc) { pc.Chmod? || pc.StatNew? || pc.OpenOwner? || pc.ReleaseRmdir? }

  predicate OwnerFileWritten(pc: Pc) {
    || pc.StatOwner? || pc.SyncOwner? || pc.CleanOwnerStat? || pc.CleanOwnerUnlink?
    || (IsLook(pc) && OwningWhy(pc.why))
    || pc.Held? || pc.ReleaseUnlink?
  }

  predicate ReaperFileCreated(pc: Pc) {
    || pc.WriteReaper? || pc.StatReaper? || pc.SyncReaper? || pc.StatBeforeRename? || pc.Rename?
    || pc.DropStat? || pc.DropUnlink? || Looking(pc, AfterReaper)
  }

  predicate OwnerVerifiedDead(pc: Pc) {
    ReaperFileCreated(pc) || pc.OpenReaper? || Looking(pc, BeforeReaper)
  }

  predicate OwningOk(v: View, id: TaskId, t: Task) {
    Owning(t.pc) ==>
      && v.Present?
      && v.dir.creator == id
      && (!(t.pc.Chmod? || t.pc.StatNew?) ==> t.meta == v.ino)
      && (WithoutOwnerFile(t.pc) ==> v.dir.owner.None?)
      && (OwnerFileWritten(t.pc) ==> v.dir.owner == Some(File(Me(id, t), true)))
      && (t.pc.WriteOwner? ==> t.pc.dir == v.ino && v.dir.owner == Some(File(Me(id, t), false)))
  }

  predicate ReapingOk(v: View, retired: set<Process>, id: TaskId, t: Task) {
    && (ReaperFileCreated(t.pc) ==>
          && v.Present? && v.dir.reaper.Some?
          && v.dir.reaper.value.owner.ownerId == ReaperId(id, t.attempt))
    && (OwnerVerifiedDead(t.pc) ==> t.seen.owner.Some? && t.seen.owner.value.process in retired)
    && (Looking(t.pc, AfterReaper) || t.pc.Rename? ==> v.Present? && v.ino == t.seen.ino)
    && (t.pc.Rename? ==> v.dir.owner == Some(File(t.seen.owner.value, true)))
  }

  predicate Known(running: map<Pid, nat>, retired: set<Process>, p: Process) {
    Running(running, p) || p in retired
  }

  predicate TaskOk(running: map<Pid, nat>, retired: set<Process>, v: View, id: TaskId, t: Task) {
    && OwningOk(v, id, t)
    && ReapingOk(v, retired, id, t)
    && (t.pc.ReadTicks? && t.seen.owner.Some? ==> Known(running, retired, t.seen.owner.value.process))
  }

  // ----- the invariant

  /** Every owner file was written by the directory's creator. */
  ghost predicate FilesOk(d: Disk, tasks: map<TaskId, Task>) {
    forall i :: i in d.dirs && d.dirs[i].owner.Some? ==>
      var dir := d.dirs[i];
      dir.creator in tasks && dir.owner.value.owner == Me(dir.creator, tasks[dir.creator])
  }

  ghost predicate TombsOk(d: Disk) {
    && (forall k :: k in d.tombs ==> d.tombs[k] in d.dirs && Some(d.tombs[k]) != d.lease)
    && (forall j, k :: j in d.tombs && k in d.tombs && j != k ==> d.tombs[j] != d.tombs[k])
  }

  ghost predicate ProcessesOk(s: State) {
    && (forall p :: p in s.retired ==> !Running(s.running, p))
    && (forall u :: u in s.tasks ==> Known(s.running, s.retired, s.tasks[u].process))
  }

  ghost predicate TasksOk(s: State)
    requires Intact(s.disk)
  {
    forall u :: Live(s, u) ==> TaskOk(s.running, s.retired, ViewOf(s.disk), u, s.tasks[u])
  }

  ghost predicate Inv(s: State) {
    && Intact(s.disk)
    && TombsOk(s.disk)
    && FilesOk(s.disk, s.tasks)
    && ProcessesOk(s)
    && TasksOk(s)
  }

  // ----- a step of one task keeps the other tasks' promises

  lemma OwnerOfPresent(s: State)
    requires Inv(s) && ViewOf(s.disk).Present? && ViewOf(s.disk).dir.owner.Some?
    ensures var dir := ViewOf(s.disk).dir;
            dir.creator in s.tasks && dir.owner.value.owner == Me(dir.creator, s.tasks[dir.creator])
  {
  }

  /** The owner of the directory changes its owner file, or removes the empty directory. */
  lemma OwnerStepKeepsOthers(s: State, v: View, id: TaskId, u: TaskId)
    requires Inv(s) && Live(s, id) && Live(s, u) && u != id
    requires Owning(s.tasks[id].pc)
    requires var w := ViewOf(s.disk);
             w.Present? && if v.Present? then v.ino == w.ino && v.dir == w.dir.(owner := v.dir.owner)
                           else w.dir.reaper.None?
    ensures TaskOk(s.running, s.retired, v, u, s.tasks[u])
  {
    var w := ViewOf(s.disk);
    assert TaskOk(s.running, s.retired, w, id, s.tasks[id]);
    assert TaskOk(s.running, s.retired, w, u, s.tasks[u]);
    assert !Owning(s.tasks[u].pc);
    if s.tasks[u].pc.Rename? { OwnerOfPresent(s); assert false; }
  }

  /** A task creates, writes or removes its own reaper file. */
  lemma ReaperStepKeepsOthers(s: State, v: View, id: TaskId, u: TaskId)
    requires Inv(s) && Live(s, id) && Live(s, u) && u != id
    requires var w := ViewOf(s.disk);
             && w.Present? && v.Present? && v.ino == w.ino && v.dir == w.dir.(reaper := v.dir.reaper)
             && (w.dir.reaper.None? || w.dir.reaper.value.owner.ownerId.task == id)
    ensures TaskOk(s.running, s.retired, v, u, s.tasks[u])
  {
    assert TaskOk(s.running, s.retired, ViewOf(s.disk), u, s.tasks[u]);
  }

  /** A reaper's rename disturbs no live task: the directory it moves was made by a dead one. */
  lemma RenameKeepsOthers(s: State, id: TaskId, u: TaskId)
    requires Inv(s) && Live(s, id) && Live(s, u) && u != id && s.tasks[id].pc.Rename?
    ensures TaskOk(s.running, s.retired, Absent, u, s.tasks[u])
  {
    assert TaskOk(s.running, s.retired, ViewOf(s.disk), id, s.tasks[id]);
    assert TaskOk(s.running, s.retired, ViewOf(s.disk), u, s.tasks[u]);
    OwnerOfPresent(s);
  }

  /** Nobody relies on an absent lease path. */
  lemma MkdirKeepsOthers(s: State, v: View, u: TaskId)
    requires Inv(s) && Live(s, u) && ViewOf(s.disk).Absent?
    ensures TaskOk(s.running, s.retired, v, u, s.tasks[u])
  {
    assert TaskOk(s.running, s.retired, ViewOf(s.disk), u, s.tasks[u]);
  }

  // ----- each kind of step keeps the invariant

  /** What a step of task `id` to disk `d` and task state `t` must leave true. */
  ghost predicate StepOk(s: State, id: TaskId, d: Disk, t: Task)
    requires id in s.tasks
  {
    && Intact(d)
    && TombsOk(d)
    && FilesOk(d, s.tasks)
    && t.process == s.tasks[id].process
    && TaskOk(s.running, s.retired, ViewOf(d), id, t)
    && (forall u :: Live(s, u) && u != id ==> TaskOk(s.running, s.retired, ViewOf(d), u, s.tasks[u]))
  }

  lemma MyTaskOk(s: State, id: TaskId)
    requires Inv(s) && Live(s, id)
    ensures TaskOk(s.running, s.retired, ViewOf(s.disk), id, s.tasks[id])
  {
  }

  lemma SameViewKeepsOthers(s: State, id: TaskId, d: Disk)
    requires Inv(s) && Intact(d) && ViewOf(d) == ViewOf(s.disk)
    ensures forall u :: Live(s, u) && u != id ==> TaskOk(s.running, s.retired, ViewOf(d), u, s.tasks[u])
  {
  }

  // The mover's own promise, on values alone.

  lemma GoOk(running: map<Pid, nat>, retired: set<Process>, v: View, id: TaskId, t: Task, pc: Pc)
    requires TaskOk(running, retired, v, id, t)
    requires !OwnerVerifiedDead(pc) && !pc.ReadTicks? && !WithoutOwnerFile(pc) && !pc.WriteOwner?
    requires Owning(pc) ==> Owning(t.pc) && !t.pc.Chmod? && !t.pc.StatNew?
    requires OwnerFileWritten(pc) ==> OwnerFileWritten(t.pc)
    ensures TaskOk(running, retired, v, id, Go(t, pc))
  {
  }

  lemma NextAttemptOk(running: map<Pid, nat>, retired: set<Process>, v: View, id: TaskId, t: Task)
    ensures TaskOk(running, retired, v, id, NextAttempt(t))
  {
  }

  lemma FailWorkOk(running: map<Pid, nat>, retired: set<Process>, v: View, id: TaskId, t: Task, w: Work)
    requires TaskOk(running, retired, v, id, t) && Owning(t.pc) && OwnerFileWritten(t.pc)
    ensures TaskOk(running, retired, v, id, FailWork(t, w))
  {
    GoOk(running, retired, v, id, t, LookExists(Releasing));
    GoOk(running, retired, v, id, t, Held(Idle));
  }

  lemma ThrewOk(running: map<Pid, nat>, retired: set<Process>, v: View, id: TaskId, t: Task, why: Why)
    requires TaskOk(running, retired, v, id, t) && Looking(t.pc, why)
    ensures TaskOk(running, retired, v, id, Threw(t, why))
  {
    match why
    case Working(w) => FailWorkOk(running, retired, v, id, t, w);
    case _ =>
  }

  /** Going on to the rename means the owner file was just read and names a dead process. */
  lemma AfterReaperOk(
    running: map<Pid, nat>, retired: set<Process>, v: View, id: TaskId, t: Task, i: Option<Inspection>)
    requires TaskOk(running, retired, v, id, t) && Looking(t.pc, AfterReaper)
    requires i.Some? && i.value.owner.Some? ==> v.Present? && v.dir.owner == Some(File(i.value.owner.value, true))
    ensures TaskOk(running, retired, v, id, Concluded(id, t, AfterReaper, i))
  {
  }

  lemma ConcludedOk(
    running: map<Pid, nat>, retired: set<Process>, v: View, id: TaskId, t: Task, why: Why, i: Option<Inspection>)
    requires TaskOk(running, retired, v, id, t) && Looking(t.pc, why)
    requires i.Some? && i.value.owner.Some? ==>
               && v.Present? && v.dir.owner == Some(File(i.value.owner.value, true))
               && Known(running, retired, i.value.owner.value.process)
    ensures TaskOk(running, retired, v, id, Concluded(id, t, why, i))
  {
    match why
    case Working(w) =>
      FailWorkOk(running, retired, v, id, t, w);
      GoOk(running, retired, v, id, t, Held(w));
    case FirstLook => FirstLookOk(running, retired, v, id, t, i);
    case BeforeReaper => NextAttemptOk(running, retired, v, id, t);
    case AfterReaper => AfterReaperOk(running, retired, v, id, t, i);
    case _ =>
  }

  lemma FirstLookOk(
    running: map<Pid, nat>, retired: set<Process>, v: View, id: TaskId, t: Task, i: Option<Inspection>)
    requires TaskOk(running, retired, v, id, t) && Looking(t.pc, FirstLook)
    requires i.Some? && i.value.owner.Some? ==> Known(running, retired, i.value.owner.value.process)
    ensures TaskOk(running, retired, v, id, Concluded(id, t, FirstLook, i))
  {
    NextAttemptOk(running, retired, v, id, t);
  }

  lemma LookOk(running: map<Pid, nat>, retired: set<Process>, d: Disk, id: TaskId, t: Task, c: Choice)
    requires Intact(d) && TaskOk(running, retired, ViewOf(d), id, t) && IsLook(t.pc)
    requires ReadOwner(d).Some? ==> Known(running, retired, ReadOwner(d).value.process)
    ensures TaskOk(running, retired, ViewOf(d), id, LookStep(d, id, t, c))
  {
    var v := ViewOf(d);
    ThrewOk(running, retired, v, id, t, t.pc.why);
    match t.pc
    case LookExists(why) => ConcludedOk(running, retired, v, id, t, why, None);
    case LookOwner(why, ino, entries) =>
      ConcludedOk(running, retired, v, id, t, why, Some(Inspection(ino, ReadOwner(d), entries)));
    case _ =>
  }

  lemma LookKeeps(s: State, id: TaskId, c: Choice)
    requires Inv(s) && Live(s, id) && IsLook(s.tasks[id].pc)
    ensures StepOk(s, id, s.disk, LookStep(s.disk, id, s.tasks[id], c))
  {
    MyTaskOk(s, id);
    SameViewKeepsOthers(s, id, s.disk);
    if ReadOwner(s.disk).Some? { OwnerOfPresent(s); }
    LookOk(s.running, s.retired, s.disk, id, s.tasks[id], c);
  }

  lemma WorkOk(running: map<Pid, nat>, retired: set<Process>, d: Disk, id: TaskId, t: Task, c: Choice)
    requires Intact(d) && TaskOk(running, retired, ViewOf(d), id, t) && t.pc.Held?
    ensures TaskOk(running, retired, ViewOf(d), id, WorkStep(d, t, c).1)
  {
    var pc := WorkStep(d, t, c).1.pc;
    GoOk(running, retired, ViewOf(d), id, t, pc);
  }

  lemma WorkKeeps(s: State, id: TaskId, c: Choice)
    requires Inv(s) && Live(s, id) && s.tasks[id].pc.Held?
    ensures var (d, t) := WorkStep(s.disk, s.tasks[id], c); StepOk(s, id, d, t)
  {
    MyTaskOk(s, id);
    var (d, t) := WorkStep(s.disk, s.tasks[id], c);
    assert d == s.disk.(journal := d.journal, published := d.published);
    SameViewKeepsOthers(s, id, d);
    WorkOk(s.running, s.retired, s.disk, id, s.tasks[id], c);
  }

  lemma MakeLeaseOk(running: map<Pid, nat>, retired: set<Process>, d: Disk, id: TaskId, t: Task, c: Choice)
    requires Intact(d) && TaskOk(running, retired, ViewOf(d), id, t) && (t.pc.Mkdir? || t.pc.Chmod? || t.pc.StatNew?)
    ensures var (d', t') := AcquireStep(d, id, t, c);
            Intact(d') && TaskOk(running, retired, ViewOf(d'), id, t') && t'.process == t.process
  {
  }

  lemma OpenOwnerOk(running: map<Pid, nat>, retired: set<Process>, d: Disk, id: TaskId, t: Task, c: Choice)
    requires Intact(d) && TaskOk(running, retired, ViewOf(d), id, t) && (t.pc.OpenOwner?)
    ensures var (d', t') := AcquireStep(d, id, t, c);
            Intact(d') && TaskOk(running, retired, ViewOf(d'), id, t') && t'.process == t.process
  {
  }

  lemma WriteOwnerOk(running: map<Pid, nat>, retired: set<Process>, d: Disk, id: TaskId, t: Task, c: Choice)
    requires Intact(d) && TaskOk(running, retired, ViewOf(d), id, t) && (t.pc.WriteOwner?)
    ensures var (d', t') := AcquireStep(d, id, t, c);
            Intact(d') && TaskOk(running, retired, ViewOf(d'), id, t') && t'.process == t.process
  {
  }

  lemma CheckOwnerOk(running: map<Pid, nat>, retired: set<Process>, d: Disk, id: TaskId, t: Task, c: Choice)
    requires Intact(d) && TaskOk(running, retired, ViewOf(d), id, t) && (t.pc.StatOwner? || t.pc.SyncOwner?)
    ensures var (d', t') := AcquireStep(d, id, t, c);
            Intact(d') && TaskOk(running, retired, ViewOf(d'), id, t') && t'.process == t.process
  {
    GoOk(running, retired, ViewOf(d), id, t, AcquireStep(d, id, t, c).1.pc);
  }

  lemma AcquireOk(running: map<Pid, nat>, retired: set<Process>, d: Disk, id: TaskId, t: Task, c: Choice)
    requires Intact(d) && TaskOk(running, retired, ViewOf(d), id, t) && (IsAcquire(t.pc))
    ensures var (d', t') := AcquireStep(d, id, t, c);
            Intact(d') && TaskOk(running, retired, ViewOf(d'), id, t') && t'.process == t.process
  {
    if t.pc.OpenOwner? { OpenOwnerOk(running, retired, d, id, t, c); }
    else if t.pc.WriteOwner? { WriteOwnerOk(running, retired, d, id, t, c); }
    else if t.pc.StatOwner? || t.pc.SyncOwner? { CheckOwnerOk(running, retired, d, id, t, c); }
    else { MakeLeaseOk(running, retired, d, id, t, c); }
  }

  /** While a task owns the directory, its acquisition changes at most the owner file. */
  lemma AcquireTouchesOwnerFile(running: map<Pid, nat>, retired: set<Process>, d: Disk, id: TaskId, t: Task, c: Choice)
    requires Intact(d) && TaskOk(running, retired, ViewOf(d), id, t) && IsAcquire(t.pc) && !t.pc.Mkdir?
    ensures var d' := AcquireStep(d, id, t, c).0;
            && d.lease.Some?
            && d' == WithDir(d, d.lease.value, d'.dirs[d.lease.value])
            && d'.dirs[d.lease.value] == LeaseDir(d).value.(owner := d'.dirs[d.lease.value].owner)
            && (d'.dirs[d.lease.value].owner.Some? ==>
                  d'.dirs[d.lease.value].owner.value.owner == Me(id, t)
                  || d'.dirs[d.lease.value].owner == LeaseDir(d).value.owner)
  {
    var d' := AcquireStep(d, id, t, c).0;
    assert d.dirs == d.dirs[d.lease.value := d.dirs[d.lease.value]];
  }

  lemma OwnerFileChangeKeeps(s: State, id: TaskId, d: Disk, dir: Dir)
    requires Inv(s) && Live(s, id) && Owning(s.tasks[id].pc) && s.disk.lease.Some?
    requires d == WithDir(s.disk, s.disk.lease.value, dir)
    requires dir == LeaseDir(s.disk).value.(owner := dir.owner)
    requires dir.owner.Some? ==> dir.owner.value.owner == Me(id, s.tasks[id]) || dir.owner == LeaseDir(s.disk).value.owner
    ensures Intact(d) && TombsOk(d) && FilesOk(d, s.tasks)
    ensures forall u :: Live(s, u) && u != id ==> TaskOk(s.running, s.retired, ViewOf(d), u, s.tasks[u])
  {
    MyTaskOk(s, id);
    forall u | Live(s, u) && u != id ensures TaskOk(s.running, s.retired, ViewOf(d), u, s.tasks[u]) {
      OwnerStepKeepsOthers(s, ViewOf(d), id, u);
    }
  }

  lemma MkdirKeeps(s: State, id: TaskId, c: Choice)
    requires Inv(s) && Live(s, id) && s.tasks[id].pc.Mkdir?
    ensures var (d, t) := AcquireStep(s.disk, id, s.tasks[id], c); StepOk(s, id, d, t)
  {
    MyTaskOk(s, id);
    AcquireOk(s.running, s.retired, s.disk, id, s.tasks[id], c);
    var (d, t) := AcquireStep(s.disk, id, s.tasks[id], c);
    if d != s.disk {
      forall u | Live(s, u) && u != id ensures TaskOk(s.running, s.retired, ViewOf(d), u, s.tasks[u]) {
        MkdirKeepsOthers(s, ViewOf(d), u);
      }
    } else {
      SameViewKeepsOthers(s, id, d);
    }
  }

  lemma AcquireKeeps(s: State, id: TaskId, c: Choice)
    requires Inv(s) && Live(s, id) && IsAcquire(s.tasks[id].pc) && !s.tasks[id].pc.Mkdir?
    ensures var (d, t) := AcquireStep(s.disk, id, s.tasks[id], c); StepOk(s, id, d, t)
  {
    MyTaskOk(s, id);
    AcquireOk(s.running, s.retired, s.disk, id, s.tasks[id], c);
    AcquireTouchesOwnerFile(s.running, s.retired, s.disk, id, s.tasks[id], c);
    var (d, t) := AcquireStep(s.disk, id, s.tasks[id], c);
    OwnerFileChangeKeeps(s, id, d, d.dirs[s.disk.lease.value]);
  }

  lemma CleanLookOk(running: map<Pid, nat>, retired: set<Process>, d: Disk, id: TaskId, t: Task, c: Choice)
    requires Intact(d) && TaskOk(running, retired, ViewOf(d), id, t) && (t.pc.CleanOwnerStat? || t.pc.CleanDirStat?)
    ensures var (d', t') := CleanStep(d, id, t, c);
            Intact(d') && TaskOk(running, retired, ViewOf(d'), id, t') && t'.process == t.process
  {
    GoOk(running, retired, ViewOf(d), id, t, CleanStep(d, id, t, c).1.pc);
  }

  lemma CleanUnlinkOk(running: map<Pid, nat>, retired: set<Process>, d: Disk, id: TaskId, t: Task, c: Choice)
    requires Intact(d) && TaskOk(running, retired, ViewOf(d), id, t) && (t.pc.CleanOwnerUnlink? || t.pc.ReleaseUnlink?)
    ensures var (d', t') := CleanStep(d, id, t, c);
            Intact(d') && TaskOk(running, retired, ViewOf(d'), id, t') && t'.process == t.process
  {
  }

  lemma CleanRmdirOk(running: map<Pid, nat>, retired: set<Process>, d: Disk, id: TaskId, t: Task, c: Choice)
    requires Intact(d) && TaskOk(running, retired, ViewOf(d), id, t) && (t.pc.CleanRmdir? || t.pc.ReleaseRmdir?)
    ensures var (d', t') := CleanStep(d, id, t, c);
            Intact(d') && TaskOk(running, retired, ViewOf(d'), id, t') && t'.process == t.process
  {
  }

  lemma CleanOk(running: map<Pid, nat>, retired: set<Process>, d: Disk, id: TaskId, t: Task, c: Choice)
    requires Intact(d) && TaskOk(running, retired, ViewOf(d), id, t) && (IsClean(t.pc))
    ensures var (d', t') := CleanStep(d, id, t, c);
            Intact(d') && TaskOk(running, retired, ViewOf(d'), id, t') && t'.process == t.process
  {
    if t.pc.CleanOwnerUnlink? || t.pc.ReleaseUnlink? { CleanUnlinkOk(running, retired, d, id, t, c); }
    else if t.pc.CleanRmdir? || t.pc.ReleaseRmdir? { CleanRmdirOk(running, retired, d, id, t, c); }
    else { CleanLookOk(running, retired, d, id, t, c); }
  }

  lemma RemoveLeaseKeeps(s: State, id: TaskId)
    requires Inv(s) && Live(s, id) && Owning(s.tasks[id].pc) && s.disk.lease.Some?
    requires Entries(LeaseDir(s.disk).value) == {}
    ensures var d := RemoveLease(s.disk);
            && Intact(d) && TombsOk(d) && FilesOk(d, s.tasks)
            && (forall u :: Live(s, u) && u != id ==> TaskOk(s.running, s.retired, ViewOf(d), u, s.tasks[u]))
  {
    var d := RemoveLease(s.disk);
    assert LeaseDir(s.disk).value.reaper.None?;
    forall u | Live(s, u) && u != id ensures TaskOk(s.running, s.retired, ViewOf(d), u, s.tasks[u]) {
      OwnerStepKeepsOthers(s, ViewOf(d), id, u);
    }
  }

  lemma CleanKeeps(s: State, id: TaskId, c: Choice)
    requires Inv(s) && Live(s, id) && IsClean(s.tasks[id].pc)
    ensures var (d, t) := CleanStep(s.disk, id, s.tasks[id], c); StepOk(s, id, d, t)
  {
    MyTaskOk(s, id);
    CleanOk(s.running, s.retired, s.disk, id, s.tasks[id], c);
    var (d, t) := CleanStep(s.disk, id, s.tasks[id], c);
    if d == s.disk { SameViewKeepsOthers(s, id, d); }
    else if d.lease.None? { RemoveLeaseKeeps(s, id); }
    else { OwnerFileChangeKeeps(s, id, d, LeaseDir(s.disk).value.(owner := None)); }
  }

  lemma CreateReaperOk(running: map<Pid, nat>, retired: set<Process>, d: Disk, id: TaskId, t: Task, c: Choice)
    requires Intact(d) && TaskOk(running, retired, ViewOf(d), id, t) && (t.pc.ReadTicks? || t.pc.OpenReaper?)
    ensures var (d', t') := ReapStep(running, d, id, t, c);
            Intact(d') && TaskOk(running, retired, ViewOf(d'), id, t') && t'.process == t.process
  {
  }

  lemma WriteReaperOk(running: map<Pid, nat>, retired: set<Process>, d: Disk, id: TaskId, t: Task, c: Choice)
    requires Intact(d) && TaskOk(running, retired, ViewOf(d), id, t) && (t.pc.WriteReaper?)
    ensures var (d', t') := ReapStep(running, d, id, t, c);
            Intact(d') && TaskOk(running, retired, ViewOf(d'), id, t') && t'.process == t.process
  {
  }

  lemma CheckReaperOk(running: map<Pid, nat>, retired: set<Process>, d: Disk, id: TaskId, t: Task, c: Choice)
    requires Intact(d) && TaskOk(running, retired, ViewOf(d), id, t) && (t.pc.StatReaper? || t.pc.SyncReaper? || t.pc.StatBeforeRename?)
    ensures var (d', t') := ReapStep(running, d, id, t, c);
            Intact(d') && TaskOk(running, retired, ViewOf(d'), id, t') && t'.process == t.process
  {
  }

  lemma RenameOk(running: map<Pid, nat>, retired: set<Process>, d: Disk, id: TaskId, t: Task, c: Choice)
    requires Intact(d) && TaskOk(running, retired, ViewOf(d), id, t) && (t.pc.Rename?)
    ensures var (d', t') := ReapStep(running, d, id, t, c);
            Intact(d') && TaskOk(running, retired, ViewOf(d'), id, t') && t'.process == t.process
  {
  }

  lemma DropReaperOk(running: map<Pid, nat>, retired: set<Process>, d: Disk, id: TaskId, t: Task, c: Choice)
    requires Intact(d) && TaskOk(running, retired, ViewOf(d), id, t) && (t.pc.DropStat? || t.pc.DropUnlink?)
    ensures var (d', t') := ReapStep(running, d, id, t, c);
            Intact(d') && TaskOk(running, retired, ViewOf(d'), id, t') && t'.process == t.process
  {
    NextAttemptOk(running, retired, ViewOf(ReapStep(running, d, id, t, c).0), id, t);
  }

  lemma ReaperFileOk(running: map<Pid, nat>, retired: set<Process>, d: Disk, id: TaskId, t: Task, c: Choice)
    requires Intact(d) && TaskOk(running, retired, ViewOf(d), id, t) && (IsReap(t.pc))
    ensures var (d', t') := ReapStep(running, d, id, t, c);
            Intact(d') && TaskOk(running, retired, ViewOf(d'), id, t') && t'.process == t.process
  {
    if t.pc.ReadTicks? || t.pc.OpenReaper? { CreateReaperOk(running, retired, d, id, t, c); }
    else if t.pc.WriteReaper? { WriteReaperOk(running, retired, d, id, t, c); }
    else if t.pc.Rename? { RenameOk(running, retired, d, id, t, c); }
    else if t.pc.DropStat? || t.pc.DropUnlink? { DropReaperOk(running, retired, d, id, t, c); }
    else { CheckReaperOk(running, retired, d, id, t, c); }
  }

  lemma ReaperFileChangeKeeps(s: State, id: TaskId, d: Disk, ino: Ino, dir: Dir)
    requires Inv(s) && Live(s, id) && ino in s.disk.dirs
    requires d == WithDir(s.disk, ino, dir) && dir == s.disk.dirs[ino].(reaper := dir.reaper)
    requires s.disk.dirs[ino].reaper.Some? ==> s.disk.dirs[ino].reaper.value.owner.ownerId.task == id
    ensures Intact(d) && TombsOk(d) && FilesOk(d, s.tasks)
    ensures forall u :: Live(s, u) && u != id ==> TaskOk(s.running, s.retired, ViewOf(d), u, s.tasks[u])
  {
    if s.disk.lease == Some(ino) {
      forall u | Live(s, u) && u != id ensures TaskOk(s.running, s.retired, ViewOf(d), u, s.tasks[u]) {
        ReaperStepKeepsOthers(s, ViewOf(d), id, u);
      }
    } else {
      SameViewKeepsOthers(s, id, d);
    }
  }

  lemma ReaperFileKeeps(s: State, id: TaskId, c: Choice)
    requires Inv(s) && Live(s, id) && IsReap(s.tasks[id].pc) && !s.tasks[id].pc.Rename?
    ensures var (d, t) := ReapStep(s.running, s.disk, id, s.tasks[id], c); StepOk(s, id, d, t)
  {
    MyTaskOk(s, id);
    ReaperFileOk(s.running, s.retired, s.disk, id, s.tasks[id], c);
    var (d, t) := ReapStep(s.running, s.disk, id, s.tasks[id], c);
    if d == s.disk { SameViewKeepsOthers(s, id, d); }
    else {
      var ino := if s.tasks[id].pc.WriteReaper? then s.tasks[id].pc.dir else s.disk.lease.value;
      ReaperFileChangeKeeps(s, id, d, ino, d.dirs[ino]);
    }
  }

  lemma RenameKeeps(s: State, id: TaskId, c: Choice)
    requires Inv(s) && Live(s, id) && s.tasks[id].pc.Rename?
    ensures var (d, t) := ReapStep(s.running, s.disk, id, s.tasks[id], c); StepOk(s, id, d, t)
  {
    MyTaskOk(s, id);
    ReaperFileOk(s.running, s.retired, s.disk, id, s.tasks[id], c);
    var (d, t) := ReapStep(s.running, s.disk, id, s.tasks[id], c);
    if d == s.disk {
      SameViewKeepsOthers(s, id, d);
    } else {
      forall u | Live(s, u) && u != id ensures TaskOk(s.running, s.retired, ViewOf(d), u, s.tasks[u]) {
        RenameKeepsOthers(s, id, u);
      }
    }
  }

  lemma TombDiskOk(d: Disk, tasks: map<TaskId, Task>, id: TaskId, t: Task, c: Choice)
    requires Intact(d) && TombsOk(d) && FilesOk(d, tasks) && IsTomb(t.pc)
    ensures var d' := TombStep(d, id, t, c).0;
            Intact(d') && TombsOk(d') && FilesOk(d', tasks) && ViewOf(d') == ViewOf(d)
  {
  }

  lemma TombTaskOk(running: map<Pid, nat>, retired: set<Process>, d: Disk, id: TaskId, t: Task, c: Choice)
    requires Intact(d) && IsTomb(t.pc)
    ensures TaskOk(running, retired, ViewOf(d), id, TombStep(d, id, t, c).1)
  {
    NextAttemptOk(running, retired, ViewOf(d), id, t);
  }

  lemma TombKeeps(s: State, id: TaskId, c: Choice)
    requires Inv(s) && Live(s, id) && IsTomb(s.tasks[id].pc)
    ensures var (d, t) := TombStep(s.disk, id, s.tasks[id], c); StepOk(s, id, d, t)
  {
    var (d, t) := TombStep(s.disk, id, s.tasks[id], c);
    TombDiskOk(s.disk, s.tasks, id, s.tasks[id], c);
    SameViewKeepsOthers(s, id, d);
    TombTaskOk(s.running, s.retired, s.disk, id, s.tasks[id], c);
  }

  lemma TaskStepKeeps(s: State, id: TaskId, c: Choice)
    requires Inv(s) && Live(s, id)
    ensures var (d, t) := TaskStep(s.running, s.disk, id, s.tasks[id], c); StepOk(s, id, d, t)
  {
    var pc := s.tasks[id].pc;
    if IsLook(pc) { LookKeeps(s, id, c); }
    else if pc.Mkdir? { MkdirKeeps(s, id, c); }
    else if IsAcquire(pc) { AcquireKeeps(s, id, c); }
    else if IsClean(pc) { CleanKeeps(s, id, c); }
    else if pc.Rename? { RenameKeeps(s, id, c); }
    else if IsReap(pc) { ReaperFileKeeps(s, id, c); }
    else if IsTomb(pc) { TombKeeps(s, id, c); }
    else if pc.Held? { WorkKeeps(s, id, c); }
    else { MyTaskOk(s, id); SameViewKeepsOthers(s, id, s.disk); }
  }

  /** A step whose outcome is fine for everyone re-establishes the invariant. */
  lemma StepOkIsInv(s: State, id: TaskId, d: Disk, t: Task)
    requires Inv(s) && Live(s, id) && StepOk(s, id, d, t)
    ensures Inv(s.(disk := d, tasks := s.tasks[id := t]))
  {
    var s' := s.(disk := d, tasks := s.tasks[id := t]);
    forall u | Live(s', u) ensures TaskOk(s'.running, s'.retired, ViewOf(d), u, s'.tasks[u]) {
      assert Live(s, u);
    }
  }

  lemma ProcessActionKeepsInv(s: State, a: Action)
    requires Inv(s) && Enabled(s, a) && (a.Spawn? || a.Exit?)
    ensures Inv(Apply(s, a))
  {
    var s' := Apply(s, a);
    forall u | Live(s', u) ensures TaskOk(s'.running, s'.retired, ViewOf(s'.disk), u, s'.tasks[u]) {
      assert Live(s, u);
    }
  }

  lemma BeginKeepsInv(s: State, a: Action)
    requires Inv(s) && Enabled(s, a) && a.Begin?
    ensures Inv(Apply(s, a))
  {
    var s' := Apply(s, a);
    forall u | Live(s', u) ensures TaskOk(s'.running, s'.retired, ViewOf(s'.disk), u, s'.tasks[u]) {
      if u != a.id { assert Live(s, u); }
    }
  }

  lemma RequestKeepsInv(s: State, a: Action)
    requires Inv(s) && Enabled(s, a) && (a.Mutate? || a.Release?)
    ensures Inv(Apply(s, a))
  {
    MyTaskOk(s, a.id);
    SameViewKeepsOthers(s, a.id, s.disk);
    var t := Apply(s, a).tasks[a.id];
    GoOk(s.running, s.retired, ViewOf(s.disk), a.id, s.tasks[a.id], t.pc);
    StepOkIsInv(s, a.id, s.disk, t);
  }

  lemma ApplyKeepsInv(s: State, a: Action)
    requires Inv(s) && Enabled(s, a)
    ensures Inv(Apply(s, a))
  {
    if a.Spawn? || a.Exit? { ProcessActionKeepsInv(s, a); }
    else if a.Begin? { BeginKeepsInv(s, a); }
    else if a.Step? {
      TaskStepKeeps(s, a.id, a.c);
      var (d, t) := TaskStep(s.running, s.disk, a.id, s.tasks[a.id], a.c);
      StepOkIsInv(s, a.id, d, t);
    } else { RequestKeepsInv(s, a); }
  }

  lemma {:induction false} ReachableInv(actions: seq<Action>)
    requires After(actions).Some?
    ensures Inv(After(actions).value)
    decreases |actions|
  {
    if actions != [] {
      var last := |actions| - 1;
      ReachableInv(actions[..last]);
      ApplyKeepsInv(After(actions[..last]).value, actions[last]);
    }
  }

  // ----- the theorems

  /** The handle has been returned and not released, or is about to be. */
  predicate Holding(pc: Pc) {
    pc.Held? || (IsLook(pc) && pc.why.Working?)
  }

  /** At most one live task is acquiring, holding or releasing the lease; in
      particular at most one live handle holds it. */
  lemma LeaseMutualExclusion(actions: seq<Action>, a: TaskId, b: TaskId)
    requires After(actions).Some?
    requires Live(After(actions).value, a) && Owning(After(actions).value.tasks[a].pc)
    requires Live(After(actions).value, b) && Owning(After(actions).value.tasks[b].pc)
    ensures a == b
  {
    var s := After(actions).value;
    ReachableInv(actions);
    MyTaskOk(s, a);
    MyTaskOk(s, b);
  }

  /** A live handle's directory stays at the lease path with its complete owner
      record, whatever every other task does. */
  lemma HolderKeepsItsLease(actions: seq<Action>, id: TaskId)
    requires After(actions).Some?
    requires Live(After(actions).value, id) && Holding(After(actions).value.tasks[id].pc)
    ensures var s := After(actions).value; var t := s.tasks[id];
            && Intact(s.disk)
            && s.disk.lease == Some(t.meta)
            && ReadOwner(s.disk) == Some(Me(id, t))
  {
    ReachableInv(actions);
    MyTaskOk(After(actions).value, id);
  }

  /** So its ownership check can only be refused because of a stray reaper.json. */
  lemma OwnershipCheckIsExact(actions: seq<Action>, id: TaskId)
    requires After(actions).Some?
    requires Live(After(actions).value, id) && Holding(After(actions).value.tasks[id].pc)
    ensures var d := After(actions).value.disk;
            Intact(d) && d.lease.Some? &&
            (StillMine(id, After(actions).value.tasks[id],
                       Some(Inspection(d.lease.value, ReadOwner(d), Entries(LeaseDir(d).value))))
             <==> LeaseDir(d).value.reaper.None?)
  {
    HolderKeepsItsLease(actions, id);
    var d := After(actions).value.disk;
    assert LeaseDir(d).value.reaper.Some? ==> ReaperJson in Entries(LeaseDir(d).value);
    assert OwnerJson in Entries(LeaseDir(d).value);
  }

  /** Releasing frees the lease path exactly when no reaper.json lies in the directory. */
  lemma ReleaseFreesUnlessReaper(actions: seq<Action>, id: TaskId, c: Choice)
    requires After(actions).Some? && c.ok
    requires Live(After(actions).value, id) && After(actions).value.tasks[id].pc.ReleaseRmdir?
    ensures var s := After(actions).value;
            && Enabled(s, Step(id, c))
            && s.disk.lease == Some(s.tasks[id].meta)
            && (Apply(s, Step(id, c)).disk.lease.None? <==> LeaseDir(s.disk).value.reaper.None?)
  {
    var s := After(actions).value;
    ReachableInv(actions);
    MyTaskOk(s, id);
    var dir := LeaseDir(s.disk).value;
    if dir.reaper.Some? { assert ReaperJson in Entries(dir); }
  }

  /** When a reaper is about to rename, the directory it would move is the one it
      inspected, was made by an exited process, and no live task is acquiring,
      holding or releasing a lease. */
  lemma ReaperMovesOnlyDeadLeases(actions: seq<Action>, id: TaskId)
    requires After(actions).Some?
    requires Live(After(actions).value, id) && After(actions).value.tasks[id].pc.Rename?
    ensures var s := After(actions).value;
            && Intact(s.disk)
            && s.disk.lease == Some(s.tasks[id].seen.ino)
            && LeaseDir(s.disk).value.creator in s.tasks
            && s.tasks[LeaseDir(s.disk).value.creator].process in s.retired
            && !Live(s, LeaseDir(s.disk).value.creator)
            && (forall u :: Live(s, u) ==> !Owning(s.tasks[u].pc))
  {
    var s := After(actions).value;
    ReachableInv(actions);
    MyTaskOk(s, id);
    OwnerOfPresent(s);
    forall u | Live(s, u) ensures !Owning(s.tasks[u].pc) { MyTaskOk(s, u); }
  }

  /** An exited process instance never runs again, although its pid may be reused. */
  lemma {:induction false} DeadStaysDead(actions: seq<Action>, from: nat, p: Process)
    requires from <= |actions| && After(actions).Some?
    requires After(actions[..from]).Some? && p in After(actions[..from]).value.retired
    ensures p in After(actions).value.retired && !Running(After(actions).value.running, p)
    decreases |actions|
  {
    ReachableInv(actions);
    if from < |actions| {
      var last := |actions| - 1;
      assert actions[..last][..from] == actions[..from];
      DeadStaysDead(actions[..last], from, p);
    } else {
      assert actions[..from] == actions;
    }
  }
}
