/** The rollout lease and the journal published under it (src/rollout-journal.js),
    as a state machine over atomic file-system steps.

    A task is one call of createRolloutJournal or openRolloutJournal, followed by
    the handle that call returns.  Its program counter names the next system call.
    Any step may fail with an I/O error (`ok == false`), and a process that exits
    simply takes no more steps.  Inode numbers are chosen freely among those not in
    use, so they may be reused. */
module RolloutLease {
  import opened Results
  import opened RolloutPhases

  type Pid = nat
  type TaskId = nat
  type Ino = nat

  /** A process instance: the pid together with its kernel start ticks. */
  datatype Process = Process(pid: Pid, startTicks: nat)

  /** `ownerId` is 128 random bits: fresh for the lease and for every reclamation attempt. */
  datatype OwnerId = LeaseId(task: TaskId) | ReaperId(task: TaskId, attempt: nat)

  datatype Owner = Owner(ownerId: OwnerId, process: Process)

  /** A record file; `written` tells whether its whole text is readable. */
  datatype File = File(owner: Owner, written: bool)

  /** A lease directory.  `creator` is a history variable: the caller whose mkdir made it. */
  datatype Dir = Dir(creator: TaskId, owner: Option<File>, reaper: Option<File>)

  datatype Disk = Disk(
    lease: Option<Ino>,               // the directory at the lease path
    dirs: map<Ino, Dir>,
    tombs: map<OwnerId, Ino>,         // the directory at `<lease>.reaped.<ownerId>`
    journal: Option<Journal>,         // the record at the state path
    published: seq<Journal>)          // history: every record ever put there

  datatype Entry = OwnerJson | ReaperJson

  datatype Inspection = Inspection(ino: Ino, owner: Option<Owner>, entries: set<Entry>)

  /** What a handle does between `assertOwned` checks. */
  datatype Work =
    | Starting
    | Idle
    | ReadState(m: Option<Stamped>)
    | CheckExisting(base: Option<Journal>, next: Journal)
    | WriteTemporary(base: Option<Journal>, next: Journal)
    | Publish(base: Option<Journal>, next: Journal)
    | SyncState(base: Option<Journal>)
    | ReadBack(base: Option<Journal>)

  /** Why `inspectLease` runs. */
  datatype Why = Acquired | FirstLook | BeforeReaper | AfterReaper | Releasing | Working(work: Work)

  datatype Pc =
    | Mkdir | Chmod | StatNew | OpenOwner | WriteOwner(dir: Ino) | StatOwner | SyncOwner
    | LookExists(why: Why) | LookMeta(why: Why) | LookEntries(why: Why, ino: Ino)
    | LookOwner(why: Why, ino: Ino, entries: set<Entry>)
    | CleanOwnerStat | CleanOwnerUnlink | CleanDirStat(retry: bool) | CleanRmdir(retry: bool)
    | ReadTicks | OpenReaper | WriteReaper(dir: Ino) | StatReaper | SyncReaper | StatBeforeRename | Rename
    | CheckMoved | TombOwner | TombReaper | TombRmdir
    | DropStat(again: bool) | DropUnlink(again: bool)
    | Held(work: Work)
    | ReleaseUnlink | ReleaseRmdir
    | Finished

  datatype Job = Create(planDigest: string, operationId: string) | Open(planDigest: string, operationId: string)

  datatype Task = Task(process: Process, job: Job, pc: Pc, attempt: nat, meta: Ino, seen: Inspection)

  datatype State = State(
    running: map<Pid, nat>,           // pid to start ticks of the instance that has it
    retired: set<Process>,            // instances that have exited
    disk: Disk,
    tasks: map<TaskId, Task>)

  /** The environment's part of a step: whether the call succeeds, a free inode
      number, whether a failing write still left the whole text, and the clock. */
  datatype Choice = Choice(ok: bool, ino: Ino, wrote: bool, now: Timestamp)

  datatype Action =
    | Spawn(process: Process)
    | Exit(pid: Pid)
    | Begin(id: TaskId, process: Process, job: Job)
    | Mutate(id: TaskId, m: Stamped)
    | Release(id: TaskId)
    | Step(id: TaskId, c: Choice)

  const ATTEMPTS := 8

  // ----- reading the disk

  predicate Running(running: map<Pid, nat>, p: Process) {
    p.pid in running && running[p.pid] == p.startTicks
  }

  predicate Intact(d: Disk) { d.lease.Some? ==> d.lease.value in d.dirs }

  function LeaseDir(d: Disk): Option<Dir>
    requires Intact(d)
  {
    if d.lease.Some? then Some(d.dirs[d.lease.value]) else None
  }

  function Entries(dir: Dir): set<Entry> {
    (if dir.owner.Some? then {OwnerJson} else {}) + (if dir.reaper.Some? then {ReaperJson} else {})
  }

  function ReadOwner(d: Disk): Option<Owner>
    requires Intact(d)
  {
    var dir := LeaseDir(d);
    if dir.Some? && dir.value.owner.Some? && dir.value.owner.value.written then Some(dir.value.owner.value.owner)
    else None
  }

  predicate OwnerFileIs(d: Disk, id: OwnerId)
    requires Intact(d)
  {
    var dir := LeaseDir(d);
    dir.Some? && dir.value.owner.Some? && dir.value.owner.value.owner.ownerId == id
  }

  predicate ReaperFileIs(d: Disk, id: OwnerId)
    requires Intact(d)
  {
    var dir := LeaseDir(d);
    dir.Some? && dir.value.reaper.Some? && dir.value.reaper.value.owner.ownerId == id
  }

  predicate ExactHeld(i: Inspection) { i.owner.Some? && i.entries == {OwnerJson} }

  function Me(id: TaskId, t: Task): Owner { Owner(LeaseId(id), t.process) }

  function MyReaper(id: TaskId, t: Task): Owner { Owner(ReaperId(id, t.attempt), t.process) }

  /** The test of `assertOwned`, `release` and the end of acquisition. */
  predicate StillMine(id: TaskId, t: Task, i: Option<Inspection>) {
    i.Some? && i.value.ino == t.meta && i.value.owner == Some(Me(id, t)) && ExactHeld(i.value)
  }

  // ----- control flow without system calls

  function Go(t: Task, pc: Pc): Task { t.(pc := pc) }

  function NextAttempt(t: Task): Task {
    if t.attempt + 1 < ATTEMPTS then t.(attempt := t.attempt + 1, pc := Mkdir) else Go(t, Finished)
  }

  /** The create or open call has not returned its handle yet. */
  predicate Opening(w: Work) {
    match w
    case Starting => true
    case Idle => false
    case ReadState(m) => m.None?
    case CheckExisting(base, _) => base.None?
    case WriteTemporary(base, _) => base.None?
    case Publish(base, _) => base.None?
    case SyncState(base) => base.None?
    case ReadBack(base) => base.None?
  }

  /** A failing create or open releases its lease; a failing mutation leaves the handle open. */
  function FailWork(t: Task, w: Work): Task {
    if Opening(w) then Go(t, LookExists(Releasing)) else Go(t, Held(Idle))
  }

  function Concluded(id: TaskId, t: Task, why: Why, i: Option<Inspection>): Task {
    match why
    case Acquired => if StillMine(id, t, i) then Go(t, Held(Starting)) else Go(t, CleanOwnerStat)
    case FirstLook =>
      if i.None? then NextAttempt(t)
      else if !ExactHeld(i.value) then Go(t, Finished)
      else t.(seen := i.value, pc := ReadTicks)
    case BeforeReaper =>
      if i.None? || i.value.ino != t.seen.ino || i.value.owner != t.seen.owner || !ExactHeld(i.value)
      then NextAttempt(t) else Go(t, OpenReaper)
    case AfterReaper =>
      if i.None? || i.value.ino != t.seen.ino || i.value.owner != t.seen.owner
         || i.value.entries != {OwnerJson, ReaperJson}
      then Go(t, DropStat(false)) else Go(t, Rename)
    case Releasing => if StillMine(id, t, i) then Go(t, ReleaseUnlink) else Go(t, Finished)
    case Working(w) => if StillMine(id, t, i) then Go(t, Held(w)) else FailWork(t, w)
  }

  function Threw(t: Task, why: Why): Task {
    match why
    case Acquired => Go(t, CleanOwnerStat)
    case FirstLook => Go(t, Finished)
    case BeforeReaper => Go(t, Finished)
    case AfterReaper => Go(t, DropStat(false))
    case Releasing => Go(t, Finished)
    case Working(w) => FailWork(t, w)
  }

  // ----- one system call

  predicate IsLook(pc: Pc) { pc.LookExists? || pc.LookMeta? || pc.LookEntries? || pc.LookOwner? }

  /** `inspectLease`: existence, metadata, directory entries, owner record. */
  function LookStep(d: Disk, id: TaskId, t: Task, c: Choice): Task
    requires Intact(d) && IsLook(t.pc)
  {
    if !c.ok then Threw(t, t.pc.why) else
    match t.pc
    case LookExists(why) =>
      if d.lease.None? then Concluded(id, t, why, None) else Go(t, LookMeta(why))
    case LookMeta(why) =>
      if d.lease.None? then Threw(t, why) else Go(t, LookEntries(why, d.lease.value))
    case LookEntries(why, ino) =>
      if d.lease.None? then Threw(t, why) else Go(t, LookOwner(why, ino, Entries(LeaseDir(d).value)))
    case LookOwner(why, ino, entries) =>
      Concluded(id, t, why, Some(Inspection(ino, ReadOwner(d), entries)))
  }

  function WithDir(d: Disk, ino: Ino, dir: Dir): Disk { d.(dirs := d.dirs[ino := dir]) }

  function RemoveLease(d: Disk): Disk
    requires d.lease.Some?
  {
    d.(lease := None, dirs := d.dirs - {d.lease.value})
  }

  /** rmdir of the lease path: fails unless a directory without entries is there. */
  function Rmdir(d: Disk): Disk
    requires Intact(d)
  {
    if d.lease.Some? && Entries(LeaseDir(d).value) == {} then RemoveLease(d) else d
  }

  function UnlinkOwner(d: Disk): Disk
    requires Intact(d)
  {
    if d.lease.Some? then WithDir(d, d.lease.value, LeaseDir(d).value.(owner := None)) else d
  }

  function UnlinkReaper(d: Disk): Disk
    requires Intact(d)
  {
    if d.lease.Some? then WithDir(d, d.lease.value, LeaseDir(d).value.(reaper := None)) else d
  }

  predicate IsAcquire(pc: Pc) {
    pc.Mkdir? || pc.Chmod? || pc.StatNew? || pc.OpenOwner? || pc.WriteOwner? || pc.StatOwner? || pc.SyncOwner?
  }

  function AcquireStep(d: Disk, id: TaskId, t: Task, c: Choice): (Disk, Task)
    requires Intact(d) && IsAcquire(t.pc)
  {
    match t.pc
    case Mkdir =>
      if d.lease.Some? then (d, Go(t, LookExists(FirstLook)))
      else if !c.ok || c.ino in d.dirs then (d, Go(t, Finished))
      else (WithDir(d, c.ino, Dir(id, None, None)).(lease := Some(c.ino)), Go(t, Chmod))
    case Chmod => if !c.ok || d.lease.None? then (d, Go(t, Finished)) else (d, Go(t, StatNew))
    case StatNew =>
      if !c.ok || d.lease.None? then (d, Go(t, Finished))
      else (d, t.(meta := d.lease.value, pc := OpenOwner))
    case OpenOwner =>
      if !c.ok || d.lease.None? then (d, Go(t, CleanDirStat(false)))
      else if LeaseDir(d).value.owner.Some? then (d, Go(t, CleanDirStat(true)))   // EEXIST is retried
      else (WithDir(d, d.lease.value, LeaseDir(d).value.(owner := Some(File(Me(id, t), false)))),
            Go(t, WriteOwner(d.lease.value)))
    case WriteOwner(dir) =>
      (if (c.ok || c.wrote) && dir in d.dirs && d.dirs[dir].owner == Some(File(Me(id, t), false))
       then WithDir(d, dir, d.dirs[dir].(owner := Some(File(Me(id, t), true)))) else d,
       Go(t, if c.ok then StatOwner else CleanDirStat(false)))
    case StatOwner =>
      (d, Go(t, if c.ok && OwnerFileIs(d, LeaseId(id)) then SyncOwner else CleanDirStat(false)))
    case SyncOwner => (d, Go(t, if c.ok then LookExists(Acquired) else CleanOwnerStat))
  }

  predicate IsClean(pc: Pc) {
    pc.CleanOwnerStat? || pc.CleanOwnerUnlink? || pc.CleanDirStat? || pc.CleanRmdir?
    || pc.ReleaseUnlink? || pc.ReleaseRmdir?
  }

  function AfterClean(t: Task, retry: bool): Task {
    if retry then Go(t, LookExists(FirstLook)) else Go(t, Finished)
  }

  /** Undoing a failed acquisition, and releasing a held lease. */
  function CleanStep(d: Disk, id: TaskId, t: Task, c: Choice): (Disk, Task)
    requires Intact(d) && IsClean(t.pc)
  {
    match t.pc
    case CleanOwnerStat =>
      (d, Go(t, if !c.ok then Finished
                else if OwnerFileIs(d, LeaseId(id)) then CleanOwnerUnlink else CleanDirStat(false)))
    case CleanOwnerUnlink =>
      if !c.ok then (d, Go(t, Finished)) else (UnlinkOwner(d), Go(t, CleanDirStat(false)))
    case CleanDirStat(retry) =>
      (d, if !c.ok then Go(t, Finished)
          else if d.lease == Some(t.meta) then Go(t, CleanRmdir(retry)) else AfterClean(t, retry))
    case CleanRmdir(retry) => (if c.ok then Rmdir(d) else d, AfterClean(t, retry))
    case ReleaseUnlink =>
      if !c.ok || !(d.lease.Some? && LeaseDir(d).value.owner.Some?) then (d, Go(t, Finished))
      else (UnlinkOwner(d), Go(t, ReleaseRmdir))
    case ReleaseRmdir => (if c.ok then Rmdir(d) else d, Go(t, Finished))
  }

  predicate IsReap(pc: Pc) {
    pc.ReadTicks? || pc.OpenReaper? || pc.WriteReaper? || pc.StatReaper? || pc.SyncReaper?
    || pc.StatBeforeRename? || pc.Rename? || pc.DropStat? || pc.DropUnlink?
  }

  function AfterDrop(t: Task, again: bool): Task {
    if again then NextAttempt(t) else Go(t, Finished)
  }

  function MoveLease(d: Disk, tomb: OwnerId): Disk
    requires d.lease.Some?
  {
    d.(lease := None, tombs := d.tombs[tomb := d.lease.value])
  }

  /** `quarantineStaleLease` up to and including its rename.  The procfs read and
      the `verifyOwnerDead` callback are one step: `ok` is false when either refuses. */
  function ReapStep(running: map<Pid, nat>, d: Disk, id: TaskId, t: Task, c: Choice): (Disk, Task)
    requires Intact(d) && IsReap(t.pc)
  {
    match t.pc
    case ReadTicks =>
      (d, if !c.ok || t.seen.owner.None? || Running(running, t.seen.owner.value.process) then Go(t, Finished)
          else Go(t, LookExists(BeforeReaper)))
    case OpenReaper =>
      if !c.ok || d.lease.None? || LeaseDir(d).value.reaper.Some? then (d, Go(t, Finished))
      else (WithDir(d, d.lease.value, LeaseDir(d).value.(reaper := Some(File(MyReaper(id, t), false)))),
            Go(t, WriteReaper(d.lease.value)))
    case WriteReaper(dir) =>
      (if (c.ok || c.wrote) && dir in d.dirs && d.dirs[dir].reaper == Some(File(MyReaper(id, t), false))
       then WithDir(d, dir, d.dirs[dir].(reaper := Some(File(MyReaper(id, t), true)))) else d,
       Go(t, if c.ok then StatReaper else Finished))
    case StatReaper =>
      (d, Go(t, if c.ok && ReaperFileIs(d, ReaperId(id, t.attempt)) then SyncReaper else Finished))
    case SyncReaper => (d, Go(t, if c.ok then StatBeforeRename else DropStat(false)))
    case StatBeforeRename =>
      (d, Go(t, if !c.ok || d.lease.None? then DropStat(false)
                else if d.lease.value != t.seen.ino then DropStat(true)
                else LookExists(AfterReaper)))
    case Rename =>
      if !c.ok then (d, Go(t, DropStat(false)))
      else if d.lease.None? || ReaperId(id, t.attempt) in d.tombs then (d, Go(t, DropStat(true)))
      else (MoveLease(d, ReaperId(id, t.attempt)), Go(t, CheckMoved))
    case DropStat(again) =>
      (d, if !c.ok then Go(t, Finished)
          else if ReaperFileIs(d, ReaperId(id, t.attempt)) then Go(t, DropUnlink(again))
          else AfterDrop(t, again))
    case DropUnlink(again) =>   // the directory fsync that follows may still fail
      if !c.ok then (d, Go(t, Finished))
      else (UnlinkReaper(d), if c.wrote then AfterDrop(t, again) else Go(t, Finished))
  }

  predicate IsTomb(pc: Pc) { pc.CheckMoved? || pc.TombOwner? || pc.TombReaper? || pc.TombRmdir? }

  /** Emptying and removing the quarantined directory. */
  function TombStep(d: Disk, id: TaskId, t: Task, c: Choice): (Disk, Task)
    requires IsTomb(t.pc)
  {
    var key := ReaperId(id, t.attempt);
    if !c.ok || key !in d.tombs || d.tombs[key] !in d.dirs then (d, Go(t, Finished)) else
    var ino := d.tombs[key];
    match t.pc
    case CheckMoved => (d, Go(t, if ino == t.seen.ino then TombOwner else Finished))
    case TombOwner => (WithDir(d, ino, d.dirs[ino].(owner := None)), Go(t, TombReaper))
    case TombReaper => (WithDir(d, ino, d.dirs[ino].(reaper := None)), Go(t, TombRmdir))
    case TombRmdir =>
      if Entries(d.dirs[ino]) == {} then (d.(tombs := d.tombs - {key}, dirs := d.dirs - {ino}), NextAttempt(t))
      else (d, Go(t, Finished))
  }

  predicate Bound(t: Task, state: Journal) {
    state.planDigest == t.job.planDigest && state.operationId == t.job.operationId
  }

  /** readState followed by assertBinding. */
  predicate Readable(d: Disk, t: Task) {
    d.journal.Some? && ValidState(d.journal.value) && Bound(t, d.journal.value)
  }

  /** The journal operations of a held lease.  `base` is the record a mutation
      read; a create has none. */
  function WorkStep(d: Disk, t: Task, c: Choice): (Disk, Task)
    requires t.pc.Held?
  {
    match t.pc.work
    case Starting =>
      (d, if t.job.Open? then Go(t, Held(ReadState(None)))
          else Go(t, Held(CheckExisting(None, Initial(t.job.planDigest, t.job.operationId, c.now)))))
    case Idle => (d, t)
    case ReadState(m) =>
      (d, if !c.ok || !Readable(d, t) then FailWork(t, t.pc.work)
          else if m.None? then Go(t, Held(Idle))
          else
            var next := Next(d.journal.value, m.value.mutation, m.value.now);
            if next.Failure? then Go(t, Held(Idle))
            else Go(t, LookExists(Working(CheckExisting(d.journal, next.value)))))
    case CheckExisting(base, next) =>
      (d, if !c.ok || !ValidState(next) || d.journal.Some? != base.Some? then FailWork(t, t.pc.work)
          else Go(t, Held(WriteTemporary(base, next))))
    case WriteTemporary(base, next) =>
      (d, if !c.ok then FailWork(t, t.pc.work) else Go(t, LookExists(Working(Publish(base, next)))))
    case Publish(base, next) =>
      if !c.ok || (base.None? && d.journal.Some?) then (d, FailWork(t, t.pc.work))   // link fails with EEXIST
      else (d.(journal := Some(next), published := d.published + [next]), Go(t, Held(SyncState(base))))
    case SyncState(base) =>
      (d, if !c.ok then FailWork(t, t.pc.work) else Go(t, Held(ReadBack(base))))
    case ReadBack(base) =>
      (d, if !c.ok || !Readable(d, t) then FailWork(t, t.pc.work)
          else if base.None? then Go(t, Held(Idle)) else Go(t, LookExists(Working(Idle))))
  }

  function TaskStep(running: map<Pid, nat>, d: Disk, id: TaskId, t: Task, c: Choice): (Disk, Task)
    requires Intact(d)
  {
    if IsLook(t.pc) then (d, LookStep(d, id, t, c))
    else if IsAcquire(t.pc) then AcquireStep(d, id, t, c)
    else if IsClean(t.pc) then CleanStep(d, id, t, c)
    else if IsReap(t.pc) then ReapStep(running, d, id, t, c)
    else if IsTomb(t.pc) then TombStep(d, id, t, c)
    else if t.pc.Held? then WorkStep(d, t, c)
    else (d, t)
  }

  // ----- runs

  predicate Live(s: State, id: TaskId) {
    id in s.tasks && Running(s.running, s.tasks[id].process)
  }

  predicate Enabled(s: State, a: Action) {
    match a
    case Spawn(p) => p.pid !in s.running && p !in s.retired
    case Exit(pid) => pid in s.running
    case Begin(id, p, _) => id !in s.tasks && Running(s.running, p)
    case Mutate(id, _) => Live(s, id) && s.tasks[id].pc == Held(Idle)
    case Release(id) => Live(s, id) && s.tasks[id].pc == Held(Idle)
    case Step(id, _) => Live(s, id) && Intact(s.disk)
  }

  function Apply(s: State, a: Action): State
    requires Enabled(s, a)
  {
    match a
    case Spawn(p) => s.(running := s.running[p.pid := p.startTicks])
    case Exit(pid) => s.(running := s.running - {pid}, retired := s.retired + {Process(pid, s.running[pid])})
    case Begin(id, p, job) =>
      s.(tasks := s.tasks[id := Task(p, job, Mkdir, 0, 0, Inspection(0, None, {}))])
    case Mutate(id, m) =>
      s.(tasks := s.tasks[id := Go(s.tasks[id], LookExists(Working(ReadState(Some(m)))))])
    case Release(id) => s.(tasks := s.tasks[id := Go(s.tasks[id], LookExists(Releasing))])
    case Step(id, c) =>
      var (d, t) := TaskStep(s.running, s.disk, id, s.tasks[id], c);
      s.(disk := d, tasks := s.tasks[id := t])
  }

  const START := State(map[], {}, Disk(None, map[], map[], None, []), map[])

  /** The state after a sequence of actions, if each was enabled. */
  function After(actions: seq<Action>): Option<State>
    decreases |actions|
  {
    if actions == [] then Some(START)
    else
      var before := After(actions[..|actions| - 1]);
      var a := actions[|actions| - 1];
      if before.None? || !Enabled(before.value, a) then None else Some(Apply(before.value, a))
  }
}
