/** The token-store lock (src/token-store.js, acquireLock to releaseLock), as a state
    machine over atomic file-system steps.

    A task is one call of acquireLock and the release function it returns; each turn of
    its retry loop is a round with its own random owner id.  Stale directories are
    moved to a tombstone named after their inode and never removed.  Inode numbers may be
    reused once their directory is gone. */
module TokenLock {
  import opened Results

  type Ino = nat
  type TaskId = nat

  datatype Process = Process(host: nat, pid: nat, identity: nat)

  /** Random, so never used twice: the loop round that drew it. */
  datatype OwnerId = OwnerId(task: TaskId, round: nat)

  datatype Owner = Owner(id: OwnerId, process: Process)

  /** `owner.json` or `.reap`; unwritten text reads as no owner. */
  datatype File = File(owner: Owner, written: bool)

  /** `creator` is a history variable: the round whose mkdir made the directory. */
  datatype Dir = Dir(creator: OwnerId, owner: Option<File>, marker: Option<File>)

  datatype Disk = Disk(
    lock: Option<Ino>,         // the directory at the lock path
    dirs: map<Ino, Dir>,
    tombs: map<Ino, Ino>)      // the directory at `<lock>.reaped.<dev>.<ino>`

  datatype Outcome = Again | Wait | Throw

  datatype Pc =
    | Mkdir
    | StatNew | OpenOwner | WriteOwner(dir: Ino) | CheckStat | CheckOwner(found: Ino)
    | Held
    | ReleaseStat | ReleaseOwner | ReleaseUnlink | ReleaseRmdir
    | CleanStat(written: bool, retry: bool) | CleanOwner(written: bool, retry: bool)
    | CleanUnlink(retry: bool) | CleanRmdir(retry: bool)
    | LookStat | LookOwner | Judge
    | OpenMarker | ReadMarker | JudgeMarker
    | WriteMarker(dir: Ino)
    | QuarantineStat(owns: bool) | QuarantineOwner(owns: bool) | Rename(owns: bool) | CheckMoved(owns: bool)
    | DropStat(outcome: Outcome) | DropUnlink(outcome: Outcome)
    | Finished

  /** `meta` is the metadata of its own directory; `ino` and `owner` what it inspected.
      The last four fields are history variables of the inspection: the creator of the
      directory lstat saw, the creator it now aims at, whether the former was already
      abandoned, and whether the marker it read was. */
  datatype Task = Task(
    process: Process, round: nat, pc: Pc, meta: Ino,
    ino: Ino, owner: Option<Owner>, markerOwner: Option<Owner>,
    look: OwnerId, target: OwnerId, abandoned: bool, markerGone: bool)

  datatype State = State(running: set<Process>, retired: set<Process>, disk: Disk, tasks: map<TaskId, Task>)

  /** The environment's part of a step.  `aged` is the comparison with the
      five-second staleness limit, `expired` the one with the deadline, and
      `cautious` makes a liveness test answer "alive" for a dead process. */
  datatype Choice = Choice(ok: bool, ino: Ino, wrote: bool, aged: bool, cautious: bool, expired: bool)

  datatype Action =
    | Spawn(process: Process)
    | Exit(process: Process)
    | Begin(id: TaskId, process: Process)
    | Release(id: TaskId)
    | Step(id: TaskId, c: Choice)

  // ----- stages of a round

  /** Within a round the stage never goes down: 0 mkdir, 1 owning the lock directory,
      2 inspecting another's, 3 quarantining it, 4 finished. */
  function Stage(pc: Pc): nat {
    match pc
    case Mkdir => 0
    case LookStat => 2
    case LookOwner => 2
    case Judge => 2
    case OpenMarker => 2
    case ReadMarker => 2
    case JudgeMarker => 2
    case WriteMarker(_) => 3
    case QuarantineStat(_) => 3
    case QuarantineOwner(_) => 3
    case Rename(_) => 3
    case CheckMoved(_) => 3
    case DropStat(_) => 3
    case DropUnlink(_) => 3
    case Finished => 4
    case _ => 1
  }

  predicate Live(s: State, id: TaskId) { id in s.tasks && s.tasks[id].process in s.running }

  /** The round has reached `stage` or its caller has gone on to a later round. */
  predicate Reached(s: State, id: OwnerId, stage: nat) {
    && id.task in s.tasks
    && (id.round < s.tasks[id.task].round || (id.round == s.tasks[id.task].round && stage <= Stage(s.tasks[id.task].pc)))
  }

  /** A live task is in the given stage of the given round. */
  predicate Active(s: State, id: OwnerId, stage: nat) {
    Live(s, id.task) && s.tasks[id.task].round == id.round && Stage(s.tasks[id.task].pc) == stage
  }

  /** The creator neither acquires, holds nor releases its directory any more. */
  predicate Gone(s: State, id: OwnerId) { Reached(s, id, 1) && !Active(s, id, 1) }

  /** The reaper will not touch its marker any more. */
  predicate MarkerGone(s: State, id: OwnerId) { Reached(s, id, 3) && !Active(s, id, 3) }

  // ----- the disk

  predicate Intact(d: Disk) { d.lock.Some? ==> d.lock.value in d.dirs }

  function LockDir(d: Disk): Option<Dir>
    requires Intact(d)
  {
    if d.lock.Some? then Some(d.dirs[d.lock.value]) else None
  }

  predicate Empty(dir: Dir) { dir.owner.None? && dir.marker.None? }

  function Written(f: Option<File>): Option<Owner> {
    if f.Some? && f.value.written then Some(f.value.owner) else None
  }

  function ReadOwner(d: Disk): Option<Owner>
    requires Intact(d)
  {
    if d.lock.Some? then Written(LockDir(d).value.owner) else None
  }

  function WithDir(d: Disk, i: Ino, dir: Dir): Disk { d.(dirs := d.dirs[i := dir]) }

  function UnlinkOwner(d: Disk): Disk
    requires Intact(d)
  {
    if d.lock.Some? then WithDir(d, d.lock.value, LockDir(d).value.(owner := None)) else d
  }

  function UnlinkMarker(d: Disk): Disk
    requires Intact(d)
  {
    if d.lock.Some? then WithDir(d, d.lock.value, LockDir(d).value.(marker := None)) else d
  }

  function Rmdir(d: Disk): Disk
    requires Intact(d)
  {
    if d.lock.Some? && Empty(LockDir(d).value) then Disk(None, d.dirs - {d.lock.value}, d.tombs) else d
  }

  /** rename to the tombstone path; POSIX lets it replace an empty directory only. */
  predicate CanMove(d: Disk, name: Ino) {
    && d.lock.Some?
    && (name in d.tombs ==> d.tombs[name] in d.dirs && Empty(d.dirs[d.tombs[name]]))
  }

  function Move(d: Disk, name: Ino): Disk
    requires d.lock.Some?
  {
    Disk(None,
         if name in d.tombs && d.tombs[name] != d.lock.value then d.dirs - {d.tombs[name]} else d.dirs,
         d.tombs[name := d.lock.value])
  }

  // ----- one system call

  function Me(id: TaskId, t: Task): OwnerId { OwnerId(id, t.round) }

  function MyFile(id: TaskId, t: Task, written: bool): File { File(Owner(Me(id, t), t.process), written) }

  function Go(t: Task, pc: Pc): Task { t.(pc := pc) }

  function EndRound(t: Task, outcome: Outcome, c: Choice): Task {
    if outcome == Throw || (outcome == Wait && c.expired) then Go(t, Finished)
    else t.(round := t.round + 1, pc := Mkdir)
  }

  /** The end of quarantineStaleLock: reapLock's finally block removes its own marker. */
  function EndQuarantine(t: Task, owns: bool, outcome: Outcome, c: Choice): Task {
    if owns then Go(t, DropStat(outcome)) else EndRound(t, outcome, c)
  }

  /** acquireLock rethrows after cleaning up, except that EEXIST is taken for a busy lock. */
  function AfterClean(t: Task, retry: bool): Task { Go(t, if retry then LookStat else Finished) }

  datatype Verdict = Alive | Dead | Unknown

  /** lockOwnerIsAlive. */
  function IsAlive(running: set<Process>, t: Task, owner: Option<Owner>, c: Choice): Verdict {
    if owner.None? || owner.value.process.host != t.process.host then Unknown
    else if owner.value.process in running || c.cautious then Alive
    else Dead
  }

  predicate Stale(running: set<Process>, t: Task, owner: Option<Owner>, c: Choice) {
    var v := IsAlive(running, t, owner, c);
    v == Dead || (v == Unknown && c.aged)
  }

  predicate IsAcquire(pc: Pc) {
    pc.Mkdir? || pc.StatNew? || pc.OpenOwner? || pc.WriteOwner? || pc.CheckStat? || pc.CheckOwner?
  }

  function AcquireStep(d: Disk, id: TaskId, t: Task, c: Choice): (Disk, Task)
    requires Intact(d) && IsAcquire(t.pc)
  {
    match t.pc
    case Mkdir =>
      if d.lock.Some? then (d, Go(t, LookStat))
      else if !c.ok || c.ino in d.dirs then (d, Go(t, Finished))
      else (WithDir(d, c.ino, Dir(Me(id, t), None, None)).(lock := Some(c.ino)), Go(t, StatNew))
    case StatNew =>
      if !c.ok || d.lock.None? then (d, Go(t, Finished))
      else (d, t.(meta := d.lock.value, pc := OpenOwner))
    case OpenOwner =>
      if !c.ok || d.lock.None? then (d, Go(t, CleanStat(false, false)))
      else if LockDir(d).value.owner.Some? then (d, Go(t, CleanStat(false, true)))
      else (WithDir(d, d.lock.value, LockDir(d).value.(owner := Some(MyFile(id, t, false)))),
            Go(t, WriteOwner(d.lock.value)))
    case WriteOwner(dir) =>
      (if (c.ok || c.wrote) && dir in d.dirs && d.dirs[dir].owner == Some(MyFile(id, t, false))
       then WithDir(d, dir, d.dirs[dir].(owner := Some(MyFile(id, t, true)))) else d,
       Go(t, if c.ok then CheckStat else CleanStat(false, false)))
    case CheckStat =>
      (d, Go(t, if c.ok && d.lock.Some? then CheckOwner(d.lock.value) else CleanStat(true, false)))
    case CheckOwner(found) =>
      var owner := ReadOwner(d);
      (d, Go(t, if c.ok && found == t.meta && owner.Some? && owner.value.id == Me(id, t) then Held
                else CleanStat(true, false)))
  }

  predicate IsRelease(pc: Pc) {
    pc.Held? || pc.ReleaseStat? || pc.ReleaseOwner? || pc.ReleaseUnlink? || pc.ReleaseRmdir?
    || pc.CleanStat? || pc.CleanOwner? || pc.CleanUnlink? || pc.CleanRmdir?
  }

  /** releaseLock and cleanupCreatedLock. */
  function ReleaseStep(d: Disk, id: TaskId, t: Task, c: Choice): (Disk, Task)
    requires Intact(d) && IsRelease(t.pc)
  {
    var owner := ReadOwner(d);
    var mine := owner.Some? && owner.value.id == Me(id, t);
    match t.pc
    case Held => (d, t)
    case ReleaseStat => (d, Go(t, if c.ok && d.lock == Some(t.meta) then ReleaseOwner else Finished))
    case ReleaseOwner => (d, Go(t, if c.ok && mine then ReleaseUnlink else Finished))
    case ReleaseUnlink =>
      if !c.ok || !(d.lock.Some? && LockDir(d).value.owner.Some?) then (d, Go(t, Finished))
      else (UnlinkOwner(d), Go(t, ReleaseRmdir))
    case ReleaseRmdir => (if c.ok then Rmdir(d) else d, Go(t, Finished))
    case CleanStat(written, retry) =>
      (d, if c.ok && d.lock == Some(t.meta) then Go(t, CleanOwner(written, retry)) else AfterClean(t, retry))
    case CleanOwner(written, retry) =>
      (d, if !c.ok || (if written then !mine else owner.Some?) then AfterClean(t, retry)
          else Go(t, if written then CleanUnlink(retry) else CleanRmdir(retry)))
    case CleanUnlink(retry) =>
      if !c.ok || !(d.lock.Some? && LockDir(d).value.owner.Some?) then (d, AfterClean(t, retry))
      else (UnlinkOwner(d), Go(t, CleanRmdir(retry)))
    case CleanRmdir(retry) => (if c.ok then Rmdir(d) else d, AfterClean(t, retry))
  }

  predicate IsInspect(pc: Pc) {
    pc.LookStat? || pc.LookOwner? || pc.Judge? || pc.OpenMarker? || pc.ReadMarker? || pc.JudgeMarker?
  }

  /** inspectLock and the first half of reapLock. */
  function InspectStep(s: State, id: TaskId, t: Task, c: Choice): (Disk, Task)
    requires Intact(s.disk) && IsInspect(t.pc)
  {
    var d := s.disk;
    match t.pc
    case LookStat =>
      (d, if !c.ok then Go(t, Finished)
          else if d.lock.None? then EndRound(t, Wait, c)
          else var creator := LockDir(d).value.creator;
               t.(ino := d.lock.value, look := creator, abandoned := Gone(s, creator), pc := LookOwner))
    case LookOwner =>
      var owner := ReadOwner(d);
      (d, if !c.ok then Go(t, Finished)
          else t.(owner := owner, target := if owner.Some? then owner.value.id else t.look, pc := Judge))
    case Judge =>
      (d, if Stale(s.running, t, t.owner, c) then Go(t, OpenMarker) else EndRound(t, Wait, c))
    case OpenMarker =>
      if !c.ok then (d, Go(t, Finished))
      else if d.lock.None? then (d, EndRound(t, Wait, c))
      else if LockDir(d).value.marker.Some? then (d, Go(t, ReadMarker))
      else (WithDir(d, d.lock.value, LockDir(d).value.(marker := Some(MyFile(id, t, false)))),
            Go(t, WriteMarker(d.lock.value)))
    case ReadMarker =>
      (d, if !c.ok then Go(t, Finished)
          else if d.lock.None? || LockDir(d).value.marker.None? then EndRound(t, Wait, c)
          else var marker := LockDir(d).value.marker;
               t.(markerOwner := Written(marker), markerGone := MarkerGone(s, marker.value.owner.id), pc := JudgeMarker))
    case JudgeMarker =>
      (d, if Stale(s.running, t, t.markerOwner, c) then Go(t, QuarantineStat(false)) else EndRound(t, Wait, c))
  }

  /** quarantineStaleLock and reapLock's finally block. */
  function QuarantineStep(d: Disk, id: TaskId, t: Task, c: Choice): (Disk, Task)
    requires Intact(d) && Stage(t.pc) == 3
  {
    match t.pc
    case WriteMarker(dir) =>
      (if (c.ok || c.wrote) && dir in d.dirs && d.dirs[dir].marker == Some(MyFile(id, t, false))
       then WithDir(d, dir, d.dirs[dir].(marker := Some(MyFile(id, t, true)))) else d,
       Go(t, if c.ok then QuarantineStat(true) else Finished))
    case QuarantineStat(owns) =>
      (d, if !c.ok then EndQuarantine(t, owns, Throw, c)
          else if d.lock != Some(t.ino) then EndQuarantine(t, owns, Wait, c)
          else Go(t, QuarantineOwner(owns)))
    case QuarantineOwner(owns) =>
      var owner := ReadOwner(d);
      (d, if !c.ok then EndQuarantine(t, owns, Throw, c)
          else if (if t.owner.Some? then owner.None? || owner.value.id != t.owner.value.id else owner.Some?)
          then EndQuarantine(t, owns, Wait, c)
          else Go(t, Rename(owns)))
    case Rename(owns) =>
      if !c.ok then (d, EndQuarantine(t, owns, Throw, c))
      else if !CanMove(d, t.ino) then (d, EndQuarantine(t, owns, Wait, c))
      else (Move(d, t.ino), Go(t, CheckMoved(owns)))
    case CheckMoved(owns) =>
      (d, EndQuarantine(t, owns, if c.ok && t.ino in d.tombs && d.tombs[t.ino] == t.ino then Again else Throw, c))
    case DropStat(outcome) =>
      var mine := d.lock.Some? && LockDir(d).value.marker.Some?
                  && LockDir(d).value.marker.value.owner.id == Me(id, t);
      (d, if !c.ok then Go(t, Finished)
          else if mine then Go(t, DropUnlink(outcome)) else EndRound(t, outcome, c))
    case DropUnlink(outcome) =>
      if !c.ok then (d, Go(t, Finished)) else (UnlinkMarker(d), EndRound(t, outcome, c))
  }

  function TaskStep(s: State, id: TaskId, c: Choice): (Disk, Task)
    requires Intact(s.disk) && id in s.tasks
  {
    var t := s.tasks[id];
    if IsAcquire(t.pc) then AcquireStep(s.disk, id, t, c)
    else if IsRelease(t.pc) then ReleaseStep(s.disk, id, t, c)
    else if IsInspect(t.pc) then InspectStep(s, id, t, c)
    else if Stage(t.pc) == 3 then QuarantineStep(s.disk, id, t, c)
    else (s.disk, t)
  }

  // ----- runs

  predicate Enabled(s: State, a: Action) {
    match a
    case Spawn(p) => p !in s.running && p !in s.retired
    case Exit(p) => p in s.running
    case Begin(id, p) => id !in s.tasks && p in s.running
    case Release(id) => Live(s, id) && s.tasks[id].pc.Held?
    case Step(id, _) => Live(s, id) && Intact(s.disk)
  }

  function Fresh(p: Process): Task {
    Task(p, 0, Mkdir, 0, 0, None, None, OwnerId(0, 0), OwnerId(0, 0), false, false)
  }

  function Apply(s: State, a: Action): State
    requires Enabled(s, a)
  {
    match a
    case Spawn(p) => s.(running := s.running + {p})
    case Exit(p) => s.(running := s.running - {p}, retired := s.retired + {p})
    case Begin(id, p) => s.(tasks := s.tasks[id := Fresh(p)])
    case Release(id) => s.(tasks := s.tasks[id := Go(s.tasks[id], ReleaseStat)])
    case Step(id, c) => var (d, t) := TaskStep(s, id, c); s.(disk := d, tasks := s.tasks[id := t])
  }

  const START := State({}, {}, Disk(None, map[], map[]), map[])

  function After(actions: seq<Action>): Option<State>
    decreases |actions|
  {
    if actions == [] then Some(START)
    else
      var before := After(actions[..|actions| - 1]);
      var a := actions[|actions| - 1];
      if before.None? || !Enabled(before.value, a) then None else Some(Apply(before.value, a))
  }

  // ----- the staleness hypothesis

  /** The inspected owner is judged soundly: an ownerless directory was abandoned when
      its age was sampled, a recorded owner has given its directory up. */
  predicate SoundOwner(s: State, a: Action) {
    a.Step? && a.id in s.tasks ==>
      var t := s.tasks[a.id];
      t.pc.Judge? && Stale(s.running, t, t.owner, a.c) ==>
        if t.owner.Some? then Gone(s, t.owner.value.id) else t.abandoned
  }

  /** A foreign marker belonged to no working reaper when it was read. */
  predicate SoundMarker(s: State, a: Action) {
    a.Step? && a.id in s.tasks ==>
      var t := s.tasks[a.id];
      t.pc.JudgeMarker? && Stale(s.running, t, t.markerOwner, a.c) ==> t.markerGone
  }

  /** No directory without a recorded owner is judged stale. */
  predicate KnownOwner(s: State, a: Action) {
    a.Step? && a.id in s.tasks ==>
      var t := s.tasks[a.id];
      t.pc.Judge? && Stale(s.running, t, t.owner, a.c) ==> t.owner.Some?
  }

  /** Every owner is judged soundly; and either ownerless directories may be reaped by
      their age, and markers are judged soundly too, or none is reaped at all. */
  predicate SoundJudgement(byAge: bool, s: State, a: Action) {
    SoundOwner(s, a) && if byAge then SoundMarker(s, a) else KnownOwner(s, a)
  }

  /** Every judgement of the run is sound. */
  predicate SoundRun(byAge: bool, actions: seq<Action>)
    decreases |actions|
  {
    actions != [] ==>
      var last := |actions| - 1;
      && SoundRun(byAge, actions[..last])
      && (After(actions[..last]).Some? ==> SoundJudgement(byAge, After(actions[..last]).value, actions[last]))
  }
}
