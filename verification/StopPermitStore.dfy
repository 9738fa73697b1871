/** The durable one-shot store of stop permits (src/rollout-authority.js,
    FileStopPermitStore), for one nonce, as a state machine over system calls.

    The two names of a nonce, `<hash>.permit` and `<hash>.spent`, belong to that
    nonce alone.  A name has the value a running process sees and the set of values
    it may have after a power loss: the durable one and every later one since the
    last directory fsync.  A system call may fail (`ok == false`), a process may
    be killed at any step, and a power loss kills all of them. */
module StopPermitStore {
  import opened Results
  import opened StopPermits

  type Ino = nat
  type TaskId = nat

  /** `content` is None while the text is empty or incomplete. */
  datatype File = File(content: Option<StoreRecord>, synced: bool)

  datatype Name = Name(now: Option<Ino>, possible: set<Option<Ino>>)

  datatype Disk = Disk(files: map<Ino, File>, active: Name, spent: Name)

  datatype Answer = Yes | No | Threw | Killed

  datatype IssuePc =
    | OpenActive
    | OpenSpent(second: bool) | ReadSpent(second: bool, file: Ino)
    | Write | Sync | StatWritten
    | OpenPublished | ReadPublished(file: Ino) | SyncPublished
    | Undo                      // the catch block: unlink, then throw
    | Remove | SyncRemoved      // the finally block: unlink, fsync, answer no

  /** `again` marks the second use of #consumptionExists, after an unreadable active record. */
  datatype ConsumePc =
    | Look(attempt: nat, again: bool)
    | LookOpen(links: nat, attempt: nat, again: bool) | LookRead(file: Ino, links: nat, attempt: nat, again: bool)
    | PairOpen(file: Ino, same: bool, attempt: nat, again: bool)
    | PairRead(file: Ino, same: bool, other: Ino, attempt: nat, again: bool)
    | OpenRecord | ReadRecord(file: Ino)
    | Link | SyncLink
    | OpenConsumed | ReadConsumed(file: Ino)
    | Unlink | SyncUnlink
    | OpenDurable | ReadDurable(file: Ino)
    | Finally | SyncFinally     // linked but not removed: unlink, fsync, throw

  datatype Task =
    | Issue(record: StoreRecord, ino: Ino, ipc: IssuePc)
    | Consume(record: StoreRecord, observed: Ino, cpc: ConsumePc)
    | Done(issue: bool, record: StoreRecord, answer: Answer)

  datatype State = State(
    disk: Disk,
    tasks: map<TaskId, Task>,
    failedHandover: bool,       // history: some fsync right after a link has failed
    writers: set<TaskId>)       // history: issue calls whose text has reached their file

  /** `ino` names a new file; `wrote` tells whether a failing write left the whole
      text, and whether an incomplete text is unreadable or not yet there. */
  datatype Choice = Choice(ok: bool, ino: Ino, wrote: bool)

  datatype Action =
    | BeginIssue(id: TaskId, record: StoreRecord)
    | BeginConsume(id: TaskId, record: StoreRecord)
    | Step(id: TaskId, c: Choice)
    | Kill(id: TaskId)
    | PowerLoss(active: Option<Ino>, spent: Option<Ino>, lost: set<Ino>)

  const ATTEMPTS := 4

  // ----- the disk

  function Set(n: Name, v: Option<Ino>): Name { Name(v, n.possible + {v}) }

  function Synced(n: Name): Name { Name(n.now, {n.now}) }

  function SyncDirectory(d: Disk): Disk { d.(active := Synced(d.active), spent := Synced(d.spent)) }

  function Links(d: Disk, i: Ino): nat {
    (if d.active.now == Some(i) then 1 else 0) + (if d.spent.now == Some(i) then 1 else 0)
  }

  /** An inode number may be reused once no name can lead to it. */
  predicate Free(d: Disk, i: Ino) {
    Some(i) !in d.active.possible && Some(i) !in d.spent.possible
    && Some(i) != d.active.now && Some(i) != d.spent.now
  }

  function UnlinkActive(d: Disk): Disk { d.(active := Set(d.active, None)) }

  function SetContent(d: Disk, i: Ino, f: File): Disk { d.(files := d.files[i := f]) }

  /** What fstat and readFile on an open record answer: INSECURE for a wrong link
      count or an empty file, another error for text that does not parse. */
  datatype Reading = Record(record: StoreRecord) | Insecure | Unreadable

  function Read(d: Disk, i: Ino, links: nat, c: Choice): Reading {
    if !c.ok then Unreadable
    else if Links(d, i) != links then Insecure
    else if i !in d.files || d.files[i].content.None? then if c.wrote then Unreadable else Insecure
    else Record(d.files[i].content.value)
  }

  // ----- issue

  function ToIssue(t: Task, pc: IssuePc): Task
    requires t.Issue?
  {
    t.(ipc := pc)
  }

  function Answered(t: Task, a: Answer): Task { Done(t.Issue?, t.record, a) }

  function IssueStep(d: Disk, t: Task, c: Choice): (Disk, Task)
    requires t.Issue?
  {
    match t.ipc
    case OpenActive =>
      if d.active.now.Some? then (d, Answered(t, No))
      else if !c.ok || !Free(d, c.ino) then (d, Answered(t, Threw))
      else (SetContent(d, c.ino, File(None, false)).(active := Set(d.active, Some(c.ino))),
            t.(ino := c.ino, ipc := OpenSpent(false)))
    case OpenSpent(second) =>
      (d, if !c.ok then ToIssue(t, Undo)
          else if d.spent.now.Some? then ToIssue(t, ReadSpent(second, d.spent.now.value))
          else ToIssue(t, if second then OpenPublished else Write))
    case ReadSpent(second, file) =>
      (d, ToIssue(t, if Read(d, file, 1, c).Record? then Remove else Undo))
    case Write =>
      (if c.ok || c.wrote then SetContent(d, t.ino, File(Some(t.record), false)) else d,
       ToIssue(t, if c.ok then Sync else Undo))
    case Sync =>
      if c.ok then (SetContent(d, t.ino, File(Some(t.record), true)), ToIssue(t, StatWritten))
      else (d, ToIssue(t, Undo))
    case StatWritten => (d, ToIssue(t, if c.ok && Links(d, t.ino) == 1 then OpenSpent(true) else Undo))
    case OpenPublished =>
      (d, ToIssue(t, if c.ok && d.active.now.Some? then ReadPublished(d.active.now.value) else Undo))
    case ReadPublished(file) =>
      (d, ToIssue(t, if file == t.ino && Read(d, file, 1, c) == Record(t.record) then SyncPublished else Undo))
    case SyncPublished =>
      if c.ok then (SyncDirectory(d), Answered(t, Yes)) else (d, ToIssue(t, Undo))
    case Undo => (if c.ok then UnlinkActive(d) else d, Answered(t, Threw))
    case Remove => if c.ok then (UnlinkActive(d), ToIssue(t, SyncRemoved)) else (d, Answered(t, Threw))
    case SyncRemoved => if c.ok then (SyncDirectory(d), Answered(t, No)) else (d, Answered(t, Threw))
  }

  // ----- consume

  function ToConsume(t: Task, pc: ConsumePc): Task
    requires t.Consume?
  {
    t.(cpc := pc)
  }

  function NextLook(t: Task, attempt: nat, again: bool): Task
    requires t.Consume?
  {
    if attempt + 1 < ATTEMPTS then ToConsume(t, Look(attempt + 1, again)) else Answered(t, Threw)
  }

  predicate IsLook(pc: ConsumePc) {
    pc.Look? || pc.LookOpen? || pc.LookRead? || pc.PairOpen? || pc.PairRead?
  }

  /** `#consumptionExists`. */
  function LookStep(d: Disk, t: Task, c: Choice): Task
    requires t.Consume? && IsLook(t.cpc)
  {
    match t.cpc
    case Look(k, again) =>
      if !c.ok then Answered(t, Threw)
      else if d.spent.now.None? then if again then Answered(t, Threw) else ToConsume(t, OpenRecord)
      else if Links(d, d.spent.now.value) == 1 || Links(d, d.spent.now.value) == 2 then
        ToConsume(t, LookOpen(Links(d, d.spent.now.value), k, again))
      else NextLook(t, k, again)
    case LookOpen(links, k, again) =>
      if !c.ok then Answered(t, Threw)
      else if d.spent.now.None? then NextLook(t, k, again)
      else ToConsume(t, LookRead(d.spent.now.value, links, k, again))
    case LookRead(file, links, k, again) =>
      (match Read(d, file, links, c)
       case Insecure => NextLook(t, k, again)
       case Unreadable => Answered(t, Threw)
       case Record(r) =>
         if links == 2 then ToConsume(t, PairOpen(file, r == t.record, k, again))
         else if r == t.record then Answered(t, No) else Answered(t, Threw))
    case PairOpen(file, same, k, again) =>
      if !c.ok then Answered(t, Threw)
      else if d.active.now.None? then NextLook(t, k, again)
      else ToConsume(t, PairRead(file, same, d.active.now.value, k, again))
    case PairRead(file, same, other, k, again) =>
      (match Read(d, other, 2, c)
       case Insecure => NextLook(t, k, again)
       case Unreadable => Answered(t, Threw)
       case Record(r) => if file == other && same && r == t.record then Answered(t, No) else Answered(t, Threw))
  }

  function ConsumeStep(d: Disk, t: Task, c: Choice): (Disk, Task)
    requires t.Consume? && !IsLook(t.cpc)
  {
    match t.cpc
    case OpenRecord =>
      (d, if !c.ok then Answered(t, Threw)
          else if d.active.now.None? then Answered(t, No)
          else ToConsume(t, ReadRecord(d.active.now.value)))
    case ReadRecord(file) =>
      (d, match Read(d, file, 1, c)
          case Insecure => ToConsume(t, Look(0, true))
          case Unreadable => Answered(t, Threw)
          case Record(r) => if r == t.record then t.(observed := file, cpc := Link) else Answered(t, Threw))
    case Link =>
      if d.active.now.None? || d.spent.now.Some? then (d, Answered(t, No))
      else if !c.ok then (d, Answered(t, Threw))
      else (d.(spent := Set(d.spent, d.active.now)), ToConsume(t, SyncLink))
    case SyncLink =>
      if c.ok then (SyncDirectory(d), ToConsume(t, OpenConsumed)) else (d, ToConsume(t, Finally))
    case OpenConsumed =>
      (d, if c.ok && d.spent.now.Some? then ToConsume(t, ReadConsumed(d.spent.now.value)) else ToConsume(t, Finally))
    case ReadConsumed(file) =>
      (d, ToConsume(t, if file == t.observed && Read(d, file, 2, c) == Record(t.record) then Unlink else Finally))
    case Unlink =>
      if c.ok && d.active.now.Some? then (UnlinkActive(d), ToConsume(t, SyncUnlink)) else (d, ToConsume(t, Finally))
    case SyncUnlink =>
      if c.ok then (SyncDirectory(d), ToConsume(t, OpenDurable)) else (d, Answered(t, Threw))
    case OpenDurable =>
      (d, if c.ok && d.spent.now.Some? then ToConsume(t, ReadDurable(d.spent.now.value)) else Answered(t, Threw))
    case ReadDurable(file) =>
      (d, Answered(t, if file == t.observed && Read(d, file, 1, c) == Record(t.record) then Yes else Threw))
    case Finally => if c.ok then (UnlinkActive(d), ToConsume(t, SyncFinally)) else (d, Answered(t, Threw))
    case SyncFinally => (if c.ok then SyncDirectory(d) else d, Answered(t, Threw))
    case _ => (d, t)
  }

  function TaskStep(d: Disk, t: Task, c: Choice): (Disk, Task) {
    match t
    case Issue(_, _, _) => IssueStep(d, t, c)
    case Consume(_, _, pc) => if IsLook(pc) then (d, LookStep(d, t, c)) else ConsumeStep(d, t, c)
    case Done(_, _, _) => (d, t)
  }

  // ----- runs

  predicate Enabled(s: State, a: Action) {
    match a
    case BeginIssue(id, _) => id !in s.tasks
    case BeginConsume(id, _) => id !in s.tasks
    case Step(id, _) => id in s.tasks && !s.tasks[id].Done?
    case Kill(id) => id in s.tasks && !s.tasks[id].Done?
    case PowerLoss(active, spent, lost) =>
      && active in s.disk.active.possible && spent in s.disk.spent.possible
      && forall i :: i in lost ==> i in s.disk.files && !s.disk.files[i].synced
  }

  function Killing(t: Task): Task { if t.Done? then t else Answered(t, Killed) }

  function Apply(s: State, a: Action): State
    requires Enabled(s, a)
  {
    match a
    case BeginIssue(id, r) => s.(tasks := s.tasks[id := Issue(r, 0, OpenActive)])
    case BeginConsume(id, r) => s.(tasks := s.tasks[id := Consume(r, 0, Look(0, false))])
    case Step(id, c) =>
      var t := s.tasks[id];
      var (d, t') := TaskStep(s.disk, t, c);
      State(d, s.tasks[id := t'],
            s.failedHandover || (t.Consume? && t.cpc.SyncLink? && !c.ok),
            if t.Issue? && t.ipc.Write? && (c.ok || c.wrote) then s.writers + {id} else s.writers)
    case Kill(id) => s.(tasks := s.tasks[id := Killing(s.tasks[id])])
    case PowerLoss(active, spent, lost) =>
      s.(disk := Disk(map i | i in s.disk.files :: if i in lost then File(None, false) else s.disk.files[i],
                      Name(active, {active}), Name(spent, {spent})),
         tasks := map u | u in s.tasks :: Killing(s.tasks[u]))
  }

  const START := State(Disk(map[], Name(None, {None}), Name(None, {None})), map[], false, {})

  /** The state after a sequence of actions from `s`, if each was enabled. */
  function Exec(s: State, actions: seq<Action>): Option<State>
    decreases |actions|
  {
    if actions == [] then Some(s)
    else
      var before := Exec(s, actions[..|actions| - 1]);
      var a := actions[|actions| - 1];
      if before.None? || !Enabled(before.value, a) then None else Some(Apply(before.value, a))
  }
}
