/** Token-store instances in several processes sharing one file (src/token-store.js,
    class TokenStore), as a state machine whose steps end where the code awaits I/O.
    Of the cross-process lock only its holder is kept here; it can be lost at any time
    except to a live holder in its critical section.  TokenStoreLocking puts the lock of
    TokenLock in its place.  Every published file has its own fingerprint: the number of
    publications so far, 0 for no file. */
module TokenStoreRuns {
  import opened Results
  import opened TokenRecords

  type InstanceId = nat
  type VerifyId = nat

  datatype Op = Issue(tokenSet: string, expiry: Expiry, scope: Scope) | Withdraw(id: Id)

  /** `version` counts the publications when the new fingerprint was read. */
  datatype Outcome = Failed | Unchanged | Persisted(change: Change, version: nat)

  /** Where the running mutation waits. */
  datatype Pc =
    | Idle
    | Waiting(op: Op)          // for the refresh in flight
    | Locking(op: Op)
    | Reloading(op: Op)
    | Publishing(change: Change)
    | Syncing(change: Change)  // the directory, after the rename
    | Stating(change: Change)  // reading the new fingerprint
    | Releasing(outcome: Outcome)

  /** Where the refresh in flight waits; `since` counts the publications when it began,
      `found` those when its system call ran, which may be before its promise settles. */
  datatype Refresh =
    | NoRefresh
    | Inspect(since: nat) | Inspected(since: nat, found: nat)
    | Reload(since: nat) | Loaded(since: nat, found: nat)

  /** `started` and `since` are those of the refresh awaited, if any; `seen` the fingerprint that answered. */
  datatype Verify =
    | Waits(q: Query, started: nat)
    | Ready(q: Query, since: Option<nat>)
    | Answered(q: Query, since: Option<nat>, answer: Answer, seen: nat, now: Milliseconds)
    | Threw(q: Query)

  datatype Instance = Instance(
    alive: bool, records: Records, fingerprint: nat, pc: Pc,
    refresh: Refresh, waiters: nat, verifies: map<VerifyId, Verify>)

  /** A mutation that reported success, and how many publications it had seen under the lock. */
  datatype Report = Report(change: Change, version: nat)

  datatype State = State(
    files: seq<Records>, lock: Option<InstanceId>, instances: map<InstanceId, Instance>, reports: seq<Report>)

  datatype Choice = Choice(ok: bool, id: Id, secret: string, now: Milliseconds)

  datatype Action =
    | Open(i: InstanceId)
    | Die(i: InstanceId)
    | ReapLock
    | Mutate(i: InstanceId, op: Op)
    | Mutation(i: InstanceId, c: Choice)
    | BeginVerify(i: InstanceId, v: VerifyId, q: Query, due: bool)
    | RefreshLook(i: InstanceId)
    | RefreshStep(i: InstanceId, ok: bool)
    | Answer(i: InstanceId, v: VerifyId, now: Milliseconds)

  const MAX_WAITERS := 32

  predicate Mutating(inst: Instance) { !inst.pc.Idle? }

  // ----- mutations

  /** The body of `issue` and `revoke` up to the first await of the persist. */
  function Operate(inst: Instance, op: Op, c: Choice): Instance {
    match op
    case Issue(tokenSet, expiry, scope) =>
      var expiresAt := Expiration(expiry, c.now);
      if expiresAt.None? then inst.(pc := Releasing(Failed))
      else
        var record := Record(tokenSet, Token(c.id, c.secret), c.now, expiresAt.value, None, scope);
        inst.(records := inst.records[c.id := record], pc := Publishing(Add(c.id, record)))
    case Withdraw(id) =>
      if id !in inst.records || inst.records[id].revokedAt.Some? then inst.(pc := Releasing(Unchanged))
      else inst.(records := inst.records[id := inst.records[id].(revokedAt := Some(c.now))],
                 pc := Publishing(Revoke(id, c.now)))
  }

  function RollBack(inst: Instance, change: Change): Instance {
    inst.(records := if change.id in inst.records then Undone(inst.records, change) else inst.records,
          pc := Releasing(Failed))
  }

  /** It works on the file; while it releases, the lock may be gone already. */
  predicate Critical(pc: Pc) { pc.Reloading? || pc.Publishing? || pc.Syncing? || pc.Stating? }

  /** The cache takes over the file of publication `n`. */
  function Loading(files: seq<Records>, n: nat, inst: Instance): Instance
    requires n <= |files|
  {
    inst.(records := Content(files, n), fingerprint := n)
  }

  /** `#mutate` and `#persist`: the files, the lock, the instance and the report made. */
  function MutationStep(files: seq<Records>, lock: Option<InstanceId>, i: InstanceId, inst: Instance, c: Choice)
    : (seq<Records>, Option<InstanceId>, Instance, Option<Report>)
  {
    match inst.pc
    case Idle => (files, lock, inst, None)
    case Waiting(op) => (files, lock, inst.(pc := Locking(op)), None)
    case Locking(op) =>
      if c.ok && lock.None? then (files, Some(i), inst.(pc := Reloading(op)), None)
      else (files, lock, inst.(pc := Idle), None)
    case Reloading(op) =>
      (files, lock, if c.ok then Operate(Loading(files, |files|, inst), op, c) else inst.(pc := Releasing(Failed)), None)
    case Publishing(change) =>
      if c.ok then (files + [inst.records], lock, inst.(pc := Syncing(change)), None)
      else (files, lock, RollBack(inst, change), None)
    case Syncing(change) =>
      (files, lock, if c.ok then inst.(pc := Stating(change)) else RollBack(inst, change), None)
    case Stating(change) =>
      (files, lock, if c.ok then inst.(fingerprint := |files|, pc := Releasing(Persisted(change, |files|)))
                    else RollBack(inst, change), None)
    case Releasing(outcome) =>
      (files, if c.ok && lock == Some(i) then None else lock, inst.(pc := Idle),
       if c.ok && outcome.Persisted? then Some(Report(outcome.change, outcome.version)) else None)
  }

  // ----- verification

  /** `verify` up to its first await. */
  function Begun(files: seq<Records>, inst: Instance, v: VerifyId, q: Query, due: bool): Instance {
    if Mutating(inst) then
      inst.(verifies := inst.verifies[v := Answered(q, None, Rejected, inst.fingerprint, 0)])
    else if !inst.refresh.NoRefresh? then
      if inst.waiters >= MAX_WAITERS
      then inst.(verifies := inst.verifies[v := Answered(q, None, Rejected, inst.fingerprint, 0)])
      else inst.(waiters := inst.waiters + 1, verifies := inst.verifies[v := Waits(q, inst.refresh.since)])
    else if !due then inst.(verifies := inst.verifies[v := Ready(q, None)])
    else inst.(refresh := Inspect(|files|), verifies := inst.verifies[v := Waits(q, |files|)])
  }

  /** The refresh settles: everyone who awaited it goes on, or throws. */
  function Settled(inst: Instance, ok: bool): Instance {
    inst.(refresh := NoRefresh, waiters := 0,
          verifies := map v | v in inst.verifies ::
            var w := inst.verifies[v];
            if !w.Waits? then w else if ok then Ready(w.q, Some(w.started)) else Threw(w.q))
  }

  /** A system call of `#refreshIfDue` looks at the file. */
  function Looked(files: seq<Records>, inst: Instance): Instance {
    match inst.refresh
    case Inspect(since) => inst.(refresh := Inspected(since, |files|))
    case Reload(since) => inst.(refresh := Loaded(since, |files|))
    case _ => inst
  }

  /** `#refreshIfDue` goes on: the fingerprint first, then the file if they differ. */
  function Refreshed(files: seq<Records>, inst: Instance, ok: bool): Instance {
    if inst.refresh.NoRefresh? then inst
    else if !ok then Settled(inst.(records := map[], fingerprint := 0), false)
    else match inst.refresh
      case Inspected(since, found) =>
        if inst.fingerprint == found then Settled(inst, true) else inst.(refresh := Reload(since))
      case Loaded(_, found) => if found <= |files| then Settled(Loading(files, found, inst), true) else inst
      case _ => inst
  }

  function Answering(inst: Instance, v: VerifyId, now: Milliseconds): Instance
    requires v in inst.verifies && inst.verifies[v].Ready?
  {
    var w := inst.verifies[v];
    inst.(verifies := inst.verifies[v := Answered(w.q, w.since, Decide(inst.records, w.q, now), inst.fingerprint, now)])
  }

  // ----- runs

  predicate Alive(s: State, i: InstanceId) { i in s.instances && s.instances[i].alive }

  /** Continuations of settled promises run before the next I/O completes. */
  ghost predicate AllAnswered(inst: Instance) { forall v :: v in inst.verifies ==> !inst.verifies[v].Ready? }

  ghost predicate Enabled(s: State, a: Action) {
    match a
    case Open(i) => i !in s.instances
    case Die(i) => Alive(s, i)
    case ReapLock => s.lock.Some? && !(Alive(s, s.lock.value) && Critical(s.instances[s.lock.value].pc))
    case Mutate(i, _) => Alive(s, i) && s.instances[i].pc.Idle?
    case Mutation(i, c) =>
      && Alive(s, i) && Mutating(s.instances[i]) && AllAnswered(s.instances[i])
      && (s.instances[i].pc.Waiting? ==> s.instances[i].refresh.NoRefresh?)
      && (s.instances[i].pc.Reloading? && s.instances[i].pc.op.Issue? ==> c.id !in Content(s.files, |s.files|))
    case BeginVerify(i, v, _, _) => Alive(s, i) && v !in s.instances[i].verifies
    case RefreshLook(i) => Alive(s, i) && (s.instances[i].refresh.Inspect? || s.instances[i].refresh.Reload?)
    case RefreshStep(i, ok) =>
      && Alive(s, i) && !s.instances[i].refresh.NoRefresh? && AllAnswered(s.instances[i])
      && (ok ==> s.instances[i].refresh.Inspected? || s.instances[i].refresh.Loaded?)
    case Answer(i, v, _) => Alive(s, i) && v in s.instances[i].verifies && s.instances[i].verifies[v].Ready?
  }

  function Opened(files: seq<Records>): Instance {
    Instance(true, Content(files, |files|), |files|, Idle, NoRefresh, 0, map[])
  }

  function Put(s: State, i: InstanceId, inst: Instance): State { s.(instances := s.instances[i := inst]) }

  ghost function Apply(s: State, a: Action): State
    requires Enabled(s, a)
  {
    match a
    case Open(i) => Put(s, i, Opened(s.files))
    case Die(i) => Put(s, i, s.instances[i].(alive := false))
    case ReapLock => s.(lock := None)
    case Mutate(i, op) => Put(s, i, s.instances[i].(pc := Waiting(op)))
    case Mutation(i, c) =>
      var (files, lock, inst, report) := MutationStep(s.files, s.lock, i, s.instances[i], c);
      State(files, lock, s.instances[i := inst], if report.Some? then s.reports + [report.value] else s.reports)
    case BeginVerify(i, v, q, due) => Put(s, i, Begun(s.files, s.instances[i], v, q, due))
    case RefreshLook(i) => Put(s, i, Looked(s.files, s.instances[i]))
    case RefreshStep(i, ok) => Put(s, i, Refreshed(s.files, s.instances[i], ok))
    case Answer(i, v, now) => Put(s, i, Answering(s.instances[i], v, now))
  }

  /** Nobody runs yet; a file may exist. */
  function Start(existing: Option<Records>): State {
    State(if existing.Some? then [existing.value] else [], None, map[], [])
  }

  /** The state after the given actions, if they can all be taken. */
  ghost function After(existing: Option<Records>, actions: seq<Action>): Option<State>
    decreases |actions|
  {
    if actions == [] then Some(Start(existing))
    else
      var before := After(existing, actions[..|actions| - 1]);
      var a := actions[|actions| - 1];
      if before.None? || !Enabled(before.value, a) then None else Some(Apply(before.value, a))
  }
}
