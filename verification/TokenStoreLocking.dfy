/** The token store over its real lock: instances of TokenStoreRuns whose mutations enter
    the critical section when a call of acquireLock, as TokenLock models it, has
    returned, and which go on while those lock calls interleave.  Every such run in
    which no rename takes a working task's directory is a run of TokenStoreRuns. */
module TokenStoreLocking {
  import opened Results
  import opened TokenRecords
  import S = TokenStoreRuns
  import Files = TokenStoreSafety
  import L = TokenLock
  import X = TokenLockExclusion
  import LockRuns = TokenLockRuns

  type InstanceId = S.InstanceId

  /** `process` tells where an instance lives, `ticket` which lock call its mutation holds. */
  datatype System = System(
    store: S.State, lock: L.State, process: map<InstanceId, L.Process>, ticket: map<InstanceId, L.TaskId>)

  datatype Action =
    | LockMove(l: L.Action)                             // of any lock call or process
    | OpenIn(i: InstanceId, p: L.Process)
    | Quit(i: InstanceId)
    | Move(a: S.Action)
    | Enter(i: InstanceId, u: L.TaskId, c: S.Choice)    // acquireLock has returned
    | Refuse(i: InstanceId, c: S.Choice)                // acquireLock has thrown
    | LetGo(i: InstanceId)                              // releaseLock is called
    | Settle(i: InstanceId, c: S.Choice)                // releaseLock has returned or thrown

  // ----- runs

  /** Store steps in which the lock plays no part. */
  predicate Unlocked(s: S.State, a: S.Action) {
    match a
    case Mutation(i, _) => i in s.instances && !s.instances[i].pc.Locking? && !s.instances[i].pc.Releasing?
    case Open(_) => false
    case Die(_) => false
    case ReapLock => false
    case _ => true
  }

  predicate At(b: System, i: InstanceId, locking: bool) {
    S.Alive(b.store, i) && if locking then b.store.instances[i].pc.Locking? else b.store.instances[i].pc.Releasing?
  }

  predicate Tickets(b: System, u: L.TaskId) { exists i :: i in b.ticket && b.ticket[i] == u }

  ghost predicate Enabled(b: System, a: Action) {
    match a
    case LockMove(l) =>
      && L.Enabled(b.lock, l)
      && (l.Release? ==> !Tickets(b, l.id))
      && (l.Exit? ==> forall i :: S.Alive(b.store, i) && i in b.process ==> b.process[i] != l.process)
    case OpenIn(i, p) => S.Enabled(b.store, S.Open(i)) && p in b.lock.running
    case Quit(i) => S.Enabled(b.store, S.Die(i))
    case Move(m) => S.Enabled(b.store, m) && Unlocked(b.store, m)
    case Enter(i, u, c) =>
      && At(b, i, true) && c.ok && S.Enabled(b.store, S.Mutation(i, c))
      && i in b.process && L.Live(b.lock, u) && b.lock.tasks[u].pc.Held?
      && b.lock.tasks[u].process == b.process[i] && !Tickets(b, u)
    case Refuse(i, c) => At(b, i, true) && !c.ok && S.Enabled(b.store, S.Mutation(i, c))
    case LetGo(i) => At(b, i, false) && i in b.ticket && L.Enabled(b.lock, L.Release(b.ticket[i]))
    case Settle(i, c) => At(b, i, false) && i !in b.ticket && S.Enabled(b.store, S.Mutation(i, c))
  }

  /** A mutation that enters finds the lock free: whoever had it has lost it by now. */
  function Free(s: S.State): S.State { s.(lock := None) }

  ghost function Apply(b: System, a: Action): System
    requires Enabled(b, a)
  {
    match a
    case LockMove(l) => b.(lock := L.Apply(b.lock, l))
    case OpenIn(i, p) => b.(store := S.Apply(b.store, S.Open(i)), process := b.process[i := p])
    case Quit(i) => b.(store := S.Apply(b.store, S.Die(i)))
    case Move(m) => b.(store := S.Apply(b.store, m))
    case Enter(i, u, c) => b.(store := S.Apply(Free(b.store), S.Mutation(i, c)), ticket := b.ticket[i := u])
    case Refuse(i, c) => b.(store := S.Apply(b.store, S.Mutation(i, c)))
    case LetGo(i) => b.(lock := L.Apply(b.lock, L.Release(b.ticket[i])), ticket := b.ticket - {i})
    case Settle(i, c) => b.(store := S.Apply(b.store, S.Mutation(i, c)))
  }

  function Start(existing: Option<Records>): System { System(S.Start(existing), L.START, map[], map[]) }

  ghost function After(existing: Option<Records>, actions: seq<Action>): Option<System>
    decreases |actions|
  {
    if actions == [] then Some(Start(existing))
    else
      var before := After(existing, actions[..|actions| - 1]);
      var a := actions[|actions| - 1];
      if before.None? || !Enabled(before.value, a) then None else Some(Apply(before.value, a))
  }

  // ----- what a run does to its two parts

  /** The lock's part of an action. */
  function LockPart(b: System, a: Action): seq<L.Action> {
    match a
    case LockMove(l) => [l]
    case LetGo(i) => if i in b.ticket then [L.Release(b.ticket[i])] else []
    case _ => []
  }

  /** The store's part; where another instance seems to have the lock, that is lost first. */
  function StorePart(b: System, a: Action): seq<S.Action> {
    match a
    case LockMove(_) => []
    case OpenIn(i, _) => [S.Open(i)]
    case Quit(i) => [S.Die(i)]
    case Move(m) => [m]
    case Enter(i, _, c) => (if b.store.lock.Some? then [S.ReapLock] else []) + [S.Mutation(i, c)]
    case Refuse(i, c) => [S.Mutation(i, c)]
    case LetGo(_) => []
    case Settle(i, c) => [S.Mutation(i, c)]
  }

  ghost function LockActions(existing: Option<Records>, actions: seq<Action>): seq<L.Action>
    requires After(existing, actions).Some?
    decreases |actions|
  {
    if actions == [] then []
    else
      var last := |actions| - 1;
      LockActions(existing, actions[..last]) + LockPart(After(existing, actions[..last]).value, actions[last])
  }

  ghost function StoreActions(existing: Option<Records>, actions: seq<Action>): seq<S.Action>
    requires After(existing, actions).Some?
    decreases |actions|
  {
    if actions == [] then []
    else
      var last := |actions| - 1;
      StoreActions(existing, actions[..last]) + StorePart(After(existing, actions[..last]).value, actions[last])
  }

  lemma LockPartApplies(b: System, a: Action)
    requires Enabled(b, a)
    ensures var part := LockPart(b, a);
            if part == [] then Apply(b, a).lock == b.lock
            else |part| == 1 && L.Enabled(b.lock, part[0]) && Apply(b, a).lock == L.Apply(b.lock, part[0])
  {
  }

  lemma {:induction false} LockPartIsLockRun(existing: Option<Records>, actions: seq<Action>)
    requires After(existing, actions).Some?
    ensures L.After(LockActions(existing, actions)) == Some(After(existing, actions).value.lock)
    decreases |actions|
  {
    if actions != [] {
      var last := |actions| - 1;
      var b := After(existing, actions[..last]).value;
      var before, part := LockActions(existing, actions[..last]), LockPart(b, actions[last]);
      LockPartIsLockRun(existing, actions[..last]);
      LockPartApplies(b, actions[last]);
      if part == [] { assert before + part == before; }
      else { LockRuns.Extend(before, part[0]); }
    }
  }

  /** The lock's run keeps working tasks if the whole run does. */
  lemma EarlierKeeps(existing: Option<Records>, actions: seq<Action>)
    requires After(existing, actions).Some? && actions != [] && X.KeepsWorking(LockActions(existing, actions))
    ensures X.KeepsWorking(LockActions(existing, actions[..|actions| - 1]))
  {
    var last := |actions| - 1;
    var b := After(existing, actions[..last]).value;
    var before, part := LockActions(existing, actions[..last]), LockPart(b, actions[last]);
    if part == [] { assert before + part == before; }
    else { assert (before + part)[..|before + part| - 1] == before; }
  }

  // ----- holding a ticket

  /** Tickets are pairwise different, and one in its critical section holds a lock call
      of its own live process. */
  ghost predicate TicketsOk(b: System) {
    && (forall i :: S.Alive(b.store, i) ==> i in b.process && b.process[i] in b.lock.running)
    && (forall i, j :: i in b.ticket && j in b.ticket && b.ticket[i] == b.ticket[j] ==> i == j)
    && (forall i :: S.Alive(b.store, i) && S.Critical(b.store.instances[i].pc) ==> Holds(b, i))
  }

  predicate Holds(b: System, i: InstanceId) {
    && i in b.ticket && b.ticket[i] in b.lock.tasks && b.lock.tasks[b.ticket[i]].pc.Held?
    && i in b.process && b.lock.tasks[b.ticket[i]].process == b.process[i]
  }

  /** A holder stays one until its own release. */
  lemma LockKeepsHeld(s: L.State, l: L.Action, u: L.TaskId)
    requires L.Enabled(s, l) && u in s.tasks && s.tasks[u].pc.Held? && l != L.Release(u)
    ensures u in L.Apply(s, l).tasks && L.Apply(s, l).tasks[u] == s.tasks[u]
  {
  }

  /** Outside Enter no step brings an instance into its critical section. */
  lemma CriticalStays(s: S.State, a: S.Action, i: InstanceId)
    requires S.Enabled(s, a) && S.Alive(S.Apply(s, a), i) && S.Critical(S.Apply(s, a).instances[i].pc)
    requires a.Mutation? && a.i in s.instances && s.instances[a.i].pc.Locking? ==> !a.c.ok
    ensures S.Alive(s, i) && S.Critical(s.instances[i].pc)
  {
  }

  lemma AliveStays(s: S.State, a: S.Action, i: InstanceId)
    requires S.Enabled(s, a) && S.Alive(S.Apply(s, a), i) && !a.Open?
    ensures S.Alive(s, i)
  {
  }

  lemma LockMoveKeepsTickets(b: System, l: L.Action)
    requires TicketsOk(b) && Enabled(b, LockMove(l))
    ensures TicketsOk(Apply(b, LockMove(l)))
  {
    var b' := Apply(b, LockMove(l));
    forall i | S.Alive(b'.store, i) && S.Critical(b'.store.instances[i].pc) ensures Holds(b', i) {
      assert Holds(b, i);
      LockKeepsHeld(b.lock, l, b.ticket[i]);
    }
  }

  lemma StoreMoveKeepsTickets(b: System, a: Action, m: S.Action)
    requires TicketsOk(b) && Enabled(b, a) && S.Enabled(b.store, m) && !m.Open?
    requires m.Mutation? && m.i in b.store.instances && b.store.instances[m.i].pc.Locking? ==> !m.c.ok
    requires Apply(b, a) == b.(store := S.Apply(b.store, m))
    ensures TicketsOk(Apply(b, a))
  {
    var b' := Apply(b, a);
    forall i | S.Alive(b'.store, i)
      ensures i in b'.process && b'.process[i] in b'.lock.running
      ensures S.Critical(b'.store.instances[i].pc) ==> Holds(b', i)
    {
      AliveStays(b.store, m, i);
      if S.Critical(b'.store.instances[i].pc) {
        CriticalStays(b.store, m, i);
        assert Holds(b, i);
      }
    }
  }

  lemma OpenKeepsTickets(b: System, i: InstanceId, p: L.Process)
    requires TicketsOk(b) && Enabled(b, OpenIn(i, p))
    ensures TicketsOk(Apply(b, OpenIn(i, p)))
  {
    var b' := Apply(b, OpenIn(i, p));
    forall j | S.Alive(b'.store, j) && S.Critical(b'.store.instances[j].pc) ensures Holds(b', j) {
      assert j != i && S.Alive(b.store, j) && Holds(b, j);
    }
  }

  lemma EnterKeepsTickets(b: System, i: InstanceId, u: L.TaskId, c: S.Choice)
    requires TicketsOk(b) && Enabled(b, Enter(i, u, c))
    ensures TicketsOk(Apply(b, Enter(i, u, c)))
  {
    var b' := Apply(b, Enter(i, u, c));
    forall j | S.Alive(b'.store, j) && S.Critical(b'.store.instances[j].pc) ensures Holds(b', j) {
      if j != i { assert S.Alive(b.store, j) && Holds(b, j); }
    }
  }

  lemma LetGoKeepsTickets(b: System, i: InstanceId)
    requires TicketsOk(b) && Enabled(b, LetGo(i))
    ensures TicketsOk(Apply(b, LetGo(i)))
  {
    var b' := Apply(b, LetGo(i));
    forall j | S.Alive(b'.store, j) && S.Critical(b'.store.instances[j].pc) ensures Holds(b', j) {
      assert j != i && Holds(b, j);
      LockKeepsHeld(b.lock, L.Release(b.ticket[i]), b.ticket[j]);
    }
  }

  lemma ApplyKeepsTickets(b: System, a: Action)
    requires TicketsOk(b) && Enabled(b, a)
    ensures TicketsOk(Apply(b, a))
  {
    match a {
      case LockMove(l) => LockMoveKeepsTickets(b, l);
      case OpenIn(i, p) => OpenKeepsTickets(b, i, p);
      case Quit(i) => StoreMoveKeepsTickets(b, a, S.Die(i));
      case Move(m) => StoreMoveKeepsTickets(b, a, m);
      case Enter(i, u, c) => EnterKeepsTickets(b, i, u, c);
      case Refuse(i, c) => StoreMoveKeepsTickets(b, a, S.Mutation(i, c));
      case LetGo(i) => LetGoKeepsTickets(b, i);
      case Settle(i, c) => StoreMoveKeepsTickets(b, a, S.Mutation(i, c));
    }
  }

  lemma {:induction false} ReachableTickets(existing: Option<Records>, actions: seq<Action>)
    requires After(existing, actions).Some?
    ensures TicketsOk(After(existing, actions).value)
    decreases |actions|
  {
    if actions != [] {
      var last := |actions| - 1;
      ReachableTickets(existing, actions[..last]);
      ApplyKeepsTickets(After(existing, actions[..last]).value, actions[last]);
    }
  }

  // ----- the store's part is a run of the store

  /** No live instance is in its critical section. */
  ghost predicate NobodyCritical(s: S.State) {
    forall j :: S.Alive(s, j) ==> !S.Critical(s.instances[j].pc)
  }

  /** No mutation enters its critical section beside another. */
  ghost predicate NoOverlap(existing: Option<Records>, actions: seq<Action>)
    requires After(existing, actions).Some?
    decreases |actions|
  {
    actions == [] ||
    (var last := |actions| - 1;
     && NoOverlap(existing, actions[..last])
     && (actions[last].Enter? ==> NobodyCritical(After(existing, actions[..last]).value.store)))
  }

  lemma OneMore(existing: Option<Records>, run: seq<S.Action>, a: S.Action)
    ensures S.After(existing, run + [a]) ==
              if S.After(existing, run).Some? && S.Enabled(S.After(existing, run).value, a)
              then Some(S.Apply(S.After(existing, run).value, a)) else None
  {
    assert (run + [a])[..|run + [a]| - 1] == run;
  }

  /** In a run of the store the lock can be lost exactly while nobody needs it. */
  lemma ReapExactly(existing: Option<Records>, run: seq<S.Action>)
    requires S.After(existing, run).Some?
    ensures var s := S.After(existing, run).value;
            NobodyCritical(s) <==> s.lock.None? || S.Enabled(s, S.ReapLock)
  {
    Files.ReachableInv(existing, run);
    var s := S.After(existing, run).value;
    forall j | S.Alive(s, j) && S.Critical(s.instances[j].pc) ensures s.lock == Some(j) {
      assert Files.MutationOk(s, j, s.instances[j]);
    }
  }

  lemma EnterIsStoreRun(
    existing: Option<Records>, run: seq<S.Action>, b: System, i: InstanceId, u: L.TaskId, c: S.Choice)
    requires S.After(existing, run) == Some(b.store) && Enabled(b, Enter(i, u, c))
    ensures S.After(existing, run + StorePart(b, Enter(i, u, c))) ==
              if NobodyCritical(b.store) then Some(Apply(b, Enter(i, u, c)).store) else None
  {
    ReapExactly(existing, run);
    if b.store.lock.Some? {
      OneMore(existing, run, S.ReapLock);
      OneMore(existing, run + [S.ReapLock], S.Mutation(i, c));
      assert run + [S.ReapLock] + [S.Mutation(i, c)] == run + StorePart(b, Enter(i, u, c));
    } else {
      OneMore(existing, run, S.Mutation(i, c));
      assert Free(b.store) == b.store && run + [S.Mutation(i, c)] == run + StorePart(b, Enter(i, u, c));
    }
  }

  lemma PartIsStoreRun(existing: Option<Records>, run: seq<S.Action>, b: System, a: Action)
    requires S.After(existing, run) == Some(b.store) && Enabled(b, a)
    ensures S.After(existing, run + StorePart(b, a)) ==
              if a.Enter? ==> NobodyCritical(b.store) then Some(Apply(b, a).store) else None
  {
    if a.Enter? { EnterIsStoreRun(existing, run, b, a.i, a.u, a.c); }
    else if a.LockMove? || a.LetGo? { assert run + [] == run; }
    else { OneMore(existing, run, StorePart(b, a)[0]); }
  }

  lemma NoRunStays(existing: Option<Records>, run: seq<S.Action>, part: seq<S.Action>)
    requires S.After(existing, run).None?
    ensures S.After(existing, run + part).None?
    decreases |part|
  {
    if part == [] {
      assert run + part == run;
    } else {
      NoRunStays(existing, run, part[..|part| - 1]);
      assert (run + part)[..|run + part| - 1] == run + part[..|part| - 1];
    }
  }

  /** Exactly the runs over the real lock in which no mutation enters beside another are,
      for the store, runs of TokenStoreRuns; they lead to the same state. */
  lemma {:induction false} LockedRunExactly(existing: Option<Records>, actions: seq<Action>)
    requires After(existing, actions).Some?
    ensures S.After(existing, StoreActions(existing, actions)) ==
              if NoOverlap(existing, actions) then Some(After(existing, actions).value.store) else None
    decreases |actions|
  {
    if actions != [] {
      var last := |actions| - 1;
      var b, run := After(existing, actions[..last]).value, StoreActions(existing, actions[..last]);
      LockedRunExactly(existing, actions[..last]);
      if NoOverlap(existing, actions[..last]) { PartIsStoreRun(existing, run, b, actions[last]); }
      else { NoRunStays(existing, run, StorePart(b, actions[last])); }
    }
  }

  // ----- an excluding lock lets no mutations overlap

  /** When a mutation enters, no other live instance is in its critical section. */
  lemma EnterFindsNobody(b: System, i: InstanceId, u: L.TaskId, c: S.Choice)
    requires TicketsOk(b) && X.WorkInv(b.lock) && Enabled(b, Enter(i, u, c))
    ensures NobodyCritical(b.store)
  {
    forall j | S.Alive(b.store, j) ensures !S.Critical(b.store.instances[j].pc) {
      if S.Critical(b.store.instances[j].pc) {
        assert Holds(b, j);
        X.OnlyOneWorks(b.lock, u, b.ticket[j]);
      }
    }
  }

  lemma {:induction false} UntakenLockLetsNoneOverlap(existing: Option<Records>, actions: seq<Action>)
    requires After(existing, actions).Some? && X.KeepsWorking(LockActions(existing, actions))
    ensures NoOverlap(existing, actions)
    decreases |actions|
  {
    if actions != [] {
      var last := |actions| - 1;
      var b, a := After(existing, actions[..last]).value, actions[last];
      EarlierKeeps(existing, actions);
      UntakenLockLetsNoneOverlap(existing, actions[..last]);
      ReachableTickets(existing, actions[..last]);
      LockPartIsLockRun(existing, actions[..last]);
      X.ReachableWorkInv(LockActions(existing, actions[..last]));
      if a.Enter? { EnterFindsNobody(b, a.i, a.u, a.c); }
    }
  }

  /** Every run over the real lock in which no rename takes a working task's directory
      is, for the store, a run of TokenStoreRuns that leads to the same state. */
  lemma LockedRunIsStoreRun(existing: Option<Records>, actions: seq<Action>)
    requires After(existing, actions).Some? && X.KeepsWorking(LockActions(existing, actions))
    ensures S.After(existing, StoreActions(existing, actions)) == Some(After(existing, actions).value.store)
  {
    UntakenLockLetsNoneOverlap(existing, actions);
    LockedRunExactly(existing, actions);
  }

  /** So the file history holds over the real lock: each file is its predecessor with one
      change, no later one forgets a record or a revocation, and every reported success
      shows in every later file. */
  lemma LockedFilesNeverForget(existing: Option<Records>, actions: seq<Action>, m: nat, n: nat)
    requires After(existing, actions).Some? && X.KeepsWorking(LockActions(existing, actions))
    requires Files.Initial(existing) <= m <= n <= |After(existing, actions).value.store.files|
    ensures var s := After(existing, actions).value.store;
            && Keeps(Content(s.files, m), Content(s.files, n))
            && (m < |s.files| ==> OneChange(Content(s.files, m), Content(s.files, m + 1)))
            && (forall k :: 0 <= k < |s.reports| && s.reports[k].version <= n ==> Shows(Content(s.files, n), s.reports[k].change))
  {
    var run := StoreActions(existing, actions);
    LockedRunIsStoreRun(existing, actions);
    Files.FilesNeverForget(existing, run, m, n);
    var s := After(existing, actions).value.store;
    if m < |s.files| { Files.EveryFileIsOneChange(existing, run, m); }
    forall k | 0 <= k < |s.reports| && s.reports[k].version <= n ensures Shows(Content(s.files, n), s.reports[k].change) {
      Files.SuccessIsPermanent(existing, run, k, n);
    }
  }

  predicate Shows(file: Records, change: Change) {
    match change
    case Add(id, record) => id in file && file[id].(revokedAt := None) == record
    case Revoke(id, at) => id in file && file[id].revokedAt == Some(at)
  }

  /** And so does the coherence of every idle instance's cache. */
  lemma LockedCacheCoherence(existing: Option<Records>, actions: seq<Action>, i: InstanceId)
    requires After(existing, actions).Some? && X.KeepsWorking(LockActions(existing, actions))
    requires var s := After(existing, actions).value.store;
             S.Alive(s, i) && !S.Mutating(s.instances[i]) && s.instances[i].fingerprint == |s.files|
    ensures var s := After(existing, actions).value.store; s.instances[i].records == Content(s.files, |s.files|)
  {
    LockedRunIsStoreRun(existing, actions);
    Files.CacheCoherence(existing, StoreActions(existing, actions), i);
  }
}
