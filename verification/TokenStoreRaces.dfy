/** What the store loses when the lock does not exclude: a reported issue that a later
    file forgets. */
module TokenStoreRaces {
  import opened Results
  import opened TokenRecords
  import S = TokenStoreRuns
  import L = TokenLock
  import LockRuns = TokenLockRuns
  import opened TokenStoreLocking

  const OK := S.Choice(true, "", "", 0)

  const OP := S.Issue("clients", Unset, Scope(None, None, None, None))

  function Fresh(id: Id): Record {
    Record("clients", Token(id, ""), 0, Expiration(Unset, 0).value, None, Scope(None, None, None, None))
  }

  lemma More(existing: Option<Records>, actions: seq<Action>, b: System, a: Action) returns (more: seq<Action>, b': System)
    requires After(existing, actions) == Some(b) && Enabled(b, a)
    ensures After(existing, more) == Some(b') && b' == Apply(b, a)
  {
    more, b' := actions + [a], Apply(b, a);
    assert more[..|more| - 1] == actions;
  }

  /** Before any instance opens, every run of the lock can happen. */
  lemma {:induction false} Lift(existing: Option<Records>, locks: seq<L.Action>) returns (actions: seq<Action>)
    requires L.After(locks).Some?
    ensures After(existing, actions) == Some(Start(existing).(lock := L.After(locks).value))
    decreases |locks|
  {
    if locks == [] {
      actions := [];
    } else {
      var last := |locks| - 1;
      actions := Lift(existing, locks[..last]);
      var b: System;
      actions, b := More(existing, actions, Start(existing).(lock := L.After(locks[..last]).value), LockMove(locks[last]));
    }
  }

  function Writing(files: seq<Records>, id: Id, pc: S.Pc): S.Instance {
    S.Opened(files).(records := Content(files, |files|)[id := Fresh(id)], pc := pc)
  }

  /** An idle instance whose lock call holds the lock comes to the brink of publishing. */
  lemma Prepare(existing: Option<Records>, actions: seq<Action>, b: System, i: InstanceId, u: L.TaskId, id: Id)
    returns (more: seq<Action>, b': System)
    requires After(existing, actions) == Some(b) && i in b.store.instances && b.store.instances[i] == S.Opened(b.store.files)
    requires i in b.process && L.Live(b.lock, u) && b.lock.tasks[u].pc.Held? && b.lock.tasks[u].process == b.process[i]
    requires !Tickets(b, u) && id !in Content(b.store.files, |b.store.files|)
    ensures After(existing, more) == Some(b')
    ensures b' == b.(ticket := b.ticket[i := u], store := b.store.(lock := Some(i), instances := b.store.instances[
                       i := Writing(b.store.files, id, S.Publishing(Add(id, Fresh(id))))]))
  {
    more, b' := Knock(existing, actions, b, i);
    more, b' := More(existing, more, b', Enter(i, u, OK));
    more, b' := More(existing, more, b', Move(S.Mutation(i, OK.(id := id))));
    assert b'.store.instances == b.store.instances[i := Writing(b.store.files, id, S.Publishing(Add(id, Fresh(id))))];
  }

  lemma Knock(existing: Option<Records>, actions: seq<Action>, b: System, i: InstanceId)
    returns (more: seq<Action>, b': System)
    requires After(existing, actions) == Some(b) && i in b.store.instances && b.store.instances[i] == S.Opened(b.store.files)
    ensures After(existing, more) == Some(b')
    ensures b' == b.(store := b.store.(instances := b.store.instances[i := S.Opened(b.store.files).(pc := S.Locking(OP))]))
  {
    more, b' := More(existing, actions, b, Move(S.Mutate(i, OP)));
    more, b' := More(existing, more, b', Move(S.Mutation(i, OK)));
    assert b'.store.instances == b.store.instances[i := S.Opened(b.store.files).(pc := S.Locking(OP))];
  }

  /** It publishes, releases and reports, while the lock is another's. */
  lemma Publish(existing: Option<Records>, actions: seq<Action>, b: System, i: InstanceId, id: Id, seen: seq<Records>)
    returns (more: seq<Action>, b': System)
    requires After(existing, actions) == Some(b) && i in b.store.instances
    requires b.store.instances[i] == Writing(seen, id, S.Publishing(Add(id, Fresh(id))))
    ensures After(existing, more) == Some(b')
    ensures b' == b.(store := b.store.(
                       files := b.store.files + [Content(seen, |seen|)[id := Fresh(id)]],
                       instances := b.store.instances[i := Writing(seen, id, S.Syncing(Add(id, Fresh(id))))]))
  {
    more, b' := More(existing, actions, b, Move(S.Mutation(i, OK)));
  }

  lemma Conclude(existing: Option<Records>, actions: seq<Action>, b: System, i: InstanceId, id: Id, seen: seq<Records>)
    returns (more: seq<Action>, b': System)
    requires After(existing, actions) == Some(b) && i in b.store.instances
    requires b.store.instances[i] == Writing(seen, id, S.Syncing(Add(id, Fresh(id)))) && b.store.lock != Some(i)
    requires i in b.ticket && L.Enabled(b.lock, L.Release(b.ticket[i]))
    ensures After(existing, more) == Some(b') && b'.store.files == b.store.files
    ensures b'.store.reports == b.store.reports + [S.Report(Add(id, Fresh(id)), |b.store.files|)]
    ensures b'.store.instances.Keys == b.store.instances.Keys
    ensures forall j :: j in b.store.instances && j != i ==> b'.store.instances[j] == b.store.instances[j]
  {
    more, b' := More(existing, actions, b, Move(S.Mutation(i, OK)));
    more, b' := More(existing, more, b', Move(S.Mutation(i, OK)));
    more, b' := More(existing, more, b', LetGo(i));
    more, b' := More(existing, more, b', Settle(i, OK));
  }

  /** Over a lock that does not exclude, an issue can report success and be forgotten by
      the very next file: a live holder is reaped by age, both instances load the empty
      store, and the later publication overwrites the earlier. */
  lemma ReportedIssueIsLost(p: L.Process, q: L.Process, x: Id, y: Id) returns (actions: seq<Action>, b: System)
    requires p.host != q.host && x != y
    ensures After(None, actions) == Some(b)
    ensures b.store.reports == [S.Report(Add(x, Fresh(x)), 1)] && |b.store.files| == 2
    ensures x in Content(b.store.files, 1) && x !in Content(b.store.files, 2)
  {
    actions, b := BothPrepared(p, q, x, y);
    actions, b := Publish(None, actions, b, 1, x, []);
    actions, b := Conclude(None, actions, b, 1, x, []);
    actions, b := Publish(None, actions, b, 2, y, []);
  }

  lemma BothOpened(p: L.Process, q: L.Process) returns (actions: seq<Action>, b: System)
    requires p.host != q.host
    ensures After(None, actions) == Some(b) && b.ticket == map[] && b.process == map[1 := p, 2 := q]
    ensures b.store == S.Start(None).(instances := map[1 := S.Opened([]), 2 := S.Opened([])])
    ensures L.Live(b.lock, 1) && b.lock.tasks[1].pc.Held? && b.lock.tasks[1].process == p
    ensures L.Live(b.lock, 2) && b.lock.tasks[2].pc.Held? && b.lock.tasks[2].process == q
  {
    var locks, s := LockRuns.AgedRemoteHolderIsReaped(p, q);
    actions := Lift(None, locks);
    b := Start(None).(lock := s);
    actions, b := More(None, actions, b, OpenIn(1, p));
    actions, b := More(None, actions, b, OpenIn(2, q));
  }

  lemma BothPrepared(p: L.Process, q: L.Process, x: Id, y: Id) returns (actions: seq<Action>, b: System)
    requires p.host != q.host
    ensures After(None, actions) == Some(b) && b.ticket == map[1 := 1, 2 := 2]
    ensures b.store == S.Start(None).(lock := Some(2), instances := map[
                         1 := Writing([], x, S.Publishing(Add(x, Fresh(x)))),
                         2 := Writing([], y, S.Publishing(Add(y, Fresh(y))))])
    ensures L.Enabled(b.lock, L.Release(1))
  {
    actions, b := BothOpened(p, q);
    actions, b := Prepare(None, actions, b, 1, 1, x);
    actions, b := Prepare(None, actions, b, 2, 2, y);
  }
}
