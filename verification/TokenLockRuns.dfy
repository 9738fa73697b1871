/** Undisturbed runs of the token-store lock, and a run that shows what age-based
    reaping costs. */
module TokenLockRuns {
  import opened Results
  import opened TokenLock
  import opened TokenLockSafety

  const OK := Choice(true, 0, true, false, false, false)
  const OLD := Choice(true, 0, true, true, false, false)

  /** Every owner judged stale has given its directory up; every marker judged stale is
      a complete one of a process of the judge's host that has exited. */
  predicate CarefulRun(actions: seq<Action>)
    decreases |actions|
  {
    actions != [] ==>
      var last := |actions| - 1;
      && CarefulRun(actions[..last])
      && (After(actions[..last]).Some? ==> CarefulJudgement(After(actions[..last]).value, actions[last]))
  }

  predicate CarefulJudgement(s: State, a: Action) {
    && SoundOwner(s, a)
    && (a.Step? && a.id in s.tasks && s.tasks[a.id].pc.JudgeMarker?
          && Stale(s.running, s.tasks[a.id], s.tasks[a.id].markerOwner, a.c) ==>
            IsAlive(s.running, s.tasks[a.id], s.tasks[a.id].markerOwner, a.c) == Dead)
  }

  lemma Extend(actions: seq<Action>, a: Action)
    requires After(actions).Some? && Enabled(After(actions).value, a)
    ensures After(actions + [a]) == Some(Apply(After(actions).value, a))
    ensures CarefulRun(actions) && CarefulJudgement(After(actions).value, a) ==> CarefulRun(actions + [a])
  {
    assert (actions + [a])[..|actions|] == actions;
  }

  /** One more step of task `id`. */
  lemma More(actions: seq<Action>, s: State, id: TaskId, c: Choice, d: Disk, t: Task)
    returns (more: seq<Action>, s': State)
    requires After(actions) == Some(s) && Live(s, id) && Intact(s.disk) && TaskStep(s, id, c) == (d, t)
    ensures actions <= more
    ensures After(more) == Some(s') && s' == s.(disk := d, tasks := s.tasks[id := t])
    ensures CarefulRun(actions) && CarefulJudgement(s, Step(id, c)) ==> CarefulRun(more)
  {
    Extend(actions, Step(id, c));
    more, s' := actions + [Step(id, c)], s.(disk := d, tasks := s.tasks[id := t]);
  }

  function Locked(d: Disk, ino: Ino, dir: Dir): Disk { WithDir(d, ino, dir).(lock := Some(ino)) }

  function HolderDir(id: TaskId, t: Task): Dir { Dir(Me(id, t), Some(MyFile(id, t, true)), None) }

  /** Alone and without I/O errors, an acquirer takes a free lock. */
  lemma AcquireAlone(actions: seq<Action>, s: State, id: TaskId, ino: Ino)
    returns (more: seq<Action>, s': State)
    requires After(actions) == Some(s) && Live(s, id) && s.tasks[id].pc.Mkdir?
    requires s.disk.lock.None? && ino !in s.disk.dirs
    ensures actions <= more
    ensures After(more) == Some(s')
    ensures CarefulRun(actions) ==> CarefulRun(more)
    ensures var t := s.tasks[id];
            s' == s.(disk := Locked(s.disk, ino, HolderDir(id, t)), tasks := s.tasks[id := t.(meta := ino, pc := Held)])
  {
    var t, mine := s.tasks[id], Me(id, s.tasks[id]);
    var made := Locked(s.disk, ino, Dir(mine, None, None));
    more, s' := More(actions, s, id, OK.(ino := ino), made, Go(t, StatNew));
    t := t.(meta := ino);
    more, s' := More(more, s', id, OK, made, Go(t, OpenOwner));
    more, s' := Own(more, s', id, ino);
    assert s'.disk == Locked(s.disk, ino, HolderDir(id, s.tasks[id]));
  }

  lemma Own(actions: seq<Action>, s: State, id: TaskId, ino: Ino) returns (more: seq<Action>, s': State)
    requires After(actions) == Some(s) && Live(s, id) && s.tasks[id].pc.OpenOwner? && s.tasks[id].meta == ino
    requires s.disk.lock == Some(ino) && ino in s.disk.dirs
    requires s.disk.dirs[ino] == Dir(Me(id, s.tasks[id]), None, None)
    ensures actions <= more
    ensures After(more) == Some(s')
    ensures CarefulRun(actions) ==> CarefulRun(more)
    ensures s' == s.(disk := WithDir(s.disk, ino, HolderDir(id, s.tasks[id])), tasks := s.tasks[id := Go(s.tasks[id], Held)])
  {
    var t, mine := s.tasks[id], Me(id, s.tasks[id]);
    var begun := WithDir(s.disk, ino, Dir(mine, Some(MyFile(id, t, false)), None));
    var written := WithDir(begun, ino, HolderDir(id, t));
    more, s' := More(actions, s, id, OK, begun, Go(t, WriteOwner(ino)));
    more, s' := More(more, s', id, OK, written, Go(t, CheckStat));
    more, s' := More(more, s', id, OK, written, Go(t, CheckOwner(ino)));
    more, s' := More(more, s', id, OK, written, Go(t, Held));
    assert written == WithDir(s.disk, ino, HolderDir(id, t));
  }

  /** Alone and without I/O errors, an acquirer that judges the lock stale moves it aside. */
  lemma ReapAlone(actions: seq<Action>, s: State, id: TaskId, c: Choice, owner: Owner)
    returns (more: seq<Action>, s': State)
    requires After(actions) == Some(s) && Live(s, id) && s.tasks[id].pc.Mkdir?
    requires s.disk.lock.Some? && Intact(s.disk) && s.disk.lock.value !in s.disk.tombs
    requires s.disk.dirs[s.disk.lock.value] == Dir(owner.id, Some(File(owner, true)), None)
    requires Stale(s.running, s.tasks[id], Some(owner), c)
    ensures After(more) == Some(s') && OnlyTask(s, s', id)
    ensures s'.disk.lock.None? && s'.disk.dirs.Keys == s.disk.dirs.Keys && s'.tasks[id].pc.Mkdir?
  {
    var i := s.disk.lock.value;
    var judged, marked: State;
    more, judged := Condemn(actions, s, id, c, owner);
    more, marked := Mark(more, judged, id, i);
    assert OnlyTask(s, marked, id) && ReadOwner(marked.disk) == Some(owner);
    more, s' := Quarantine(more, marked, id, i);
    MovedAside(marked.disk, i);
  }

  lemma Condemn(actions: seq<Action>, s: State, id: TaskId, c: Choice, owner: Owner)
    returns (more: seq<Action>, s': State)
    requires After(actions) == Some(s) && Live(s, id) && s.tasks[id].pc.Mkdir?
    requires s.disk.lock.Some? && Intact(s.disk)
    requires s.disk.dirs[s.disk.lock.value] == Dir(owner.id, Some(File(owner, true)), None)
    requires Stale(s.running, s.tasks[id], Some(owner), c)
    ensures After(more) == Some(s') && OnlyTask(s, s', id) && s'.disk == s.disk
    ensures s'.tasks[id].pc.OpenMarker? && s'.tasks[id].ino == s.disk.lock.value && s'.tasks[id].owner == Some(owner)
  {
    var looked: State;
    more, looked := Look(actions, s, id, owner);
    more, s' := More(more, looked, id, c, s.disk, Go(looked.tasks[id], OpenMarker));
  }

  lemma Look(actions: seq<Action>, s: State, id: TaskId, owner: Owner) returns (more: seq<Action>, s': State)
    requires After(actions) == Some(s) && Live(s, id) && s.tasks[id].pc.Mkdir?
    requires s.disk.lock.Some? && Intact(s.disk)
    requires s.disk.dirs[s.disk.lock.value] == Dir(owner.id, Some(File(owner, true)), None)
    ensures After(more) == Some(s') && id in s'.tasks
    ensures s' == s.(tasks := s.tasks[id := s'.tasks[id]])
    ensures s'.tasks[id].pc.Judge? && s'.tasks[id].process == s.tasks[id].process
    ensures s'.tasks[id].ino == s.disk.lock.value && s'.tasks[id].owner == Some(owner)
  {
    var t := s.tasks[id];
    more, s' := More(actions, s, id, OK, s.disk, Go(t, LookStat));
    t := t.(ino := s.disk.lock.value, look := owner.id, abandoned := Gone(s', owner.id), pc := LookOwner);
    more, s' := More(more, s', id, OK, s.disk, t);
    more, s' := More(more, s', id, OK, s.disk, t.(owner := Some(owner), target := owner.id, pc := Judge));
  }

  lemma Mark(actions: seq<Action>, s: State, id: TaskId, i: Ino) returns (more: seq<Action>, s': State)
    requires After(actions) == Some(s) && Live(s, id) && s.tasks[id].pc.OpenMarker?
    requires s.disk.lock == Some(i) && i in s.disk.dirs && s.disk.dirs[i].marker.None?
    ensures After(more) == Some(s')
    ensures CarefulRun(actions) ==> CarefulRun(more)
    ensures s' == s.(disk := WithDir(s.disk, i, s.disk.dirs[i].(marker := Some(MyFile(id, s.tasks[id], true)))),
                     tasks := s.tasks[id := Go(s.tasks[id], QuarantineStat(true))])
  {
    var t, dir := s.tasks[id], s.disk.dirs[i];
    var begun := WithDir(s.disk, i, dir.(marker := Some(MyFile(id, t, false))));
    var marked := WithDir(begun, i, dir.(marker := Some(MyFile(id, t, true))));
    more, s' := More(actions, s, id, OK, begun, Go(t, WriteMarker(i)));
    more, s' := More(more, s', id, OK, marked, Go(t, QuarantineStat(true)));
    assert marked == WithDir(s.disk, i, dir.(marker := Some(MyFile(id, t, true))));
  }

  /** Nothing but the disk and task `id` differ. */
  ghost predicate OnlyTask(s: State, s': State, id: TaskId) {
    && s'.running == s.running && s'.retired == s.retired && s'.tasks.Keys == s.tasks.Keys && id in s.tasks
    && s'.tasks[id].process == s.tasks[id].process
    && (forall u :: u in s.tasks && u != id ==> s'.tasks[u] == s.tasks[u])
  }

  lemma Quarantine(actions: seq<Action>, s: State, id: TaskId, i: Ino) returns (more: seq<Action>, s': State)
    requires After(actions) == Some(s) && Live(s, id) && s.tasks[id].pc == QuarantineStat(true) && s.tasks[id].ino == i
    requires s.disk.lock == Some(i) && i in s.disk.dirs && i !in s.disk.tombs
    requires s.tasks[id].owner.Some? && ReadOwner(s.disk) == s.tasks[id].owner
    ensures After(more) == Some(s') && OnlyTask(s, s', id)
    ensures s'.disk == Move(s.disk, i) && s'.tasks[id].pc.Mkdir?
  {
    var aimed, moved: State;
    more, aimed := Aim(actions, s, id, i);
    more, moved := Aside(more, aimed, id, i);
    MovedAside(s.disk, i);
    assert OnlyTask(s, moved, id) && moved.tasks[id] == Go(aimed.tasks[id], CheckMoved(true));
    more, s' := Leave(more, moved, id);
  }

  lemma MovedAside(d: Disk, i: Ino)
    requires d.lock == Some(i)
    ensures Move(d, i).lock.None? && i in Move(d, i).tombs && Move(d, i).tombs[i] == i
  {
  }

  lemma Aside(actions: seq<Action>, s: State, id: TaskId, i: Ino) returns (more: seq<Action>, s': State)
    requires After(actions) == Some(s) && Live(s, id) && s.tasks[id].pc == Rename(true) && s.tasks[id].ino == i
    requires s.disk.lock == Some(i) && i in s.disk.dirs && i !in s.disk.tombs
    ensures After(more) == Some(s')
    ensures s' == s.(disk := Move(s.disk, i), tasks := s.tasks[id := Go(s.tasks[id], CheckMoved(true))])
  {
    more, s' := More(actions, s, id, OK, Move(s.disk, i), Go(s.tasks[id], CheckMoved(true)));
  }

  lemma Aim(actions: seq<Action>, s: State, id: TaskId, i: Ino) returns (more: seq<Action>, s': State)
    requires After(actions) == Some(s) && Live(s, id) && s.tasks[id].pc == QuarantineStat(true) && s.tasks[id].ino == i
    requires s.disk.lock == Some(i) && i in s.disk.dirs
    requires s.tasks[id].owner.Some? && ReadOwner(s.disk) == s.tasks[id].owner
    ensures After(more) == Some(s') && s' == s.(tasks := s.tasks[id := Go(s.tasks[id], Rename(true))])
  {
    more, s' := More(actions, s, id, OK, s.disk, Go(s.tasks[id], QuarantineOwner(true)));
    more, s' := More(more, s', id, OK, s.disk, Go(s.tasks[id], Rename(true)));
  }

  lemma Leave(actions: seq<Action>, s: State, id: TaskId) returns (more: seq<Action>, s': State)
    requires After(actions) == Some(s) && Live(s, id) && s.tasks[id].pc == CheckMoved(true)
    requires var i := s.tasks[id].ino; s.disk.lock.None? && i in s.disk.tombs && s.disk.tombs[i] == i
    ensures After(more) == Some(s')
    ensures s' == s.(tasks := s.tasks[id := s.tasks[id].(round := s.tasks[id].round + 1, pc := Mkdir)])
  {
    var t := s.tasks[id];
    more, s' := More(actions, s, id, OK, s.disk, Go(t, DropStat(Again)));
    more, s' := More(more, s', id, OK, s.disk, t.(round := t.round + 1, pc := Mkdir));
  }

  lemma Arrive(actions: seq<Action>, s: State, id: TaskId, p: Process) returns (more: seq<Action>, s': State)
    requires After(actions) == Some(s) && id !in s.tasks && p !in s.running && p !in s.retired
    ensures After(more) == Some(s')
    ensures CarefulRun(actions) ==> CarefulRun(more)
    ensures s' == s.(running := s.running + {p}, tasks := s.tasks[id := Fresh(p)])
  {
    Extend(actions, Spawn(p));
    more, s' := actions + [Spawn(p)], Apply(s, Spawn(p));
    Extend(more, Begin(id, p));
    more, s' := more + [Begin(id, p)], Apply(s', Begin(id, p));
  }

  /** Without the staleness hypothesis the lock excludes nobody: a live holder on
      another host whose directory has aged is reaped, and the reaper acquires beside it. */
  lemma AgedRemoteHolderIsReaped(a: Process, b: Process) returns (actions: seq<Action>, s: State)
    requires a.host != b.host
    ensures After(actions) == Some(s)
    ensures Live(s, 1) && s.tasks[1].pc.Held? && Live(s, 2) && s.tasks[2].pc.Held?
    ensures s.tasks[1].process == a && s.tasks[2].process == b
  {
    actions, s := [], START;
    actions, s := Arrive(actions, s, 1, a);
    actions, s := AcquireAlone(actions, s, 1, 10);
    actions, s := Arrive(actions, s, 2, b);
    actions, s := ReapAlone(actions, s, 2, OLD, Owner(OwnerId(1, 0), a));
    actions, s := AcquireAlone(actions, s, 2, 20);
  }

  /** After any run with sound judgements, a dead holder of the same host does not block
      the lock: alone and without I/O errors, reaping and acquiring succeed at once. */
  lemma DeadHolderIsReplaced(byAge: bool, actions: seq<Action>, s: State, id: TaskId, owner: Owner, ino: Ino)
    returns (more: seq<Action>, s': State)
    requires After(actions) == Some(s) && SoundRun(byAge, actions) && Live(s, id) && s.tasks[id].pc.Mkdir?
    requires Intact(s.disk) && ReadOwner(s.disk) == Some(owner) && LockDir(s.disk).value.marker.None?
    requires owner.process.host == s.tasks[id].process.host && owner.process !in s.running && ino !in s.disk.dirs
    ensures After(more) == Some(s') && Live(s', id) && s'.tasks[id].pc.Held?
    ensures Intact(s'.disk) && ReadOwner(s'.disk) == Some(Owner(Me(id, s'.tasks[id]), s'.tasks[id].process))
  {
    ReachableInv(byAge, actions);
    OwnerRead(byAge, s);
    assert LockDir(s.disk).value == Dir(owner.id, Some(File(owner, true)), None);
    more, s' := ReapAlone(actions, s, id, OK, owner);
    more, s' := AcquireAlone(more, s', id, ino);
  }

  // ----- what relying on a foreign marker costs

  /** Some process exits. */
  lemma Leaves(actions: seq<Action>, s: State, p: Process) returns (more: seq<Action>, s': State)
    requires After(actions) == Some(s) && CarefulRun(actions) && p in s.running
    ensures After(more) == Some(s') && CarefulRun(more)
    ensures s' == s.(running := s.running - {p}, retired := s.retired + {p})
  {
    Extend(actions, Exit(p));
    more, s' := actions + [Exit(p)], Apply(s, Exit(p));
  }

  /** An ownerless directory that its creator has abandoned, and that has aged, is judged stale. */
  lemma CondemnOwnerless(actions: seq<Action>, s: State, id: TaskId, i: Ino, creator: OwnerId)
    returns (more: seq<Action>, s': State)
    requires After(actions) == Some(s) && CarefulRun(actions) && Live(s, id) && s.tasks[id].pc.Mkdir?
    requires s.disk.lock == Some(i) && i in s.disk.dirs && s.disk.dirs[i] == Dir(creator, None, None)
    requires creator.task != id && Gone(s, creator)
    ensures After(more) == Some(s') && CarefulRun(more) && OnlyTask(s, s', id) && s'.disk == s.disk
    ensures var t := s'.tasks[id]; t.pc.OpenMarker? && t.ino == i && t.owner == None && t.round == s.tasks[id].round
  {
    var seen: State;
    more, seen := LookAtOwnerless(actions, s, id, i, creator);
    var t := seen.tasks[id].(owner := None, target := creator, pc := Judge);
    more, s' := More(more, seen, id, OK, s.disk, t);
    more, s' := More(more, s', id, OLD, s.disk, Go(t, OpenMarker));
  }

  lemma LookAtOwnerless(actions: seq<Action>, s: State, id: TaskId, i: Ino, creator: OwnerId)
    returns (more: seq<Action>, s': State)
    requires After(actions) == Some(s) && CarefulRun(actions) && Live(s, id) && s.tasks[id].pc.Mkdir?
    requires s.disk.lock == Some(i) && i in s.disk.dirs && s.disk.dirs[i] == Dir(creator, None, None)
    requires creator.task != id && Gone(s, creator)
    ensures After(more) == Some(s') && CarefulRun(more) && OnlyTask(s, s', id) && s'.disk == s.disk
    ensures s'.tasks[id] == s.tasks[id].(ino := i, look := creator, abandoned := true, pc := LookOwner)
  {
    var t := s.tasks[id];
    more, s' := More(actions, s, id, OK, s.disk, Go(t, LookStat));
    assert Gone(s', creator);
    more, s' := More(more, s', id, OK, s.disk, t.(ino := i, look := creator, abandoned := true, pc := LookOwner));
  }

  /** It finds the marker of another reaper and reads its owner. */
  lemma SeeMarker(actions: seq<Action>, s: State, id: TaskId, i: Ino, marker: Owner)
    returns (more: seq<Action>, s': State)
    requires After(actions) == Some(s) && CarefulRun(actions) && Live(s, id) && s.tasks[id].pc.OpenMarker?
    requires s.disk.lock == Some(i) && i in s.disk.dirs && s.disk.dirs[i].marker == Some(File(marker, true))
    ensures After(more) == Some(s') && CarefulRun(more) && OnlyTask(s, s', id) && s'.disk == s.disk
    ensures var t := s'.tasks[id];
            && t.pc.JudgeMarker? && t.ino == s.tasks[id].ino && t.owner == s.tasks[id].owner
            && t.round == s.tasks[id].round && t.markerOwner == Some(marker)
  {
    var t := Go(s.tasks[id], ReadMarker);
    more, s' := More(actions, s, id, OK, s.disk, t);
    t := t.(markerOwner := Some(marker), markerGone := MarkerGone(s', marker.id), pc := JudgeMarker);
    more, s' := More(more, s', id, OK, s.disk, t);
  }

  /** The reaper itself fails to look again, removes its marker and gives up. */
  lemma WithdrawMarker(actions: seq<Action>, s: State, id: TaskId, i: Ino) returns (more: seq<Action>, s': State)
    requires After(actions) == Some(s) && CarefulRun(actions) && Live(s, id) && s.tasks[id].pc == QuarantineStat(true)
    requires s.disk.lock == Some(i) && i in s.disk.dirs && s.disk.dirs[i].marker == Some(MyFile(id, s.tasks[id], true))
    ensures After(more) == Some(s') && CarefulRun(more) && OnlyTask(s, s', id)
    ensures s'.disk == WithDir(s.disk, i, s.disk.dirs[i].(marker := None))
  {
    var failed: State;
    more, failed := FailToLook(actions, s, id, i);
    more, s' := More(more, failed, id, OK, WithDir(s.disk, i, s.disk.dirs[i].(marker := None)),
                     Go(failed.tasks[id], Finished));
  }

  lemma FailToLook(actions: seq<Action>, s: State, id: TaskId, i: Ino) returns (more: seq<Action>, s': State)
    requires After(actions) == Some(s) && CarefulRun(actions) && Live(s, id) && s.tasks[id].pc == QuarantineStat(true)
    requires s.disk.lock == Some(i) && i in s.disk.dirs && s.disk.dirs[i].marker == Some(MyFile(id, s.tasks[id], true))
    ensures After(more) == Some(s') && CarefulRun(more)
    ensures s' == s.(tasks := s.tasks[id := Go(s.tasks[id], DropUnlink(Throw))])
  {
    more, s' := More(actions, s, id, OK.(ok := false), s.disk, Go(s.tasks[id], DropStat(Throw)));
    more, s' := More(more, s', id, OK, s.disk, Go(s.tasks[id], DropUnlink(Throw)));
  }

  lemma LookAgain(actions: seq<Action>, s: State, id: TaskId, i: Ino) returns (more: seq<Action>, s': State)
    requires After(actions) == Some(s) && CarefulRun(actions) && Live(s, id)
    requires s.tasks[id].pc == QuarantineStat(false) && s.tasks[id].ino == i && s.tasks[id].owner == None
    requires s.disk.lock == Some(i) && i in s.disk.dirs && s.disk.dirs[i].owner == None
    ensures After(more) == Some(s') && CarefulRun(more)
    ensures s' == s.(tasks := s.tasks[id := Go(s.tasks[id], Rename(false))])
  {
    more, s' := More(actions, s, id, OK, s.disk, Go(s.tasks[id], QuarantineOwner(false)));
    more, s' := More(more, s', id, OK, s.disk, Go(s.tasks[id], Rename(false)));
  }

  /** The marker's process has exited: the directory is aimed at without a marker of its own. */
  lemma AimUnmarked(actions: seq<Action>, s: State, id: TaskId, i: Ino, marker: Owner)
    returns (more: seq<Action>, s': State)
    requires After(actions) == Some(s) && CarefulRun(actions) && Live(s, id) && s.tasks[id].pc.JudgeMarker?
    requires s.tasks[id].markerOwner == Some(marker) && marker.process.host == s.tasks[id].process.host
    requires marker.process !in s.running && s.tasks[id].ino == i && s.tasks[id].owner == None
    requires s.disk.lock == Some(i) && i in s.disk.dirs && s.disk.dirs[i].owner == None
    ensures After(more) == Some(s') && CarefulRun(more) && OnlyTask(s, s', id) && s'.disk == s.disk
    ensures s'.tasks[id] == Go(s.tasks[id], Rename(false))
  {
    var t := s.tasks[id];
    more, s' := More(actions, s, id, OK, s.disk, Go(t, QuarantineStat(false)));
    more, s' := LookAgain(more, s', id, i);
  }

  /** Five processes of one host. */
  predicate OneHost(p: seq<Process>) {
    |p| == 5 && (forall j, k :: 0 <= j < k < 5 ==> p[j] != p[k]) && forall k :: 0 <= k < 5 ==> p[k].host == p[0].host
  }

  const FIRST := OwnerId(0, 0)

  /** The first task has made directory 10 and exited. */
  lemma AbandonDirectory(p: seq<Process>) returns (actions: seq<Action>, s: State)
    requires OneHost(p)
    ensures After(actions) == Some(s) && CarefulRun(actions)
    ensures s.disk == Disk(Some(10), map[10 := Dir(FIRST, None, None)], map[])
    ensures s.running == {} && s.retired == {p[0]} && s.tasks == map[0 := Go(Fresh(p[0]), StatNew)]
  {
    actions, s := Arrive([], START, 0, p[0]);
    actions, s := More(actions, s, 0, OK.(ino := 10), Locked(s.disk, 10, Dir(FIRST, None, None)), Go(Fresh(p[0]), StatNew));
    actions, s := Leaves(actions, s, p[0]);
  }

  /** Two others have come. */
  lemma ComeTwo(p: seq<Process>) returns (actions: seq<Action>, s: State)
    requires OneHost(p)
    ensures After(actions) == Some(s) && CarefulRun(actions)
    ensures s.disk == Disk(Some(10), map[10 := Dir(FIRST, None, None)], map[])
    ensures s.running == {p[1], p[2]} && s.retired == {p[0]} && s.tasks.Keys == {0, 1, 2}
    ensures forall k :: 1 <= k <= 2 ==> k in s.tasks && s.tasks[k] == Fresh(p[k])
    ensures Gone(s, FIRST)
    ensures 0 in s.tasks && s.tasks[0].process == p[0]
  {
    actions, s := AbandonDirectory(p);
    assert Gone(s, FIRST);
    actions, s := Arrive(actions, s, 1, p[1]);
    actions, s := Arrive(actions, s, 2, p[2]);
  }

  /** A third has come. */
  lemma ComeThree(p: seq<Process>) returns (actions: seq<Action>, s: State)
    requires OneHost(p)
    ensures After(actions) == Some(s) && CarefulRun(actions)
    ensures s.disk == Disk(Some(10), map[10 := Dir(FIRST, None, None)], map[])
    ensures s.running == {p[1], p[2], p[3]} && s.retired == {p[0]} && s.tasks.Keys == {0, 1, 2, 3}
    ensures forall k :: 1 <= k <= 3 ==> k in s.tasks && s.tasks[k] == Fresh(p[k])
    ensures Gone(s, FIRST)
  {
    actions, s := ComeTwo(p);
    actions, s := Arrive(actions, s, 3, p[3]);
  }

  /** All three judge it stale. */
  lemma CondemnThree(p: seq<Process>) returns (actions: seq<Action>, s: State)
    requires OneHost(p)
    ensures After(actions) == Some(s) && CarefulRun(actions)
    ensures s.disk == Disk(Some(10), map[10 := Dir(FIRST, None, None)], map[])
    ensures s.running == {p[1], p[2], p[3]} && s.retired == {p[0]} && s.tasks.Keys == {0, 1, 2, 3}
    ensures forall k :: 1 <= k <= 3 ==>
              && k in s.tasks && s.tasks[k].process == p[k] && s.tasks[k].pc.OpenMarker?
              && s.tasks[k].ino == 10 && s.tasks[k].owner == None
  {
    actions, s := ComeThree(p);
    actions, s := CondemnOwnerless(actions, s, 1, 10, FIRST);
    assert Gone(s, FIRST);
    actions, s := CondemnOwnerless(actions, s, 2, 10, FIRST);
    assert Gone(s, FIRST);
    actions, s := CondemnOwnerless(actions, s, 3, 10, FIRST);
  }

  /** Task 1 marks it, and the others read that marker. */
  lemma ShareMarker(p: seq<Process>) returns (actions: seq<Action>, s: State)
    requires OneHost(p)
    ensures After(actions) == Some(s) && CarefulRun(actions)
    ensures s.running == {p[1], p[2], p[3]} && s.retired == {p[0]} && s.tasks.Keys == {0, 1, 2, 3}
    ensures 1 in s.tasks && s.tasks[1].process == p[1] && s.tasks[1].pc == QuarantineStat(true)
    ensures s.disk == Disk(Some(10), map[10 := Dir(FIRST, None, Some(MyFile(1, s.tasks[1], true)))], map[])
    ensures forall k :: 2 <= k <= 3 ==>
              && k in s.tasks && s.tasks[k].process == p[k] && s.tasks[k].pc.JudgeMarker? && s.tasks[k].ino == 10
              && s.tasks[k].owner == None && s.tasks[k].markerOwner == Some(MyFile(1, s.tasks[1], true).owner)
  {
    actions, s := CondemnThree(p);
    actions, s := Mark(actions, s, 1, 10);
    var marker := MyFile(1, s.tasks[1], true).owner;
    actions, s := SeeMarker(actions, s, 2, 10, marker);
    actions, s := SeeMarker(actions, s, 3, 10, marker);
  }

  /** Task 1 withdraws its marker and exits. */
  lemma MarkerWithdrawn(p: seq<Process>) returns (actions: seq<Action>, s: State, marker: Owner)
    requires OneHost(p)
    ensures After(actions) == Some(s) && CarefulRun(actions) && marker.process == p[1]
    ensures s.disk == Disk(Some(10), map[10 := Dir(FIRST, None, None)], map[])
    ensures s.running == {p[2], p[3]} && s.retired == {p[0], p[1]} && s.tasks.Keys == {0, 1, 2, 3}
    ensures forall k :: 2 <= k <= 3 ==>
              && k in s.tasks && s.tasks[k].process == p[k] && s.tasks[k].pc.JudgeMarker? && s.tasks[k].ino == 10
              && s.tasks[k].owner == None && s.tasks[k].markerOwner == Some(marker)
  {
    actions, s := ShareMarker(p);
    marker := MyFile(1, s.tasks[1], true).owner;
    actions, s := WithdrawMarker(actions, s, 1, 10);
    actions, s := Leaves(actions, s, p[1]);
  }

  /** Both others go on to the rename of an empty directory. */
  lemma TwoDelayedReapers(p: seq<Process>) returns (actions: seq<Action>, s: State)
    requires OneHost(p)
    ensures After(actions) == Some(s) && CarefulRun(actions)
    ensures s.disk == Disk(Some(10), map[10 := Dir(FIRST, None, None)], map[])
    ensures s.running == {p[2], p[3]} && s.retired == {p[0], p[1]} && s.tasks.Keys == {0, 1, 2, 3}
    ensures forall k :: 2 <= k <= 3 ==>
              k in s.tasks && s.tasks[k].process == p[k] && s.tasks[k].pc == Rename(false) && s.tasks[k].ino == 10
  {
    var marker: Owner;
    actions, s, marker := MarkerWithdrawn(p);
    actions, s := AimUnmarked(actions, s, 2, 10, marker);
    actions, s := AimUnmarked(actions, s, 3, 10, marker);
  }

  /** Task 2 moves the directory to its tombstone. */
  lemma FirstReaperMoves(p: seq<Process>) returns (actions: seq<Action>, s: State)
    requires OneHost(p)
    ensures After(actions) == Some(s) && CarefulRun(actions)
    ensures s.running == {p[2], p[3]} && s.retired == {p[0], p[1]} && s.tasks.Keys == {0, 1, 2, 3}
    ensures 2 in s.tasks && s.tasks[2].process == p[2] && s.tasks[2].pc.Mkdir?
    ensures 3 in s.tasks && s.tasks[3].process == p[3] && s.tasks[3].pc == Rename(false) && s.tasks[3].ino == 10
    ensures s.disk == Disk(None, map[10 := Dir(FIRST, None, None)], map[10 := 10])
  {
    actions, s := TwoDelayedReapers(p);
    var t := s.tasks[2];
    actions, s := More(actions, s, 2, OK, Move(s.disk, 10), Go(t, CheckMoved(false)));
    actions, s := More(actions, s, 2, OK, s.disk, t.(round := t.round + 1, pc := Mkdir));
  }

  /** Then it acquires. */
  lemma FirstReaperAcquires(p: seq<Process>) returns (actions: seq<Action>, s: State)
    requires OneHost(p)
    ensures After(actions) == Some(s) && CarefulRun(actions)
    ensures s.running == {p[2], p[3]} && s.retired == {p[0], p[1]} && s.tasks.Keys == {0, 1, 2, 3}
    ensures 2 in s.tasks && s.tasks[2].process == p[2] && s.tasks[2].pc.Held?
    ensures 3 in s.tasks && s.tasks[3].process == p[3] && s.tasks[3].pc == Rename(false) && s.tasks[3].ino == 10
    ensures s.disk.lock == Some(20) && s.disk.tombs == map[10 := 10]
    ensures s.disk.dirs.Keys == {10, 20} && s.disk.dirs[10] == Dir(FIRST, None, None)
  {
    actions, s := FirstReaperMoves(p);
    actions, s := AcquireAlone(actions, s, 2, 20);
  }

  /** Sound judgement of owners does not suffice: the retained tombstone can be empty.
      A reaper whose marker others have read withdraws it and exits; of the two that
      find it dead, one quarantines the ownerless directory and acquires, and the
      delayed other replaces the empty tombstone by the live successor's directory. */
  lemma EmptyTombstoneIsReplaced(p: seq<Process>) returns (actions: seq<Action>, s: State)
    requires OneHost(p)
    ensures After(actions) == Some(s) && CarefulRun(actions)
    ensures Live(s, 2) && s.tasks[2].pc.Held? && Live(s, 4) && s.tasks[4].pc.Held?
  {
    actions, s := FirstReaperAcquires(p);
    var before := s;
    assert CanMove(s.disk, 10) && Move(s.disk, 10).dirs.Keys == {20};
    actions, s := More(actions, s, 3, OK, Move(s.disk, 10), Go(s.tasks[3], CheckMoved(false)));
    actions, s := Arrive(actions, s, 4, p[4]);
    actions, s := AcquireAlone(actions, s, 4, 30);
    assert s.tasks[2] == before.tasks[2];
  }

  // ----- failing system calls

  /** A system call that fails changes nothing, except that a failing write may have left
      the whole text. */
  lemma FailingCallChangesNothing(s: State, id: TaskId, c: Choice)
    requires Intact(s.disk) && id in s.tasks && !c.ok
    requires s.tasks[id].pc.WriteOwner? || s.tasks[id].pc.WriteMarker? ==> !c.wrote
    ensures TaskStep(s, id, c).0 == s.disk
  {
  }

  /** And it ends the call: an acquisition first cleans up once its directory is known, a
      reaper that owns a marker first removes it; EEXIST is no failure. */
  lemma FailingCallGivesUp(s: State, id: TaskId, c: Choice)
    requires Intact(s.disk) && id in s.tasks && !c.ok
    ensures var t, t' := s.tasks[id], TaskStep(s, id, c).1;
            && (IsAcquire(t.pc) && !(t.pc.Mkdir? && s.disk.lock.Some?) ==>
                  t' == Go(t, if t.pc.Mkdir? || t.pc.StatNew? then Finished
                              else CleanStat(t.pc.CheckStat? || t.pc.CheckOwner?, false)))
            && (t.pc.ReleaseStat? || t.pc.ReleaseOwner? || t.pc.ReleaseUnlink? || t.pc.ReleaseRmdir? ==> t' == Go(t, Finished))
            && (t.pc.LookStat? || t.pc.LookOwner? || t.pc.OpenMarker? || t.pc.ReadMarker? ==> t' == Go(t, Finished))
            && (t.pc.WriteMarker? || t.pc.DropStat? || t.pc.DropUnlink? ==> t' == Go(t, Finished))
            && (t.pc.QuarantineStat? || t.pc.QuarantineOwner? || t.pc.Rename? || t.pc.CheckMoved? ==>
                  t' == Go(t, if t.pc.owns then DropStat(Throw) else Finished))
  {
  }
}
