/** Undisturbed runs of the rollout lease: acquisition, reclamation of a dead
    holder's lease, and release. */
module RolloutLeaseRuns {
  import opened Results
  import opened RolloutPhases
  import opened RolloutLease

  // ----- one task stepping alone

  /** The disk and task `id` after the given steps. */
  function Solo(running: map<Pid, nat>, id: TaskId, d: Disk, t: Task, cs: seq<Choice>): Option<(Disk, Task)>
    decreases |cs|
  {
    if cs == [] then Some((d, t))
    else if !Intact(d) then None
    else
      var (d', t') := TaskStep(running, d, id, t, cs[0]);
      Solo(running, id, d', t', cs[1..])
  }

  ghost predicate Reaches(running: map<Pid, nat>, id: TaskId, d: Disk, t: Task, d': Disk, t': Task) {
    exists cs :: Solo(running, id, d, t, cs) == Some((d', t'))
  }

  lemma {:induction false} SoloConcat(running: map<Pid, nat>, id: TaskId, d: Disk, t: Task, cs: seq<Choice>, c: Choice)
    requires Solo(running, id, d, t, cs).Some? && Intact(Solo(running, id, d, t, cs).value.0)
    ensures var (d', t') := Solo(running, id, d, t, cs).value;
            Solo(running, id, d, t, cs + [c]) == Some(TaskStep(running, d', id, t', c))
    decreases |cs|
  {
    if cs == [] {
      var step := TaskStep(running, d, id, t, c);
      assert (cs + [c])[1..] == [] && Solo(running, id, step.0, step.1, []) == Some(step);
    } else {
      var (d1, t1) := TaskStep(running, d, id, t, cs[0]);
      SoloConcat(running, id, d1, t1, cs[1..], c);
      assert (cs + [c])[1..] == cs[1..] + [c];
    }
  }

  lemma Stay(running: map<Pid, nat>, id: TaskId, d: Disk, t: Task)
    ensures Reaches(running, id, d, t, d, t)
  {
    assert Solo(running, id, d, t, []) == Some((d, t));
  }

  /** One more step after those that were reached. */
  lemma Then(running: map<Pid, nat>, id: TaskId, d0: Disk, t0: Task, d: Disk, t: Task, c: Choice, d': Disk, t': Task)
    requires Reaches(running, id, d0, t0, d, t) && Intact(d) && TaskStep(running, d, id, t, c) == (d', t')
    ensures Reaches(running, id, d0, t0, d', t')
  {
    var cs :| Solo(running, id, d0, t0, cs) == Some((d, t));
    SoloConcat(running, id, d0, t0, cs, c);
  }

  lemma StepKeepsProcess(running: map<Pid, nat>, d: Disk, id: TaskId, t: Task, c: Choice)
    requires Intact(d)
    ensures TaskStep(running, d, id, t, c).1.process == t.process
  {
  }

  /** What a task reaches alone is reached by a run. */
  lemma {:induction false} SoloIsRun(actions: seq<Action>, s: State, id: TaskId, cs: seq<Choice>)
    returns (more: seq<Action>, s': State)
    requires After(actions) == Some(s) && Live(s, id) && Solo(s.running, id, s.disk, s.tasks[id], cs).Some?
    ensures actions <= more
    ensures var (d, t) := Solo(s.running, id, s.disk, s.tasks[id], cs).value;
            After(more) == Some(s') && Live(s', id) && s' == s.(disk := d, tasks := s.tasks[id := t])
    decreases |cs|
  {
    if cs == [] {
      more, s' := actions, s;
      assert s.tasks[id := s.tasks[id]] == s.tasks;
    } else {
      var (d, t) := TaskStep(s.running, s.disk, id, s.tasks[id], cs[0]);
      StepKeepsProcess(s.running, s.disk, id, s.tasks[id], cs[0]);
      var next := s.(disk := d, tasks := s.tasks[id := t]);
      assert (actions + [Step(id, cs[0])])[..|actions|] == actions;
      more, s' := SoloIsRun(actions + [Step(id, cs[0])], next, id, cs[1..]);
    }
  }

  lemma RunTo(actions: seq<Action>, s: State, id: TaskId, d: Disk, t: Task) returns (more: seq<Action>, s': State)
    requires After(actions) == Some(s) && Live(s, id) && Reaches(s.running, id, s.disk, s.tasks[id], d, t)
    ensures actions <= more
    ensures After(more) == Some(s') && Live(s', id) && s' == s.(disk := d, tasks := s.tasks[id := t])
  {
    var cs :| Solo(s.running, id, s.disk, s.tasks[id], cs) == Some((d, t));
    more, s' := SoloIsRun(actions, s, id, cs);
  }

  const OK := Choice(true, 0, true, 0)

  // ----- acquiring

  function Found(d: Disk): Inspection
    requires Intact(d) && d.lease.Some?
  {
    Inspection(d.lease.value, ReadOwner(d), Entries(LeaseDir(d).value))
  }

  /** One call of inspectLease that finds a lease directory. */
  lemma Inspect(running: map<Pid, nat>, id: TaskId, d0: Disk, t0: Task, d: Disk, t: Task, why: Why, concluded: Task)
    requires Intact(d) && d.lease.Some? && t.pc == LookExists(why)
    requires Reaches(running, id, d0, t0, d, t)
    requires concluded == Concluded(id, t, why, Some(Found(d)))
    ensures Reaches(running, id, d0, t0, d, concluded)
  {
    var i := d.lease.value;
    var meta, entries, owner := Go(t, LookMeta(why)), Go(t, LookEntries(why, i)), Go(t, LookOwner(why, i, Entries(d.dirs[i])));
    Then(running, id, d0, t0, d, t, OK, d, meta);
    Then(running, id, d0, t0, d, meta, OK, d, entries);
    Then(running, id, d0, t0, d, entries, OK, d, owner);
    ConcludedIgnoresPc(id, t, owner, why, Found(d));
    Then(running, id, d0, t0, d, owner, OK, d, concluded);
  }

  lemma ConcludedIgnoresPc(id: TaskId, t: Task, u: Task, why: Why, i: Inspection)
    requires u == Go(t, u.pc)
    ensures Concluded(id, u, why, Some(i)) == Concluded(id, t, why, Some(i))
  {
  }

  function HeldDir(id: TaskId, t: Task): Dir { Dir(id, Some(File(Me(id, t), true)), None) }

  function Leased(d: Disk, ino: Ino, dir: Dir): Disk { WithDir(d, ino, dir).(lease := Some(ino)) }

  lemma MakeAlone(running: map<Pid, nat>, id: TaskId, d0: Disk, t0: Task, d: Disk, t: Task, ino: Ino)
    requires Reaches(running, id, d0, t0, d, t) && t.pc.Mkdir? && d.lease.None? && ino !in d.dirs
    ensures Reaches(running, id, d0, t0, Leased(d, ino, Dir(id, None, None)), t.(meta := ino, pc := OpenOwner))
  {
    var made := Leased(d, ino, Dir(id, None, None));
    Then(running, id, d0, t0, d, t, OK.(ino := ino), made, Go(t, Chmod));
    Then(running, id, d0, t0, made, Go(t, Chmod), OK, made, Go(t, StatNew));
    Then(running, id, d0, t0, made, Go(t, StatNew), OK, made, t.(meta := ino, pc := OpenOwner));
  }

  lemma OwnAlone(running: map<Pid, nat>, id: TaskId, d0: Disk, t0: Task, d: Disk, t: Task, ino: Ino)
    requires d.lease == Some(ino) && ino in d.dirs && d.dirs[ino] == Dir(id, None, None) && t.pc.OpenOwner?
    requires Reaches(running, id, d0, t0, d, t)
    ensures Reaches(running, id, d0, t0, WithDir(d, ino, HeldDir(id, t)), Go(t, LookExists(Acquired)))
  {
    var begun := WithDir(d, ino, Dir(id, Some(File(Me(id, t), false)), None));
    var owned := WithDir(d, ino, HeldDir(id, t));
    Then(running, id, d0, t0, d, t, OK, begun, Go(t, WriteOwner(ino)));
    assert WithDir(begun, ino, HeldDir(id, t)) == owned;
    Then(running, id, d0, t0, begun, Go(t, WriteOwner(ino)), OK, owned, Go(t, StatOwner));
    Then(running, id, d0, t0, owned, Go(t, StatOwner), OK, owned, Go(t, SyncOwner));
    Then(running, id, d0, t0, owned, Go(t, SyncOwner), OK, owned, Go(t, LookExists(Acquired)));
  }

  lemma OwnIsMine(d: Disk, id: TaskId, t: Task)
    requires d.lease == Some(t.meta) && t.meta in d.dirs && d.dirs[t.meta] == HeldDir(id, t)
    ensures StillMine(id, t, Some(Found(d)))
  {
  }

  lemma AcquireSteps(running: map<Pid, nat>, id: TaskId, d0: Disk, t0: Task, d: Disk, t: Task, ino: Ino)
    requires Reaches(running, id, d0, t0, d, t) && t.pc.Mkdir? && d.lease.None? && ino !in d.dirs
    ensures Reaches(running, id, d0, t0, Leased(d, ino, HeldDir(id, t)), t.(meta := ino, pc := Held(Starting)))
  {
    var made, opening := Leased(d, ino, Dir(id, None, None)), t.(meta := ino, pc := OpenOwner);
    MakeAlone(running, id, d0, t0, d, t, ino);
    OwnAlone(running, id, d0, t0, made, opening, ino);
    var held, looking := Leased(d, ino, HeldDir(id, t)), Go(opening, LookExists(Acquired));
    assert WithDir(made, ino, HeldDir(id, opening)) == held;
    OwnIsMine(held, id, looking);
    Inspect(running, id, d0, t0, held, looking, Acquired, Go(opening, Held(Starting)));
  }

  /** Alone and without I/O errors, a free lease is acquired. */
  lemma AcquireAlone(actions: seq<Action>, s: State, id: TaskId, ino: Ino) returns (more: seq<Action>, s': State)
    requires After(actions) == Some(s) && Live(s, id) && s.tasks[id].pc.Mkdir?
    requires s.disk.lease.None? && ino !in s.disk.dirs
    ensures actions <= more
    ensures After(more) == Some(s') && Live(s', id) && s'.tasks[id].pc == Held(Starting)
    ensures s'.disk == Leased(s.disk, ino, HeldDir(id, s'.tasks[id])) && s'.tasks[id].meta == ino
    ensures s'.running == s.running && s'.tasks == s.tasks[id := s'.tasks[id]]
  {
    Stay(s.running, id, s.disk, s.tasks[id]);
    AcquireSteps(s.running, id, s.disk, s.tasks[id], s.disk, s.tasks[id], ino);
    more, s' := RunTo(actions, s, id, Leased(s.disk, ino, HeldDir(id, s.tasks[id])), s.tasks[id].(meta := ino, pc := Held(Starting)));
  }

  // ----- reclaiming

  ghost predicate DeadLease(running: map<Pid, nat>, d: Disk, owner: Owner) {
    && d.lease.Some? && Intact(d)
    && LeaseDir(d).value.owner == Some(File(owner, true)) && LeaseDir(d).value.reaper.None?
    && !Running(running, owner.process)
  }

  lemma FindDead(running: map<Pid, nat>, id: TaskId, d0: Disk, t0: Task, d: Disk, t: Task, owner: Owner)
    requires Reaches(running, id, d0, t0, d, t) && t.pc.Mkdir? && DeadLease(running, d, owner)
    ensures Reaches(running, id, d0, t0, d, t.(seen := Found(d), pc := OpenReaper))
  {
    var seen := t.(seen := Found(d), pc := ReadTicks);
    assert ExactHeld(Found(d)) && Found(d).owner == Some(owner);
    Then(running, id, d0, t0, d, t, OK, d, Go(t, LookExists(FirstLook)));
    Inspect(running, id, d0, t0, d, Go(t, LookExists(FirstLook)), FirstLook, seen);
    Then(running, id, d0, t0, d, seen, OK, d, Go(seen, LookExists(BeforeReaper)));
    Inspect(running, id, d0, t0, d, Go(seen, LookExists(BeforeReaper)), BeforeReaper, Go(seen, OpenReaper));
  }

  function Marked(d: Disk, id: TaskId, t: Task): Disk
    requires d.lease.Some? && Intact(d)
  {
    WithDir(d, d.lease.value, LeaseDir(d).value.(reaper := Some(File(MyReaper(id, t), true))))
  }

  lemma CreateReaper(running: map<Pid, nat>, id: TaskId, d0: Disk, t0: Task, d: Disk, t: Task, i: Ino)
    requires Reaches(running, id, d0, t0, d, t) && t.pc.OpenReaper?
    requires d.lease == Some(i) && i in d.dirs && d.dirs[i].reaper.None?
    ensures Reaches(running, id, d0, t0, Marked(d, id, t), Go(t, StatReaper))
  {
    var begun := WithDir(d, i, d.dirs[i].(reaper := Some(File(MyReaper(id, t), false))));
    Then(running, id, d0, t0, d, t, OK, begun, Go(t, WriteReaper(i)));
    assert WithDir(begun, i, begun.dirs[i].(reaper := Some(File(MyReaper(id, t), true)))) == Marked(d, id, t);
    Then(running, id, d0, t0, begun, Go(t, WriteReaper(i)), OK, Marked(d, id, t), Go(t, StatReaper));
  }

  lemma MarkReaper(running: map<Pid, nat>, id: TaskId, d0: Disk, t0: Task, d: Disk, t: Task)
    requires Reaches(running, id, d0, t0, d, t) && t.pc.StatReaper? && Intact(d)
    requires d.lease == Some(t.seen.ino) && LeaseDir(d).value.reaper == Some(File(MyReaper(id, t), true))
    ensures Reaches(running, id, d0, t0, d, Go(t, LookExists(AfterReaper)))
  {
    Then(running, id, d0, t0, d, t, OK, d, Go(t, SyncReaper));
    Then(running, id, d0, t0, d, Go(t, SyncReaper), OK, d, Go(t, StatBeforeRename));
    Then(running, id, d0, t0, d, Go(t, StatBeforeRename), OK, d, Go(t, LookExists(AfterReaper)));
  }

  lemma Confirm(running: map<Pid, nat>, id: TaskId, d0: Disk, t0: Task, d: Disk, t: Task)
    requires Reaches(running, id, d0, t0, d, t) && t.pc == LookExists(AfterReaper) && Intact(d)
    requires d.lease == Some(t.seen.ino) && ReadOwner(d) == t.seen.owner
    requires LeaseDir(d).value.owner.Some? && LeaseDir(d).value.reaper.Some?
    ensures Reaches(running, id, d0, t0, d, Go(t, Rename))
  {
    assert Found(d).entries == {OwnerJson, ReaperJson};
    Inspect(running, id, d0, t0, d, t, AfterReaper, Go(t, Rename));
  }

  /** The disk after a reclaimed lease directory has been removed. */
  function Reclaimed(d: Disk, i: Ino): Disk { d.(lease := None, dirs := d.dirs - {i}) }

  lemma MoveAside(running: map<Pid, nat>, id: TaskId, d0: Disk, t0: Task, d: Disk, t: Task, i: Ino)
    requires Reaches(running, id, d0, t0, d, t) && t.pc.Rename? && t.seen.ino == i
    requires d.lease == Some(i) && i in d.dirs && ReaperId(id, t.attempt) !in d.tombs
    ensures Reaches(running, id, d0, t0, MoveLease(d, ReaperId(id, t.attempt)), Go(t, TombOwner))
  {
    var moved := MoveLease(d, ReaperId(id, t.attempt));
    Then(running, id, d0, t0, d, t, OK, moved, Go(t, CheckMoved));
    Then(running, id, d0, t0, moved, Go(t, CheckMoved), OK, moved, Go(t, TombOwner));
  }

  lemma EmptyTomb(running: map<Pid, nat>, id: TaskId, d0: Disk, t0: Task, d: Disk, t: Task, i: Ino)
    requires Reaches(running, id, d0, t0, d, t) && t.pc.TombOwner? && d.lease.None?
    requires ReaperId(id, t.attempt) in d.tombs && d.tombs[ReaperId(id, t.attempt)] == i && i in d.dirs
    ensures Reaches(running, id, d0, t0, d.(tombs := d.tombs - {ReaperId(id, t.attempt)}, dirs := d.dirs - {i}), NextAttempt(t))
  {
    var key := ReaperId(id, t.attempt);
    var half := WithDir(d, i, d.dirs[i].(owner := None));
    var bare := WithDir(d, i, d.dirs[i].(owner := None, reaper := None));
    Then(running, id, d0, t0, d, t, OK, half, Go(t, TombReaper));
    assert WithDir(half, i, half.dirs[i].(reaper := None)) == bare;
    Then(running, id, d0, t0, half, Go(t, TombReaper), OK, bare, Go(t, TombRmdir));
    assert bare.dirs - {i} == d.dirs - {i};
    Then(running, id, d0, t0, bare, Go(t, TombRmdir), OK, d.(tombs := d.tombs - {key}, dirs := d.dirs - {i}), NextAttempt(t));
  }

  lemma ReclaimSteps(running: map<Pid, nat>, id: TaskId, d: Disk, t: Task, owner: Owner)
    requires t.pc.Mkdir? && DeadLease(running, d, owner) && ReaperId(id, t.attempt) !in d.tombs
    ensures Reaches(running, id, d, t, Reclaimed(d, d.lease.value), NextAttempt(t.(seen := Found(d))))
  {
    var i, seen := d.lease.value, t.(seen := Found(d), pc := OpenReaper);
    var marked := Marked(d, id, seen);
    Stay(running, id, d, t);
    FindDead(running, id, d, t, d, t, owner);
    CreateReaper(running, id, d, t, d, seen, i);
    MarkReaper(running, id, d, t, marked, Go(seen, StatReaper));
    Confirm(running, id, d, t, marked, Go(seen, LookExists(AfterReaper)));
    MoveAside(running, id, d, t, marked, Go(seen, Rename), i);
    var moved := MoveLease(marked, ReaperId(id, t.attempt));
    EmptyTomb(running, id, d, t, moved, Go(seen, TombOwner), i);
    assert moved.tombs - {ReaperId(id, t.attempt)} == d.tombs && moved.dirs - {i} == d.dirs - {i};
  }

  // ----- tombstone names are fresh

  predicate PastRename(pc: Pc) { IsTomb(pc) || pc.Finished? }

  /** Tombstones are named after reclamation attempts that have made their rename. */
  ghost predicate TombNamesOk(s: State) {
    forall k :: k in s.disk.tombs ==>
      && k.ReaperId? && k.task in s.tasks
      && (k.attempt < s.tasks[k.task].attempt || (k.attempt == s.tasks[k.task].attempt && PastRename(s.tasks[k.task].pc)))
  }

  /** A step adds at most the name of the caller's own attempt, and then its rename is made;
      attempts never go back. */
  predicate NamesInOrder(d: Disk, id: TaskId, t: Task, d': Disk, t': Task) {
    && (d'.tombs.Keys <= d.tombs.Keys
        || (d'.tombs.Keys <= d.tombs.Keys + {ReaperId(id, t.attempt)} && t'.attempt == t.attempt && PastRename(t'.pc)))
    && t.attempt <= t'.attempt
    && (t'.attempt == t.attempt && PastRename(t.pc) ==> PastRename(t'.pc))
  }

  lemma LookNames(d: Disk, id: TaskId, t: Task, c: Choice)
    requires Intact(d) && IsLook(t.pc)
    ensures NamesInOrder(d, id, t, d, LookStep(d, id, t, c))
  {
  }

  lemma AcquireNames(d: Disk, id: TaskId, t: Task, c: Choice)
    requires Intact(d) && (IsAcquire(t.pc) || IsClean(t.pc))
    ensures var (d', t') := if IsAcquire(t.pc) then AcquireStep(d, id, t, c) else CleanStep(d, id, t, c);
            NamesInOrder(d, id, t, d', t')
  {
  }

  lemma ReapNames(running: map<Pid, nat>, d: Disk, id: TaskId, t: Task, c: Choice)
    requires Intact(d) && IsReap(t.pc)
    ensures var (d', t') := ReapStep(running, d, id, t, c); NamesInOrder(d, id, t, d', t')
  {
  }

  lemma TombNames(d: Disk, id: TaskId, t: Task, c: Choice)
    requires IsTomb(t.pc)
    ensures var (d', t') := TombStep(d, id, t, c); NamesInOrder(d, id, t, d', t')
  {
  }

  lemma WorkNames(d: Disk, id: TaskId, t: Task, c: Choice)
    requires t.pc.Held?
    ensures var (d', t') := WorkStep(d, t, c); NamesInOrder(d, id, t, d', t')
  {
  }

  lemma StepNames(running: map<Pid, nat>, d: Disk, id: TaskId, t: Task, c: Choice)
    requires Intact(d)
    ensures var (d', t') := TaskStep(running, d, id, t, c); NamesInOrder(d, id, t, d', t')
  {
    if IsLook(t.pc) { LookNames(d, id, t, c); }
    else if IsAcquire(t.pc) || IsClean(t.pc) { AcquireNames(d, id, t, c); }
    else if IsReap(t.pc) { ReapNames(running, d, id, t, c); }
    else if IsTomb(t.pc) { TombNames(d, id, t, c); }
    else if t.pc.Held? { WorkNames(d, id, t, c); }
  }

  lemma {:induction false} ReachableTombNames(actions: seq<Action>)
    requires After(actions).Some?
    ensures TombNamesOk(After(actions).value)
    decreases |actions|
  {
    if actions != [] {
      var last := |actions| - 1;
      ReachableTombNames(actions[..last]);
      var s, a := After(actions[..last]).value, actions[last];
      if a.Step? { StepNames(s.running, s.disk, a.id, s.tasks[a.id], a.c); }
    }
  }

  /** The lease of a dead process never blocks a live one that has attempts left:
      alone and without I/O errors, reclaiming and then acquiring succeed. */
  lemma DeadLeaseIsReplaced(actions: seq<Action>, s: State, id: TaskId, owner: Owner, ino: Ino)
    returns (more: seq<Action>, s': State)
    requires After(actions) == Some(s) && Live(s, id) && s.tasks[id].pc.Mkdir? && s.tasks[id].attempt + 1 < ATTEMPTS
    requires DeadLease(s.running, s.disk, owner)
    requires ino !in s.disk.dirs
    ensures actions <= more
    ensures After(more) == Some(s') && Live(s', id) && s'.tasks[id].pc == Held(Starting)
    ensures Intact(s'.disk) && s'.disk.lease == Some(s'.tasks[id].meta) && ReadOwner(s'.disk) == Some(Me(id, s'.tasks[id]))
    ensures s'.disk.tombs == s.disk.tombs && s'.disk.dirs.Keys == s.disk.dirs.Keys - {s.disk.lease.value} + {ino}
  {
    ReachableTombNames(actions);
    ReclaimSteps(s.running, id, s.disk, s.tasks[id], owner);
    var i := s.disk.lease.value;
    var free: State;
    more, free := RunTo(actions, s, id, Reclaimed(s.disk, i), NextAttempt(s.tasks[id].(seen := Found(s.disk))));
    more, s' := AcquireAlone(more, free, id, ino);
  }

  // ----- releasing

  lemma ReleaseSteps(running: map<Pid, nat>, id: TaskId, d: Disk, t: Task)
    requires t.pc == LookExists(Releasing) && d.lease == Some(t.meta) && t.meta in d.dirs
    requires d.dirs[t.meta] == HeldDir(id, t)
    ensures Reaches(running, id, d, t, Reclaimed(d, t.meta), Go(t, Finished))
  {
    var bare := WithDir(d, t.meta, Dir(id, None, None));
    Stay(running, id, d, t);
    OwnIsMine(d, id, t);
    Inspect(running, id, d, t, d, t, Releasing, Go(t, ReleaseUnlink));
    Then(running, id, d, t, d, Go(t, ReleaseUnlink), OK, bare, Go(t, ReleaseRmdir));
    assert RemoveLease(bare) == Reclaimed(d, t.meta);
    Then(running, id, d, t, bare, Go(t, ReleaseRmdir), OK, Reclaimed(d, t.meta), Go(t, Finished));
  }

  /** Alone and without I/O errors, a handle whose directory holds no stray reaper file
      releases its lease: the directory is gone and the path free. */
  lemma ReleaseAlone(actions: seq<Action>, s: State, id: TaskId) returns (more: seq<Action>, s': State)
    requires After(actions) == Some(s) && Live(s, id) && s.tasks[id].pc == Held(Idle)
    requires s.disk.lease == Some(s.tasks[id].meta) && s.tasks[id].meta in s.disk.dirs
    requires s.disk.dirs[s.tasks[id].meta] == HeldDir(id, s.tasks[id])
    ensures After(more) == Some(s') && s'.disk == Reclaimed(s.disk, s.tasks[id].meta)
    ensures s'.tasks == s.tasks[id := Go(s.tasks[id], Finished)]
  {
    var t := s.tasks[id];
    var asked := Apply(s, Release(id));
    assert (actions + [Release(id)])[..|actions|] == actions;
    ReleaseSteps(s.running, id, s.disk, Go(t, LookExists(Releasing)));
    more, s' := RunTo(actions + [Release(id)], asked, id, Reclaimed(s.disk, t.meta), Go(t, Finished));
  }
}
