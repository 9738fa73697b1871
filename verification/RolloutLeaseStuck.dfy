/** When exactly a lease that nobody works on can be acquired again. */
module RolloutLeaseStuck {
  import opened Results
  import opened Numbers
  import opened RolloutPhases
  import opened RolloutLease
  import opened RolloutLeaseSafety
  import opened RolloutLeaseRuns

  /** Every live call has ended. */
  ghost predicate AtRest(s: State) { forall u :: Live(s, u) ==> s.tasks[u].pc.Finished? }

  /** Some live handle is open. */
  ghost predicate Acquired(s: State) { exists u :: Live(s, u) && s.tasks[u].pc.Held? }

  // ----- a lease without exactly a complete owner record is refused for good

  /** It knocks, and has seen nothing but such a directory. */
  predicate Refused(pc: Pc, dir: Dir) {
    || pc.Mkdir? || pc.Finished?
    || pc == LookExists(FirstLook) || pc == LookMeta(FirstLook)
    || (pc.LookEntries? && pc.why == FirstLook)
    || (pc.LookOwner? && pc.why == FirstLook && pc.entries == Entries(dir))
  }

  predicate Broken(d: Disk) { Intact(d) && d.lease.Some? && !ExactHeld(Found(d)) }

  ghost predicate Stuck(s: State, d: Disk) {
    s.disk == d && Broken(d) && forall u :: Live(s, u) ==> Refused(s.tasks[u].pc, LeaseDir(d).value)
  }

  lemma RefusedStep(running: map<Pid, nat>, d: Disk, id: TaskId, t: Task, c: Choice)
    requires Broken(d) && Refused(t.pc, LeaseDir(d).value)
    ensures var (d', t') := TaskStep(running, d, id, t, c); d' == d && Refused(t'.pc, LeaseDir(d).value)
  {
  }

  lemma ApplyKeepsStuck(s: State, a: Action, d: Disk)
    requires Stuck(s, d) && ProcessesOk(s) && Enabled(s, a)
    ensures Stuck(Apply(s, a), d)
  {
    var s' := Apply(s, a);
    if a.Step? {
      RefusedStep(s.running, d, a.id, s.tasks[a.id], a.c);
      StepKeepsProcess(s.running, d, a.id, s.tasks[a.id], a.c);
    }
    forall u | Live(s', u) ensures Refused(s'.tasks[u].pc, LeaseDir(d).value) {
      if u in s.tasks { assert Live(s, u); }
    }
  }

  lemma {:induction false} StuckForever(actions: seq<Action>, more: seq<Action>)
    requires actions <= more && After(actions).Some? && After(more).Some?
    requires Stuck(After(actions).value, After(actions).value.disk)
    ensures Stuck(After(more).value, After(actions).value.disk)
    decreases |more|
  {
    if |more| == |actions| {
      assert more == actions;
    } else {
      var last := |more| - 1;
      StuckForever(actions, more[..last]);
      ReachableInv(more[..last]);
      ApplyKeepsStuck(After(more[..last]).value, more[last], After(actions).value.disk);
    }
  }

  // ----- one with exactly that can be reclaimed

  /** Its owner, if still running, exits. */
  lemma OwnerExits(actions: seq<Action>, s: State, owner: Owner) returns (more: seq<Action>, s': State)
    requires After(actions) == Some(s)
    ensures actions <= more && After(more) == Some(s') && s'.disk == s.disk && s'.tasks == s.tasks
    ensures !Running(s'.running, owner.process)
  {
    more, s' := actions, s;
    if Running(s.running, owner.process) {
      var a := Exit(owner.process.pid);
      more, s' := actions + [a], Apply(s, a);
      assert more[..|actions|] == actions;
    }
  }

  /** A new process begins a new call. */
  lemma NewCall(actions: seq<Action>, s: State, owner: Owner) returns (more: seq<Action>, s': State, id: TaskId)
    requires After(actions) == Some(s) && !Running(s.running, owner.process)
    ensures actions <= more && After(more) == Some(s') && s'.disk == s.disk && Live(s', id)
    ensures s'.tasks[id].pc.Mkdir? && s'.tasks[id].attempt == 0 && !Running(s'.running, owner.process)
  {
    var pid := Unused(s.running.Keys + (set p | p in s.retired :: p.pid) + {owner.process.pid});
    id := Unused(s.tasks.Keys);
    var spawn := Spawn(Process(pid, 0));
    assert Process(pid, 0) !in s.retired;
    var begin := Begin(id, Process(pid, 0), Open("", ""));
    var spawned := Apply(s, spawn);
    assert (actions + [spawn])[..|actions|] == actions;
    more, s' := actions + [spawn] + [begin], Apply(spawned, begin);
    assert more[..|more| - 1] == actions + [spawn];
  }

  lemma ExactLeaseIsReplaced(actions: seq<Action>, s: State) returns (more: seq<Action>)
    requires After(actions) == Some(s) && Intact(s.disk) && s.disk.lease.Some? && ExactHeld(Found(s.disk))
    ensures actions <= more && After(more).Some? && Acquired(After(more).value)
  {
    var owner := Found(s.disk).owner.value;
    assert OwnerJson in Entries(LeaseDir(s.disk).value) && ReaperJson !in Entries(LeaseDir(s.disk).value);
    assert LeaseDir(s.disk).value.owner == Some(File(owner, true));
    var s': State;
    var id: TaskId;
    more, s' := OwnerExits(actions, s, owner);
    more, s', id := NewCall(more, s', owner);
    var ino := Unused(s'.disk.dirs.Keys);
    more, s' := DeadLeaseIsReplaced(more, s', id, owner, ino);
    assert Live(s', id) && s'.tasks[id].pc.Held?;
  }

  /** The exact condition: from a state in which a lease directory exists and nobody is
      at work, some later call can acquire the lease if and only if that directory holds
      exactly a complete owner record.  Otherwise every later call is refused. */
  lemma AcquirableExactly(actions: seq<Action>)
    requires After(actions).Some? && AtRest(After(actions).value) && After(actions).value.disk.lease.Some?
    ensures Intact(After(actions).value.disk)
    ensures (exists more :: actions <= more && After(more).Some? && Acquired(After(more).value))
            <==> ExactHeld(Found(After(actions).value.disk))
  {
    var s := After(actions).value;
    ReachableInv(actions);
    if ExactHeld(Found(s.disk)) {
      var more := ExactLeaseIsReplaced(actions, s);
    } else {
      forall more | actions <= more && After(more).Some? ensures !Acquired(After(more).value) {
        StuckForever(actions, more);
      }
    }
  }

  /** Such a directory is what a caller leaves that dies right after its mkdir. */
  lemma DyingAcquirerBlocks(p: Process) returns (actions: seq<Action>)
    ensures After(actions).Some? && AtRest(After(actions).value) && After(actions).value.disk.lease == Some(0)
    ensures Intact(After(actions).value.disk) && !ExactHeld(Found(After(actions).value.disk))
  {
    var a, b, c, d := Spawn(p), Begin(0, p, Open("", "")), Step(0, OK), Exit(p.pid);
    var one := Apply(START, a);
    assert [a][..0] == [] && After([a]) == Some(one);
    var two := Apply(one, b);
    assert [a, b][..1] == [a] && After([a, b]) == Some(two);
    var three := Apply(two, c);
    assert [a, b, c][..2] == [a, b] && After([a, b, c]) == Some(three);
    assert three.disk.lease == Some(0) && three.disk.dirs == map[0 := Dir(0, None, None)];
    assert [a, b, c, d][..3] == [a, b, c];
    actions := [a, b, c, d];
    assert After(actions) == Some(Apply(three, d));
  }
}
