/** Giving the token-store lock up: what a release and the cleanup of a failed
    acquisition leave behind. */
module TokenLockRelease {
  import opened Results
  import opened TokenLock
  import opened TokenLockSafety
  import opened TokenLockRuns
  import opened TokenLockExclusion

  // ----- undisturbed

  /** The lock directory of this caller with its owner record. */
  predicate OwnDirectory(s: State, id: TaskId) {
    && Live(s, id) && Intact(s.disk) && s.disk.lock == Some(s.tasks[id].meta)
    && LockDir(s.disk).value.owner == Some(MyFile(id, s.tasks[id], true))
  }

  /** The disk after the lock directory has been removed. */
  function Freed(d: Disk): Disk
    requires d.lock.Some?
  {
    Disk(None, d.dirs - {d.lock.value}, d.tombs)
  }

  /** The disk after only the owner record has been removed. */
  function Disowned(d: Disk): Disk
    requires Intact(d) && d.lock.Some?
  {
    WithDir(d, d.lock.value, LockDir(d).value.(owner := None))
  }

  /** What is left when the directory without its owner record is to be removed. */
  function Left(d: Disk): Disk
    requires Intact(d) && d.lock.Some?
  {
    if LockDir(d).value.marker.None? then Freed(d) else Disowned(d)
  }

  lemma RmdirLeaves(d: Disk)
    requires Intact(d) && d.lock.Some?
    ensures Rmdir(Disowned(d)) == Left(d)
  {
    assert Disowned(d).dirs - {d.lock.value} == d.dirs - {d.lock.value};
  }

  /** Alone and without I/O errors, a holder that releases removes its owner record and
      its directory; a reaper's marker keeps the directory, without an owner, in place. */
  lemma ReleaseAlone(actions: seq<Action>, s: State, id: TaskId) returns (more: seq<Action>, s': State)
    requires After(actions) == Some(s) && OwnDirectory(s, id) && s.tasks[id].pc.Held?
    ensures actions <= more && After(more) == Some(s')
    ensures s' == s.(disk := Left(s.disk), tasks := s.tasks[id := Go(s.tasks[id], Finished)])
    ensures s'.disk.lock == None <==> LockDir(s.disk).value.marker == None
    ensures s'.disk.lock == None ==> s.tasks[id].meta !in s'.disk.dirs
  {
    var t := s.tasks[id];
    Extend(actions, Release(id));
    more, s' := actions + [Release(id)], Apply(s, Release(id));
    more, s' := More(more, s', id, OK, s.disk, Go(t, ReleaseOwner));
    more, s' := More(more, s', id, OK, s.disk, Go(t, ReleaseUnlink));
    more, s' := FinishRelease(more, s', id, s.disk);
  }

  /** A holder whose directory was taken from it leaves what it finds at the path alone. */
  lemma RobbedHolderLeavesLock(actions: seq<Action>, s: State, id: TaskId) returns (more: seq<Action>, s': State)
    requires After(actions) == Some(s) && Live(s, id) && Intact(s.disk) && s.tasks[id].pc.Held?
    requires s.disk.lock != Some(s.tasks[id].meta) || ReadOwner(s.disk) == None || ReadOwner(s.disk).value.id != Me(id, s.tasks[id])
    ensures actions <= more && After(more) == Some(s') && s' == s.(tasks := s.tasks[id := Go(s.tasks[id], Finished)])
  {
    var t := s.tasks[id];
    Extend(actions, Release(id));
    more, s' := actions + [Release(id)], Apply(s, Release(id));
    if s.disk.lock == Some(t.meta) { more, s' := More(more, s', id, OK, s.disk, Go(t, ReleaseOwner)); }
    more, s' := More(more, s', id, OK, s.disk, Go(t, Finished));
  }

  lemma FinishRelease(actions: seq<Action>, s: State, id: TaskId, d: Disk) returns (more: seq<Action>, s': State)
    requires After(actions) == Some(s) && OwnDirectory(s, id) && s.tasks[id].pc.ReleaseUnlink? && d == s.disk
    ensures actions <= more && After(more) == Some(s')
    ensures s' == s.(disk := Left(d), tasks := s.tasks[id := Go(s.tasks[id], Finished)])
  {
    more, s' := More(actions, s, id, OK, Disowned(d), Go(s.tasks[id], ReleaseRmdir));
    RmdirLeaves(d);
    more, s' := More(more, s', id, OK, Left(d), Go(s.tasks[id], Finished));
  }

  /** So the lock passes from a holder to whoever comes next. */
  lemma ReleasedLockIsAcquired(actions: seq<Action>, s: State, id: TaskId, next: TaskId, ino: Ino)
    returns (more: seq<Action>, s': State)
    requires After(actions) == Some(s) && KeepsWorking(actions)
    requires Live(s, id) && s.tasks[id].pc.Held? && Live(s, next) && s.tasks[next].pc.Mkdir? && ino !in s.disk.dirs
    requires Intact(s.disk) && s.disk.lock.Some? ==> LockDir(s.disk).value.marker == None
    ensures actions <= more && After(more) == Some(s')
    ensures id in s'.tasks && s'.tasks[id].pc.Finished? && Live(s', next) && s'.tasks[next].pc.Held? && s'.disk.lock == Some(ino)
  {
    ReachableWorkInv(actions);
    assert OwningOk(s.disk, id, s.tasks[id]);
    more, s' := ReleaseAlone(actions, s, id);
    more, s' := AcquireAlone(more, s', next, ino);
  }

  // ----- amid others

  /** A task about to remove its directory has removed its owner record. */
  ghost predicate ReleasesOk(s: State) {
    forall u :: Live(s, u) && s.tasks[u].pc.ReleaseRmdir? ==> Intact(s.disk) && s.disk.lock.Some? && LockDir(s.disk).value.owner == None
  }

  lemma ReleaseStepOk(d: Disk, id: TaskId, t: Task, c: Choice)
    requires Intact(d) && IsRelease(t.pc) && OwningOk(d, id, t)
    ensures var (d', t') := ReleaseStep(d, id, t, c);
            t'.pc.ReleaseRmdir? ==> t.pc.ReleaseUnlink? && Intact(d') && d'.lock.Some? && LockDir(d').value.owner == None
  {
  }

  /** Only a release comes to a release's last step. */
  lemma OthersDoNotRelease(s: State, id: TaskId, c: Choice)
    requires Intact(s.disk) && id in s.tasks && !IsRelease(s.tasks[id].pc)
    ensures !TaskStep(s, id, c).1.pc.ReleaseRmdir?
  {
    var t := s.tasks[id];
    if IsAcquire(t.pc) { assert !AcquireStep(s.disk, id, t, c).1.pc.ReleaseRmdir?; }
    else if IsInspect(t.pc) { InspectStepBeside(s, id, t, c); }
    else if t.pc.Rename? { RenameStepBeside(s.disk, id, t, c); }
    else if Stage(t.pc) == 3 { QuarantineStepBeside(s.disk, id, t, c); }
  }

  lemma StepKeepsReleasesOk(s: State, id: TaskId, c: Choice)
    requires WorkInv(s) && ReleasesOk(s) && Enabled(s, Step(id, c)) && !TakesWorking(s, Step(id, c))
    ensures ReleasesOk(Apply(s, Step(id, c)))
  {
    var s' := Apply(s, Step(id, c));
    StepBeside(s, id, c);
    StageNeverFalls(s, id, c);
    forall u | Live(s', u) && s'.tasks[u].pc.ReleaseRmdir?
      ensures Intact(s'.disk) && s'.disk.lock.Some? && LockDir(s'.disk).value.owner == None
    {
      if u == id {
        if IsRelease(s.tasks[id].pc) { assert OwningOk(s.disk, id, s.tasks[id]); ReleaseStepOk(s.disk, id, s.tasks[id], c); }
        else { OthersDoNotRelease(s, id, c); }
      } else {
        WorkIsActive(s, u);
        if Owning(s.tasks[id].pc) { OnlyOneWorks(s, u, id); }
      }
    }
  }

  lemma {:induction false} ReachableReleasesOk(actions: seq<Action>)
    requires After(actions).Some? && KeepsWorking(actions)
    ensures ReleasesOk(After(actions).value)
    decreases |actions|
  {
    if actions != [] {
      var last := |actions| - 1;
      var s, a := After(actions[..last]).value, actions[last];
      ReachableReleasesOk(actions[..last]);
      ReachableWorkInv(actions[..last]);
      if a.Step? { StepKeepsReleasesOk(s, a.id, a.c); }
      else {
        var s' := Apply(s, a);
        forall u | Live(s', u) && s'.tasks[u].pc.ReleaseRmdir?
          ensures Intact(s'.disk) && s'.disk.lock.Some? && LockDir(s'.disk).value.owner == None
        {
          if u in s.tasks { assert Live(s, u); }
        }
      }
    }
  }

  /** A release that meets no I/O error goes through all its steps, whatever others do, and
      its last one frees the lock if and only if no reaper's marker lies in its directory. */
  lemma ReleaseExactly(actions: seq<Action>, id: TaskId, c: Choice)
    requires After(actions).Some? && KeepsWorking(actions) && c.ok
    requires var s := After(actions).value; Live(s, id) && Intact(s.disk)
    ensures var s := After(actions).value; var s' := Apply(s, Step(id, c)); var t, t' := s.tasks[id], s'.tasks[id];
            && (t.pc.ReleaseStat? ==> t'.pc.ReleaseOwner?)
            && (t.pc.ReleaseOwner? ==> t'.pc.ReleaseUnlink?)
            && (t.pc.ReleaseUnlink? ==> t'.pc.ReleaseRmdir? && s.disk.lock.Some? && s'.disk == Disowned(s.disk))
            && (t.pc.ReleaseRmdir? ==>
                  && t'.pc.Finished? && s.disk.lock == Some(t.meta)
                  && s'.disk == Left(s.disk)
                  && (s'.disk.lock == None <==> LockDir(s.disk).value.marker == None))
  {
    var s := After(actions).value;
    ReachableWorkInv(actions);
    ReachableReleasesOk(actions);
    assert OwningOk(s.disk, id, s.tasks[id]);
    if s.tasks[id].pc.ReleaseRmdir? {
      assert LockDir(s.disk).value == LockDir(s.disk).value.(owner := None);
      assert Disowned(s.disk) == s.disk;
      RmdirLeaves(s.disk);
    }
  }

  /** A caller comes to hold the lock only by its last check: the directory it saw at the
      path is the one it made, and the owner record at the path is its own. */
  lemma HeldOnlyAfterCheck(s: State, id: TaskId, c: Choice)
    requires Intact(s.disk) && id in s.tasks && s.tasks[id].pc != Held
    ensures var t := s.tasks[id];
            TaskStep(s, id, c).1.pc == Held <==>
              && c.ok && t.pc == CheckOwner(t.meta) && s.disk.lock.Some?
              && var owner := LockDir(s.disk).value.owner; owner.Some? && owner.value.written && owner.value.owner.id == Me(id, t)
  {
  }

  // ----- after a failed acquisition

  /** What cleanupCreatedLock needs to find: its own record if it wrote one, otherwise no
      readable one. */
  predicate Removable(d: Disk, id: TaskId, t: Task, written: bool)
    requires Intact(d)
  {
    if written then ReadOwner(d).Some? && ReadOwner(d).value.id == Me(id, t) else ReadOwner(d) == None
  }

  /** Alone and without I/O errors, the cleanup of a failed acquisition frees the lock if
      and only if the directory holds no marker and either its own complete record, when
      the write had succeeded, or no owner file at all, when it had not. */
  lemma CleanupExactly(actions: seq<Action>, s: State, id: TaskId, written: bool, retry: bool)
    returns (more: seq<Action>, s': State)
    requires After(actions) == Some(s) && Live(s, id) && Intact(s.disk) && s.disk.lock == Some(s.tasks[id].meta)
    requires s.tasks[id].pc == CleanStat(written, retry)
    ensures actions <= more && After(more) == Some(s')
    ensures s'.tasks == s.tasks[id := Go(s.tasks[id], if retry then LookStat else Finished)]
    ensures var dir := LockDir(s.disk).value;
            s'.disk.lock == None <==>
              && dir.marker == None
              && if written then dir.owner.Some? && dir.owner.value.written && dir.owner.value.owner.id == Me(id, s.tasks[id])
                 else dir.owner == None
  {
    var t := s.tasks[id];
    more, s' := More(actions, s, id, OK, s.disk, Go(t, CleanOwner(written, retry)));
    more, s' := FinishCleanup(more, s', id, written, retry, s.disk);
  }

  function Cleaned(d: Disk, id: TaskId, t: Task, written: bool): Disk
    requires Intact(d) && d.lock.Some?
  {
    if !Removable(d, id, t, written) then d
    else if written then Left(d)
    else if Empty(LockDir(d).value) then Freed(d) else d
  }

  lemma FinishCleanup(actions: seq<Action>, s: State, id: TaskId, written: bool, retry: bool, d: Disk)
    returns (more: seq<Action>, s': State)
    requires After(actions) == Some(s) && Live(s, id) && Intact(s.disk) && d == s.disk && d.lock.Some?
    requires s.tasks[id].pc == CleanOwner(written, retry)
    ensures actions <= more && After(more) == Some(s') && s'.disk == Cleaned(d, id, s.tasks[id], written)
    ensures s'.tasks == s.tasks[id := AfterClean(s.tasks[id], retry)]
  {
    if !Removable(d, id, s.tasks[id], written) {
      more, s' := More(actions, s, id, OK, d, AfterClean(s.tasks[id], retry));
    } else if written {
      more, s' := RemoveOwn(actions, s, id, retry, d);
    } else {
      more, s' := RemoveUnwritten(actions, s, id, retry, d);
    }
  }

  /** Nor does the cleanup touch another directory that it finds at the path. */
  lemma StrangersAreNotCleaned(actions: seq<Action>, s: State, id: TaskId, written: bool, retry: bool)
    returns (more: seq<Action>, s': State)
    requires After(actions) == Some(s) && Live(s, id) && Intact(s.disk) && s.disk.lock != Some(s.tasks[id].meta)
    requires s.tasks[id].pc == CleanStat(written, retry)
    ensures actions <= more && After(more) == Some(s')
    ensures s' == s.(tasks := s.tasks[id := Go(s.tasks[id], if retry then LookStat else Finished)])
  {
    more, s' := More(actions, s, id, OK, s.disk, AfterClean(s.tasks[id], retry));
  }

  lemma RemoveOwn(actions: seq<Action>, s: State, id: TaskId, retry: bool, d: Disk) returns (more: seq<Action>, s': State)
    requires After(actions) == Some(s) && Live(s, id) && Intact(s.disk) && d == s.disk
    requires s.tasks[id].pc == CleanOwner(true, retry) && Removable(d, id, s.tasks[id], true)
    ensures actions <= more && After(more) == Some(s') && s'.tasks == s.tasks[id := AfterClean(s.tasks[id], retry)]
    ensures d.lock.Some? && s'.disk == Left(d)
  {
    more, s' := More(actions, s, id, OK, d, Go(s.tasks[id], CleanUnlink(retry)));
    more, s' := RemoveUnlinked(more, s', id, retry, d);
    assert AfterClean(Go(s.tasks[id], CleanUnlink(retry)), retry) == AfterClean(s.tasks[id], retry);
  }

  lemma RemoveUnlinked(actions: seq<Action>, s: State, id: TaskId, retry: bool, d: Disk)
    returns (more: seq<Action>, s': State)
    requires After(actions) == Some(s) && Live(s, id) && Intact(d) && d == s.disk && s.tasks[id].pc == CleanUnlink(retry)
    requires d.lock.Some? && LockDir(d).value.owner.Some?
    ensures actions <= more && After(more) == Some(s') && s'.tasks == s.tasks[id := AfterClean(s.tasks[id], retry)]
    ensures s'.disk == Left(d)
  {
    more, s' := More(actions, s, id, OK, Disowned(d), Go(s.tasks[id], CleanRmdir(retry)));
    RmdirLeaves(d);
    more, s' := More(more, s', id, OK, Left(d), AfterClean(s.tasks[id], retry));
  }

  lemma RemoveUnwritten(actions: seq<Action>, s: State, id: TaskId, retry: bool, d: Disk)
    returns (more: seq<Action>, s': State)
    requires After(actions) == Some(s) && Live(s, id) && Intact(s.disk) && d == s.disk && d.lock.Some?
    requires s.tasks[id].pc == CleanOwner(false, retry) && Removable(d, id, s.tasks[id], false)
    ensures actions <= more && After(more) == Some(s') && s'.tasks == s.tasks[id := AfterClean(s.tasks[id], retry)]
    ensures s'.disk == if Empty(LockDir(d).value) then Freed(d) else d
  {
    more, s' := More(actions, s, id, OK, d, Go(s.tasks[id], CleanRmdir(retry)));
    more, s' := More(more, s', id, OK, Rmdir(d), AfterClean(s.tasks[id], retry));
  }

  // ----- files are never replaced

  /** A file at one name of one directory before and after: the same, gone, newly made, or
      completed by whoever made it. */
  predicate NotReplaced(before: Option<File>, after: Option<File>) {
    || after == before || after == None
    || (before == None && !after.value.written)
    || (before.Some? && after == Some(before.value.(written := true)))
  }

  predicate SameFiles(before: Dir, after: Dir) {
    after.creator == before.creator && NotReplaced(before.owner, after.owner) && NotReplaced(before.marker, after.marker)
  }

  lemma AcquireReplacesNothing(d: Disk, id: TaskId, t: Task, c: Choice, ino: Ino)
    requires Intact(d) && IsAcquire(t.pc) && ino in d.dirs && ino in AcquireStep(d, id, t, c).0.dirs
    ensures SameFiles(d.dirs[ino], AcquireStep(d, id, t, c).0.dirs[ino])
  {
  }

  lemma ReleaseReplacesNothing(d: Disk, id: TaskId, t: Task, c: Choice, ino: Ino)
    requires Intact(d) && IsRelease(t.pc) && ino in d.dirs && ino in ReleaseStep(d, id, t, c).0.dirs
    ensures SameFiles(d.dirs[ino], ReleaseStep(d, id, t, c).0.dirs[ino])
  {
  }

  lemma QuarantineReplacesNothing(d: Disk, id: TaskId, t: Task, c: Choice, ino: Ino)
    requires Intact(d) && Stage(t.pc) == 3 && ino in d.dirs && ino in QuarantineStep(d, id, t, c).0.dirs
    ensures SameFiles(d.dirs[ino], QuarantineStep(d, id, t, c).0.dirs[ino])
  {
  }

  /** No step of anybody replaces the owner record or the marker of a directory, or turns
      a directory into another one. */
  lemma FilesAreNotReplaced(s: State, id: TaskId, c: Choice, ino: Ino)
    requires Intact(s.disk) && id in s.tasks && ino in s.disk.dirs && ino in TaskStep(s, id, c).0.dirs
    ensures var before, after := s.disk.dirs[ino], TaskStep(s, id, c).0.dirs[ino];
            && after.creator == before.creator
            && NotReplaced(before.owner, after.owner) && NotReplaced(before.marker, after.marker)
  {
    var t := s.tasks[id];
    if IsAcquire(t.pc) { AcquireReplacesNothing(s.disk, id, t, c, ino); }
    else if IsRelease(t.pc) { ReleaseReplacesNothing(s.disk, id, t, c, ino); }
    else if IsInspect(t.pc) { }
    else if Stage(t.pc) == 3 { QuarantineReplacesNothing(s.disk, id, t, c, ino); }
  }
}
