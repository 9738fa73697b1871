/** What a failing system call of the lease protocol leaves behind, how what had been done
    is undone, and which files no step ever replaces. */
module RolloutLeaseFailures {
  import opened Results
  import opened RolloutPhases
  import opened RolloutLease
  import opened RolloutLeaseRuns

  // ----- failing system calls

  /** A system call that fails changes nothing, except that a failing write may have left
      the whole text. */
  lemma FailingCallChangesNothing(running: map<Pid, nat>, d: Disk, id: TaskId, t: Task, c: Choice)
    requires Intact(d) && !c.ok && (t.pc.WriteOwner? || t.pc.WriteReaper? ==> !c.wrote)
    ensures TaskStep(running, d, id, t, c).0 == d
  {
  }

  /** And it is followed by the undoing of what had been done, if anything, and the end of
      the call; a failing mutation leaves its handle open.  EEXIST is no failure. */
  lemma FailingCallGivesUp(running: map<Pid, nat>, d: Disk, id: TaskId, t: Task, c: Choice)
    requires Intact(d) && !c.ok
    ensures var t' := TaskStep(running, d, id, t, c).1;
            && (IsAcquire(t.pc) && !(t.pc.Mkdir? && d.lease.Some?) ==>
                  t' == Go(t, if t.pc.Mkdir? || t.pc.Chmod? || t.pc.StatNew? then Finished
                              else if t.pc.SyncOwner? then CleanOwnerStat else CleanDirStat(false)))
            && (IsClean(t.pc) && !t.pc.CleanRmdir? ==> t' == Go(t, Finished))
            && (IsReap(t.pc) ==>
                  t' == Go(t, if t.pc.SyncReaper? || t.pc.StatBeforeRename? || t.pc.Rename? then DropStat(false) else Finished))
            && (IsTomb(t.pc) ==> t' == Go(t, Finished))
            && (t.pc.Held? && t.pc.work != Starting && t.pc.work != Idle ==>
                  t' == Go(t, if Opening(t.pc.work) then LookExists(Releasing) else Held(Idle)))
  {
  }

  /** So with a system call of an inspection. */
  lemma FailingLookGivesUp(d: Disk, id: TaskId, t: Task, c: Choice)
    requires Intact(d) && IsLook(t.pc) && !c.ok
    ensures LookStep(d, id, t, c) ==
              Go(t, match t.pc.why
                    case Acquired => CleanOwnerStat
                    case AfterReaper => DropStat(false)
                    case Working(w) => if Opening(w) then LookExists(Releasing) else Held(Idle)
                    case _ => Finished)
  {
  }

  /** A reaper whose fsync fails after it withdrew its file does not try again. */
  lemma FailingFsyncGivesUp(running: map<Pid, nat>, d: Disk, id: TaskId, t: Task, c: Choice)
    requires Intact(d) && t.pc.DropUnlink? && c.ok && !c.wrote
    ensures TaskStep(running, d, id, t, c) == (UnlinkReaper(d), Go(t, Finished))
  {
  }

  /** A lease that is gone when a caller looks at it is tried for again, up to eight times. */
  lemma VanishedLeaseIsRetried(d: Disk, id: TaskId, t: Task, c: Choice)
    requires d.lease == None && c.ok && t.pc.LookExists? && (t.pc.why == FirstLook || t.pc.why == BeforeReaper)
    ensures LookStep(d, id, t, c) == if t.attempt < 7 then t.(attempt := t.attempt + 1, pc := Mkdir) else Go(t, Finished)
  {
  }

  /** An acquirer goes on only with its own owner record at the path. */
  lemma AcquirerChecksItsRecord(running: map<Pid, nat>, d: Disk, id: TaskId, t: Task, c: Choice)
    requires Intact(d) && t.pc.StatOwner? && c.ok
    ensures TaskStep(running, d, id, t, c).1.pc == SyncOwner <==>
              && d.lease.Some? && LeaseDir(d).value.owner.Some?
              && LeaseDir(d).value.owner.value.owner.ownerId == LeaseId(id)
    ensures TaskStep(running, d, id, t, c).1.pc == SyncOwner || TaskStep(running, d, id, t, c) == (d, Go(t, CleanDirStat(false)))
  {
  }

  /** A reaper goes on only with its own file at the path. */
  lemma ReaperChecksItsFile(running: map<Pid, nat>, d: Disk, id: TaskId, t: Task, c: Choice)
    requires Intact(d) && t.pc.StatReaper? && c.ok
    ensures TaskStep(running, d, id, t, c).1.pc == SyncReaper <==>
              && d.lease.Some? && LeaseDir(d).value.reaper.Some?
              && LeaseDir(d).value.reaper.value.owner.ownerId == ReaperId(id, t.attempt)
    ensures TaskStep(running, d, id, t, c).1.pc == SyncReaper || TaskStep(running, d, id, t, c) == (d, Go(t, Finished))
  {
  }

  /** Nothing is removed from a quarantined directory that is not the inspected one. */
  lemma MovedLeaseIsChecked(running: map<Pid, nat>, d: Disk, id: TaskId, t: Task, c: Choice)
    requires Intact(d) && t.pc.CheckMoved? && ReaperId(id, t.attempt) in d.tombs
    requires d.tombs[ReaperId(id, t.attempt)] != t.seen.ino
    ensures TaskStep(running, d, id, t, c) == (d, Go(t, Finished))
  {
  }

  /** Undoing an acquisition removes no other caller's owner record. */
  lemma OnlyOwnRecordIsCleaned(d: Disk, id: TaskId, t: Task, c: Choice)
    requires Intact(d) && t.pc.CleanOwnerStat? && c.ok
    ensures var mine := d.lease.Some? && var owner := LeaseDir(d).value.owner;
                        owner.Some? && owner.value.owner.ownerId == LeaseId(id);
            CleanStep(d, id, t, c) == (d, Go(t, if mine then CleanOwnerUnlink else CleanDirStat(false)))
  {
  }

  /** Nor does it touch another caller's directory. */
  lemma OnlyOwnDirectoryIsCleaned(d: Disk, id: TaskId, t: Task, c: Choice)
    requires Intact(d) && t.pc.CleanDirStat? && c.ok && d.lease != Some(t.meta)
    ensures CleanStep(d, id, t, c) == (d, Go(t, if t.pc.retry then LookExists(FirstLook) else Finished))
  {
  }

  // ----- files are never replaced

  /** A file at one name of one directory before and after: the same, gone, newly made, or
      completed by whoever made it. */
  predicate NotReplaced(before: Option<File>, after: Option<File>) {
    || after == before || after == None
    || (before == None && !after.value.written)
    || (before.Some? && after == Some(before.value.(written := true)))
  }

  predicate SameFiles(before: Dir, after: Dir) {
    after.creator == before.creator && NotReplaced(before.owner, after.owner) && NotReplaced(before.reaper, after.reaper)
  }

  lemma AcquireReplacesNothing(d: Disk, id: TaskId, t: Task, c: Choice, ino: Ino)
    requires Intact(d) && IsAcquire(t.pc) && ino in d.dirs && ino in AcquireStep(d, id, t, c).0.dirs
    ensures SameFiles(d.dirs[ino], AcquireStep(d, id, t, c).0.dirs[ino])
  {
  }

  lemma CleanReplacesNothing(d: Disk, id: TaskId, t: Task, c: Choice, ino: Ino)
    requires Intact(d) && IsClean(t.pc) && ino in d.dirs && ino in CleanStep(d, id, t, c).0.dirs
    ensures SameFiles(d.dirs[ino], CleanStep(d, id, t, c).0.dirs[ino])
  {
  }

  lemma ReapReplacesNothing(running: map<Pid, nat>, d: Disk, id: TaskId, t: Task, c: Choice, ino: Ino)
    requires Intact(d) && IsReap(t.pc) && ino in d.dirs && ino in ReapStep(running, d, id, t, c).0.dirs
    ensures SameFiles(d.dirs[ino], ReapStep(running, d, id, t, c).0.dirs[ino])
  {
  }

  lemma TombReplacesNothing(d: Disk, id: TaskId, t: Task, c: Choice, ino: Ino)
    requires Intact(d) && IsTomb(t.pc) && ino in d.dirs && ino in TombStep(d, id, t, c).0.dirs
    ensures SameFiles(d.dirs[ino], TombStep(d, id, t, c).0.dirs[ino])
  {
  }

  /** No step of anybody replaces the owner record or the reaper record of a directory,
      or turns a directory into another one. */
  lemma FilesAreNotReplaced(running: map<Pid, nat>, d: Disk, id: TaskId, t: Task, c: Choice, ino: Ino)
    requires Intact(d) && ino in d.dirs && ino in TaskStep(running, d, id, t, c).0.dirs
    ensures var before, after := d.dirs[ino], TaskStep(running, d, id, t, c).0.dirs[ino];
            && after.creator == before.creator
            && NotReplaced(before.owner, after.owner) && NotReplaced(before.reaper, after.reaper)
  {
    if IsLook(t.pc) { }
    else if IsAcquire(t.pc) { AcquireReplacesNothing(d, id, t, c, ino); }
    else if IsClean(t.pc) { CleanReplacesNothing(d, id, t, c, ino); }
    else if IsReap(t.pc) { ReapReplacesNothing(running, d, id, t, c, ino); }
    else if IsTomb(t.pc) { TombReplacesNothing(d, id, t, c, ino); }
  }

  // ----- undoing

  /** A directory of this caller with its complete owner record only. */
  predicate Owned(d: Disk, id: TaskId, t: Task) {
    d.lease == Some(t.meta) && t.meta in d.dirs && d.dirs[t.meta] == HeldDir(id, t)
  }

  /** An acquisition that failed without an owner record removes its directory if it is empty;
      if another file was there first, it looks again. */
  lemma CleanDirectoryAlone(actions: seq<Action>, s: State, id: TaskId, retry: bool) returns (more: seq<Action>, s': State)
    requires After(actions) == Some(s) && Live(s, id) && s.tasks[id].pc == CleanDirStat(retry)
    requires s.disk.lease == Some(s.tasks[id].meta) && s.tasks[id].meta in s.disk.dirs
    ensures actions <= more && After(more) == Some(s')
    ensures var empty := Entries(s.disk.dirs[s.tasks[id].meta]) == {};
            s' == s.(disk := if empty then Reclaimed(s.disk, s.tasks[id].meta) else s.disk,
                     tasks := s.tasks[id := Go(s.tasks[id], if retry then LookExists(FirstLook) else Finished)])
  {
    var d, t, r := s.disk, s.tasks[id], s.running;
    var e := Rmdir(d);
    var u := Go(t, if retry then LookExists(FirstLook) else Finished);
    Stay(r, id, d, t);
    Then(r, id, d, t, d, t, OK, d, Go(t, CleanRmdir(retry)));
    Then(r, id, d, t, d, Go(t, CleanRmdir(retry)), OK, e, u);
    more, s' := RunTo(actions, s, id, e, u);
  }

  lemma DisownSteps(running: map<Pid, nat>, id: TaskId, d: Disk, t: Task)
    requires t.pc == CleanOwnerStat && Owned(d, id, t)
    ensures Reaches(running, id, d, t, UnlinkOwner(d), Go(t, CleanDirStat(false)))
  {
    Stay(running, id, d, t);
    Then(running, id, d, t, d, t, OK, d, Go(t, CleanOwnerUnlink));
    Then(running, id, d, t, d, Go(t, CleanOwnerUnlink), OK, UnlinkOwner(d), Go(t, CleanDirStat(false)));
  }

  /** An acquisition that failed after its owner record was complete removes that and then
      its directory. */
  lemma CleanupAlone(actions: seq<Action>, s: State, id: TaskId) returns (more: seq<Action>, s': State)
    requires After(actions) == Some(s) && Live(s, id) && s.tasks[id].pc == CleanOwnerStat && Owned(s.disk, id, s.tasks[id])
    ensures actions <= more && After(more) == Some(s')
    ensures s' == s.(disk := Reclaimed(s.disk, s.tasks[id].meta), tasks := s.tasks[id := Go(s.tasks[id], Finished)])
  {
    var d, t, r := s.disk, s.tasks[id], s.running;
    var e := UnlinkOwner(d);
    DisownSteps(r, id, d, t);
    more, s' := RunTo(actions, s, id, e, Go(t, CleanDirStat(false)));
    more, s' := CleanDirectoryAlone(more, s', id, false);
    assert Entries(e.dirs[t.meta]) == {} && e.dirs - {t.meta} == d.dirs - {t.meta};
    assert Reclaimed(e, t.meta) == Reclaimed(d, t.meta);
  }

  /** A reaper that gives up, or was overtaken, removes its own reaper.json and no other;
      overtaken it tries again, up to eight times in all. */
  lemma WithdrawAlone(actions: seq<Action>, s: State, id: TaskId, again: bool) returns (more: seq<Action>, s': State)
    requires After(actions) == Some(s) && Live(s, id) && s.tasks[id].pc == DropStat(again) && Intact(s.disk)
    ensures actions <= more && After(more) == Some(s')
    ensures var t := s.tasks[id];
            var mine := s.disk.lease.Some? && var reaper := LeaseDir(s.disk).value.reaper;
                        reaper.Some? && reaper.value.owner.ownerId == ReaperId(id, t.attempt);
            && s'.tasks == s.tasks[id := if again && t.attempt < 7 then t.(attempt := t.attempt + 1, pc := Mkdir) else Go(t, Finished)]
            && (!mine ==> s'.disk == s.disk)
            && (mine ==>
                  s'.disk == s.disk.(dirs := s.disk.dirs[s.disk.lease.value := LeaseDir(s.disk).value.(reaper := None)]))
  {
    var d, t, r := s.disk, s.tasks[id], s.running;
    var last := if again && t.attempt < 7 then t.(attempt := t.attempt + 1, pc := Mkdir) else Go(t, Finished);
    var e := if ReaperFileIs(d, ReaperId(id, t.attempt)) then UnlinkReaper(d) else d;
    WithdrawSteps(r, id, d, t, again, last, e);
    more, s' := RunTo(actions, s, id, e, last);
  }

  lemma WithdrawSteps(running: map<Pid, nat>, id: TaskId, d: Disk, t: Task, again: bool, last: Task, e: Disk)
    requires Intact(d) && t.pc == DropStat(again)
    requires last == if again && t.attempt < 7 then t.(attempt := t.attempt + 1, pc := Mkdir) else Go(t, Finished)
    requires e == if ReaperFileIs(d, ReaperId(id, t.attempt)) then UnlinkReaper(d) else d
    ensures Reaches(running, id, d, t, e, last)
  {
    Stay(running, id, d, t);
    if ReaperFileIs(d, ReaperId(id, t.attempt)) {
      Then(running, id, d, t, d, t, OK, d, Go(t, DropUnlink(again)));
      Then(running, id, d, t, d, Go(t, DropUnlink(again)), OK, e, last);
    } else {
      Then(running, id, d, t, d, t, OK, d, last);
    }
  }
}
