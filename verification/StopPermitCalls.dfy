/** What single undisturbed calls of the stop-permit store answer in each situation: the
    machine does, one call at a time, what FileStopPermitStore of StopPermitAuthority says. */
module StopPermitCalls {
  import opened Results
  import opened StopPermits
  import opened StopPermitStore
  import opened StopPermitSafety
  import opened StopPermitRuns

  lemma BeginCall(actions: seq<Action>, s: State, a: Action) returns (more: seq<Action>, s': State)
    requires Exec(START, actions) == Some(s) && (a.BeginIssue? || a.BeginConsume?) && a.id !in s.tasks
    ensures actions <= more && Exec(START, more) == Some(s') && s' == Apply(s, a)
  {
    Extend(START, actions, a);
    more, s' := actions + [a], Apply(s, a);
  }

  predicate Holds(d: Disk, ino: Ino, r: StoreRecord) { ino in d.files && d.files[ino].content == Some(r) }

  /** A nonce with an active record is not issued again, and nothing changes. */
  lemma IssueOfActiveAnswersNo(actions: seq<Action>, s: State, id: TaskId, r: StoreRecord) returns (more: seq<Action>, s': State)
    requires Exec(START, actions) == Some(s) && id !in s.tasks && s.disk.active.now.Some?
    ensures actions <= more && Exec(START, more) == Some(s')
    ensures s'.tasks == s.tasks[id := Done(true, r, No)] && s'.disk == s.disk
  {
    more, s' := BeginCall(actions, s, BeginIssue(id, r));
    more, s' := More(more, s', id, OK, s.disk, Done(true, r, No));
  }

  /** Nor is a spent one: the active name that the call makes is gone again. */
  lemma IssueOfSpentAnswersNo(
    actions: seq<Action>, s: State, id: TaskId, r: StoreRecord, used: StoreRecord, spent: Ino, ino: Ino)
    returns (more: seq<Action>, s': State)
    requires Exec(START, actions) == Some(s) && id !in s.tasks && Absent(s.disk.active)
    requires Present(s.disk.spent, spent) && Holds(s.disk, spent, used) && ino != spent
    ensures actions <= more && Exec(START, more) == Some(s')
    ensures s'.tasks == s.tasks[id := Done(true, r, No)] && Absent(s'.disk.active) && s'.disk.spent == s.disk.spent
    ensures Holds(s'.disk, spent, used)
  {
    more, s' := BeginCall(actions, s, BeginIssue(id, r));
    var d := SetContent(s.disk, ino, File(None, false)).(active := Set(s.disk.active, Some(ino)));
    more, s' := More(more, s', id, Choice(true, ino, false), d, Issue(r, ino, OpenSpent(false)));
    more, s' := More(more, s', id, OK, d, Issue(r, ino, ReadSpent(false, spent)));
    more, s' := Withdraw(more, s', id, r, used, spent, ino);
  }

  lemma Withdraw(actions: seq<Action>, s: State, id: TaskId, r: StoreRecord, used: StoreRecord, spent: Ino, ino: Ino)
    returns (more: seq<Action>, s': State)
    requires Exec(START, actions) == Some(s) && id in s.tasks && s.tasks[id] == Issue(r, ino, ReadSpent(false, spent))
    requires s.disk.active.now == Some(ino) && Present(s.disk.spent, spent) && Holds(s.disk, spent, used) && ino != spent
    ensures actions <= more && Exec(START, more) == Some(s')
    ensures s'.tasks == s.tasks[id := Done(true, r, No)] && Absent(s'.disk.active) && s'.disk.spent == s.disk.spent
    ensures s'.disk.files == s.disk.files
  {
    var d := s.disk;
    more, s' := More(actions, s, id, OK, d, Issue(r, ino, Remove));
    more, s' := More(more, s', id, OK, UnlinkActive(d), Issue(r, ino, SyncRemoved));
    more, s' := More(more, s', id, OK, SyncDirectory(UnlinkActive(d)), Done(true, r, No));
  }

  /** A nonce never issued is not consumed. */
  lemma ConsumeOfUnknownAnswersNo(actions: seq<Action>, s: State, id: TaskId, r: StoreRecord)
    returns (more: seq<Action>, s': State)
    requires Exec(START, actions) == Some(s) && id !in s.tasks && s.disk.active.now.None? && s.disk.spent.now.None?
    ensures actions <= more && Exec(START, more) == Some(s')
    ensures s'.tasks == s.tasks[id := Done(false, r, No)] && s'.disk == s.disk
  {
    more, s' := BeginCall(actions, s, BeginConsume(id, r));
    more, s' := More(more, s', id, OK, s.disk, Consume(r, 0, OpenRecord));
    more, s' := More(more, s', id, OK, s.disk, Done(false, r, No));
  }

  /** A spent record is not consumed again, and another record of the nonce is an error. */
  lemma ConsumeOfSpent(actions: seq<Action>, s: State, id: TaskId, r: StoreRecord, used: StoreRecord, spent: Ino)
    returns (more: seq<Action>, s': State)
    requires Exec(START, actions) == Some(s) && id !in s.tasks && s.disk.active.now.None?
    requires s.disk.spent.now == Some(spent) && Holds(s.disk, spent, used)
    ensures actions <= more && Exec(START, more) == Some(s')
    ensures s'.tasks == s.tasks[id := Done(false, r, if r == used then No else Threw)] && s'.disk == s.disk
  {
    var d := s.disk;
    more, s' := BeginCall(actions, s, BeginConsume(id, r));
    more, s' := More(more, s', id, OK, d, Consume(r, 0, LookOpen(1, 0, false)));
    more, s' := More(more, s', id, OK, d, Consume(r, 0, LookRead(spent, 1, 0, false)));
    more, s' := More(more, s', id, OK, d, Done(false, r, if r == used then No else Threw));
  }

  /** An active record that differs from the expected one is an error and stays active. */
  lemma ConsumeOfOtherThrows(actions: seq<Action>, s: State, id: TaskId, r: StoreRecord, other: StoreRecord, ino: Ino)
    returns (more: seq<Action>, s': State)
    requires Exec(START, actions) == Some(s) && id !in s.tasks && r != other
    requires s.disk.active.now == Some(ino) && s.disk.spent.now.None? && Holds(s.disk, ino, other)
    ensures actions <= more && Exec(START, more) == Some(s')
    ensures s'.tasks == s.tasks[id := Done(false, r, Threw)] && s'.disk == s.disk
  {
    more, s' := FindRecord(actions, s, id, r, ino);
    more, s' := More(more, s', id, OK, s.disk, Done(false, r, Threw));
  }

  /** An active record that is still empty is an error too: the second look for a spent
      one finds none. */
  lemma ConsumeOfHalfWrittenThrows(actions: seq<Action>, s: State, id: TaskId, r: StoreRecord, ino: Ino)
    returns (more: seq<Action>, s': State)
    requires Exec(START, actions) == Some(s) && id !in s.tasks
    requires s.disk.active.now == Some(ino) && s.disk.spent.now.None? && (ino !in s.disk.files || s.disk.files[ino].content == None)
    ensures actions <= more && Exec(START, more) == Some(s')
    ensures s'.tasks == s.tasks[id := Done(false, r, Threw)] && s'.disk == s.disk
  {
    more, s' := FindRecord(actions, s, id, r, ino);
    more, s' := More(more, s', id, OK, s.disk, Consume(r, 0, Look(0, true)));
    more, s' := More(more, s', id, OK, s.disk, Done(false, r, Threw));
  }

  /** A system call that fails changes nothing, except that a failing write may have left
      the whole text. */
  lemma FailingCallChangesNothing(d: Disk, t: Task, c: Choice)
    requires !c.ok && !(t.Issue? && t.ipc.Write? && c.wrote)
    ensures TaskStep(d, t, c).0 == d
  {
  }

  /** And it ends the call: an issue that has made its active name first removes it, a
      consume that has linked its spent name first removes the active one. */
  lemma FailingCallGivesUp(d: Disk, t: Task, c: Choice)
    requires !c.ok && !t.Done?
    ensures var t' := TaskStep(d, t, c).1;
            && (t.Issue? ==>
                  match t.ipc
                  case OpenActive => t' == Done(true, t.record, if d.active.now.Some? then No else Threw)
                  case Undo => t' == Done(true, t.record, Threw)
                  case Remove => t' == Done(true, t.record, Threw)
                  case SyncRemoved => t' == Done(true, t.record, Threw)
                  case _ => t' == t.(ipc := Undo))
            && (t.Consume? ==>
                  match t.cpc
                  case Link => t' == Done(false, t.record, if d.active.now.None? || d.spent.now.Some? then No else Threw)
                  case SyncLink => t' == t.(cpc := Finally)
                  case OpenConsumed => t' == t.(cpc := Finally)
                  case ReadConsumed(_) => t' == t.(cpc := Finally)
                  case Unlink => t' == t.(cpc := Finally)
                  case _ => t' == Done(false, t.record, Threw))
  {
  }

  /** A record file is read if and only if it has as many names as expected and holds a
      record; with another number of names it is refused as insecure. */
  lemma ReadExactly(d: Disk, i: Ino, links: nat, r: StoreRecord)
    requires links == 1 || links == 2
    ensures Read(d, i, links, OK) == Record(r) <==>
              && Holds(d, i, r)
              && (links == 2 <==> d.active.now == Some(i) && d.spent.now == Some(i))
              && (links == 1 <==> (d.active.now == Some(i)) != (d.spent.now == Some(i)))
    ensures !(d.active.now == Some(i) && d.spent.now == Some(i)) ==> Read(d, i, 2, OK) == Insecure
  {
  }

  /** A record that got a second name while it was written is withdrawn, one that lost its
      active name is not published. */
  lemma StrangeNamesAreNotIssued(d: Disk, t: Task, c: Choice)
    requires t.Issue? && t.ipc == StatWritten && c.ok
    ensures TaskStep(d, t, c) ==
              (d, t.(ipc := if (d.active.now == Some(t.ino)) != (d.spent.now == Some(t.ino)) then OpenSpent(true) else Undo))
  {
  }

  /** A consume whose active name has vanished before its unlink does not report success. */
  lemma VanishedActiveIsNotConsumed(d: Disk, t: Task, c: Choice)
    requires t.Consume? && t.cpc == Unlink && d.active.now == None
    ensures TaskStep(d, t, c) == (d, t.(cpc := Finally))
  {
  }

  /** A power loss leaves for each name one of the values since its last fsync, takes the
      text of any files that were not synced, and ends every call that was at work. */
  lemma PowerLossExactly(s: State, active: Option<Ino>, spent: Option<Ino>, lost: set<Ino>)
    requires Enabled(s, PowerLoss(active, spent, lost))
    ensures var s' := Apply(s, PowerLoss(active, spent, lost));
            && active in s.disk.active.possible && spent in s.disk.spent.possible
            && s'.disk.active == Name(active, {active}) && s'.disk.spent == Name(spent, {spent})
            && s'.disk.files.Keys == s.disk.files.Keys
            && (forall i :: i in s.disk.files ==>
                  if i in lost then !s.disk.files[i].synced && s'.disk.files[i].content == None
                  else s'.disk.files[i] == s.disk.files[i])
            && s'.tasks.Keys == s.tasks.Keys
            && (forall u :: u in s.tasks ==>
                  s'.tasks[u] == if s.tasks[u].Done? then s.tasks[u] else Done(s.tasks[u].Issue?, s.tasks[u].record, Killed))
  {
  }

  /** While another consumer is between its link and its unlink, the record is spent. */
  lemma ConsumeOfPair(actions: seq<Action>, s: State, id: TaskId, r: StoreRecord, used: StoreRecord, ino: Ino)
    returns (more: seq<Action>, s': State)
    requires Exec(START, actions) == Some(s) && id !in s.tasks
    requires s.disk.active.now == Some(ino) && s.disk.spent.now == Some(ino) && Holds(s.disk, ino, used)
    ensures actions <= more && Exec(START, more) == Some(s')
    ensures s'.tasks == s.tasks[id := Done(false, r, if r == used then No else Threw)] && s'.disk == s.disk
  {
    var d := s.disk;
    more, s' := BeginCall(actions, s, BeginConsume(id, r));
    more, s' := More(more, s', id, OK, d, Consume(r, 0, LookOpen(2, 0, false)));
    more, s' := More(more, s', id, OK, d, Consume(r, 0, LookRead(ino, 2, 0, false)));
    more, s' := More(more, s', id, OK, d, Consume(r, 0, PairOpen(ino, r == used, 0, false)));
    more, s' := More(more, s', id, OK, d, Consume(r, 0, PairRead(ino, r == used, ino, 0, false)));
    more, s' := More(more, s', id, OK, d, Done(false, r, if r == used then No else Threw));
  }

  /** A consume that fails after its link removes the active name for good and throws. */
  lemma FinallyAlone(actions: seq<Action>, s: State, id: TaskId, r: StoreRecord, ino: Ino)
    returns (more: seq<Action>, s': State)
    requires Exec(START, actions) == Some(s) && id in s.tasks && s.tasks[id] == Consume(r, ino, Finally)
    ensures actions <= more && Exec(START, more) == Some(s')
    ensures s'.tasks == s.tasks[id := Done(false, r, Threw)] && s'.disk.files == s.disk.files
    ensures Absent(s'.disk.active) && s'.disk.spent == Name(s.disk.spent.now, {s.disk.spent.now})
  {
    more, s' := More(actions, s, id, OK, UnlinkActive(s.disk), Consume(r, ino, SyncFinally));
    more, s' := More(more, s', id, OK, SyncDirectory(UnlinkActive(s.disk)), Done(false, r, Threw));
  }

  /** An issue that fails after it made its active name removes it and throws. */
  lemma UndoAlone(actions: seq<Action>, s: State, id: TaskId, r: StoreRecord, ino: Ino)
    returns (more: seq<Action>, s': State)
    requires Exec(START, actions) == Some(s) && id in s.tasks && s.tasks[id] == Issue(r, ino, Undo)
    ensures actions <= more && Exec(START, more) == Some(s')
    ensures s'.tasks == s.tasks[id := Done(true, r, Threw)] && s'.disk.files == s.disk.files
    ensures s'.disk.active.now == None && s'.disk.spent == s.disk.spent
  {
    more, s' := More(actions, s, id, OK, UnlinkActive(s.disk), Done(true, r, Threw));
  }

  /** Exactly the issue calls whose text reached their file are counted as writers. */
  lemma WritersExactly(s: State, a: Action)
    requires Enabled(s, a)
    ensures forall id :: id in Apply(s, a).writers <==>
              || id in s.writers
              || (a.Step? && a.id == id && s.tasks[id].Issue? && s.tasks[id].ipc.Write? && (a.c.ok || a.c.wrote))
  {
  }
}
