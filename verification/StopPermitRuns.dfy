/** Runs of the stop-permit store: an undisturbed issue and consume succeed, and the
    one way in which a nonce can be issued twice. */
module StopPermitRuns {
  import opened Results
  import opened Numbers
  import opened StopPermits
  import opened StopPermitStore
  import opened StopPermitSafety

  const OK := Choice(true, 0, false)

  lemma Extend(s: State, actions: seq<Action>, a: Action)
    requires Exec(s, actions).Some? && Enabled(Exec(s, actions).value, a)
    ensures Exec(s, actions + [a]) == Some(Apply(Exec(s, actions).value, a))
  {
    assert (actions + [a])[..|actions|] == actions;
  }

  predicate LossFree(actions: seq<Action>) { forall a :: a in actions ==> !a.PowerLoss? }

  /** One more step of task `id`. */
  lemma More(actions: seq<Action>, s: State, id: TaskId, c: Choice, d: Disk, t: Task) returns (more: seq<Action>, s': State)
    requires Exec(START, actions) == Some(s)
    requires id in s.tasks && !s.tasks[id].Done? && TaskStep(s.disk, s.tasks[id], c) == (d, t)
    ensures actions <= more && Exec(START, more) == Some(s')
    ensures s'.disk == d && s'.tasks == s.tasks[id := t] && LossFree(more) == LossFree(actions)
    ensures s'.failedHandover == (s.failedHandover
                                  || (s.tasks[id].Consume? && s.tasks[id].cpc.SyncLink? && !c.ok))
  {
    Extend(START, actions, Step(id, c));
    more, s' := actions + [Step(id, c)], Apply(s, Step(id, c));
  }

  predicate Absent(n: Name) { n == Name(None, {None}) }

  predicate Present(n: Name, i: Ino) { n == Name(Some(i), {Some(i)}) }

  lemma CreateRecord(actions: seq<Action>, s: State, id: TaskId, r: StoreRecord, ino: Ino)
    returns (more: seq<Action>, s': State)
    requires Exec(START, actions) == Some(s) && id !in s.tasks
    requires Absent(s.disk.active) && Absent(s.disk.spent)
    ensures actions <= more && Exec(START, more) == Some(s') && s'.failedHandover == s.failedHandover
    ensures LossFree(more) == LossFree(actions)
    ensures s'.tasks == s.tasks[id := Issue(r, ino, OpenSpent(false))]
    ensures s'.disk == SetContent(s.disk, ino, File(None, false)).(active := Set(s.disk.active, Some(ino)))
  {
    Extend(START, actions, BeginIssue(id, r));
    more, s' := actions + [BeginIssue(id, r)], Apply(s, BeginIssue(id, r));
    var d := SetContent(s.disk, ino, File(None, false)).(active := Set(s.disk.active, Some(ino)));
    more, s' := More(more, s', id, Choice(true, ino, false), d, Issue(r, ino, OpenSpent(false)));
  }

  lemma PrepareIssue(actions: seq<Action>, s: State, id: TaskId, r: StoreRecord, ino: Ino)
    returns (more: seq<Action>, s': State)
    requires Exec(START, actions) == Some(s) && id !in s.tasks
    requires Absent(s.disk.active) && Absent(s.disk.spent)
    ensures actions <= more && Exec(START, more) == Some(s') && s'.failedHandover == s.failedHandover
    ensures LossFree(more) == LossFree(actions)
    ensures s'.tasks == s.tasks[id := Issue(r, ino, StatWritten)]
    ensures s'.disk.files == s.disk.files[ino := File(Some(r), true)]
    ensures s'.disk.active.now == Some(ino) && Absent(s'.disk.spent)
  {
    more, s' := CreateRecord(actions, s, id, r, ino);
    var d := s'.disk;
    more, s' := More(more, s', id, OK, d, Issue(r, ino, Write));
    more, s' := More(more, s', id, OK, SetContent(d, ino, File(Some(r), false)), Issue(r, ino, Sync));
    more, s' := More(more, s', id, OK, SetContent(s'.disk, ino, File(Some(r), true)), Issue(r, ino, StatWritten));
  }

  /** Alone and without I/O errors, an issue of an unused nonce answers yes and is durable. */
  lemma IssueAlone(actions: seq<Action>, s: State, id: TaskId, r: StoreRecord, ino: Ino)
    returns (more: seq<Action>, s': State)
    requires Exec(START, actions) == Some(s) && id !in s.tasks
    requires Absent(s.disk.active) && Absent(s.disk.spent)
    ensures actions <= more && Exec(START, more) == Some(s') && s'.failedHandover == s.failedHandover
    ensures LossFree(more) == LossFree(actions)
    ensures s'.tasks == s.tasks[id := Done(true, r, Yes)]
    ensures s'.disk.files == s.disk.files[ino := File(Some(r), true)]
    ensures Present(s'.disk.active, ino) && Absent(s'.disk.spent)
  {
    more, s' := PrepareIssue(actions, s, id, r, ino);
    var d := s'.disk;
    more, s' := More(more, s', id, OK, d, Issue(r, ino, OpenSpent(true)));
    more, s' := More(more, s', id, OK, d, Issue(r, ino, OpenPublished));
    more, s' := More(more, s', id, OK, d, Issue(r, ino, ReadPublished(ino)));
    more, s' := More(more, s', id, OK, d, Issue(r, ino, SyncPublished));
    more, s' := More(more, s', id, OK, SyncDirectory(d), Done(true, r, Yes));
  }

  lemma FindRecord(actions: seq<Action>, s: State, id: TaskId, r: StoreRecord, ino: Ino)
    returns (more: seq<Action>, s': State)
    requires Exec(START, actions) == Some(s) && id !in s.tasks
    requires s.disk.active.now == Some(ino) && s.disk.spent.now == None
    ensures actions <= more && Exec(START, more) == Some(s') && s'.failedHandover == s.failedHandover
    ensures LossFree(more) == LossFree(actions)
    ensures s'.tasks == s.tasks[id := Consume(r, 0, ReadRecord(ino))] && s'.disk == s.disk
  {
    Extend(START, actions, BeginConsume(id, r));
    more, s' := actions + [BeginConsume(id, r)], Apply(s, BeginConsume(id, r));
    more, s' := More(more, s', id, OK, s.disk, Consume(r, 0, OpenRecord));
    more, s' := More(more, s', id, OK, s.disk, Consume(r, 0, ReadRecord(ino)));
  }

  lemma PrepareConsume(actions: seq<Action>, s: State, id: TaskId, r: StoreRecord, ino: Ino)
    returns (more: seq<Action>, s': State)
    requires Exec(START, actions) == Some(s) && id !in s.tasks
    requires Present(s.disk.active, ino) && Absent(s.disk.spent)
    requires ino in s.disk.files && s.disk.files[ino].content == Some(r)
    ensures Exec(START, more) == Some(s') && s'.failedHandover == s.failedHandover
    ensures LossFree(more) == LossFree(actions)
    ensures s'.tasks == s.tasks[id := Consume(r, ino, SyncLink)]
    ensures s'.disk == s.disk.(spent := Name(Some(ino), {None, Some(ino)}))
  {
    var d := s.disk;
    more, s' := FindRecord(actions, s, id, r, ino);
    more, s' := More(more, s', id, OK, d, Consume(r, ino, Link));
    more, s' := More(more, s', id, OK, d.(spent := Set(d.spent, Some(ino))), Consume(r, ino, SyncLink));
  }

  lemma FinishConsume(actions: seq<Action>, s: State, id: TaskId, r: StoreRecord, ino: Ino)
    returns (more: seq<Action>, s': State)
    requires Exec(START, actions) == Some(s) && id in s.tasks && s.tasks[id] == Consume(r, ino, Unlink)
    requires Present(s.disk.active, ino) && Present(s.disk.spent, ino)
    requires ino in s.disk.files && s.disk.files[ino].content == Some(r)
    ensures Exec(START, more) == Some(s') && s'.failedHandover == s.failedHandover
    ensures s'.tasks == s.tasks[id := Done(false, r, Yes)]
    ensures Absent(s'.disk.active) && Present(s'.disk.spent, ino)
  {
    more, s' := RemoveActive(actions, s, id, r, ino);
    var d := s'.disk;
    more, s' := More(more, s', id, OK, d, Consume(r, ino, ReadDurable(ino)));
    more, s' := More(more, s', id, OK, d, Done(false, r, Yes));
  }

  lemma RemoveActive(actions: seq<Action>, s: State, id: TaskId, r: StoreRecord, ino: Ino)
    returns (more: seq<Action>, s': State)
    requires Exec(START, actions) == Some(s) && id in s.tasks && s.tasks[id] == Consume(r, ino, Unlink)
    requires Present(s.disk.active, ino) && Present(s.disk.spent, ino)
    ensures Exec(START, more) == Some(s') && s'.failedHandover == s.failedHandover
    ensures s'.tasks == s.tasks[id := Consume(r, ino, OpenDurable)]
    ensures s'.disk.files == s.disk.files && Absent(s'.disk.active) && Present(s'.disk.spent, ino)
  {
    var d := s.disk;
    more, s' := More(actions, s, id, OK, UnlinkActive(d), Consume(r, ino, SyncUnlink));
    more, s' := More(more, s', id, OK, SyncDirectory(UnlinkActive(d)), Consume(r, ino, OpenDurable));
  }

  /** Alone and without I/O errors, a consume of an issued record answers yes. */
  lemma ConsumeAlone(actions: seq<Action>, s: State, id: TaskId, r: StoreRecord, ino: Ino)
    returns (more: seq<Action>, s': State)
    requires Exec(START, actions) == Some(s) && id !in s.tasks
    requires Present(s.disk.active, ino) && Absent(s.disk.spent)
    requires ino in s.disk.files && s.disk.files[ino].content == Some(r)
    ensures Exec(START, more) == Some(s') && s'.failedHandover == s.failedHandover
    ensures s'.tasks == s.tasks[id := Done(false, r, Yes)]
    ensures Absent(s'.disk.active) && Present(s'.disk.spent, ino)
  {
    more, s' := PrepareConsume(actions, s, id, r, ino);
    var d := SyncDirectory(s'.disk);
    more, s' := More(more, s', id, OK, d, Consume(r, ino, OpenConsumed));
    more, s' := More(more, s', id, OK, d, Consume(r, ino, ReadConsumed(ino)));
    more, s' := More(more, s', id, OK, d, Consume(r, ino, Unlink));
    more, s' := FinishConsume(more, s', id, r, ino);
  }

  /** The fsync after the link fails, so the consumer removes the active name while
      the spent name is not yet durable. */
  lemma FailedHandover(actions: seq<Action>, s: State, id: TaskId, r: StoreRecord, ino: Ino)
    returns (more: seq<Action>, s': State)
    requires Exec(START, actions) == Some(s) && id !in s.tasks
    requires Present(s.disk.active, ino) && Absent(s.disk.spent)
    requires ino in s.disk.files && s.disk.files[ino].content == Some(r)
    ensures Exec(START, more) == Some(s') && s'.failedHandover
    ensures LossFree(more) == LossFree(actions)
    ensures s'.tasks == s.tasks[id := Consume(r, ino, SyncFinally)]
    ensures s'.disk.active.now == None && s'.disk.spent.now == Some(ino)
    ensures s'.disk.active.possible + s'.disk.spent.possible <= {None, Some(ino)}
    ensures None in s'.disk.active.possible && None in s'.disk.spent.possible
  {
    more, s' := PrepareConsume(actions, s, id, r, ino);
    var d := s'.disk;
    more, s' := More(more, s', id, Choice(false, 0, false), d, Consume(r, ino, Finally));
    more, s' := More(more, s', id, OK, UnlinkActive(d), Consume(r, ino, SyncFinally));
  }

  ghost predicate IssuedTwice(s: State) {
    exists a, b :: a in s.tasks && b in s.tasks && a != b && Issued(s.tasks[a]) && Issued(s.tasks[b])
  }

  /** A power loss takes both names of an issued nonce; then the nonce is issued again. */
  lemma SecondIssue(actions: seq<Action>, s: State, first: TaskId, r: StoreRecord, id: TaskId)
    returns (more: seq<Action>, s': State)
    requires Exec(START, actions) == Some(s) && first in s.tasks && Issued(s.tasks[first]) && id !in s.tasks
    requires None in s.disk.active.possible && None in s.disk.spent.possible
    ensures actions <= more && Exec(START, more) == Some(s') && s'.failedHandover == s.failedHandover
    ensures first in s'.tasks && id in s'.tasks && s'.tasks[first] == s.tasks[first]
    ensures s'.tasks[id] == Done(true, r, Yes)
  {
    var loss := PowerLoss(None, None, {});
    Extend(START, actions, loss);
    more, s' := IssueAlone(actions + [loss], Apply(s, loss), id, r, 0);
  }

  /** Where a power loss can take both names of an issued nonce, it can be issued again,
      for any record. */
  lemma ExposedCanBeIssuedAgain(actions: seq<Action>, r: StoreRecord) returns (more: seq<Action>)
    requires Exec(START, actions).Some? && Exposed(Exec(START, actions).value)
    ensures actions <= more && Exec(START, more).Some? && IssuedTwice(Exec(START, more).value)
    ensures exists u :: u in Exec(START, more).value.tasks && u !in Exec(START, actions).value.tasks
                        && Exec(START, more).value.tasks[u] == Done(true, r, Yes)
  {
    var s := Exec(START, actions).value;
    var first :| first in s.tasks && Issued(s.tasks[first]);
    var id := Unused(s.tasks.Keys);
    var s': State;
    more, s' := SecondIssue(actions, s, first, r, id);
    assert Issued(s'.tasks[first]) && Issued(s'.tasks[id]);
  }

  /** A run that stops keeping a name goes through an exposed state. */
  lemma {:induction false} LossAfter(actions: seq<Action>, more: seq<Action>) returns (k: nat)
    requires actions <= more && Exec(START, more).Some?
    requires Exec(START, actions).Some? && KeepsAName(actions) && !KeepsAName(more)
    ensures |actions| <= k < |more| && Exec(START, more[..k]).Some? && Exposed(Exec(START, more[..k]).value)
    decreases |more|
  {
    var last := |more| - 1;
    assert |actions| == |more| ==> actions == more;
    if KeepsAName(more[..last]) {
      k := last;
    } else {
      k := LossAfter(actions, more[..last]);
      assert more[..last][..k] == more[..k];
    }
  }

  /** The exact condition: a nonce can still be issued twice if and only if the run can
      still come to a state in which a power loss may take both names of an issued nonce. */
  lemma IssuedAgainExactly(actions: seq<Action>)
    requires Exec(START, actions).Some? && KeepsAName(actions)
    ensures (exists more :: actions <= more && Exec(START, more).Some? && IssuedTwice(Exec(START, more).value))
            <==> (exists more :: actions <= more && Exec(START, more).Some? && Exposed(Exec(START, more).value))
  {
    if more :| actions <= more && Exec(START, more).Some? && IssuedTwice(Exec(START, more).value) {
      if KeepsAName(more) { ReachableIssueInv(more); }
      var k := LossAfter(actions, more);
      assert actions <= more[..k];
    }
    if more :| actions <= more && Exec(START, more).Some? && Exposed(Exec(START, more).value) {
      var s := Exec(START, more).value;
      var first :| first in s.tasks && Issued(s.tasks[first]);
      var again := ExposedCanBeIssuedAgain(more, s.tasks[first].record);
      assert actions <= again;
    }
  }

  /** The condition is met: a consumer whose fsync after the link fails exposes the nonce,
      and the same record is then issued a second time. */
  lemma FailedHandoverAllowsSecondIssue(r: StoreRecord) returns (actions: seq<Action>)
    ensures Exec(START, actions).Some? && Exec(START, actions).value.failedHandover
    ensures var s := Exec(START, actions).value;
            exists a, b :: a in s.tasks && b in s.tasks && a != b
                           && s.tasks[a] == Done(true, r, Yes) && s.tasks[b] == Done(true, r, Yes)
  {
    var s: State;
    actions, s := IssueAlone([], START, 0, r, 7);
    actions, s := FailedHandover(actions, s, 1, r, 7);
    assert Issued(s.tasks[0]);
    actions, s := SecondIssue(actions, s, 0, r, 2);
  }

  /** The ordinary life of a permit: issued, then consumed, each with the answer yes. */
  lemma OrdinaryLife(r: StoreRecord) returns (actions: seq<Action>, s: State)
    ensures Exec(START, actions) == Some(s) && !s.failedHandover
    ensures 0 in s.tasks && Issued(s.tasks[0]) && 1 in s.tasks && Consumed(s.tasks[1])
  {
    actions, s := IssueAlone([], START, 0, r, 7);
    actions, s := ConsumeAlone(actions, s, 1, r, 7);
  }
}
