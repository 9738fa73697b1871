/** Concurrent consumers of one issued permit, with no issuer about and no failures:
    exactly one of them is told yes and every other is told no. */
module StopPermitContest {
  import opened Results
  import opened StopPermits
  import opened StopPermitStore
  import opened StopPermitSafety
  import opened StopPermitDurability
  import opened StopPermitRuns

  /** The record is published under the active name alone and nobody is at work. */
  ghost predicate ContestStart(s: State, f: Ino, r: StoreRecord) {
    && s.disk.active.now == Some(f) && s.disk.spent.now == None
    && f in s.disk.files && s.disk.files[f].content == Some(r)
    && forall u :: u in s.tasks ==> s.tasks[u].Done?
  }

  /** Consumers of the record begin and run; nothing fails. */
  predicate ContestAction(a: Action, r: StoreRecord) {
    (a.BeginConsume? && a.record == r) || (a.Step? && a.c.ok)
  }

  /** The handover goes through three phases and never back. */
  predicate DiskOk(d: Disk, f: Ino, r: StoreRecord) {
    && f in d.files && d.files[f].content == Some(r)
    && (|| (d.active.now == Some(f) && d.spent.now == None)
        || (d.active.now == Some(f) && d.spent.now == Some(f))
        || (d.active.now == None && d.spent.now == Some(f)))
  }

  predicate LookOk(d: Disk, pc: ConsumePc, f: Ino)
    requires IsLook(pc)
  {
    && (pc.attempt == 0 || (pc.attempt == 1 && d.active.now == None))
    && (pc.again || !pc.Look? ==> d.spent.now == Some(f))
    && (pc.LookOpen? || pc.LookRead? ==> pc.links == 2 || (pc.links == 1 && d.active.now == None))
    && (pc.PairOpen? || pc.PairRead? || (pc.LookOpen? && pc.links == 2) || (pc.LookRead? && pc.links == 2) ==>
          pc.attempt == 0)
    && (pc.LookRead? || pc.PairOpen? || pc.PairRead? ==> pc.file == f)
    && (pc.PairOpen? || pc.PairRead? ==> pc.same)
    && (pc.PairRead? ==> pc.other == f)
  }

  predicate ConsumerOk(d: Disk, t: Task, f: Ino, r: StoreRecord)
    requires t.Consume?
  {
    var pc := t.cpc;
    && t.record == r
    && (IsLook(pc) ==> LookOk(d, pc, f))
    && (pc.ReadRecord? || pc.ReadConsumed? || pc.ReadDurable? ==> pc.file == f)
    && (pc.Link? || Linker(t) ==> t.observed == f)
    && (pc.SyncLink? || pc.OpenConsumed? || pc.ReadConsumed? || pc.Unlink? ==>
          d.active.now == Some(f) && d.spent.now == Some(f))
    && (pc.SyncUnlink? || pc.OpenDurable? || pc.ReadDurable? ==> d.active.now == None)
    && !pc.Finally? && !pc.SyncFinally?
  }

  predicate ContestantOk(d: Disk, t: Task, f: Ino, r: StoreRecord) {
    match t
    case Issue(_, _, _) => false
    case Consume(_, _, _) => ConsumerOk(d, t, f, r)
    case Done(issue, _, answer) => !issue && (answer == Yes || answer == No) && d.spent.now == Some(f)
  }

  ghost predicate ContestInv(s: State, idle: set<TaskId>, f: Ino, r: StoreRecord) {
    && DiskOk(s.disk, f, r)
    && idle <= s.tasks.Keys
    && (forall u :: u in idle ==> s.tasks[u].Done?)
    && (forall u :: u in s.tasks.Keys - idle ==> ContestantOk(s.disk, s.tasks[u], f, r))
    && (forall u, v | u in s.tasks.Keys - idle && v in s.tasks.Keys - idle ::
          Claimant(s.tasks[u]) && Claimant(s.tasks[v]) ==> u == v)
    && (s.disk.spent.now.Some? ==> exists w :: w in s.tasks.Keys - idle && Claimant(s.tasks[w]))
  }

  /** The phases only move forward, and only the claimant moves them. */
  predicate Forward(d: Disk, t: Task, d': Disk, f: Ino, r: StoreRecord) {
    && DiskOk(d', f, r)
    && (d'.active.now == d.active.now || (Linker(t) && d'.active.now == None && d.spent.now == Some(f)))
    && (d'.spent.now == d.spent.now || (d.spent.now == None && d'.spent.now == Some(f)))
  }

  lemma LookStepOk(d: Disk, t: Task, c: Choice, f: Ino, r: StoreRecord)
    requires DiskOk(d, f, r) && t.Consume? && IsLook(t.cpc) && ConsumerOk(d, t, f, r) && c.ok
    ensures ContestantOk(d, LookStep(d, t, c), f, r) && !Claimant(LookStep(d, t, c))
  {
  }

  lemma ConsumeStepOk(d: Disk, t: Task, c: Choice, f: Ino, r: StoreRecord)
    requires DiskOk(d, f, r) && t.Consume? && !IsLook(t.cpc) && ConsumerOk(d, t, f, r) && c.ok
    ensures var (d', t') := ConsumeStep(d, t, c);
            && Forward(d, t, d', f, r) && ContestantOk(d', t', f, r)
            && (Claimant(t') <==> Claimant(t) || (d.spent.now == None && d'.spent.now == Some(f)))
            && (d'.spent.now != d.spent.now ==> Claimant(t'))
  {
  }

  lemma OthersStayOk(d: Disk, t: Task, d': Disk, u: Task, f: Ino, r: StoreRecord)
    requires DiskOk(d, f, r) && Forward(d, t, d', f, r) && ContestantOk(d, u, f, r)
    requires Claimant(t) ==> !Claimant(u)
    ensures ContestantOk(d', u, f, r)
  {
  }

  lemma MyStepOk(d: Disk, t: Task, c: Choice, f: Ino, r: StoreRecord)
    requires DiskOk(d, f, r) && t.Consume? && ConsumerOk(d, t, f, r) && c.ok
    ensures var (d', t') := TaskStep(d, t, c);
            && Forward(d, t, d', f, r) && ContestantOk(d', t', f, r)
            && (Claimant(t') <==> Claimant(t) || (d.spent.now == None && d'.spent.now == Some(f)))
  {
    if IsLook(t.cpc) { LookStepOk(d, t, c, f, r); } else { ConsumeStepOk(d, t, c, f, r); }
  }

  lemma StepKeepsContestInv(s: State, a: Action, idle: set<TaskId>, f: Ino, r: StoreRecord)
    requires ContestInv(s, idle, f, r) && a.Step? && ContestAction(a, r) && Enabled(s, a)
    ensures ContestInv(Apply(s, a), idle, f, r)
  {
    var id, t, s' := a.id, s.tasks[a.id], Apply(s, a);
    assert ContestantOk(s.disk, t, f, r);
    MyStepOk(s.disk, t, a.c, f, r);
    forall u | u in s'.tasks.Keys - idle ensures ContestantOk(s'.disk, s'.tasks[u], f, r) {
      if u != id { OthersStayOk(s.disk, t, s'.disk, s.tasks[u], f, r); }
    }
    forall u, v | u in s'.tasks.Keys - idle && v in s'.tasks.Keys - idle
                  && Claimant(s'.tasks[u]) && Claimant(s'.tasks[v])
      ensures u == v
    {
      OneClaimant(s, id, s'.tasks[id], idle, f, r, u, v);
    }
    if s.disk.spent.now.Some? {
      var w :| w in s.tasks.Keys - idle && Claimant(s.tasks[w]);
      assert Claimant(s'.tasks[w]);
    } else if s'.disk.spent.now.Some? {
      assert Claimant(s'.tasks[id]);
    }
  }

  lemma OneClaimant(
    s: State, id: TaskId, t': Task, idle: set<TaskId>, f: Ino, r: StoreRecord, u: TaskId, v: TaskId)
    requires ContestInv(s, idle, f, r) && id in s.tasks.Keys - idle
    requires u in s.tasks.Keys - idle && v in s.tasks.Keys - idle
    requires Claimant(t') ==> Claimant(s.tasks[id]) || s.disk.spent.now == None
    requires Claimant(s.tasks[id := t'][u]) && Claimant(s.tasks[id := t'][v])
    ensures u == v
  {
    var w := if u == id then v else u;
    assert ContestantOk(s.disk, s.tasks[w], f, r);
  }

  lemma ApplyKeepsContestInv(s: State, a: Action, idle: set<TaskId>, f: Ino, r: StoreRecord)
    requires ContestInv(s, idle, f, r) && ContestAction(a, r) && Enabled(s, a)
    ensures ContestInv(Apply(s, a), idle, f, r)
  {
    if a.Step? { StepKeepsContestInv(s, a, idle, f, r); }
    else {
      var s' := Apply(s, a);
      assert s'.tasks.Keys - idle == (s.tasks.Keys - idle) + {a.id};
      if s.disk.spent.now.Some? {
        var w :| w in s.tasks.Keys - idle && Claimant(s.tasks[w]);
        assert Claimant(s'.tasks[w]);
      }
    }
  }

  lemma {:induction false} ContestKeepsInv(s: State, actions: seq<Action>, f: Ino, r: StoreRecord)
    requires ContestStart(s, f, r) && Exec(s, actions).Some?
    requires forall a :: a in actions ==> ContestAction(a, r)
    ensures ContestInv(Exec(s, actions).value, s.tasks.Keys, f, r)
    decreases |actions|
  {
    if actions != [] {
      var last := |actions| - 1;
      ContestKeepsInv(s, actions[..last], f, r);
      ApplyKeepsContestInv(Exec(s, actions[..last]).value, actions[last], s.tasks.Keys, f, r);
    }
  }

  // ----- a completed issue prepares the contest

  /** Nobody is at work and nobody has linked the spent name. */
  ghost predicate AtRest(s: State) {
    s.disk.spent.now == None && forall u :: u in s.tasks ==> s.tasks[u].Done?
  }

  ghost predicate Ready(s: State, r: StoreRecord) { exists f :: ContestStart(s, f, r) }

  lemma {:induction false} Prefixes(actions: seq<Action>, k: nat)
    requires Exec(START, actions).Some? && k <= |actions|
    ensures Exec(START, actions[..k]).Some? && (KeepsTheRecord(actions) ==> KeepsTheRecord(actions[..k]))
    decreases |actions|
  {
    if k == |actions| { assert actions[..k] == actions; }
    else {
      var last := |actions| - 1;
      Prefixes(actions[..last], k);
      assert actions[..last][..k] == actions[..k];
    }
  }

  /** Once an issue has answered yes, its record is ready for a contest whenever it is
      unspent and nobody is at work, provided no power loss has taken it. */
  lemma IssuedIsReady(actions: seq<Action>, u: TaskId) returns (f: Ino)
    requires Exec(START, actions).Some? && KeepsTheRecord(actions)
    requires var s := Exec(START, actions).value; AtRest(s) && u in s.tasks && Issued(s.tasks[u])
    ensures ContestStart(Exec(START, actions).value, f, Exec(START, actions).value.tasks[u].record)
  {
    ReachableRecordInv(actions);
    f := Exec(START, actions).value.disk.active.now.value;
  }

  /** That proviso is exact: a run meets it if and only if each issued record is ready
      at every moment of rest. */
  lemma ReadyExactly(actions: seq<Action>)
    requires Exec(START, actions).Some?
    ensures KeepsTheRecord(actions) <==> AlwaysReady(actions)
  {
    if KeepsTheRecord(actions) {
      forall k: nat | k <= |actions| ensures Exec(START, actions[..k]).Some? && ReadyNow(Exec(START, actions[..k]).value) {
        Prefixes(actions, k);
        var s := Exec(START, actions[..k]).value;
        forall u | AtRest(s) && u in s.tasks && Issued(s.tasks[u]) ensures Ready(s, s.tasks[u].record) {
          var f := IssuedIsReady(actions[..k], u);
        }
      }
    } else {
      NeverTaken(actions);
    }
  }

  ghost predicate ReadyNow(s: State) {
    forall u :: AtRest(s) && u in s.tasks && Issued(s.tasks[u]) ==> Ready(s, s.tasks[u].record)
  }

  ghost predicate AlwaysReady(actions: seq<Action>) {
    forall k: nat :: k <= |actions| ==> Exec(START, actions[..k]).Some? && ReadyNow(Exec(START, actions[..k]).value)
  }

  lemma {:induction false} NeverTaken(actions: seq<Action>)
    requires Exec(START, actions).Some? && !KeepsTheRecord(actions)
    ensures !AlwaysReady(actions)
    decreases |actions|
  {
    var last := |actions| - 1;
    var s := Exec(START, actions[..last]).value;
    if !KeepsTheRecord(actions[..last]) {
      NeverTaken(actions[..last]);
      var k: nat :| k <= last && !(Exec(START, actions[..last][..k]).Some? && ReadyNow(Exec(START, actions[..last][..k]).value));
      assert actions[..last][..k] == actions[..k];
    } else {
      var u :| u in s.tasks && Issued(s.tasks[u]) && !Offers(Apply(s, actions[last]).disk, s.tasks[u].record);
      assert actions[..|actions|] == actions;
      var s' := Apply(s, actions[last]);
      assert AtRest(s') && u in s'.tasks && Issued(s'.tasks[u]) && !Ready(s', s'.tasks[u].record);
      assert Exec(START, actions[..|actions|]) == Some(s') && !ReadyNow(s');
    }
  }

  /** Keeping a name is not enough: after a failed handover a power loss can lose the
      spent name and leave the empty file of a later issuer under the active one. */
  lemma LateIssuerReplacesRecord(r: StoreRecord) returns (actions: seq<Action>, s: State)
    ensures Exec(START, actions) == Some(s) && KeepsAName(actions) && AtRest(s)
    ensures 0 in s.tasks && s.tasks[0] == Done(true, r, Yes) && !Ready(s, r)
  {
    actions, s := IssueAlone([], START, 0, r, 7);
    actions, s := FailedHandover(actions, s, 1, r, 7);
    Extend(START, actions, BeginIssue(2, r));
    actions, s := actions + [BeginIssue(2, r)], Apply(s, BeginIssue(2, r));
    var d := SetContent(s.disk, 8, File(None, false)).(active := Set(s.disk.active, Some(8)));
    actions, s := More(actions, s, 2, Choice(true, 8, false), d, Issue(r, 8, OpenSpent(false)));
    LossFreeKeepsAName(actions);
    var loss := PowerLoss(Some(8), None, {});
    Extend(START, actions, loss);
    assert (actions + [loss])[..|actions|] == actions;
    actions, s := actions + [loss], Apply(s, loss);
  }

  lemma {:induction false} LossFreeKeepsAName(actions: seq<Action>)
    requires Exec(START, actions).Some? && LossFree(actions)
    ensures KeepsAName(actions)
    decreases |actions|
  {
    if actions != [] { LossFreeKeepsAName(actions[..|actions| - 1]); }
  }

  /** The winner among the consumers that begin when record `r` is ready. */
  lemma OneWinner(s: State, actions: seq<Action>, f: Ino, r: StoreRecord) returns (winner: TaskId)
    requires ContestStart(s, f, r) && Exec(s, actions).Some?
    requires forall a :: a in actions ==> ContestAction(a, r)
    requires var tasks := Exec(s, actions).value.tasks;
             && tasks.Keys != s.tasks.Keys
             && forall u :: u in tasks.Keys - s.tasks.Keys ==> tasks[u].Done?
    ensures var tasks := Exec(s, actions).value.tasks;
            && winner in tasks.Keys - s.tasks.Keys
            && (forall u :: u in tasks.Keys - s.tasks.Keys ==>
                  tasks[u].Done? && tasks[u].answer == if u == winner then Yes else No)
  {
    ContestKeepsInv(s, actions, f, r);
    var s' := Exec(s, actions).value;
    var idle := s.tasks.Keys;
    var u :| u in s'.tasks.Keys - idle;
    assert ContestantOk(s'.disk, s'.tasks[u], f, r);
    winner :| winner in s'.tasks.Keys - idle && Claimant(s'.tasks[winner]);
    forall v | v in s'.tasks.Keys - idle
      ensures s'.tasks[v].Done? && s'.tasks[v].answer == if v == winner then Yes else No
    {
      assert ContestantOk(s'.disk, s'.tasks[v], f, r);
    }
  }

  /** After any run in which an issue answered yes, with its record neither spent nor
      taken by a power loss and nobody at work: when consumers of that record have begun
      and all of them have answered without a failure, exactly one answered yes and
      every other answered no; none threw. */
  lemma ExactlyOneWinner(before: seq<Action>, issuer: TaskId, actions: seq<Action>) returns (winner: TaskId)
    requires Exec(START, before).Some? && KeepsTheRecord(before)
    requires var s := Exec(START, before).value;
             && AtRest(s) && issuer in s.tasks && Issued(s.tasks[issuer])
             && (forall a :: a in actions ==> ContestAction(a, s.tasks[issuer].record))
             && Exec(s, actions).Some?
             && var tasks := Exec(s, actions).value.tasks;
             && tasks.Keys != s.tasks.Keys
             && forall u :: u in tasks.Keys - s.tasks.Keys ==> tasks[u].Done?
    ensures var s := Exec(START, before).value;
            var tasks := Exec(s, actions).value.tasks;
            && winner in tasks.Keys - s.tasks.Keys
            && (forall u :: u in tasks.Keys - s.tasks.Keys ==>
                  tasks[u].Done? && tasks[u].answer == if u == winner then Yes else No)
  {
    var s := Exec(START, before).value;
    var f := IssuedIsReady(before, issuer);
    winner := OneWinner(s, actions, f, s.tasks[issuer].record);
  }

  /** No consumer of a contest ever throws: the four attempts suffice. */
  lemma NobodyThrows(before: seq<Action>, issuer: TaskId, actions: seq<Action>, u: TaskId)
    requires Exec(START, before).Some? && KeepsTheRecord(before)
    requires var s := Exec(START, before).value;
             && AtRest(s) && issuer in s.tasks && Issued(s.tasks[issuer])
             && (forall a :: a in actions ==> ContestAction(a, s.tasks[issuer].record))
             && Exec(s, actions).Some?
             && u in Exec(s, actions).value.tasks.Keys - s.tasks.Keys && Exec(s, actions).value.tasks[u].Done?
    ensures var t := Exec(Exec(START, before).value, actions).value.tasks[u]; t.answer == Yes || t.answer == No
  {
    var s := Exec(START, before).value;
    var f := IssuedIsReady(before, issuer);
    ContestKeepsInv(s, actions, f, s.tasks[issuer].record);
    assert ContestantOk(Exec(s, actions).value.disk, Exec(s, actions).value.tasks[u], f, s.tasks[issuer].record);
  }
}
