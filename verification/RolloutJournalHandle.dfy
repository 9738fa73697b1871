/** The journal handle as its callers see it: one object that mutates the record
    on disk (src/rollout-journal.js, class EdgeRolloutJournal).

    Each call runs while its lease keeps every other writer away, which
    RolloutJournalRun proves; so a call changes the state file at most once, at the
    rename or link.  Any system call of it may fail, before or after that. */
module RolloutJournalHandle {
  import opened Results
  import opened RolloutPhases
  import opened RolloutJournalRun

  /** The file at the state path, with the history of its records. */
  class StateFile {
    var record: Option<Journal>
    ghost var published: seq<Journal>

    ghost predicate Valid()
      reads this
    {
      && PhaseRun(published)
      && record == (if published == [] then None else Some(published[|published| - 1]))
    }

    constructor ()
      ensures Valid() && record == None && published == []
    {
      record, published := None, [];
    }

    method Replace(next: Journal)
      requires Valid() && ValidState(next)
      requires if record.None? then IsInitial(next) else Follows(record.value, next)
      modifies this
      ensures Valid() && record == Some(next) && published == old(published) + [next]
    {
      forall i | 0 < i < |published + [next]| ensures Follows((published + [next])[i - 1], (published + [next])[i]) {
        if i < |published| { assert Follows(published[i - 1], published[i]); }
      }
      record, published := Some(next), published + [next];
    }
  }

  /** The lease a handle holds.  `intact` is what `inspectLease` would find. */
  class LeaseHandle {
    var intact: bool
    var released: bool

    constructor ()
      ensures intact && !released
    {
      intact, released := true, false;
    }

    predicate Owned()
      reads this
    {
      intact && !released
    }

    method Release()
      modifies this
      ensures released && intact == old(intact)
    {
      released := true;
    }
  }

  /** Where a call breaks off, and with which error: while the record is read, before
      the rename or link that publishes, or after it. */
  datatype Fault = NoFault | Reading(code: Code) | BeforePublishing(code: Code) | AfterPublishing(code: Code)

  /** The record that a mutation publishes if nothing breaks off, or why there is none. */
  function MutationResult(
    mutating: bool, owned: bool, record: Option<Journal>, planDigest: string, operationId: string,
    m: Mutation, now: Timestamp): Result<Journal, Code>
  {
    if mutating then Failure(CasMismatch)
    else if !owned then Failure(NotHeld)
    else if record.None? then Failure(Missing)
    else if !ValidState(record.value) then Failure(Invalid)
    else if record.value.planDigest != planDigest || record.value.operationId != operationId then Failure(Mismatch)
    else Next(record.value, m, now)
  }

  /** A mutation whose record was published, but which was told otherwise, cannot take
      effect twice: the same request is refused by the sequence check or by the receipt. */
  lemma RetryIsRefused(state: Journal, m: Mutation, now: Timestamp, later: Timestamp)
    requires Next(state, m, now).Success?
    ensures var again := Next(Next(state, m, now).value, m, later);
            again.Failure? && (again.error == CasMismatch || again.error == Terminal)
  {
  }

  class EdgeRolloutJournal {
    const file: StateFile
    const lease: LeaseHandle
    const planDigest: string
    const operationId: string
    var mutating: bool

    constructor (file: StateFile, lease: LeaseHandle, planDigest: string, operationId: string)
      ensures this.file == file && this.lease == lease && !mutating
      ensures this.planDigest == planDigest && this.operationId == operationId
    {
      this.file, this.lease, this.planDigest, this.operationId := file, lease, planDigest, operationId;
      mutating := false;
    }

    /** `#readOwned`: ownership, then the record, then its binding. */
    method ReadOwned(fault: Fault) returns (r: Result<Journal, Code>)
      ensures r.Success? <==> && lease.Owned() && !fault.Reading? && file.record.Some? && ValidState(file.record.value)
                              && file.record.value.planDigest == planDigest
                              && file.record.value.operationId == operationId
      ensures r.Success? ==> file.record == Some(r.value)
      ensures r.Failure? ==>
        r.error == (if !lease.Owned() then NotHeld
                    else if fault.Reading? then fault.code
                    else if file.record.None? then Missing
                    else if !ValidState(file.record.value) then Invalid else Mismatch)
    {
      if !lease.Owned() { return Failure(NotHeld); }
      if fault.Reading? { return Failure(fault.code); }
      if file.record.None? { return Failure(Missing); }
      var state := file.record.value;
      if !ValidState(state) { return Failure(Invalid); }
      if state.planDigest != planDigest || state.operationId != operationId { return Failure(Mismatch); }
      return Success(state);
    }

    /** `#withMutation` around any of the four transitions and `#publish`.  The legal next
        record is published exactly when the rename is reached, and reported exactly when
        what follows works too; otherwise nothing is published. */
    method Mutate(m: Mutation, now: Timestamp, fault: Fault) returns (r: Result<Journal, Code>)
      requires file.Valid()
      modifies this`mutating, file
      ensures file.Valid() && mutating == old(mutating)
      ensures var next := MutationResult(old(mutating), lease.Owned(), old(file.record), planDigest, operationId, m, now);
              var reached := next.Success? && !fault.Reading? && !fault.BeforePublishing?;
              && (r.Success? <==> next.Success? && fault.NoFault?)
              && (r.Success? ==> r == next)
              && (r.Failure? && fault.NoFault? ==> r == next)
              && (r.Failure? && reached ==> r.error == fault.code)
              && file.record == (if reached then Some(next.value) else old(file.record))
              && file.published == (if reached then old(file.published) + [next.value] else old(file.published))
              && (reached ==> && old(file.record).Some? && Follows(old(file.record).value, next.value)
                              && next.value.sequence == old(file.record).value.sequence + 1)
    {
      if mutating { return Failure(CasMismatch); }
      mutating := true;
      r := ReadOwned(fault);
      if r.Success? {
        var state := r.value;
        r := Next(state, m, now);
        if r.Success? {
          if fault.BeforePublishing? {
            r := Failure(fault.code);
          } else {
            NextIsValid(state, m, now);
            file.Replace(r.value);
            if fault.AfterPublishing? { r := Failure(fault.code); }
          }
        }
      }
      mutating := false;
    }

    /** Refused while a mutation is in progress; otherwise gives the lease up for good. */
    method Release() returns (r: Result<(), Code>)
      modifies lease
      ensures r == if mutating then Failure(CasMismatch) else Success(())
      ensures lease.released == (old(lease.released) || !mutating) && lease.intact == old(lease.intact)
    {
      if mutating { return Failure(CasMismatch); }
      lease.Release();
      return Success(());
    }
  }

  /** createRolloutJournal: options that fail validation never reach the lease; then the
      initial record is published exactly when the link is reached, and the acquired lease
      is kept by a handle exactly when what follows works too. */
  method CreateRolloutJournal(
    file: StateFile, lease: LeaseHandle, planDigest: string, operationId: string, now: Timestamp, fault: Fault)
    returns (r: Result<EdgeRolloutJournal, Code>)
    requires file.Valid() && !lease.released
    modifies file, lease
    ensures file.Valid() && lease.intact == old(lease.intact)
    ensures var valid := ValidPlanDigest(planDigest) && ValidOperationId(operationId);
            var reached := && valid && old(file.record).None? && lease.intact
                           && !fault.Reading? && !fault.BeforePublishing?;
            && (r.Success? <==> reached && fault.NoFault?)
            && (r.Failure? && fault.NoFault? ==>
                  r.error == if !valid then Invalid else if old(file.record).Some? then Exists else NotHeld)
            && lease.released == (r.Failure? && valid)
            && file.record == (if reached then Some(Initial(planDigest, operationId, now)) else old(file.record))
            && file.published == (if reached then [Initial(planDigest, operationId, now)] else old(file.published))
    ensures r.Success? ==>
      && r.value.lease == lease && r.value.file == file && !r.value.mutating
      && r.value.planDigest == planDigest && r.value.operationId == operationId
  {
    if !ValidPlanDigest(planDigest) || !ValidOperationId(operationId) { return Failure(Invalid); }
    if fault.Reading? {
      lease.Release();
      return Failure(fault.code);
    }
    if file.record.Some? {
      lease.Release();
      return Failure(Exists);
    }
    if fault.BeforePublishing? || !lease.Owned() {
      lease.Release();
      return Failure(if fault.BeforePublishing? then fault.code else NotHeld);
    }
    InitialIsValid(planDigest, operationId, now);
    file.Replace(Initial(planDigest, operationId, now));
    if fault.AfterPublishing? {
      lease.Release();
      return Failure(fault.code);
    }
    var handle := new EdgeRolloutJournal(file, lease, planDigest, operationId);
    return Success(handle);
  }

  /** openRolloutJournal, likewise; it publishes nothing. */
  method OpenRolloutJournal(file: StateFile, lease: LeaseHandle, planDigest: string, operationId: string, fault: Fault)
    returns (r: Result<EdgeRolloutJournal, Code>)
    requires file.Valid() && !lease.released
    modifies lease
    ensures var valid := ValidPlanDigest(planDigest) && ValidOperationId(operationId);
            lease.intact == old(lease.intact) && lease.released == (r.Failure? && valid)
    ensures r.Success? <==> && ValidPlanDigest(planDigest) && ValidOperationId(operationId) && !fault.Reading?
                            && file.record.Some? && ValidState(file.record.value)
                            && file.record.value.planDigest == planDigest
                            && file.record.value.operationId == operationId
    ensures r.Success? ==>
      && r.value.lease == lease && r.value.file == file && !r.value.mutating
      && r.value.planDigest == planDigest && r.value.operationId == operationId
  {
    if !ValidPlanDigest(planDigest) || !ValidOperationId(operationId) { return Failure(Invalid); }
    if fault.Reading? {
      lease.Release();
      return Failure(fault.code);
    }
    if file.record.Some? && ValidState(file.record.value)
       && file.record.value.planDigest == planDigest && file.record.value.operationId == operationId {
      var handle := new EdgeRolloutJournal(file, lease, planDigest, operationId);
      return Success(handle);
    }
    lease.Release();
    return Failure(if file.record.None? then Missing
                   else if !ValidState(file.record.value) then Invalid else Mismatch);
  }
}
