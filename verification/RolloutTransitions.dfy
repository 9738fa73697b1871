/** What each of the four journal transitions requires and changes, said on the fields of
    the record, and what follows for whole runs. */
module RolloutTransitions {
  import opened Results
  import opened Numbers
  import opened RolloutPhases
  import opened RolloutLease
  import opened RolloutJournalRun

  // ----- the identities of a record

  predicate IsAlnum(c: char) { '0' <= c <= '9' || 'a' <= c <= 'z' || 'A' <= c <= 'Z' }

  /** A plan digest is 64 lower-case hexadecimal digits, an operation id 16 to 128 letters,
      digits, dots, underscores, tildes and hyphens, the first a letter or a digit. */
  lemma IdentitiesExactly(s: string)
    ensures ValidPlanDigest(s) <==>
              |s| == 64 && forall i :: 0 <= i < 64 ==> s[i] in "0123456789abcdef"
    ensures ValidOperationId(s) <==>
              16 <= |s| <= 128 && IsAlnum(s[0]) && forall i :: 0 < i < |s| ==> IsAlnum(s[i]) || s[i] in {'.', '_', '~', '-'}
  {
  }

  // ----- each transition, exactly

  /** The next phase is the one right after the given one. */
  predicate Adjacent(phases: seq<string>, phase: string, next: string) {
    exists i :: 0 <= i < |phases| - 1 && phases[i] == phase && phases[i + 1] == next
  }

  lemma AdjacentActivation(phase: string, next: string)
    ensures Adjacent(ACTIVATION_PHASES, phase, next) <==>
              && phase in ACTIVATION_PHASES && next in ACTIVATION_PHASES
              && IndexOf(ACTIVATION_PHASES, next) == IndexOf(ACTIVATION_PHASES, phase) + 1
  {
    if k :| 0 <= k < |ACTIVATION_PHASES| - 1 && ACTIVATION_PHASES[k] == phase && ACTIVATION_PHASES[k + 1] == next {
      PhaseIndex(k);
      PhaseIndex(k + 1);
    }
    var i := IndexOf(ACTIVATION_PHASES, phase);
  }

  lemma AdjacentRollback(phase: string, next: string)
    ensures Adjacent(ROLLBACK_PHASES, phase, next) <==>
              && phase in ROLLBACK_PHASES && next in ROLLBACK_PHASES
              && IndexOf(ROLLBACK_PHASES, next) == IndexOf(ROLLBACK_PHASES, phase) + 1
  {
    if k :| 0 <= k < |ROLLBACK_PHASES| - 1 && ROLLBACK_PHASES[k] == phase && ROLLBACK_PHASES[k + 1] == next {
      PhaseIndex(k);
      PhaseIndex(k + 1);
    }
    var i := IndexOf(ROLLBACK_PHASES, phase);
  }

  /** advanceActivation: before any rollback, from the expected phase to the next one. */
  lemma AdvanceActivationExactly(state: Journal, sequence: int, phase: string, next: string, now: Timestamp)
    ensures var r := Next(state, AdvanceActivation(sequence, phase, next), now);
            && (r.Success? <==>
                  && state.terminalReceipt == None && state.sequence == sequence && 0 <= sequence <= MAX_SAFE_INTEGER
                  && state.rollbackPhase == None && state.activationPhase == phase
                  && Adjacent(ACTIVATION_PHASES, phase, next))
            && (r.Success? ==> r.value == state.(activationPhase := next, sequence := sequence + 1, updatedAt := now))
  {
    AdjacentActivation(phase, next);
  }

  /** beginRollback: once, naming the activation phase it starts from, which stays. */
  lemma BeginRollbackExactly(state: Journal, sequence: int, phase: string, now: Timestamp)
    ensures var r := Next(state, BeginRollback(sequence, phase), now);
            && (r.Success? <==>
                  && state.terminalReceipt == None && state.sequence == sequence && 0 <= sequence <= MAX_SAFE_INTEGER
                  && state.rollbackPhase == None && state.activationPhase == phase)
            && (r.Success? ==> r.value == state.(rollbackPhase := Some("started"), sequence := sequence + 1, updatedAt := now))
  {
  }

  /** advanceRollback: from the expected rollback phase to the next one. */
  lemma AdvanceRollbackExactly(state: Journal, sequence: int, phase: Option<string>, next: string, now: Timestamp)
    ensures var r := Next(state, AdvanceRollback(sequence, phase, next), now);
            && (r.Success? <==>
                  && state.terminalReceipt == None && state.sequence == sequence && 0 <= sequence <= MAX_SAFE_INTEGER
                  && state.rollbackPhase == phase && phase.Some? && Adjacent(ROLLBACK_PHASES, phase.value, next))
            && (r.Success? ==> r.value == state.(rollbackPhase := Some(next), sequence := sequence + 1, updatedAt := now))
  {
    if phase.Some? { AdjacentRollback(phase.value, next); }
  }

  /** finalize: a commit needs an accepted activation without rollback, a rolled-back an
      accepted rollback, a failure nothing; only the receipt is new. */
  lemma FinalizeExactly(state: Journal, sequence: int, outcome: string, now: Timestamp)
    ensures var r := Next(state, Finalize(sequence, outcome), now);
            && (r.Success? <==>
                  && state.terminalReceipt == None && state.sequence == sequence && 0 <= sequence <= MAX_SAFE_INTEGER
                  && (|| (outcome == "committed" && state.activationPhase == "accepted" && state.rollbackPhase == None)
                      || (outcome == "rolled-back" && state.rollbackPhase == Some("accepted"))
                      || outcome == "failed"))
            && (r.Success? ==>
                  && r.value == state.(sequence := sequence + 1, updatedAt := now, terminalReceipt := r.value.terminalReceipt)
                  && r.value.terminalReceipt == Some(Receipt(
                       "lazyedge/edge-rollout-receipt/v1", 1, state.planDigest, state.operationId, outcome, sequence + 1, now)))
  {
    assert COMMITTED != ROLLED_BACK && COMMITTED != FAILED && ROLLED_BACK != FAILED;
  }

  /** Which error a refused transition carries: the receipt comes first, then the sequence. */
  lemma RefusalExactly(state: Journal, m: Mutation, now: Timestamp)
    requires Next(state, m, now).Failure?
    ensures Next(state, m, now).error ==
              if state.terminalReceipt.Some? then Terminal
              else if m.expectedSequence < 0 || m.expectedSequence > MAX_SAFE_INTEGER then Invalid
              else if state.sequence != m.expectedSequence then CasMismatch
              else if m.Finalize? && m.outcome !in ["committed", "rolled-back", "failed"] then Invalid
              else PhaseMismatch
  {
  }

  // ----- the two tracks from end to end

  function Advances(phases: seq<string>): seq<Stamped>
    requires phases != []
  {
    seq(|phases| - 1, i requires 0 <= i < |phases| - 1 => Stamped(AdvanceActivation(i, phases[i], phases[i + 1]), 0))
  }

  lemma OneMoreStep(start: Journal, steps: seq<Stamped>, m: Mutation, before: Journal)
    requires Replay(start, steps) == Success(before)
    ensures Replay(start, steps + [Stamped(m, 0)]) == Next(before, m, 0)
  {
    assert (steps + [Stamped(m, 0)])[..|steps|] == steps;
  }

  /** A rollout that goes well passes these nine phases, one call each, and commits. */
  lemma OrdinaryActivation(plan: string, operation: string) returns (steps: seq<Stamped>)
    ensures var phases := ["prepared", "fenced", "predecessor-quiesced", "predecessor-stopped", "candidate-started-guarded",
                           "candidate-routed-guarded", "candidate-quiesced", "candidate-opened", "accepted"];
            steps == Advances(phases) + [Stamped(Finalize(8, "committed"), 0)]
    ensures Replay(Initial(plan, operation, 0), steps).Success?
    ensures var last := Replay(Initial(plan, operation, 0), steps).value;
            && last.activationPhase == "accepted" && last.rollbackPhase == None && last.sequence == 9
            && last.terminalReceipt.Some? && last.terminalReceipt.value.outcome == "committed"
  {
    var phases := ["prepared", "fenced", "predecessor-quiesced", "predecessor-stopped", "candidate-started-guarded",
                   "candidate-routed-guarded", "candidate-quiesced", "candidate-opened", "accepted"];
    steps := [];
    var state := Initial(plan, operation, 0);
    for i := 0 to 8
      invariant Replay(Initial(plan, operation, 0), steps) == Success(state) && steps == Advances(phases)[..i]
      invariant state == Initial(plan, operation, 0).(activationPhase := phases[i], sequence := i)
    {
      var m := AdvanceActivation(i, phases[i], phases[i + 1]);
      assert Adjacent(ACTIVATION_PHASES, phases[i], phases[i + 1]) by { assert ACTIVATION_PHASES == phases; }
      AdvanceActivationExactly(state, i, phases[i], phases[i + 1], 0);
      OneMoreStep(Initial(plan, operation, 0), steps, m, state);
      steps, state := steps + [Stamped(m, 0)], Next(state, m, 0).value;
    }
    assert Advances(phases)[..8] == Advances(phases);
    FinalizeExactly(state, 8, "committed", 0);
    OneMoreStep(Initial(plan, operation, 0), steps, Finalize(8, "committed"), state);
    steps := steps + [Stamped(Finalize(8, "committed"), 0)];
  }

  /** One call for each of the seven rollback phases. */
  function Rollbacks(sequence: int, phase: string): seq<Stamped> {
    var phases := ["started", "fenced", "service-reconciled", "admission-recovered", "baseline-active",
                   "baseline-routed", "accepted"];
    seq(7, i requires 0 <= i < 7 => Stamped(
      if i == 0 then BeginRollback(sequence, phase) else AdvanceRollback(sequence + i, Some(phases[i - 1]), phases[i]), 0))
  }

  lemma RollbackStep(state: Journal, sequence: int, phase: string, i: nat)
    requires i < 7 && state.terminalReceipt == None && 0 <= sequence <= 100 && state.sequence == sequence + i
    requires if i == 0 then state.rollbackPhase == None && state.activationPhase == phase
             else state.rollbackPhase == Some(ROLLBACK_PHASES[i - 1])
    ensures Next(state, Rollbacks(sequence, phase)[i].mutation, 0) ==
              Success(state.(rollbackPhase := Some(ROLLBACK_PHASES[i]), sequence := sequence + i + 1, updatedAt := 0))
  {
    if i == 0 {
      BeginRollbackExactly(state, sequence, phase, 0);
    } else {
      assert Adjacent(ROLLBACK_PHASES, ROLLBACK_PHASES[i - 1], ROLLBACK_PHASES[i]);
      AdvanceRollbackExactly(state, sequence + i, Some(ROLLBACK_PHASES[i - 1]), ROLLBACK_PHASES[i], 0);
    }
  }

  /** From any record without rollback or receipt, a rollback passes these phases and ends
      rolled back, with the activation phase it began at. */
  lemma OrdinaryRollback(start: Journal) returns (steps: seq<Stamped>)
    requires start.rollbackPhase == None && start.terminalReceipt == None && 0 <= start.sequence <= 100
    ensures steps == Rollbacks(start.sequence, start.activationPhase)
                     + [Stamped(Finalize(start.sequence + 7, "rolled-back"), 0)]
    ensures Replay(start, steps).Success?
    ensures var last := Replay(start, steps).value;
            && last.activationPhase == start.activationPhase && last.rollbackPhase == Some("accepted")
            && last.sequence == start.sequence + 8
            && last.terminalReceipt.Some? && last.terminalReceipt.value.outcome == "rolled-back"
  {
    var all := Rollbacks(start.sequence, start.activationPhase);
    steps := [];
    var state := start;
    for i := 0 to 7
      invariant Replay(start, steps) == Success(state) && steps == all[..i]
      invariant i == 0 ==> state == start
      invariant i > 0 ==>
        state == start.(rollbackPhase := Some(ROLLBACK_PHASES[i - 1]), sequence := start.sequence + i, updatedAt := 0)
    {
      RollbackStep(state, start.sequence, start.activationPhase, i);
      OneMoreStep(start, steps, all[i].mutation, state);
      steps, state := steps + [all[i]], Next(state, all[i].mutation, 0).value;
    }
    FinalizeExactly(state, start.sequence + 7, "rolled-back", 0);
    OneMoreStep(start, steps, Finalize(start.sequence + 7, "rolled-back"), state);
    steps := steps + [Stamped(Finalize(start.sequence + 7, "rolled-back"), 0)];
  }

  // ----- a begun rollback freezes the activation

  lemma NextKeepsActivation(state: Journal, m: Mutation, now: Timestamp)
    requires Next(state, m, now).Success? && state.rollbackPhase.Some?
    ensures Next(state, m, now).value.activationPhase == state.activationPhase
    ensures Next(state, m, now).value.rollbackPhase.Some?
  {
    match m
    case AdvanceActivation(sequence, phase, next) => AdvanceActivationExactly(state, sequence, phase, next, now);
    case BeginRollback(sequence, phase) => BeginRollbackExactly(state, sequence, phase, now);
    case AdvanceRollback(sequence, phase, next) => AdvanceRollbackExactly(state, sequence, phase, next, now);
    case Finalize(sequence, outcome) => FinalizeExactly(state, sequence, outcome, now);
  }

  /** Once a rollback has begun, no run of transitions moves the activation phase. */
  lemma {:induction false} RollbackFreezesActivation(start: Journal, steps: seq<Stamped>)
    requires start.rollbackPhase.Some? && Replay(start, steps).Success?
    ensures Replay(start, steps).value.activationPhase == start.activationPhase
    ensures Replay(start, steps).value.rollbackPhase.Some?
    decreases |steps|
  {
    if steps != [] {
      var last := |steps| - 1;
      RollbackFreezesActivation(start, steps[..last]);
      NextKeepsActivation(Replay(start, steps[..last]).value, steps[last].mutation, steps[last].now);
    }
  }

  lemma {:induction false} RunFreezesActivation(records: seq<Journal>, i: nat, j: nat)
    requires PhaseRun(records) && i <= j < |records| && records[i].rollbackPhase.Some?
    ensures records[j].activationPhase == records[i].activationPhase && records[j].rollbackPhase.Some?
    decreases j
  {
    if i < j {
      RunFreezesActivation(records, i, j - 1);
      assert Follows(records[j - 1], records[j]);
      var m, now :| Next(records[j - 1], m, now) == Success(records[j]);
      NextKeepsActivation(records[j - 1], m, now);
    }
  }

  /** So in everything ever published, over all handles, processes and crashes. */
  lemma PublishedRollbackFreezesActivation(actions: seq<Action>, i: nat, j: nat)
    requires After(actions).Some? && i <= j < |After(actions).value.disk.published|
    requires After(actions).value.disk.published[i].rollbackPhase.Some?
    ensures var p := After(actions).value.disk.published;
            p[j].activationPhase == p[i].activationPhase && p[j].rollbackPhase.Some?
  {
    PublishedRecordsArePhaseRun(actions);
    RunFreezesActivation(After(actions).value.disk.published, i, j);
  }
}
