/** The rollout journal record: its phases, its transitions and its validator
    (src/rollout-journal.js).

    A record carries phase names as text, because the validator reads them back
    from disk and must reject any other text.  Timestamps are epoch milliseconds
    already parsed, so `canonicalTimestamp` has nothing left to check. */
module RolloutPhases {
  import opened Numbers
  import opened Results

  const JOURNAL_SCHEMA := "lazyedge/edge-rollout-journal/v1"
  const RECEIPT_SCHEMA := "lazyedge/edge-rollout-receipt/v1"
  const JOURNAL_VERSION := 1

  const ACTIVATION_PHASES: seq<string> := [
    "prepared",
    "fenced",
    "predecessor-quiesced",
    "predecessor-stopped",
    "candidate-started-guarded",
    "candidate-routed-guarded",
    "candidate-quiesced",
    "candidate-opened",
    "accepted"
  ]

  const ROLLBACK_PHASES: seq<string> := [
    "started",
    "fenced",
    "service-reconciled",
    "admission-recovered",
    "baseline-active",
    "baseline-routed",
    "accepted"
  ]

  const COMMITTED := "committed"
  const ROLLED_BACK := "rolled-back"
  const FAILED := "failed"
  const OUTCOMES: seq<string> := [COMMITTED, ROLLED_BACK, FAILED]

  type Timestamp = int

  /** `Io` stands for every error of a system call. */
  datatype Code = Invalid | Terminal | CasMismatch | PhaseMismatch | Missing | Mismatch | Exists | NotHeld | Io

  datatype Receipt = Receipt(
    schema: string, version: int, planDigest: string, operationId: string,
    outcome: string, sequence: int, createdAt: Timestamp)

  datatype Journal = Journal(
    schema: string, version: int, planDigest: string, operationId: string,
    activationPhase: string, rollbackPhase: Option<string>, sequence: int,
    terminalReceipt: Option<Receipt>, updatedAt: Timestamp)

  // ----- field formats

  predicate IsLowerHex(c: char) { '0' <= c <= '9' || 'a' <= c <= 'f' }

  predicate IsAlphanumeric(c: char) { '0' <= c <= '9' || 'a' <= c <= 'z' || 'A' <= c <= 'Z' }

  predicate ValidPlanDigest(s: string) {
    |s| == 64 && forall i :: 0 <= i < |s| ==> IsLowerHex(s[i])
  }

  predicate ValidOperationId(s: string) {
    && 16 <= |s| <= 128
    && IsAlphanumeric(s[0])
    && forall i :: 0 <= i < |s| ==> IsAlphanumeric(s[i]) || s[i] in "._~-"
  }

  /** JavaScript's `indexOf`: the first position of `x`, or -1. */
  function IndexOf(xs: seq<string>, x: string): (i: int)
    ensures -1 <= i < |xs|
    ensures i == -1 <==> x !in xs
    ensures 0 <= i ==> xs[i] == x && x !in xs[..i]
  {
    if x in xs then FirstAt(xs, x, 0) else -1
  }

  function FirstAt(xs: seq<string>, x: string, from: nat): (i: nat)
    requires from <= |xs| && x in xs[from..]
    ensures from <= i < |xs| && xs[i] == x && x !in xs[from..i]
    decreases |xs| - from
  {
    if xs[from] == x then from
    else
      assert xs[from..] == [xs[from]] + xs[from + 1..];
      var i := FirstAt(xs, x, from + 1);
      assert xs[from..i] == [xs[from]] + xs[from + 1..i];
      i
  }

  // ----- validation

  predicate ValidReceipt(receipt: Receipt, state: Journal) {
    && receipt.schema == RECEIPT_SCHEMA
    && receipt.version == JOURNAL_VERSION
    && receipt.outcome in OUTCOMES
    && receipt.planDigest == state.planDigest
    && receipt.operationId == state.operationId
    && 1 <= receipt.sequence <= MAX_SAFE_INTEGER
    && receipt.sequence == state.sequence
    && receipt.createdAt == state.updatedAt
    && (receipt.outcome == COMMITTED ==>
          state.activationPhase == "accepted" && state.rollbackPhase.None?)
    && (receipt.outcome == ROLLED_BACK ==> state.rollbackPhase == Some("accepted"))
  }

  /** The sequence number the phases of a record imply. */
  function ExpectedSequence(state: Journal): int {
    IndexOf(ACTIVATION_PHASES, state.activationPhase)
    + (if state.rollbackPhase.None? then 0 else IndexOf(ROLLBACK_PHASES, state.rollbackPhase.value) + 1)
    + (if state.terminalReceipt.None? then 0 else 1)
  }

  predicate ValidState(state: Journal) {
    && state.schema == JOURNAL_SCHEMA
    && state.version == JOURNAL_VERSION
    && state.activationPhase in ACTIVATION_PHASES
    && (state.rollbackPhase.Some? ==> state.rollbackPhase.value in ROLLBACK_PHASES)
    && 0 <= state.sequence <= MAX_SAFE_INTEGER
    && ValidPlanDigest(state.planDigest)
    && ValidOperationId(state.operationId)
    && state.sequence == ExpectedSequence(state)
    && (state.terminalReceipt.Some? ==> ValidReceipt(state.terminalReceipt.value, state))
  }

  // ----- transitions

  datatype Mutation =
    | AdvanceActivation(expectedSequence: int, expectedPhase: string, nextPhase: string)
    | BeginRollback(expectedSequence: int, expectedActivationPhase: string)
    | AdvanceRollback(expectedSequence: int, expectedRollback: Option<string>, nextPhase: string)
    | Finalize(expectedSequence: int, outcome: string)

  function Initial(planDigest: string, operationId: string, now: Timestamp): Journal {
    Journal(JOURNAL_SCHEMA, JOURNAL_VERSION, planDigest, operationId,
            ACTIVATION_PHASES[0], None, 0, None, now)
  }

  function CheckSequence(state: Journal, expected: int): Option<Code> {
    if !(0 <= expected <= MAX_SAFE_INTEGER) then Some(Invalid)
    else if state.sequence != expected then Some(CasMismatch)
    else None
  }

  /** What one journal mutation computes from the record it read at time `now`. */
  function Next(state: Journal, m: Mutation, now: Timestamp): Result<Journal, Code> {
    if state.terminalReceipt.Some? then Failure(Terminal)
    else if CheckSequence(state, m.expectedSequence).Some? then
      Failure(CheckSequence(state, m.expectedSequence).value)
    else match m
      case AdvanceActivation(_, expected, next) =>
        if state.rollbackPhase.Some? then Failure(PhaseMismatch)
        else if state.activationPhase != expected then Failure(PhaseMismatch)
        else
          var from := IndexOf(ACTIVATION_PHASES, expected);
          if from < 0 || IndexOf(ACTIVATION_PHASES, next) != from + 1 then Failure(PhaseMismatch)
          else Success(state.(activationPhase := next, sequence := state.sequence + 1, updatedAt := now))
      case BeginRollback(_, expected) =>
        if state.rollbackPhase.Some? then Failure(PhaseMismatch)
        else if state.activationPhase != expected then Failure(PhaseMismatch)
        else Success(state.(rollbackPhase := Some(ROLLBACK_PHASES[0]), sequence := state.sequence + 1, updatedAt := now))
      case AdvanceRollback(_, expected, next) =>
        if state.rollbackPhase != expected then Failure(PhaseMismatch)
        else
          var from := if expected.None? then -1 else IndexOf(ROLLBACK_PHASES, expected.value);
          if from < 0 || IndexOf(ROLLBACK_PHASES, next) != from + 1 then Failure(PhaseMismatch)
          else Success(state.(rollbackPhase := Some(next), sequence := state.sequence + 1, updatedAt := now))
      case Finalize(_, outcome) =>
        if outcome !in OUTCOMES then Failure(Invalid)
        else if outcome == COMMITTED && (state.activationPhase != "accepted" || state.rollbackPhase.Some?) then
          Failure(PhaseMismatch)
        else if outcome == ROLLED_BACK && state.rollbackPhase != Some("accepted") then
          Failure(PhaseMismatch)
        else
          var sequence := state.sequence + 1;
          Success(state.(
            sequence := sequence,
            updatedAt := now,
            terminalReceipt := Some(Receipt(RECEIPT_SCHEMA, JOURNAL_VERSION, state.planDigest,
                                            state.operationId, outcome, sequence, now))))
  }

  // ----- runs of the phase machine

  datatype Stamped = Stamped(mutation: Mutation, now: Timestamp)

  /** Applies the mutations in order; the first that fails decides. */
  function Replay(start: Journal, steps: seq<Stamped>): Result<Journal, Code>
    decreases |steps|
  {
    if steps == [] then Success(start)
    else
      var last := |steps| - 1;
      var before := Replay(start, steps[..last]);
      if before.Failure? then before else Next(before.value, steps[last].mutation, steps[last].now)
  }

  lemma PhaseNamesAreDistinct()
    ensures forall i, j :: 0 <= i < j < |ACTIVATION_PHASES| ==> ACTIVATION_PHASES[i] != ACTIVATION_PHASES[j]
    ensures forall i, j :: 0 <= i < j < |ROLLBACK_PHASES| ==> ROLLBACK_PHASES[i] != ROLLBACK_PHASES[j]
  {
    assert "prepared"[0] != "accepted"[0];
    assert "baseline-active"[9] != "baseline-routed"[9];
  }

  lemma PhaseIndex(i: nat)
    ensures i < |ACTIVATION_PHASES| ==> IndexOf(ACTIVATION_PHASES, ACTIVATION_PHASES[i]) == i
    ensures i < |ROLLBACK_PHASES| ==> IndexOf(ROLLBACK_PHASES, ROLLBACK_PHASES[i]) == i
  {
    PhaseNamesAreDistinct();
    if i < |ACTIVATION_PHASES| { var k := IndexOf(ACTIVATION_PHASES, ACTIVATION_PHASES[i]); }
    if i < |ROLLBACK_PHASES| { var k := IndexOf(ROLLBACK_PHASES, ROLLBACK_PHASES[i]); }
  }

  lemma InitialIsValid(planDigest: string, operationId: string, now: Timestamp)
    ensures ValidState(Initial(planDigest, operationId, now)) <==>
            ValidPlanDigest(planDigest) && ValidOperationId(operationId)
  {
    PhaseIndex(0);
  }

  /** Every successful mutation of a valid record yields a valid record one step on. */
  lemma NextIsValid(state: Journal, m: Mutation, now: Timestamp)
    requires ValidState(state) && Next(state, m, now).Success?
    ensures ValidState(Next(state, m, now).value)
    ensures Next(state, m, now).value.sequence == state.sequence + 1
    ensures state.terminalReceipt.None?
  {
    match m
    case AdvanceActivation(_, expected, next) =>
    case BeginRollback(_, expected) =>
      PhaseIndex(0);
    case AdvanceRollback(_, expected, next) =>
    case Finalize(_, outcome) =>
  }

  lemma {:induction false} ReplayIsValid(start: Journal, steps: seq<Stamped>)
    requires ValidState(start) && Replay(start, steps).Success?
    ensures ValidState(Replay(start, steps).value)
    ensures Replay(start, steps).value.sequence == start.sequence + |steps|
    decreases |steps|
  {
    if steps != [] {
      var last := |steps| - 1;
      ReplayIsValid(start, steps[..last]);
      NextIsValid(Replay(start, steps[..last]).value, steps[last].mutation, steps[last].now);
    }
  }

  /** The record a valid record was published over. */
  function Predecessor(state: Journal): Journal
    requires ValidState(state) && 0 < state.sequence
  {
    var back := state.(sequence := state.sequence - 1);
    if state.terminalReceipt.Some? then back.(terminalReceipt := None)
    else if state.rollbackPhase.Some? then
      var i := IndexOf(ROLLBACK_PHASES, state.rollbackPhase.value);
      back.(rollbackPhase := if i == 0 then None else Some(ROLLBACK_PHASES[i - 1]))
    else
      back.(activationPhase := ACTIVATION_PHASES[IndexOf(ACTIVATION_PHASES, state.activationPhase) - 1])
  }

  /** The mutation that leads from the predecessor to the record. */
  function LastMutation(state: Journal): Mutation
    requires ValidState(state) && 0 < state.sequence
  {
    var before := Predecessor(state);
    if state.terminalReceipt.Some? then Finalize(before.sequence, state.terminalReceipt.value.outcome)
    else if state.rollbackPhase.Some? then
      if before.rollbackPhase.None? then BeginRollback(before.sequence, state.activationPhase)
      else AdvanceRollback(before.sequence, before.rollbackPhase, state.rollbackPhase.value)
    else AdvanceActivation(before.sequence, before.activationPhase, state.activationPhase)
  }

  lemma ReceiptHasPredecessor(state: Journal)
    requires ValidState(state) && state.terminalReceipt.Some?
    ensures 0 < state.sequence && ValidState(Predecessor(state))
    ensures Next(Predecessor(state), LastMutation(state), state.updatedAt) == Success(state)
  {
  }

  lemma RollbackHasPredecessor(state: Journal)
    requires ValidState(state) && state.terminalReceipt.None? && state.rollbackPhase.Some?
    ensures 0 < state.sequence && ValidState(Predecessor(state))
    ensures Next(Predecessor(state), LastMutation(state), state.updatedAt) == Success(state)
  {
    if 0 < IndexOf(ROLLBACK_PHASES, state.rollbackPhase.value) { LaterRollbackHasPredecessor(state); }
  }

  lemma LaterRollbackHasPredecessor(state: Journal)
    requires ValidState(state) && state.terminalReceipt.None? && state.rollbackPhase.Some?
    requires 0 < IndexOf(ROLLBACK_PHASES, state.rollbackPhase.value)
    ensures 0 < state.sequence && ValidState(Predecessor(state))
    ensures Next(Predecessor(state), LastMutation(state), state.updatedAt) == Success(state)
  {
    PhaseIndex(IndexOf(ROLLBACK_PHASES, state.rollbackPhase.value) - 1);
  }

  lemma ActivationHasPredecessor(state: Journal)
    requires ValidState(state) && 0 < state.sequence && state.terminalReceipt.None? && state.rollbackPhase.None?
    ensures ValidState(Predecessor(state))
    ensures Next(Predecessor(state), LastMutation(state), state.updatedAt) == Success(state)
  {
    PhaseIndex(IndexOf(ACTIVATION_PHASES, state.activationPhase) - 1);
  }

  lemma PredecessorLeadsHere(state: Journal)
    requires ValidState(state) && 0 < state.sequence
    ensures ValidState(Predecessor(state))
    ensures Next(Predecessor(state), LastMutation(state), state.updatedAt) == Success(state)
  {
    if state.terminalReceipt.Some? { ReceiptHasPredecessor(state); }
    else if state.rollbackPhase.Some? { RollbackHasPredecessor(state); }
    else { ActivationHasPredecessor(state); }
  }

  lemma {:induction false} ValidIsReachable(state: Journal) returns (steps: seq<Stamped>)
    requires ValidState(state)
    ensures Replay(Initial(state.planDigest, state.operationId, state.updatedAt), steps) == Success(state)
    decreases state.sequence
  {
    if state.sequence == 0 {
      PhaseIndex(0);
      steps := [];
    } else {
      PredecessorLeadsHere(state);
      var before := ValidIsReachable(Predecessor(state));
      steps := before + [Stamped(LastMutation(state), state.updatedAt)];
      assert steps[..|steps| - 1] == before;
    }
  }

  lemma SequenceBound(state: Journal)
    requires ValidState(state)
    ensures state.sequence <= 16
  {
  }

  lemma {:induction false} ReplayKeepsIdentity(start: Journal, steps: seq<Stamped>)
    requires Replay(start, steps).Success?
    ensures Replay(start, steps).value.planDigest == start.planDigest
    ensures Replay(start, steps).value.operationId == start.operationId
    decreases |steps|
  {
    if steps != [] { ReplayKeepsIdentity(start, steps[..|steps| - 1]); }
  }

  /** A record passes validation exactly when creating a journal with valid
      identities and mutating it successfully can produce that very record. */
  lemma ValidationIsReachability(state: Journal)
    ensures ValidState(state) <==>
            exists plan, operation, created, steps ::
              && ValidPlanDigest(plan) && ValidOperationId(operation)
              && Replay(Initial(plan, operation, created), steps) == Success(state)
  {
    if ValidState(state) {
      var steps := ValidIsReachable(state);
    }
    forall plan, operation, created, steps |
      && ValidPlanDigest(plan) && ValidOperationId(operation)
      && Replay(Initial(plan, operation, created), steps) == Success(state)
      ensures ValidState(state)
    {
      InitialIsValid(plan, operation, created);
      ReplayIsValid(Initial(plan, operation, created), steps);
    }
  }

  /** A run from creation makes as many transitions as its sequence number says, never more than 16. */
  lemma RunLength(plan: string, operation: string, created: Timestamp, steps: seq<Stamped>)
    requires ValidPlanDigest(plan) && ValidOperationId(operation)
    requires Replay(Initial(plan, operation, created), steps).Success?
    ensures Replay(Initial(plan, operation, created), steps).value.sequence == |steps| <= 16
  {
    InitialIsValid(plan, operation, created);
    ReplayIsValid(Initial(plan, operation, created), steps);
    SequenceBound(Replay(Initial(plan, operation, created), steps).value);
  }
}
