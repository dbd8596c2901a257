/** What a caller can rely on between its own calls, whatever other workers do in between. */
module StoreCallers {
  import opened Common
  import opened RunLog
  import opened StoreModel
  import opened StoreSteps
  import opened StoreInvariant
  import opened StoreRunMethods
  import opened StoreEffectMethods
  import opened StoreOutcomes
  import opened StoreTheorems
  import opened StoreGuarantees
  import opened StoreWindows

  // ------------------------------------------------------------------------- guards

  /** A guard that locks a run names the live lease at the end of the run's own log. */
  lemma GuardIsTheLogsLease(s: State, r: RunId, g: Guard)
    requires Inv(s) && LockRun(s, r, g).Ok?
    ensures r in s.runs && Replay(Log(s, r)).lease.Some?
    ensures var lease := Replay(Log(s, r)).lease.value;
            && lease.id == g.leaseId && lease.worker == g.worker && lease.generation == g.generation
            && s.now < lease.expiresAt
    ensures Replay(Log(s, r)).generation == g.generation
  {
    hide Inv, Fold;
    RunIsHere(s, r);
    ReplayIsCursor(Log(s, r));
  }

  /** The guard for the next call after one that raised the version. */
  function NextGuard(g: Guard): Guard {
    g.(version := g.version + 1)
  }

  /** An append hands its worker the next guard and spends the one it used. */
  lemma AppendHandsOn(s: State, op: Op, cfg: Config, t: State)
    requires (op.OpAppendRecord? || op.OpAppendCandidate?) && Do(cfg, s, op) == Ok(t)
    ensures LockRun(t, op.run, NextGuard(op.guard)).Ok? && LockRun(t, op.run, op.guard).Err?
    ensures op.OpAppendCandidate? ==> LatestCandidate(t, op.run) == Some(op.candidate)
    ensures op.OpAppendRecord? ==> Latest(Get(t.records, op.run)) == Some(op.record)
    ensures Log(t, op.run) == Log(s, op.run) && Validations(t, op.run) == Validations(s, op.run)
  {
  }

  lemma GrowKeeps<T(!new)>(before: map<RunId, seq<T>>, after: map<RunId, seq<T>>, r: RunId)
    requires Grow(before, after)
    ensures Get(before, r) <= Get(after, r)
  {
  }

  lemma ListsGrow(s: State, t: State)
    requires Evolves(s, t)
    ensures Grow(s.records, t.records) && Grow(s.candidates, t.candidates)
  {
    hide Grow, RunsEvolve;
  }

  /** What was appended keeps its position in every later state. */
  lemma AppendedStays(cfg: Config, s: State, op: Op, more: seq<Op>)
    requires Reachable(cfg, s) && Do(cfg, s, op).Ok?
    ensures var u := Run(cfg, After(cfg, s, op), more);
            && (op.OpAppendRecord? ==> Get(s.records, op.run) + [op.record] <= Get(u.records, op.run))
            && (op.OpAppendCandidate? ==> Get(s.candidates, op.run) + [op.candidate] <= Get(u.candidates, op.run))
  {
    hide Reachable, Inv, Evolves, Run, Grow;
    var t := After(cfg, s, op);
    var u := Run(cfg, t, more);
    ReachableInv(cfg, s);
    StepKeepsInv(cfg, s, op);
    RunHolds(cfg, t, more);
    ListsGrow(t, u);
    if op.OpAppendRecord? {
      GrowKeeps(t.records, u.records, op.run);
    } else if op.OpAppendCandidate? {
      GrowKeeps(t.candidates, u.candidates, op.run);
    }
  }

  /** Each scope is decided at most once in the life of a run. */
  lemma DecidedOnce(cfg: Config, s: State, decide: Op, more: seq<Op>, again: Op)
    requires Reachable(cfg, s) && decide.OpAppendRecord? && decide.record.Decision? && Do(cfg, s, decide).Ok?
    requires again.OpAppendRecord? && again.run == decide.run
    requires again.record.Decision? && again.record.scope == decide.record.scope
    ensures Do(cfg, Run(cfg, After(cfg, s, decide), more), again).Err?
  {
    hide Reachable, Inv, Evolves, Run, After, Do;
    var u := Run(cfg, After(cfg, s, decide), more);
    AppendedStays(cfg, s, decide, more);
    var k := |Get(s.records, decide.run)|;
    assert (Get(s.records, decide.run) + [decide.record])[k] == decide.record;
    assert Get(u.records, decide.run)[k] == decide.record;
    assert Decides(Get(u.records, decide.run), decide.record.scope);
    DecidedIsRefused(cfg, u, again);
  }

  lemma DecidedIsRefused(cfg: Config, s: State, op: Op)
    requires op.OpAppendRecord? && op.record.Decision? && Decides(Get(s.records, op.run), op.record.scope)
    ensures Do(cfg, s, op).Err?
  {
    hide LockRun, Decides;
  }

  // ------------------------------------------------------------------- request keys

  ghost predicate RequestKeysOwned(runs: Runs) {
    forall a, b | a in runs && b in runs && runs[a].requestKey == runs[b].requestKey :: a == b
  }

  /** Every generation was acquired by an event of its own. */
  ghost predicate GenerationsCounted(s: State) {
    forall r :: r in s.runs ==> s.runs[r].generation <= |Log(s, r)|
  }

  /**
   What holds of the tables between any two calls: the joint invariant, the unique index on request keys, and no
   more generations than events.
   */
  ghost predicate Sound(s: State) {
    Inv(s) && RequestKeysOwned(s.runs) && GenerationsCounted(s)
  }

  lemma EffectsKeepRunIds(cfg: Config, s: State, op: Op, t: State)
    requires !RewritesRun(op) && !op.OpRecordSuccess? && !op.OpRecordAmbiguous? && !op.OpReconcile? && !op.OpCreateRun?
    requires Do(cfg, s, op) == Ok(t)
    ensures t.runs.Keys == s.runs.Keys
  {
    hide RecordApproval, BeginEffect, Reserve, Consume, Cancel, StillCurrent, NextAttemptNumber,
      AcceptedValidation, Bound;
    match op
    case OpTick(_) =>
    case OpRecordApproval(q, g, kind, target, fp, approver, at, expiresAt, id) =>
      ApprovalMeaning(cfg, s, q, g, kind, target, fp, approver, at, expiresAt, id, t);
    case OpBeginEffect(q, g, kind, target, key, fp, id) => BeginMeaning(cfg, s, q, g, kind, target, key, fp, id, t);
    case OpReserve(q, kind, target, fp, key, i, v, id, token) =>
      var res := ReserveMeaning(cfg, s, q, kind, target, fp, key, i, v, id, token, t);
    case OpConsume(c, a, fence) => ConsumeMeaning(s, c, a, fence, t);
    case OpCancel(c) => CancelMeaning(s, c, t);
  }

  /** Only createRun adds a run. */
  lemma RunIdsStay(cfg: Config, s: State, op: Op, t: State)
    requires Inv(s) && Do(cfg, s, op) == Ok(t) && !op.OpCreateRun?
    ensures t.runs.Keys == s.runs.Keys
  {
    hide Inv, Do, RunStep, SuccessOk, ProofsOk;
    if RewritesRun(op) {
      RewriteIsStep(cfg, s, op, t);
      RunStepKeepsIds(s, t, TargetRun(op));
    } else if op.OpRecordSuccess? || op.OpRecordAmbiguous? || op.OpReconcile? {
      InvParts(s);
      OutcomeKeepsRuns(cfg, s, op, t);
    } else {
      EffectsKeepRunIds(cfg, s, op, t);
    }
  }

  lemma RunStepKeepsIds(s: State, t: State, r: RunId)
    requires RunStep(s, t, r)
    ensures t.runs.Keys == s.runs.Keys
  {
    hide RunOk, RowAdvances, ActiveInvocation, EffectsDone, EffectsUntouched;
  }

  lemma CreateKeepsKeys(s: State, r: RunId, key: string, fp: Fp, mode: Mode, at: Time, t: State)
    requires RequestKeysOwned(s.runs) && CreateRun(s, r, key, fp, mode, at) == Ok(t)
    ensures RequestKeysOwned(t.runs)
  {
  }

  lemma EvolvedKeysOwned(s: State, t: State)
    requires RequestKeysOwned(s.runs) && RunsEvolve(s, t) && t.runs.Keys == s.runs.Keys
    ensures RequestKeysOwned(t.runs)
  {
    forall a | a in t.runs ensures a in s.runs && t.runs[a].requestKey == s.runs[a].requestKey {
      assert a in t.runs.Keys;
    }
  }

  lemma StepKeepsKeys(cfg: Config, s: State, op: Op)
    requires Inv(s) && RequestKeysOwned(s.runs)
    ensures RequestKeysOwned(After(cfg, s, op).runs)
  {
    hide Inv, RequestKeysOwned, RunsEvolve;
    if Do(cfg, s, op).Ok? {
      var t := Do(cfg, s, op).value;
      if op.OpCreateRun? {
        hide CreateRun;
        CreateKeepsKeys(s, op.run, op.requestKey, op.inputFp, op.mode, op.nextAttemptAt, t);
      } else {
        hide Do;
        RunIdsStay(cfg, s, op, t);
        StepEvolves(cfg, s, op);
        EvolvedKeysOwned(s, t);
      }
    }
  }

  lemma {:induction false} RunKeepsKeys(cfg: Config, s: State, ops: seq<Op>)
    requires Inv(s) && RequestKeysOwned(s.runs)
    ensures RequestKeysOwned(Run(cfg, s, ops).runs)
    decreases |ops|
  {
    hide Inv, Do, RequestKeysOwned, Evolves;
    if |ops| > 0 {
      RunKeepsKeys(cfg, s, ops[..|ops| - 1]);
      RunHolds(cfg, s, ops[..|ops| - 1]);
      StepKeepsKeys(cfg, Run(cfg, s, ops[..|ops| - 1]), ops[|ops| - 1]);
    }
  }

  lemma ReachableKeys(cfg: Config, s: State)
    requires Reachable(cfg, s)
    ensures Inv(s) && RequestKeysOwned(s.runs)
  {
    hide Inv, Do, Evolves, Run;
    var ops: seq<Op> :| Run(cfg, EMPTY, ops) == s;
    EmptyInv();
    RunHolds(cfg, EMPTY, ops);
    RunKeepsKeys(cfg, EMPTY, ops);
  }

  /** A claim adds at least one event: the log it leaves ends with a newer generation. */
  lemma ClaimGrowsLog(s: State, op: Op, t: State)
    requires op.OpClaimDue? && RunHere(s, op.run)
    requires ClaimDue(s, op.run, op.worker, op.millis, op.leaseId, op.expiredId, op.acquiredId) == Ok(t)
    ensures |Log(t, op.run)| > |Log(s, op.run)|
  {
    hide Fold, ClaimDue;
    ClaimMeaning(s, op.run, op.worker, op.millis, op.leaseId, op.expiredId, op.acquiredId, t);
    assert Log(t, op.run) != Log(s, op.run);
  }

  lemma ClaimKeepsCount(cfg: Config, s: State, op: Op, t: State, r: RunId)
    requires Inv(s) && GenerationsCounted(s) && op.OpClaimDue? && Do(cfg, s, op) == Ok(t) && r in s.runs
    requires Log(s, r) <= Log(t, r)
    ensures r in t.runs && t.runs[r].generation <= |Log(t, r)|
  {
    hide Inv, ClaimDue, RunHere;
    ClaimGeneration(cfg, s, op, r);
    if op.run == r {
      RunIsHere(s, r);
      ClaimGrowsLog(s, op, t);
    }
  }

  lemma OthersKeepCount(cfg: Config, s: State, op: Op, t: State, r: RunId)
    requires Inv(s) && GenerationsCounted(s) && !op.OpClaimDue? && Do(cfg, s, op) == Ok(t) && r in s.runs
    requires Log(s, r) <= Log(t, r)
    ensures r in t.runs && t.runs[r].generation <= |Log(t, r)|
  {
    hide Inv, Do;
    OthersKeepGeneration(cfg, s, op, t);
  }

  lemma CreatedHasNone(cfg: Config, s: State, op: Op, t: State, r: RunId)
    requires op.OpCreateRun? && Do(cfg, s, op) == Ok(t) && r in t.runs && r !in s.runs
    ensures t.runs[r].generation == 0
  {
  }

  lemma StepKeepsCount(cfg: Config, s: State, op: Op)
    requires Inv(s) && GenerationsCounted(s)
    ensures GenerationsCounted(After(cfg, s, op))
  {
    hide Inv, Do, Evolves;
    var t := After(cfg, s, op);
    StepEvolves(cfg, s, op);
    if Do(cfg, s, op).Ok? {
      forall r | r in t.runs ensures t.runs[r].generation <= |Log(t, r)| {
        if r in s.runs {
          LogsGrow(s, t, r);
          if op.OpClaimDue? {
            ClaimKeepsCount(cfg, s, op, t, r);
          } else {
            OthersKeepCount(cfg, s, op, t, r);
          }
        } else {
          NewRunsAreCreated(cfg, s, op, t, r);
          CreatedHasNone(cfg, s, op, t, r);
        }
      }
    }
  }

  lemma NewRunsAreCreated(cfg: Config, s: State, op: Op, t: State, r: RunId)
    requires Inv(s) && Do(cfg, s, op) == Ok(t) && r in t.runs
    ensures op.OpCreateRun? || r in s.runs
  {
    hide Inv, Do;
    if !op.OpCreateRun? {
      RunIdsStay(cfg, s, op, t);
      assert r in t.runs.Keys;
    }
  }

  lemma {:induction false} RunKeepsCount(cfg: Config, s: State, ops: seq<Op>)
    requires Inv(s) && GenerationsCounted(s)
    ensures GenerationsCounted(Run(cfg, s, ops))
    decreases |ops|
  {
    hide Inv, Do, GenerationsCounted, Evolves;
    if |ops| > 0 {
      RunKeepsCount(cfg, s, ops[..|ops| - 1]);
      RunHolds(cfg, s, ops[..|ops| - 1]);
      StepKeepsCount(cfg, Run(cfg, s, ops[..|ops| - 1]), ops[|ops| - 1]);
    }
  }

  /** Whatever the workers did, the tables are sound. */
  lemma ReachableSound(cfg: Config, s: State)
    requires Reachable(cfg, s)
    ensures Sound(s)
  {
    hide Inv, Do, Evolves, Run, RequestKeysOwned;
    ReachableKeys(cfg, s);
    var ops: seq<Op> :| Run(cfg, EMPTY, ops) == s;
    EmptyInv();
    RunKeepsCount(cfg, EMPTY, ops);
  }

  /** The run that owns a request key, in any later state. */
  ghost predicate OwnsKey(s: State, r: RunId, key: string, fp: Fp, mode: Mode) {
    r in s.runs && s.runs[r].requestKey == key && s.runs[r].inputFp == fp && s.runs[r].mode == mode
  }

  lemma CreateOwns(s: State, r: RunId, key: string, fp: Fp, mode: Mode, at: Time, t: State) returns (k: RunId)
    requires CreateRun(s, r, key, fp, mode, at) == Ok(t)
    ensures OwnsKey(t, k, key, fp, mode)
  {
    if t == s {
      k :| k in s.runs && s.runs[k].requestKey == key;
    } else {
      k := r;
    }
  }

  lemma OwnedCreate(s: State, k: RunId, key: string, fp: Fp, mode: Mode, again: Op)
    requires RequestKeysOwned(s.runs) && OwnsKey(s, k, key, fp, mode) && again.OpCreateRun? && again.requestKey == key
    ensures CreateRun(s, again.run, key, again.inputFp, again.mode, again.nextAttemptAt)
            == if again.inputFp == fp && again.mode == mode then Ok(s) else Err(IdempotencyConflict)
  {
    assert forall b :: b in s.runs && s.runs[b].requestKey == key ==> b == k;
  }

  /** Once a request key was used, the same request finds its run in every later state, and any other is refused. */
  lemma RequestKeyDecidesOnce(cfg: Config, s: State, create: Op, more: seq<Op>, again: Op)
    requires Reachable(cfg, s) && create.OpCreateRun? && again.OpCreateRun? && again.requestKey == create.requestKey
    requires Do(cfg, s, create).Ok?
    ensures var u := Run(cfg, After(cfg, s, create), more);
            Do(cfg, u, again) == if again.inputFp == create.inputFp && again.mode == create.mode
                                 then Ok(u) else Err(IdempotencyConflict)
  {
    hide Reachable, Inv, Run, Evolves, RequestKeysOwned, CreateRun, OwnsKey;
    var t := After(cfg, s, create);
    var u := Run(cfg, t, more);
    ReachableKeys(cfg, s);
    StepKeepsInv(cfg, s, create);
    StepKeepsKeys(cfg, s, create);
    RunHolds(cfg, t, more);
    RunKeepsKeys(cfg, t, more);
    var k := CreateOwns(s, create.run, create.requestKey, create.inputFp, create.mode, create.nextAttemptAt, t);
    OwnsForever(t, u, k, create.requestKey, create.inputFp, create.mode);
    OwnedCreate(u, k, create.requestKey, create.inputFp, create.mode, again);
  }

  lemma OwnsForever(s: State, t: State, k: RunId, key: string, fp: Fp, mode: Mode)
    requires Evolves(s, t) && OwnsKey(s, k, key, fp, mode)
    ensures OwnsKey(t, k, key, fp, mode)
  {
    LogsGrow(s, t, k);
    hide Evolves;
  }

  // ------------------------------------------------------- verify, consume, cancel

  ghost predicate FreshAttempt(s: State, attempt: AttemptId, fence: Fence) {
    attempt !in s.attempts && forall a :: a in s.attempts ==> s.attempts[a].fence != fence
  }

  /** A positive answer for an unspent reservation means that consuming it now succeeds, and nothing else does. */
  lemma VerifyPredictsConsume(s: State, c: Claim, attempt: AttemptId, fence: Fence)
    requires Inv(s) && c.id in s.reservations && s.reservations[c.id].state.Reserved?
    requires FreshAttempt(s, attempt, fence)
    ensures Verifies(s, c) <==> Consume(s, c, attempt, fence).Ok?
  {
    hide Inv, StillCurrent, NextAttemptNumber, LinksOk, ReceiptsPaidFor, ReservationsOk, ClaimMatches, IntentUnchanged;
    ReservationTables(s);
    FirstAttempt(s, c.id);
    if ClaimMatches(s, c) {
      ClaimsIntent(s, c);
      assert NextAttemptNumber(s, c.intent, NextNumber(s, c.intent));
    }
  }

  lemma ClaimsIntent(s: State, c: Claim)
    requires ClaimMatches(s, c)
    ensures c.id in s.reservations && s.reservations[c.id].intent == c.intent
  {
  }

  lemma ReservationTables(s: State)
    requires Inv(s)
    ensures ReservationsOk(s.intents, s.reservations) && LinksOk(s.reservations, s.attempts)
    ensures ReceiptsPaidFor(s.reservations, s.receipts)
  {
    hide RunsOk, IntentsOk, ApprovalsOk, ReservationsOk, PinsOk, LinksOk, SuccessOk, ReceiptsOk, ReceiptsPaidFor,
      ProofsOk, CompletionOk;
  }

  /** A spent reservation answers its claim in every later state, so an interrupted worker can resume. */
  lemma SpentVerifiesForever(cfg: Config, s: State, c: Claim, more: seq<Op>)
    requires Reachable(cfg, s) && Verifies(s, c) && s.reservations[c.id].state.Consumed?
    ensures var u := Run(cfg, s, more);
            Verifies(u, c) && u.reservations[c.id] == s.reservations[c.id]
  {
    hide Reachable, Inv, Evolves, Run, StillCurrent;
    SpentOrCancelledForever(cfg, s, c.id, more);
    ReachableInv(cfg, s);
    RunHolds(cfg, s, more);
    KeptEffects(s, Run(cfg, s, more));
  }

  /** A cancelled reservation can never be consumed, whoever holds its claim. */
  lemma CancelledIsDead(cfg: Config, s: State, cancel: Op, more: seq<Op>, consume: Op)
    requires Reachable(cfg, s) && cancel.OpCancel? && Do(cfg, s, cancel).Ok?
    requires consume.OpConsume? && consume.claim.id == cancel.claim.id
    ensures Do(cfg, Run(cfg, After(cfg, s, cancel), more), consume).Err?
  {
    hide Reachable, Inv, Evolves, Do, Run;
    var t := After(cfg, s, cancel);
    var u := Run(cfg, t, more);
    ReachableInv(cfg, s);
    CancelMeans(cfg, s, cancel, t);
    StepKeepsInv(cfg, s, cancel);
    RunHolds(cfg, t, more);
    ReservationKept(t, u, cancel.claim.id);
    if Do(cfg, u, consume).Ok? {
      ConsumeIsCurrent(cfg, u, consume, After(cfg, u, consume));
      assert false;
    }
  }

  lemma CancelMeans(cfg: Config, s: State, op: Op, t: State)
    requires op.OpCancel? && Do(cfg, s, op) == Ok(t)
    ensures op.claim.id in t.reservations && t.reservations[op.claim.id].state.CancelledPreSend?
  {
    hide Cancel;
    CancelMeaning(s, op.claim, t);
  }

  lemma ReserveNeedsNoOther(cfg: Config, s: State, k: ReservationId, reserve: Op)
    requires k in s.reservations && !s.reservations[k].state.CancelledPreSend?
    requires reserve.OpReserve? && reserve.intentId == s.reservations[k].intent
    ensures Do(cfg, s, reserve).Err?
  {
    hide Reserve, Bound;
    if Do(cfg, s, reserve).Ok? {
      var t := Do(cfg, s, reserve).value;
      var res := ReserveMeaning(cfg, s, reserve.run, reserve.kind, reserve.target, reserve.inputFp, reserve.key,
                                reserve.intentId, reserve.validation, reserve.reservationId, reserve.token, t);
      assert false;
    }
  }

  lemma ReserveWrites(cfg: Config, s: State, op: Op, t: State)
    requires op.OpReserve? && Do(cfg, s, op) == Ok(t)
    ensures op.reservationId in t.reservations && t.reservations[op.reservationId].intent == op.intentId
  {
    hide Reserve, Bound;
    var res := ReserveMeaning(cfg, s, op.run, op.kind, op.target, op.inputFp, op.key, op.intentId, op.validation,
                              op.reservationId, op.token, t);
  }

  /** A reservation keeps every other one for its intent away in every later state, until it is cancelled. */
  lemma ReservedOnce(cfg: Config, s: State, reserve: Op, more: seq<Op>, again: Op)
    requires Reachable(cfg, s) && reserve.OpReserve? && Do(cfg, s, reserve).Ok?
    requires again.OpReserve? && again.intentId == reserve.intentId
    ensures var u := Run(cfg, After(cfg, s, reserve), more);
            reserve.reservationId in u.reservations
            && (Do(cfg, u, again).Ok? ==> u.reservations[reserve.reservationId].state.CancelledPreSend?)
  {
    hide Reachable, Inv, Evolves, Do, Run;
    var t := After(cfg, s, reserve);
    var u := Run(cfg, t, more);
    ReachableInv(cfg, s);
    ReserveWrites(cfg, s, reserve, t);
    StepKeepsInv(cfg, s, reserve);
    RunHolds(cfg, t, more);
    ReservationKept(t, u, reserve.reservationId);
    if !u.reservations[reserve.reservationId].state.CancelledPreSend? {
      ReserveNeedsNoOther(cfg, u, reserve.reservationId, again);
    }
  }

  // ---------------------------------------------------------- superseded authority

  /** The run has moved on to a newer lease than the one a reservation was made under. */
  ghost predicate Superseded(s: State, k: ReservationId) {
    && k in s.reservations && s.reservations[k].run in s.runs
    && s.reservations[k].generation < s.runs[s.reservations[k].run].generation
  }

  lemma SupersededStays(s: State, t: State, k: ReservationId)
    requires Evolves(s, t) && Superseded(s, k)
    ensures Superseded(t, k)
  {
    ReservationKept(s, t, k);
    LogsGrow(s, t, s.reservations[k].run);
    hide Evolves;
  }

  /** No attempt of a superseded reservation is open: it could only have moved on once resolved. */
  lemma SupersededIsResolved(s: State, a: AttemptId)
    requires Inv(s) && a in s.attempts && Superseded(s, s.attempts[a].reservation)
    ensures s.attempts[a].state.Succeeded? || (a in s.reconciliations && s.reconciliations[a].outcome.NotApplied?)
    ensures !s.attempts[a].state.ReadyToInvoke?
  {
    hide Inv, SuccessOk, ProofsOk, ConsumedFor;
    if !s.attempts[a].state.Succeeded? && !(a in s.reconciliations && s.reconciliations[a].outcome.NotApplied?) {
      OpenAttemptPinned(s, a);
      assert false;
    }
    InvParts(s);
    if a in s.reconciliations {
      ProvedIsNotReady(s, a);
    }
  }

  lemma ProvedIsNotReady(s: State, a: AttemptId)
    requires ProofsOk(s.attempts, s.reconciliations) && a in s.reconciliations
    ensures a in s.attempts && !s.attempts[a].state.ReadyToInvoke?
  {
  }

  /** A call that would use the authority of this reservation. */
  ghost predicate Spends(s: State, op: Op, k: ReservationId) {
    match op
    case OpConsume(c, _, _) => c.id == k
    case OpRecordSuccess(a, _, _, _) => a in s.attempts && s.attempts[a].reservation == k
    case OpRecordAmbiguous(a, _, _, _) => a in s.attempts && s.attempts[a].reservation == k
    case _ => false
  }

  lemma SupersededConsume(cfg: Config, s: State, op: Op)
    requires op.OpConsume? && Superseded(s, op.claim.id)
    ensures Do(cfg, s, op).Err?
  {
    hide Do, ClaimMatches, IntentUnchanged;
    if Do(cfg, s, op).Ok? {
      ConsumeIsCurrent(cfg, s, op, Do(cfg, s, op).value);
      assert false;
    }
  }

  lemma SupersededOutcome(cfg: Config, s: State, op: Op)
    requires Inv(s) && (op.OpRecordSuccess? || op.OpRecordAmbiguous?)
    requires op.attemptId in s.attempts && Superseded(s, s.attempts[op.attemptId].reservation)
    ensures op.OpRecordAmbiguous? ==> Do(cfg, s, op).Err?
    ensures After(cfg, s, op) == s
  {
    hide Inv, RecordSuccess, RecordAmbiguous, SuccessOk, ProofsOk, Superseded, ReceiptOk, Resolved;
    SupersededIsResolved(s, op.attemptId);
    InvParts(s);
    if Do(cfg, s, op).Ok? {
      var t := Do(cfg, s, op).value;
      if op.OpRecordSuccess? {
        RecordSuccessMeaning(cfg, s, op.attemptId, op.worker, op.fence, op.payload, t);
      } else {
        AmbiguousMeaning(s, op.attemptId, op.worker, op.fence, op.failure, t);
        assert false;
      }
    }
  }

  /** Once a run is claimed anew, an older reservation is never consumed and its attempt never gains an outcome. */
  lemma SupersededAuthorityRefused(cfg: Config, s: State, k: ReservationId, more: seq<Op>, op: Op)
    requires Reachable(cfg, s) && Superseded(s, k) && Spends(Run(cfg, s, more), op, k)
    ensures !op.OpRecordSuccess? ==> Do(cfg, Run(cfg, s, more), op).Err?
    ensures After(cfg, Run(cfg, s, more), op) == Run(cfg, s, more)
  {
    hide Reachable, Inv, Evolves, Do, Run, Superseded;
    var u := Run(cfg, s, more);
    ReachableInv(cfg, s);
    RunHolds(cfg, s, more);
    SupersededStays(s, u, k);
    if op.OpConsume? {
      SupersededConsume(cfg, u, op);
    } else {
      SupersededOutcome(cfg, u, op);
    }
  }
}
