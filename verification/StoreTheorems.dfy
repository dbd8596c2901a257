/** What holds in every state the run store can reach, and across every later step. */
module StoreTheorems {
  import opened Common
  import opened RunLog
  import opened StoreModel
  import opened StoreSteps
  import opened StoreInvariant
  import opened StoreRunMethods
  import opened StoreEffectMethods
  import opened StoreOutcomes

  // ---------------------------------------------------------- how states may evolve

  ghost predicate RowEvolves(a: RunRow, b: RunRow) {
    && b.mode == a.mode && b.requestKey == a.requestKey && b.inputFp == a.inputFp
    && a.version <= b.version && a.generation <= b.generation
    && (b.status == a.status || Rank(a.status) < Rank(b.status))
    && (Terminal(a.status) || a.version == b.version ==> b == a)
  }

  ghost predicate RunsEvolve(s: State, t: State) {
    forall r :: r in s.runs ==>
      && r in t.runs && RowEvolves(s.runs[r], t.runs[r])
      && Log(s, r) <= Log(t, r) && Validations(s, r) <= Validations(t, r)
      && (s.runs[r].version == t.runs[r].version ==>
            Log(t, r) == Log(s, r) && Validations(t, r) == Validations(s, r))
  }

  /** Rows of a table that is only inserted into. */
  ghost predicate Kept<K, V>(before: map<K, V>, after: map<K, V>) {
    forall k :: k in before ==> k in after && after[k] == before[k]
  }

  /** Lists that are only appended to. */
  ghost predicate Grow<T(!new)>(before: map<RunId, seq<T>>, after: map<RunId, seq<T>>) {
    forall r :: Get(before, r) <= Get(after, r)
  }

  ghost predicate ReservationEvolves(a: Reservation, b: Reservation) {
    b == a || (a.state.Reserved? && b == a.(state := b.state))
  }

  function AttemptRank(s: AttemptState): nat {
    match s
    case ReadyToInvoke => 0
    case ReconciliationRequired => 1
    case Succeeded => 2
  }

  ghost predicate AttemptEvolves(a: Attempt, b: Attempt) {
    && b == a.(state := b.state, updatedAt := b.updatedAt)
    && AttemptRank(a.state) <= AttemptRank(b.state)
  }

  /** Attempt times are kept, or were written at some time in between. */
  ghost predicate Stamped(from: Time, before: Attempts, to: Time, after: Attempts) {
    forall a :: a in after ==>
      && ((a in before && after[a].claimedAt == before[a].claimedAt) || from <= after[a].claimedAt <= to)
      && ((a in before && after[a].updatedAt == before[a].updatedAt) || from <= after[a].updatedAt <= to)
  }

  ghost predicate Evolves(s: State, t: State) {
    && s.now <= t.now
    && RunsEvolve(s, t)
    && Grow(s.records, t.records) && Grow(s.candidates, t.candidates) && Grow(s.failures, t.failures)
    && Stamped(s.now, s.attempts, t.now, t.attempts)
    && Kept(s.approvals, t.approvals) && Kept(s.intents, t.intents)
    && Kept(s.receipts, t.receipts) && Kept(s.reconciliations, t.reconciliations)
    && (forall k :: k in s.reservations ==>
        k in t.reservations && ReservationEvolves(s.reservations[k], t.reservations[k]))
    && (forall a :: a in s.attempts ==> a in t.attempts && AttemptEvolves(s.attempts[a], t.attempts[a]))
  }

  lemma EvolvesReflexive(s: State)
    ensures Evolves(s, s)
  {
  }

  lemma RowTransitive(a: RunRow, b: RunRow, c: RunRow)
    requires RowEvolves(a, b) && RowEvolves(b, c)
    ensures RowEvolves(a, c)
  {
  }

  lemma RunsTransitive(s: State, t: State, u: State)
    requires RunsEvolve(s, t) && RunsEvolve(t, u)
    ensures RunsEvolve(s, u)
  {
    hide RowEvolves;
    forall r | r in s.runs
      ensures r in u.runs && RowEvolves(s.runs[r], u.runs[r])
      ensures Log(s, r) <= Log(u, r) && Validations(s, r) <= Validations(u, r)
      ensures s.runs[r].version == u.runs[r].version ==>
                Log(u, r) == Log(s, r) && Validations(u, r) == Validations(s, r)
    {
      RowTransitive(s.runs[r], t.runs[r], u.runs[r]);
      VersionsOrdered(s.runs[r], t.runs[r]);
      VersionsOrdered(t.runs[r], u.runs[r]);
    }
  }

  lemma VersionsOrdered(a: RunRow, b: RunRow)
    requires RowEvolves(a, b)
    ensures a.version <= b.version
  {
  }

  lemma EvolvesTransitive(s: State, t: State, u: State)
    requires Evolves(s, t) && Evolves(t, u)
    ensures Evolves(s, u)
  {
    hide RunsEvolve, Grow, Stamped;
    RunsTransitive(s, t, u);
    GrowTransitive(s.records, t.records, u.records);
    GrowTransitive(s.candidates, t.candidates, u.candidates);
    GrowTransitive(s.failures, t.failures, u.failures);
    StampedTransitive(s.now, s.attempts, t.now, t.attempts, u.now, u.attempts);
  }

  lemma GrowTransitive<T(!new)>(a: map<RunId, seq<T>>, b: map<RunId, seq<T>>, c: map<RunId, seq<T>>)
    requires Grow(a, b) && Grow(b, c)
    ensures Grow(a, c)
  {
  }

  lemma GrowSame<T(!new)>(a: map<RunId, seq<T>>)
    ensures Grow(a, a)
  {
  }

  lemma StampedTransitive(t0: Time, a: Attempts, t1: Time, b: Attempts, t2: Time, c: Attempts)
    requires t0 <= t1 <= t2 && Stamped(t0, a, t1, b) && Stamped(t1, b, t2, c)
    ensures Stamped(t0, a, t2, c)
  {
  }

  lemma RunStepEvolves(s: State, t: State, r: RunId)
    requires RunStep(s, t, r)
    ensures Evolves(s, t)
  {
    hide RunStep, RunsEvolve, Grow;
    RunStepFrame(s, t, r);
    RunStepRunsEvolve(s, t, r);
    RunStepGrows(s, t, r);
    GrowSame(s.failures);
  }

  lemma RunStepGrows(s: State, t: State, r: RunId)
    requires RunStep(s, t, r)
    ensures Grow(s.records, t.records) && Grow(s.candidates, t.candidates)
  {
    hide RunOk, RowAdvances, ActiveInvocation, EffectsDone, EffectsUntouched, SameAuthority;
  }

  lemma RunStepRunsEvolve(s: State, t: State, r: RunId)
    requires RunStep(s, t, r)
    ensures RunsEvolve(s, t)
  {
    hide RunOk, ActiveInvocation, EffectsDone, EffectsUntouched, SameAuthority;
    if t.runs[r].status != s.runs[r].status {
      EdgeRaisesRank(s.runs[r].status, t.runs[r].status);
    }
  }

  // ------------------------------------------------------------------- single steps

  /** The run whose own rows a method may rewrite, when it is one of those methods. */
  predicate RewritesRun(op: Op) {
    op.OpClaimDue? || op.OpRenewLease? || op.OpReleaseLease? || op.OpTransition? || op.OpScheduleRetry?
    || op.OpAppendRecord? || op.OpAppendCandidate? || op.OpIssueValidation?
  }

  function TargetRun(op: Op): RunId
    requires RewritesRun(op)
  {
    match op
    case OpClaimDue(r, _, _, _, _, _) => r
    case OpRenewLease(r, _, _, _) => r
    case OpReleaseLease(r, _, _) => r
    case OpTransition(e, _) => e.run
    case OpScheduleRetry(e, _) => e.run
    case OpAppendRecord(r, _, _) => r
    case OpAppendCandidate(r, _, _) => r
    case OpIssueValidation(req, _) => req.run
  }

  lemma NeedsItsRun(cfg: Config, s: State, op: Op)
    requires RewritesRun(op) && Do(cfg, s, op).Ok?
    ensures TargetRun(op) in s.runs
  {
    hide Authorized, AppendEvent, UpdateRow, Prerequisites, VerifyValidation, Acquire, ExpireLapsed;
  }

  lemma RewriteIsStep(cfg: Config, s: State, op: Op, t: State)
    requires Inv(s) && RewritesRun(op) && Do(cfg, s, op) == Ok(t)
    ensures RunStep(s, t, TargetRun(op))
  {
    hide RunStep, ClaimDue, RenewLease, ReleaseLease, Transition, ScheduleRetry, AppendRecord, AppendCandidate,
      IssueValidation, Inv, RunHere;
    NeedsItsRun(cfg, s, op);
    RunIsHere(s, TargetRun(op));
    match op
    case OpClaimDue(r, worker, millis, leaseId, expired, acquired) =>
      ClaimIsRunStep(s, r, worker, millis, leaseId, expired, acquired, t);
    case OpRenewLease(r, g, millis, eventId) => RenewIsRunStep(s, r, g, millis, eventId, t);
    case OpReleaseLease(r, g, eventId) => ReleaseIsRunStep(s, r, g, eventId, t);
    case OpTransition(e, version) =>
      EvidenceOf(s, e.run);
      TransitionIsRunStep(cfg, s, e, version, t);
    case OpScheduleRetry(e, releasedId) => RetryIsRunStep(s, e, releasedId, t);
    case OpAppendRecord(r, g, record) => AppendRecordIsRunStep(s, r, g, record, t);
    case OpAppendCandidate(r, g, candidate) => AppendCandidateIsRunStep(s, r, g, candidate, t);
    case OpIssueValidation(req, issued) => IssueIsRunStep(cfg, s, req, issued, t);
  }

  lemma EvidenceOf(s: State, r: RunId)
    requires Inv(s) && r in s.runs
    ensures EffectsDone(s.intents, s.receipts, r, s.runs[r].status)
    ensures IntentsOk(s.runs, s.validations, s.intents) && ReceiptsOk(s.intents, s.receipts)
  {
    hide EffectsDone, IntentsOk, ReceiptsOk;
  }

  /** Every method of the store keeps the joint invariant. */
  lemma StepKeepsInv(cfg: Config, s: State, op: Op)
    requires Inv(s)
    ensures Inv(After(cfg, s, op))
  {
    hide Inv, ClaimDue, RenewLease, ReleaseLease, Transition, ScheduleRetry, AppendRecord, AppendCandidate,
      IssueValidation, CreateRun, RecordApproval, BeginEffect, Reserve, Consume, Cancel, RecordSuccess,
      RecordAmbiguous, Reconcile, RunStep;
    if Do(cfg, s, op).Ok? {
      var t := Do(cfg, s, op).value;
      match op
      case OpTick(elapsed) => TickKeepsInv(s, elapsed);
      case OpCreateRun(r, key, fp, mode, at) => CreateRunKeepsInv(s, r, key, fp, mode, at, t);
      case OpRecordApproval(r, g, kind, target, fp, approver, at, expiresAt, id) =>
        ApprovalKeepsInv(cfg, s, r, g, kind, target, fp, approver, at, expiresAt, id, t);
      case OpBeginEffect(r, g, kind, target, key, fp, id) => BeginKeepsInv(cfg, s, r, g, kind, target, key, fp, id, t);
      case OpReserve(r, kind, target, fp, key, i, v, id, token) =>
        ReserveKeepsInv(cfg, s, r, kind, target, fp, key, i, v, id, token, t);
      case OpConsume(c, a, fence) => ConsumeKeepsInv(s, c, a, fence, t);
      case OpCancel(c) => CancelKeepsInv(s, c, t);
      case OpRecordSuccess(a, worker, fence, payload) => RecordSuccessKeepsInv(cfg, s, a, worker, fence, payload, t);
      case OpRecordAmbiguous(a, worker, fence, failure) => AmbiguousKeepsInv(s, a, worker, fence, failure, t);
      case OpReconcile(r, g, a, worker, fence, outcome, proof, receipt) =>
        ReconcileKeepsInv(cfg, s, r, g, a, worker, fence, outcome, proof, receipt, t);
      case _ =>
        RewriteIsStep(cfg, s, op, t);
        RunStepKeepsInv(s, t, TargetRun(op));
    }
  }

  /** The run tables and the clock of `t` are those of `s`. */
  ghost predicate RunsStay(s: State, t: State) {
    t.now == s.now && t.runs == s.runs && t.logs == s.logs && t.validations == s.validations
  }

  lemma StayEvolves(s: State, t: State)
    requires RunsStay(s, t)
    ensures RunsEvolve(s, t)
  {
  }

  lemma BumpEvolves(s: State, r: RunId)
    requires RunHere(s, r) && !Terminal(s.runs[r].status)
    ensures RunsEvolve(s, Bump(s, r))
  {
    hide Fold;
  }

  lemma BeginEvolves(cfg: Config, s: State, r: RunId, g: Guard, kind: Kind, target: string, key: string, inputFp: Fp,
                     id: IntentId, t: State)
    requires Inv(s) && BeginEffect(cfg, s, r, g, kind, target, key, inputFp, id) == Ok(t)
    ensures Evolves(s, t)
  {
    hide BeginEffect, AcceptedValidation, Inv, RunsEvolve, RunHere, Evolves;
    BeginMeaning(cfg, s, r, g, kind, target, key, inputFp, id, t);
    if t == s {
      EvolvesReflexive(s);
    } else {
      RunIsHere(s, r);
      BumpEvolves(s, r);
      RunsEvolveOnRuns(s, Bump(s, r), s, t);
      AddedIntentEvolves(s, t);
    }
  }

  lemma RunsEvolveOnRuns(s: State, t: State, s': State, t': State)
    requires RunsEvolve(s, t) && RunsStay(s, s') && RunsStay(t, t')
    ensures RunsEvolve(s', t')
  {
    hide RowEvolves;
  }

  lemma AddedIntentEvolves(s: State, t: State)
    requires RunsEvolve(s, t) && Kept(s.intents, t.intents)
    requires t == s.(runs := t.runs, intents := t.intents)
    ensures Evolves(s, t)
  {
    hide RunsEvolve;
  }

  lemma CreateEvolves(s: State, r: RunId, requestKey: string, inputFp: Fp, mode: Mode, at: Time, t: State)
    requires CreateRun(s, r, requestKey, inputFp, mode, at) == Ok(t)
    ensures Evolves(s, t)
  {
    hide CreateRun, Evolves;
    CreateMeaning(s, r, requestKey, inputFp, mode, at, t);
    if t == s {
      EvolvesReflexive(s);
    } else {
      CreatedEvolves(s, r, t.runs[r]);
    }
  }

  lemma CreatedEvolves(s: State, r: RunId, row: RunRow)
    requires r !in s.runs
    ensures Evolves(s, s.(runs := s.runs[r := row]))
  {
    hide RunsEvolve;
    NewRunEvolves(s, r, s.(runs := s.runs[r := row]));
  }

  lemma NewRunEvolves(s: State, r: RunId, t: State)
    requires t.logs == s.logs && t.validations == s.validations
    requires t.runs == s.runs || (r !in s.runs && r in t.runs && t.runs == s.runs[r := t.runs[r]])
    ensures RunsEvolve(s, t)
  {
  }

  lemma ReserveEvolves(cfg: Config, s: State, r: RunId, kind: Kind, target: string, inputFp: Fp, key: string,
                       i: IntentId, v: Validation, id: ReservationId, token: Token, t: State)
    requires Reserve(cfg, s, r, kind, target, inputFp, key, i, v, id, token) == Ok(t)
    ensures Evolves(s, t)
  {
    hide Reserve, Bound, RunsEvolve;
    var res := ReserveMeaning(cfg, s, r, kind, target, inputFp, key, i, v, id, token, t);
    StayEvolves(s, t);
  }

  lemma ConsumeEvolves(s: State, c: Claim, a: AttemptId, fence: Fence, t: State)
    requires Consume(s, c, a, fence) == Ok(t)
    ensures Evolves(s, t)
  {
    hide Consume, StillCurrent, NextAttemptNumber, RunsEvolve;
    ConsumeMeaning(s, c, a, fence, t);
    StayEvolves(s, t);
  }

  lemma CancelEvolves(s: State, c: Claim, t: State)
    requires Cancel(s, c) == Ok(t)
    ensures Evolves(s, t)
  {
    hide Cancel, RunsEvolve;
    CancelMeaning(s, c, t);
    StayEvolves(s, t);
  }

  lemma ResolvedEvolves(s: State, a: AttemptId, receipt: Receipt, proofs: Proofs)
    requires a in s.attempts && s.attempts[a].intent !in s.receipts && Kept(s.reconciliations, proofs)
    ensures Evolves(s, Resolved(s, a, receipt, proofs))
  {
    hide RunsEvolve;
    StayEvolves(s, Resolved(s, a, receipt, proofs));
  }

  lemma SuccessEvolves(cfg: Config, s: State, a: AttemptId, worker: string, fence: Fence, p: ReceiptPayload, t: State)
    requires SuccessOk(s.attempts, s.receipts) && RecordSuccess(cfg, s, a, worker, fence, p) == Ok(t)
    ensures Evolves(s, t)
  {
    hide RecordSuccess, Evolves, ReceiptOk, Resolved;
    RecordSuccessMeaning(cfg, s, a, worker, fence, p, t);
    if t == s {
      EvolvesReflexive(s);
    } else {
      ResolvedEvolves(s, a, Receipt(p, p.validation, p.candidate, p.artifactSet), s.reconciliations);
    }
  }

  lemma AmbiguousEvolves(s: State, a: AttemptId, worker: string, fence: Fence, payload: Fp, t: State)
    requires RecordAmbiguous(s, a, worker, fence, payload) == Ok(t)
    ensures Evolves(s, t)
  {
    hide RecordAmbiguous, RunsEvolve;
    AmbiguousMeaning(s, a, worker, fence, payload, t);
    StayEvolves(s, t);
  }

  lemma ReconcileEvolves(cfg: Config, s: State, r: RunId, g: Guard, a: AttemptId, worker: string, fence: Fence,
                         outcome: ProofOutcome, proof: Fp, receipt: Option<ReceiptPayload>, t: State)
    requires SuccessOk(s.attempts, s.receipts) && ProofsOk(s.attempts, s.reconciliations)
    requires Reconcile(cfg, s, r, g, a, worker, fence, outcome, proof, receipt) == Ok(t)
    ensures Evolves(s, t)
  {
    hide Reconcile, Evolves, ReceiptOk, Resolved, LockRun, ProofsOk;
    ReconcileMeaning(cfg, s, r, g, a, worker, fence, outcome, proof, receipt, t);
    if outcome.Applied? {
      var p := receipt.value;
      ResolvedEvolves(s, a, Receipt(p, p.validation, p.candidate, p.artifactSet),
                      s.reconciliations[a := Reconciliation(outcome, proof)]);
    } else if t == s {
      EvolvesReflexive(s);
    } else {
      ProofEvolves(s, a, Reconciliation(outcome, proof));
    }
  }

  lemma ProofEvolves(s: State, a: AttemptId, proof: Reconciliation)
    requires a !in s.reconciliations
    ensures Evolves(s, s.(reconciliations := s.reconciliations[a := proof]))
  {
    hide RunsEvolve;
    StayEvolves(s, s.(reconciliations := s.reconciliations[a := proof]));
  }

  lemma ApprovalEvolves(cfg: Config, s: State, r: RunId, g: Guard, kind: Kind, target: string, inputFp: Fp,
                        approvedBy: string, at: Time, expiresAt: Time, id: ApprovalId, t: State)
    requires RecordApproval(cfg, s, r, g, kind, target, inputFp, approvedBy, at, expiresAt, id) == Ok(t)
    ensures Evolves(s, t)
  {
    hide RecordApproval, AcceptedValidation, Evolves;
    ApprovalMeaning(cfg, s, r, g, kind, target, inputFp, approvedBy, at, expiresAt, id, t);
    ApprovalsAddedEvolves(s, t);
  }

  lemma ApprovalsAddedEvolves(s: State, t: State)
    requires t == s.(approvals := t.approvals) && Kept(s.approvals, t.approvals)
    ensures Evolves(s, t)
  {
    hide RunsEvolve;
    StayEvolves(s, t);
  }

  lemma TickEvolves(cfg: Config, s: State, op: Op, t: State)
    requires op.OpTick? && Do(cfg, s, op) == Ok(t)
    ensures Evolves(s, t)
  {
    hide RunsEvolve;
    NewRunEvolves(s, 0, t);
  }

  lemma InvParts(s: State)
    requires Inv(s)
    ensures SuccessOk(s.attempts, s.receipts) && ProofsOk(s.attempts, s.reconciliations)
  {
    hide SuccessOk, ProofsOk;
  }

  lemma CreateMeaning(s: State, r: RunId, requestKey: string, inputFp: Fp, mode: Mode, at: Time, t: State)
    requires CreateRun(s, r, requestKey, inputFp, mode, at) == Ok(t)
    ensures t == s || (r !in s.runs && r in t.runs && t == s.(runs := s.runs[r := t.runs[r]]))
  {
  }

  lemma CancelMeaning(s: State, c: Claim, t: State)
    requires Cancel(s, c) == Ok(t)
    ensures c.id in s.reservations && s.reservations[c.id].state.Reserved?
    ensures t == s.(reservations := s.reservations[c.id := s.reservations[c.id].(state := CancelledPreSend)])
  {
  }

  lemma RewriteEvolves(cfg: Config, s: State, op: Op, t: State)
    requires Inv(s) && RewritesRun(op) && Do(cfg, s, op) == Ok(t)
    ensures Evolves(s, t)
  {
    hide Inv, Do, Evolves, RunStep;
    RewriteIsStep(cfg, s, op, t);
    RunStepEvolves(s, t, TargetRun(op));
  }

  /** Every method only moves rows forward. */
  lemma StepEvolves(cfg: Config, s: State, op: Op)
    requires Inv(s)
    ensures Evolves(s, After(cfg, s, op))
  {
    InvParts(s);
    hide Inv, Evolves, ClaimDue, RenewLease, ReleaseLease, Transition, ScheduleRetry, AppendRecord, AppendCandidate,
      IssueValidation, CreateRun, RecordApproval, BeginEffect, Reserve, Consume, Cancel, RecordSuccess,
      RecordAmbiguous, Reconcile, SuccessOk, ProofsOk;
    if Do(cfg, s, op).Err? {
      EvolvesReflexive(s);
    } else if RewritesRun(op) {
      RewriteEvolves(cfg, s, op, Do(cfg, s, op).value);
    } else {
      EffectEvolves(cfg, s, op, Do(cfg, s, op).value);
    }
  }

  lemma OutcomeEvolves(cfg: Config, s: State, op: Op, t: State)
    requires SuccessOk(s.attempts, s.receipts) && ProofsOk(s.attempts, s.reconciliations)
    requires op.OpRecordSuccess? || op.OpRecordAmbiguous? || op.OpReconcile?
    requires Do(cfg, s, op) == Ok(t)
    ensures Evolves(s, t)
  {
    hide Evolves, RecordSuccess, RecordAmbiguous, Reconcile, SuccessOk, ProofsOk;
    if op.OpRecordSuccess? {
      SuccessEvolves(cfg, s, op.attemptId, op.worker, op.fence, op.payload, t);
    } else if op.OpRecordAmbiguous? {
      AmbiguousEvolves(s, op.attemptId, op.worker, op.fence, op.failure, t);
    } else {
      ReconcileEvolves(cfg, s, op.run, op.guard, op.attemptId, op.worker, op.fence, op.outcome, op.proof,
          op.receipt, t);
    }
  }

  lemma EffectEvolves(cfg: Config, s: State, op: Op, t: State)
    requires Inv(s) && !RewritesRun(op) && Do(cfg, s, op) == Ok(t)
    ensures Evolves(s, t)
  {
    hide Inv, Evolves, CreateRun, RecordApproval, BeginEffect, Reserve, Consume, Cancel, RecordSuccess,
      RecordAmbiguous, Reconcile, SuccessOk, ProofsOk;
    InvParts(s);
    match op
    case OpTick(_) => TickEvolves(cfg, s, op, t);
    case OpCreateRun(r, key, fp, mode, at) => CreateEvolves(s, r, key, fp, mode, at, t);
    case OpRecordApproval(r, g, kind, target, fp, approver, at, expiresAt, id) =>
      ApprovalEvolves(cfg, s, r, g, kind, target, fp, approver, at, expiresAt, id, t);
    case OpBeginEffect(r, g, kind, target, key, fp, id) => BeginEvolves(cfg, s, r, g, kind, target, key, fp, id, t);
    case OpReserve(r, kind, target, fp, key, i, v, id, token) =>
      ReserveEvolves(cfg, s, r, kind, target, fp, key, i, v, id, token, t);
    case OpConsume(c, a, fence) => ConsumeEvolves(s, c, a, fence, t);
    case OpCancel(c) => CancelEvolves(s, c, t);
    case _ => hide Do; OutcomeEvolves(cfg, s, op, t);
  }

  // --------------------------------------------------------------------------- runs

  lemma EmptyInv()
    ensures Inv(EMPTY)
  {
  }

  /** The invariant over every interleaving, and monotone evolution along it. */
  lemma {:induction false} RunHolds(cfg: Config, s: State, ops: seq<Op>)
    requires Inv(s)
    ensures Inv(Run(cfg, s, ops)) && Evolves(s, Run(cfg, s, ops))
    decreases |ops|
  {
    hide Inv, Evolves, Do;
    if |ops| == 0 {
      EvolvesReflexive(s);
    } else {
      var mid := Run(cfg, s, ops[..|ops| - 1]);
      RunHolds(cfg, s, ops[..|ops| - 1]);
      StepKeepsInv(cfg, mid, ops[|ops| - 1]);
      StepEvolves(cfg, mid, ops[|ops| - 1]);
      EvolvesTransitive(s, mid, Run(cfg, s, ops));
    }
  }

  /** A state some interleaving of workers can produce from an empty database. */
  ghost predicate Reachable(cfg: Config, s: State) {
    exists ops: seq<Op> :: Run(cfg, EMPTY, ops) == s
  }

  lemma ReachableInv(cfg: Config, s: State)
    requires Reachable(cfg, s)
    ensures Inv(s)
  {
    hide Inv, Evolves, Do;
    var ops: seq<Op> :| Run(cfg, EMPTY, ops) == s;
    EmptyInv();
    RunHolds(cfg, EMPTY, ops);
  }
}
