/** What every reservation still says about its run and its approval, however old it is. */
module StoreReservations {
  import opened Common
  import opened RunLog
  import opened StoreModel
  import opened StoreSteps
  import opened StoreInvariant
  import opened StoreRunMethods
  import opened StoreEffectMethods
  import opened StoreOutcomes
  import opened StoreTheorems
  import opened StoreGuarantees
  import opened StoreWindows
  import opened StoreCallers
  import opened StoreConditions

  /** The run as the reservation stored it, inside the window of the reservation. */
  ghost predicate Unmoved(s: State, res: Reservation)
    requires res.run in s.runs
  {
    var row := s.runs[res.run];
    && row.status == res.runStatus && row.generation == res.generation && row.lease.Some?
    && row.lease.value.id == res.leaseId && row.lease.value.worker == res.worker
    && res.invokeBy <= row.lease.value.expiresAt
    && Log(s, res.run) == res.eventPrefix && LatestValidation(s, res.run) == Some(res.validation)
  }

  /** As long as the run has the version it was reserved with, it is what the reservation stored; so is the approval. */
  ghost predicate Faithful(s: State, res: Reservation) {
    && res.run in s.runs && s.runs[res.run].mode == Live && res.runVersion <= s.runs[res.run].version
    && res.approval in s.approvals && s.approvals[res.approval].payload == res.approvalFp
    && res.approvalFp.validation == res.validation && res.invokeBy <= res.approvalFp.expiresAt
    && (s.runs[res.run].version == res.runVersion ==> Unmoved(s, res))
  }

  ghost predicate AllFaithful(s: State) {
    forall k :: k in s.reservations ==> Faithful(s, s.reservations[k])
  }

  lemma FaithfulEvolves(s: State, t: State, res: Reservation)
    requires Evolves(s, t) && Faithful(s, res)
    ensures Faithful(t, res)
  {
    hide Evolves, Unmoved;
    LogsGrow(s, t, res.run);
    ApprovalsKept(s, t);
    if t.runs[res.run].version == res.runVersion {
      SameVersionSameRun(s, t, res.run);
      UnmovedSame(s, t, res);
    }
  }

  lemma UnmovedSame(s: State, t: State, res: Reservation)
    requires res.run in s.runs && res.run in t.runs && Unmoved(s, res)
    requires t.runs[res.run] == s.runs[res.run] && Log(t, res.run) == Log(s, res.run)
    requires Validations(t, res.run) == Validations(s, res.run)
    ensures Unmoved(t, res)
  {
  }

  lemma ApprovalsKept(s: State, t: State)
    requires Evolves(s, t)
    ensures Kept(s.approvals, t.approvals)
  {
    hide Kept, RunsEvolve, Grow, Stamped;
  }

  lemma StateAside(s: State, res: Reservation, later: Reservation)
    requires ReservationEvolves(res, later) && Faithful(s, res)
    ensures Faithful(s, later)
  {
  }

  /** Only reserveCurrentEffect adds a reservation. */
  lemma OthersAddNone(cfg: Config, s: State, op: Op, t: State)
    requires Inv(s) && Do(cfg, s, op) == Ok(t) && !op.OpReserve?
    ensures t.reservations.Keys == s.reservations.Keys
  {
    hide Inv, Do, RunStep, SuccessOk, ProofsOk;
    if RewritesRun(op) {
      RewriteIsStep(cfg, s, op, t);
      RunStepFrame(s, t, TargetRun(op));
    } else if op.OpRecordSuccess? || op.OpRecordAmbiguous? || op.OpReconcile? {
      InvParts(s);
      OutcomesAddNone(cfg, s, op, t);
    } else {
      EffectsAddNone(cfg, s, op, t);
    }
  }

  lemma SuccessAddsNone(cfg: Config, s: State, a: AttemptId, worker: string, fence: Fence, p: ReceiptPayload, t: State)
    requires SuccessOk(s.attempts, s.receipts) && RecordSuccess(cfg, s, a, worker, fence, p) == Ok(t)
    ensures t.reservations == s.reservations
  {
    hide RecordSuccess, SuccessOk, ReceiptOk;
    RecordSuccessMeaning(cfg, s, a, worker, fence, p, t);
  }

  lemma ProofAddsNone(cfg: Config, s: State, r: RunId, g: Guard, a: AttemptId, worker: string, fence: Fence,
                      outcome: ProofOutcome, proof: Fp, receipt: Option<ReceiptPayload>, t: State)
    requires SuccessOk(s.attempts, s.receipts) && ProofsOk(s.attempts, s.reconciliations)
    requires Reconcile(cfg, s, r, g, a, worker, fence, outcome, proof, receipt) == Ok(t)
    ensures t.reservations == s.reservations
  {
    hide Reconcile, ReceiptOk, LockRun, SuccessOk, ProofsOk;
    ReconcileMeaning(cfg, s, r, g, a, worker, fence, outcome, proof, receipt, t);
  }

  lemma OutcomesAddNone(cfg: Config, s: State, op: Op, t: State)
    requires SuccessOk(s.attempts, s.receipts) && ProofsOk(s.attempts, s.reconciliations)
    requires op.OpRecordSuccess? || op.OpRecordAmbiguous? || op.OpReconcile?
    requires Do(cfg, s, op) == Ok(t)
    ensures t.reservations == s.reservations
  {
    hide RecordSuccess, RecordAmbiguous, Reconcile, SuccessOk, ProofsOk, Get;
    if op.OpRecordSuccess? {
      SuccessAddsNone(cfg, s, op.attemptId, op.worker, op.fence, op.payload, t);
    } else if op.OpRecordAmbiguous? {
      AmbiguousMeaning(s, op.attemptId, op.worker, op.fence, op.failure, t);
    } else {
      ProofAddsNone(cfg, s, op.run, op.guard, op.attemptId, op.worker, op.fence, op.outcome, op.proof, op.receipt, t);
    }
  }

  lemma EffectsAddNone(cfg: Config, s: State, op: Op, t: State)
    requires !RewritesRun(op) && !op.OpRecordSuccess? && !op.OpRecordAmbiguous? && !op.OpReconcile? && !op.OpReserve?
    requires Do(cfg, s, op) == Ok(t)
    ensures t.reservations.Keys == s.reservations.Keys
  {
    hide CreateRun, RecordApproval, BeginEffect, Reserve, Consume, Cancel, StillCurrent, NextAttemptNumber,
      AcceptedValidation, Bound;
    match op
    case OpTick(_) =>
    case OpCreateRun(q, key, fp, mode, at) => CreateMeaning(s, q, key, fp, mode, at, t);
    case OpRecordApproval(q, g, kind, target, fp, approver, at, expiresAt, id) =>
      ApprovalMeaning(cfg, s, q, g, kind, target, fp, approver, at, expiresAt, id, t);
    case OpBeginEffect(q, g, kind, target, key, fp, id) => BeginMeaning(cfg, s, q, g, kind, target, key, fp, id, t);
    case OpConsume(c, a, fence) => ConsumeMeaning(s, c, a, fence, t);
    case OpCancel(c) => CancelMeaning(s, c, t);
  }

  lemma NewIsFaithful(s: State, t: State, res: Reservation)
    requires RunsStay(s, t) && t.approvals == s.approvals && Snapshot(s, res)
    ensures Faithful(t, res)
  {
  }

  lemma ReserveAdds(cfg: Config, s: State, op: Op, t: State)
    requires op.OpReserve? && Do(cfg, s, op) == Ok(t)
    ensures op.reservationId in t.reservations
    ensures t.reservations == s.reservations[op.reservationId := t.reservations[op.reservationId]]
  {
    hide Reserve, Bound;
    var res := ReserveMeaning(cfg, s, op.run, op.kind, op.target, op.inputFp, op.key, op.intentId, op.validation,
                              op.reservationId, op.token, t);
  }

  lemma StepKeepsFaithful(cfg: Config, s: State, op: Op)
    requires Inv(s) && AllFaithful(s)
    ensures AllFaithful(After(cfg, s, op))
  {
    hide Inv, Do, Evolves, Faithful, Snapshot;
    var t := After(cfg, s, op);
    StepEvolves(cfg, s, op);
    if Do(cfg, s, op).Ok? {
      forall k | k in t.reservations ensures Faithful(t, t.reservations[k]) {
        if k in s.reservations {
          ReservationKept(s, t, k);
          FaithfulEvolves(s, t, s.reservations[k]);
          StateAside(t, s.reservations[k], t.reservations[k]);
        } else {
          AddedIsFaithful(cfg, s, op, t, k);
        }
      }
    }
  }

  lemma AddedIsFaithful(cfg: Config, s: State, op: Op, t: State, k: ReservationId)
    requires Inv(s) && Do(cfg, s, op) == Ok(t) && k !in s.reservations && k in t.reservations
    ensures Faithful(t, t.reservations[k])
  {
    hide Inv, Do, Faithful, Snapshot;
    assert k in t.reservations.Keys && k !in s.reservations.Keys;
    if op.OpReserve? {
      ReserveAdds(cfg, s, op, t);
      ReserveSnapshots(cfg, s, op, t);
      NewIsFaithful(s, t, t.reservations[k]);
    } else {
      OthersAddNone(cfg, s, op, t);
    }
  }

  lemma {:induction false} RunKeepsFaithful(cfg: Config, s: State, ops: seq<Op>)
    requires Inv(s) && AllFaithful(s)
    ensures AllFaithful(Run(cfg, s, ops))
    decreases |ops|
  {
    hide Inv, Do, AllFaithful, Evolves;
    if |ops| > 0 {
      RunKeepsFaithful(cfg, s, ops[..|ops| - 1]);
      RunHolds(cfg, s, ops[..|ops| - 1]);
      StepKeepsFaithful(cfg, Run(cfg, s, ops[..|ops| - 1]), ops[|ops| - 1]);
    }
  }

  /** Attempts carry times that have passed. */
  ghost predicate TimesPassed(s: State) {
    forall a :: a in s.attempts ==> s.attempts[a].claimedAt <= s.now && s.attempts[a].updatedAt <= s.now
  }

  /** Every state that the store can reach has the invariant, faithful reservations, and times that have passed. */
  lemma ReachableHolds(cfg: Config, s: State)
    requires Reachable(cfg, s)
    ensures Inv(s) && AllFaithful(s) && TimesPassed(s)
  {
    hide Inv, Do, Evolves, Run, Faithful;
    var ops: seq<Op> :| Run(cfg, EMPTY, ops) == s;
    EmptyInv();
    assert AllFaithful(EMPTY);
    RunHolds(cfg, EMPTY, ops);
    RunKeepsFaithful(cfg, EMPTY, ops);
    StampedPassed(s);
  }

  lemma StampedPassed(s: State)
    requires Evolves(EMPTY, s)
    ensures TimesPassed(s)
  {
    hide RunsEvolve, Kept, Grow;
  }

  /**
   The approval behind every reservation that ever was: given after the validation it approves, stored no earlier than
   given, and good for at most an hour from then.
   */
  lemma ReservedInTime(cfg: Config, s: State, k: ReservationId)
    requires Reachable(cfg, s) && k in s.reservations
    ensures var res := s.reservations[k]; var a := res.approval;
            && a in s.approvals && s.approvals[a].payload == res.approvalFp
            && res.approvalFp.validation == res.validation
            && res.validation.completedAt <= res.approvalFp.approvedAt <= s.approvals[a].createdAt
            && s.approvals[a].createdAt < res.approvalFp.expiresAt <= s.approvals[a].createdAt + 3_600_000
            && res.invokeBy <= res.approvalFp.expiresAt
  {
    hide Reachable, Inv, Unmoved, Settled;
    ReachableHolds(cfg, s);
    assert Faithful(s, s.reservations[k]);
    ApprovalTable(s);
  }

  lemma ApprovalTable(s: State)
    requires Inv(s)
    ensures forall a :: a in s.approvals ==>
              ApprovalTimely(s.approvals[a])
              && Settled(s.runs, s.validations, s.approvals[a].payload.run, s.approvals[a].payload.validation)
  {
    hide ApprovalTimely, Settled;
  }
}
