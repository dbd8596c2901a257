/** What the store's clocks and versions promise between two calls. */
module StoreWindows {
  import opened Common
  import opened RunLog
  import opened StoreModel
  import opened StoreSteps
  import opened StoreInvariant
  import opened StoreRunMethods
  import opened StoreEffectMethods
  import opened StoreOutcomes
  import opened StoreTheorems
  import opened StoreGuarantees

  // ------------------------------------------------------------ reserve to consume

  /** A reservation stores the run as it stands, and ends when its lease, its approval or thirty seconds are over. */
  ghost predicate Snapshot(s: State, res: Reservation) {
    && res.run in s.runs && s.runs[res.run].lease.Some?
    && var row := s.runs[res.run];
    && res.runVersion == row.version && res.runStatus == row.status && res.generation == row.generation
    && res.leaseId == row.lease.value.id && res.worker == row.lease.value.worker
    && res.eventPrefix == Log(s, res.run) && LatestValidation(s, res.run) == Some(res.validation)
    && res.approval in s.approvals && s.approvals[res.approval].payload == res.approvalFp
    && s.now < res.invokeBy <= s.now + INVOKE_MILLIS
    && res.invokeBy <= row.lease.value.expiresAt && res.invokeBy <= res.approvalFp.expiresAt
    && (|| res.invokeBy == s.now + 30_000 || res.invokeBy == row.lease.value.expiresAt
        || res.invokeBy == res.approvalFp.expiresAt)
    && row.mode == Live && res.approvalFp.validation == res.validation
  }

  lemma ReserveSnapshots(cfg: Config, s: State, op: Op, t: State)
    requires op.OpReserve? && Do(cfg, s, op) == Ok(t)
    ensures op.reservationId in t.reservations && t.reservations[op.reservationId].run == op.run
    ensures t.reservations[op.reservationId].state.Reserved? && Snapshot(s, t.reservations[op.reservationId])
    ensures RunsStay(s, t) && t.approvals == s.approvals
  {
    hide RequireApproval, Fold, Log, LatestValidation;
  }

  lemma ConsumeIsCurrent(cfg: Config, s: State, op: Op, t: State)
    requires op.OpConsume? && Do(cfg, s, op) == Ok(t)
    ensures op.claim.id in s.reservations && s.reservations[op.claim.id].state.Reserved?
    ensures StillCurrent(s, s.reservations[op.claim.id])
  {
    hide StillCurrent, NextAttemptNumber, IntentUnchanged;
  }

  lemma ReservationKept(s: State, t: State, k: ReservationId)
    requires Evolves(s, t) && k in s.reservations
    ensures k in t.reservations && ReservationEvolves(s.reservations[k], t.reservations[k])
  {
    hide RunsEvolve;
  }

  lemma SameVersionSameRun(s: State, t: State, r: RunId)
    requires Evolves(s, t) && r in s.runs && r in t.runs && t.runs[r].version == s.runs[r].version
    ensures t.runs[r] == s.runs[r] && Log(t, r) == Log(s, r) && Validations(t, r) == Validations(s, r)
  {
  }

  /** Authority is consumed only if the run has not moved in any way since it was reserved, and inside the window. */
  lemma NothingMovedSinceReservation(cfg: Config, s: State, reserve: Op, more: seq<Op>, consume: Op)
    requires Reachable(cfg, s) && reserve.OpReserve? && Do(cfg, s, reserve).Ok?
    requires consume.OpConsume? && consume.claim.id == reserve.reservationId
    requires Do(cfg, Run(cfg, After(cfg, s, reserve), more), consume).Ok?
    ensures var u := Run(cfg, After(cfg, s, reserve), more); var r := reserve.run;
            && r in s.runs && r in u.runs && u.runs[r] == s.runs[r]
            && Log(u, r) == Log(s, r) && Validations(u, r) == Validations(s, r)
            && s.runs[r].lease.Some?
            && s.now <= u.now < s.now + INVOKE_MILLIS && u.now < s.runs[r].lease.value.expiresAt
  {
    hide Reachable, Inv, Do, Evolves, StillCurrent;
    var t := After(cfg, s, reserve);
    var u := Run(cfg, t, more);
    ReachableInv(cfg, s);
    ReserveSnapshots(cfg, s, reserve, t);
    StepKeepsInv(cfg, s, reserve);
    StepEvolves(cfg, s, reserve);
    RunHolds(cfg, t, more);
    EvolvesTransitive(s, t, u);
    var k := reserve.reservationId;
    ReservationKept(t, u, k);
    ConsumeIsCurrent(cfg, u, consume, After(cfg, u, consume));
    CurrentMeans(u, u.reservations[k]);
    SameVersionSameRun(s, u, reserve.run);
    TimePasses(s, u);
  }

  lemma CurrentMeans(s: State, res: Reservation)
    requires StillCurrent(s, res)
    ensures res.run in s.runs && s.runs[res.run].version == res.runVersion && s.now < res.invokeBy
  {
  }

  lemma TimePasses(s: State, t: State)
    requires Evolves(s, t)
    ensures s.now <= t.now
  {
    hide RunsEvolve;
  }

  // ---------------------------------------------------------------- retry to claim

  /** Given back, and not due yet. */
  ghost predicate Waiting(s: State, r: RunId) {
    r in s.runs && s.runs[r].lease.None? && s.now < s.runs[r].nextAttemptAt
  }

  lemma RewriteNeedsLease(cfg: Config, s: State, op: Op)
    requires RewritesRun(op) && Do(cfg, s, op).Ok?
    ensures TargetRun(op) in s.runs
    ensures s.runs[TargetRun(op)].lease.Some? || (op.OpClaimDue? && s.runs[TargetRun(op)].nextAttemptAt <= s.now)
  {
    hide Authorized, AppendEvent, UpdateRow, Prerequisites, VerifyValidation, Acquire, ExpireLapsed, Log,
      LatestCandidate,
      LeaseIdentity;
  }

  lemma EffectKeepsOtherRows(cfg: Config, s: State, op: Op, t: State, r: RunId)
    requires !RewritesRun(op) && !op.OpRecordSuccess? && !op.OpRecordAmbiguous? && !op.OpReconcile?
    requires Do(cfg, s, op) == Ok(t) && r in s.runs && !LeaseActive(s.runs[r], s.now)
    ensures r in t.runs && t.runs[r] == s.runs[r]
  {
    hide CreateRun, RecordApproval, BeginEffect, Reserve, Consume, Cancel, StillCurrent, NextAttemptNumber,
      AcceptedValidation, Bound;
    match op
    case OpTick(_) =>
    case OpCreateRun(q, key, fp, mode, at) => CreateMeaning(s, q, key, fp, mode, at, t);
    case OpRecordApproval(q, g, kind, target, fp, approver, at, expiresAt, id) =>
      ApprovalMeaning(cfg, s, q, g, kind, target, fp, approver, at, expiresAt, id, t);
    case OpBeginEffect(q, g, kind, target, key, fp, id) => BeginMeaning(cfg, s, q, g, kind, target, key, fp, id, t);
    case OpReserve(q, kind, target, fp, key, i, v, id, token) =>
      var res := ReserveMeaning(cfg, s, q, kind, target, fp, key, i, v, id, token, t);
    case OpConsume(c, a, fence) => ConsumeMeaning(s, c, a, fence, t);
    case OpCancel(c) => CancelMeaning(s, c, t);
  }

  /** Nothing can touch a waiting run. */
  lemma StepWaits(cfg: Config, s: State, op: Op, r: RunId)
    requires Inv(s) && Waiting(s, r)
    ensures r in After(cfg, s, op).runs && After(cfg, s, op).runs[r] == s.runs[r]
  {
    hide Inv, Do, RunStep, SuccessOk, ProofsOk;
    if Do(cfg, s, op).Ok? {
      var t := Do(cfg, s, op).value;
      if RewritesRun(op) {
        RewriteNeedsLease(cfg, s, op);
        RewriteIsStep(cfg, s, op, t);
        OtherRowsStay(s, t, TargetRun(op), r);
      } else if op.OpRecordSuccess? || op.OpRecordAmbiguous? || op.OpReconcile? {
        InvParts(s);
        OutcomeKeepsRuns(cfg, s, op, t);
      } else {
        EffectKeepsOtherRows(cfg, s, op, t, r);
      }
    }
  }

  lemma OtherRowsStay(s: State, t: State, q: RunId, r: RunId)
    requires RunStep(s, t, q) && q != r && r in s.runs
    ensures r in t.runs && t.runs[r] == s.runs[r]
  {
    hide RunOk, RowAdvances, ActiveInvocation, EffectsDone, EffectsUntouched;
  }

  lemma {:induction false} RunWaits(cfg: Config, s: State, ops: seq<Op>, r: RunId)
    requires Inv(s) && Waiting(s, r) && Run(cfg, s, ops).now < s.runs[r].nextAttemptAt
    ensures Waiting(Run(cfg, s, ops), r) && Run(cfg, s, ops).runs[r] == s.runs[r]
    decreases |ops|
  {
    hide Inv, Do, Evolves;
    if |ops| > 0 {
      var mid := Run(cfg, s, ops[..|ops| - 1]);
      RunHolds(cfg, s, ops[..|ops| - 1]);
      StepEvolves(cfg, mid, ops[|ops| - 1]);
      TimePasses(mid, Run(cfg, s, ops));
      RunWaits(cfg, s, ops[..|ops| - 1], r);
      StepWaits(cfg, mid, ops[|ops| - 1], r);
    }
  }

  lemma RetryMeans(cfg: Config, s: State, op: Op, t: State)
    requires Inv(s) && op.OpScheduleRetry? && Do(cfg, s, op) == Ok(t)
    ensures op.event.body.RetryScheduled? && op.event.run in t.runs
    ensures t.runs[op.event.run].lease.None? && t.runs[op.event.run].nextAttemptAt == op.event.body.retryAt
    ensures t.now == s.now && op.event.body.retryAt == s.now + RetryDelay(op.event.body.attempt)
  {
    RetryEventIsTimely(s, op.event, op.releasedId);
    hide Inv, Do, RunHere, ScheduleRetry, UpdateRow, CursorFits, Authorized, Fold;
    assert ScheduleRetry(s, op.event, op.releasedId) == Ok(t) by { DoRetry(cfg, s, op); }
    RetryNeedsRun(s, op.event, op.releasedId);
    RunIsHere(s, op.event.run);
    var s2, log := RetryMeaning(s, op.event, op.releasedId, t);
    UpdateMeaning(s2, op.event.run, Retried(s.runs[op.event.run], op.event.body.retryAt), t);
  }

  lemma DoRetry(cfg: Config, s: State, op: Op)
    requires op.OpScheduleRetry?
    ensures Do(cfg, s, op) == ScheduleRetry(s, op.event, op.releasedId)
  {
    hide ScheduleRetry;
  }

  lemma RetryNeedsRun(s: State, e: Event, releasedId: EventId)
    requires ScheduleRetry(s, e, releasedId).Ok?
    ensures e.run in s.runs
  {
    hide Authorized, AppendEvent, UpdateRow, LockRun, RetryAllowed;
  }

  lemma RetryEventIsTimely(s: State, e: Event, releasedId: EventId)
    ensures ScheduleRetry(s, e, releasedId).Ok? ==>
              e.at == s.now && e.body.RetryScheduled? && e.body.retryAt == s.now + RetryDelay(e.body.attempt)
  {
    hide AppendEvent, UpdateRow, LockRun, RetryAllowed, BodyAllowed;
    FoldAppend(Log(s, e.run), e);
  }

  /** A run given back for a retry is not claimed before its delay is over. */
  lemma RetryWaits(cfg: Config, s: State, retry: Op, more: seq<Op>, claim: Op)
    requires Reachable(cfg, s) && retry.OpScheduleRetry? && Do(cfg, s, retry).Ok?
    requires claim.OpClaimDue? && claim.run == retry.event.run
    requires Run(cfg, After(cfg, s, retry), more).now < s.now + RetryDelay(retry.event.body.attempt)
    ensures Do(cfg, Run(cfg, After(cfg, s, retry), more), claim).Err?
  {
    hide Reachable, Inv, Do, Evolves;
    var t := After(cfg, s, retry);
    var u := Run(cfg, t, more);
    ReachableInv(cfg, s);
    RetryMeans(cfg, s, retry, t);
    StepKeepsInv(cfg, s, retry);
    RunHolds(cfg, t, more);
    TimePasses(t, u);
    RunWaits(cfg, t, more, claim.run);
    if Do(cfg, u, claim).Ok? {
      RewriteNeedsLease(cfg, u, claim);
      assert false;
    }
  }
}
