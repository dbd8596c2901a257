/** Two runs of the store that go through: one to COMPLETED by both its effects, one to an APPLIED reconciliation. */
module StoreCompletion {
  import opened Common
  import opened RunLog
  import opened StoreModel
  import opened StoreSteps
  import opened StoreInvariant
  import opened StoreRunMethods
  import opened StoreEffectMethods
  import opened StoreOutcomes
  import opened StoreTheorems
  import opened StoreGuarantees
  import opened StoreWindows
  import opened StoreResults
  import opened StoreRecovery
  import opened StoreConditions
  import opened StoreReservations
  import opened StoreEffectConditions
  import opened StoreWitness

  /** Run 0 in this status and version, with `n` events, long validated by its own lease. */
  ghost predicate Stage(s: State, v: Validation, status: Status, version: nat, n: nat) {
    && s.now == LATER && s.runs == map[0 := Row(status, version)] && Logged(s, n)
    && v.run == 0 && v.leaseId == 0 && v.worker == WORKER && v.generation == 1 && v.completedAt == 0
    && Get(s.candidates, 0) != [] && Validations(s, 0) == [v]
  }

  lemma StageStands(cfg: Config, s: State, v: Validation, status: Status, version: nat, n: nat)
    requires Accepts(cfg) && Stage(s, v, status, version, n)
    ensures Stands(cfg, s, 0) && ByItsHolder(s, 0)
    ensures Guards(s, 0, 0, WORKER, 1, version)
  {
  }

  /** The effect tables of `t` are those of `s`. */
  ghost predicate SameEffects(s: State, t: State) {
    && t.approvals == s.approvals && t.intents == s.intents && t.reservations == s.reservations
    && t.attempts == s.attempts && t.receipts == s.receipts && t.failures == s.failures
    && t.reconciliations == s.reconciliations
  }

  // ----------------------------------------------------------------------------- statuses

  function NextMove(n: nat, from: Status, to: Status): Event {
    Event(n, 0, n, LATER, 0, WORKER, 1, StatusChanged(from, to))
  }

  /** Every reservation was spent and its attempt has succeeded. */
  ghost predicate AllSettled(s: State) {
    forall k :: k in s.reservations ==>
      match s.reservations[k].state
      case Consumed(a, _, _) => a in s.attempts && s.attempts[a].state == Succeeded
      case _ => false
  }

  lemma SettledNotOpen(s: State)
    requires AllSettled(s)
    ensures !InvocationOpen(s, 0)
  {
  }

  lemma StageMoves(s: State, v: Validation, from: Status, to: Status, version: nat, n: nat, t: State)
    requires Stage(s, v, from, version, n)
    requires t == s.(runs := s.runs[0 := Moved(s.runs[0], to)],
                     logs := s.logs[0 := Log(s, 0) + [NextMove(n, from, to)]],
                     eventIds := s.eventIds + {n})
    ensures !Terminal(to) ==> Stage(t, v, to, version + 1, n + 1)
    ensures 0 in t.runs && t.runs[0].status == to && SameEffects(s, t)
  {
    assert t.runs == map[0 := Moved(s.runs[0], to)];
    assert Log(t, 0) == Log(s, 0) + [NextMove(n, from, to)];
  }

  /** One status further, with the evidence there. */
  lemma Further(cfg: Config, s: State, v: Validation, from: Status, to: Status, version: nat, n: nat)
    returns (t: State)
    requires Reachable(cfg, s) && Stage(s, v, from, version, n) && n < 40 && AllSettled(s)
    requires SuccessOf(from) == Some(to) && !Terminal(from) && Evidence(cfg, s, 0, to)
    ensures Reachable(cfg, t) && SameEffects(s, t) && 0 in t.runs && t.runs[0].status == to
    ensures !Terminal(to) ==> Stage(t, v, to, version + 1, n + 1)
  {
    hide Reachable, Inv, Transition, Evidence, InvocationOpen, AllSettled, RunHere, Prerequisites, ActiveInvocation;
    var e := NextMove(n, from, to);
    var op := OpTransition(e, version);
    ReachableInv(cfg, s);
    SettledNotOpen(s);
    NextInStage(s, v, from, to, version, n);
    TransitionIff(cfg, s, e, version);
    RunIsHere(s, 0);
    ReachStep(cfg, s, op);
    t := After(cfg, s, op);
    TransitionMeaning(cfg, s, e, version, t);
    StageMoves(s, v, from, to, version, n, t);
  }

  lemma NextInStage(s: State, v: Validation, from: Status, to: Status, version: nat, n: nat)
    requires Stage(s, v, from, version, n) && n < 40
    ensures NextEvent(s, NextMove(n, from, to), version)
  {
  }

  // -------------------------------------------------------------------------- the first effect

  function Reported(i: IntentId, intent: Intent): ReceiptPayload {
    ReceiptPayload(i, intent.run, intent.kind, intent.target, intent.inputFp, intent.validation, intent.candidate,
                   intent.artifactSet, 1)
  }

  function FirstReceipt(v: Validation): Receipt {
    Receipt(Reported(0, Intended(v)), v, v.candidate, v.artifactSet)
  }

  /** The first effect is done. */
  ghost predicate FirstDone(s: State, v: Validation) {
    && s.intents == map[0 := Intended(v)] && s.receipts == map[0 := FirstReceipt(v)]
    && s.attempts == map[0 := Opened(Succeeded)]
    && s.reservations.Keys == {0} && s.reservations[0].token == 0
    && s.reservations[0].state.Consumed? && s.reservations[0].state.attempt == 0 && s.reservations[0].intent == 0
    && s.approvals.Keys == {0} && s.approvals[0].payload.kind == GithubReview
  }

  lemma EffectIsStage(s: State, v: Validation)
    requires ReadyForEffect(s, v, 13)
    ensures Stage(s, v, Validated, 13, 10)
  {
  }

  lemma SettledStage(s: State, v: Validation, t: State)
    requires Stage(s, v, Validated, 13, 10) && t == s.(receipts := t.receipts, attempts := t.attempts,
                                                       reconciliations := t.reconciliations)
    ensures Stage(t, v, Validated, 13, 10)
  {
    assert Log(t, 0) == Log(s, 0);
  }

  /** A receipt for the open attempt completes the first effect. */
  lemma SettledIsDone(s: State, v: Validation, was: AttemptState, t: State)
    requires Stage(s, v, Validated, 13, 10) && s.intents == map[0 := Intended(v)] && s.receipts == map[]
    requires s.approvals == map[0 := Approval(Approved(v), LATER)] && s.attempts == map[0 := Opened(was)]
    requires s.reservations.Keys == {0} && s.reservations[0].token == 0 && s.reservations[0].intent == 0
    requires s.reservations[0].state == Consumed(0, 0, LATER)
    requires t == Settles(s, 0, Reported(0, Intended(v))).(reconciliations := t.reconciliations)
    ensures Stage(t, v, Validated, 13, 10) && FirstDone(t, v) && AllSettled(t)
  {
    SettledStage(s, v, t);
    assert s.now == LATER;
    hide Stage, Reported, Approved, Intended;
    Only(s.receipts, 0, FirstReceipt(v));
    Only(s.attempts, 0, Opened(Succeeded));
  }

  lemma DoOutcome(cfg: Config, s: State, op: Op)
    ensures op.OpRecordSuccess? ==>
              Do(cfg, s, op) == RecordSuccess(cfg, s, op.attemptId, op.worker, op.fence, op.payload)
    ensures op.OpRecordAmbiguous? ==>
              Do(cfg, s, op) == RecordAmbiguous(s, op.attemptId, op.worker, op.fence, op.failure)
    ensures op.OpReconcile? ==>
              Do(cfg, s, op) == Reconcile(cfg, s, op.run, op.guard, op.attemptId, op.worker, op.fence, op.outcome,
                                          op.proof, op.receipt)
  {
    hide RecordSuccess, RecordAmbiguous, Reconcile, CreateRun, ClaimDue, RenewLease, ReleaseLease, Transition,
      ScheduleRetry, AppendRecord, AppendCandidate, IssueValidation, RecordApproval, BeginEffect, Reserve, Consume,
      Cancel;
  }

  /** The outcome of the first effect, known at once. */
  lemma FirstEffect(cfg: Config) returns (s: State, v: Validation)
    requires Accepts(cfg)
    ensures Reachable(cfg, s) && Stage(s, v, Validated, 13, 10) && FirstDone(s, v) && AllSettled(s)
  {
    hide Reachable, Do, RecordSuccess, Stands, ReadyForEffect, Stage, FirstDone, AllSettled;
    var open;
    open, v := ConsumedState(cfg);
    EffectIsStage(open, v);
    StageStands(cfg, open, v, Validated, 13, 10);
    var op := OpRecordSuccess(0, WORKER, 0, Reported(0, Intended(v)));
    SuccessIff(cfg, open, 0, WORKER, 0, Reported(0, Intended(v)));
    DoOutcome(cfg, open, op);
    s := Settles(open, 0, Reported(0, Intended(v)));
    Commits(cfg, open, op, s);
    SettledIsDone(open, v, ReadyToInvoke, s);
  }

  /** The first effect, its outcome unknown. */
  lemma FirstAmbiguity(cfg: Config) returns (s: State, v: Validation)
    requires Accepts(cfg)
    ensures Reachable(cfg, s) && ReadyForEffect(s, v, 13)
    ensures s.approvals == map[0 := Approval(Approved(v), LATER)] && s.intents == map[0 := Intended(v)]
    ensures s.reservations.Keys == {0} && s.reservations[0].token == 0 && s.reservations[0].intent == 0
    ensures s.reservations[0].state == Consumed(0, 0, LATER)
    ensures s.attempts == map[0 := Opened(ReconciliationRequired)]
    ensures s.receipts == map[] && s.reconciliations == map[]
  {
    hide Reachable, Do, RecordAmbiguous, ReadyForEffect;
    var open;
    open, v := ConsumedState(cfg);
    AmbiguousIff(cfg, open, 0, WORKER, 0, 9);
    var fail := OpRecordAmbiguous(0, WORKER, 0, 9);
    DoOutcome(cfg, open, fail);
    s := RecordAmbiguous(open, 0, WORKER, 0, 9).value;
    Commits(cfg, open, fail, s);
    WaitingIsReady(open, v, s);
    assert open.attempts[0 := Opened(ReconciliationRequired)] == map[0 := Opened(ReconciliationRequired)] by {
      ReadyNow(open, v);
    }
  }

  lemma ReadyNow(s: State, v: Validation)
    requires ReadyForEffect(s, v, 13)
    ensures s.now == LATER
  {
  }

  /** The outcome of the first effect, first ambiguous and then proved. */
  lemma FirstEffectProved(cfg: Config) returns (s: State, v: Validation)
    requires Accepts(cfg)
    ensures Reachable(cfg, s) && Stage(s, v, Validated, 13, 10) && FirstDone(s, v) && AllSettled(s)
    ensures 0 in s.reconciliations && s.reconciliations[0] == Reconciliation(Applied, 5)
  {
    hide Reachable, Do, Reconcile, Stands, ReadyForEffect, Stage, FirstDone, AllSettled, Guards;
    var open;
    open, v := FirstAmbiguity(cfg);
    EffectIsStage(open, v);
    StageStands(cfg, open, v, Validated, 13, 10);
    var answer := Some(Reported(0, Intended(v)));
    ReconcileIff(cfg, open, 0, Held(13), 0, WORKER, 0, Applied, 5, answer);
    var prove := OpReconcile(0, Held(13), 0, WORKER, 0, Applied, 5, answer);
    DoOutcome(cfg, open, prove);
    s := Proved(open, 0, Applied, 5, answer);
    Commits(cfg, open, prove, s);
    SettledIsDone(open, v, ReconciliationRequired, s);
  }

  lemma WaitingIsReady(s: State, v: Validation, t: State)
    requires ReadyForEffect(s, v, 13) && t == s.(failures := t.failures, attempts := t.attempts)
    ensures ReadyForEffect(t, v, 13) && Log(t, 0) == Log(s, 0)
  {
  }

  // ------------------------------------------------------------------------- the second effect

  lemma OneReceipt(s: State, v: Validation)
    requires s.intents == map[0 := Intended(v)] && s.receipts == map[0 := FirstReceipt(v)]
    ensures |ReceiptsOf(s.intents, s.receipts, 0, GithubReview)| == 1
  {
    assert ReceiptsOf(s.intents, s.receipts, 0, GithubReview) == {0};
  }

  /** On to WRITEBACK_PENDING, once the review effect is done. */
  lemma Reviewed(cfg: Config, before: State, v: Validation) returns (s: State)
    requires Accepts(cfg) && Reachable(cfg, before) && Stage(before, v, Validated, 13, 10)
    requires FirstDone(before, v) && AllSettled(before)
    ensures Reachable(cfg, s) && Stage(s, v, WritebackPending, 15, 12) && SameEffects(before, s)
  {
    hide Reachable, Stage, ReceiptsOf, Stands, AllSettled, Intended, FirstReceipt;
    OneReceipt(before, v);
    ReviewEvidence(cfg, before, v);
    var mid := Further(cfg, before, v, Validated, ReviewArtifactCreated, 13, 10);
    SettledSame(before, mid);
    s := Further(cfg, mid, v, ReviewArtifactCreated, WritebackPending, 14, 11);
  }

  lemma ReviewEvidence(cfg: Config, s: State, v: Validation)
    requires Accepts(cfg) && Stage(s, v, Validated, 13, 10)
    requires |ReceiptsOf(s.intents, s.receipts, 0, GithubReview)| == 1
    ensures 0 in s.runs && Evidence(cfg, s, 0, ReviewArtifactCreated)
  {
    hide ReceiptsOf;
  }

  lemma SettledSame(s: State, t: State)
    requires AllSettled(s) && SameEffects(s, t)
    ensures AllSettled(t)
  {
  }

  function SecondPayload(v: Validation): ApprovalPayload {
    ApprovalPayload(0, DatahubWriteback, "d", 4, v, "a", GIVEN, LIFE)
  }

  function SecondIntent(v: Validation): Intent {
    Intent(0, DatahubWriteback, "d", "k", 4, v, v.candidate, v.artifactSet)
  }

  lemma SecondMayApprove(cfg: Config, s: State, v: Validation)
    requires Accepts(cfg) && Stage(s, v, WritebackPending, 15, 12)
    ensures MayApprove(cfg, s, Held(15), SecondPayload(v))
    ensures Validations(s, 0) == [v]
  {
  }

  lemma SecondIsNew(s: State, v: Validation)
    requires s.approvals.Keys == {0} && s.approvals[0].payload.kind == GithubReview
    ensures !IsStored(s, SecondPayload(v)) && ComesNewest(s, 1, SecondPayload(v))
  {
  }

  lemma SecondGranted(cfg: Config, s: State, v: Validation, t: State)
    requires Accepts(cfg) && s.approvals.Keys == {0} && s.approvals[0].payload.kind == GithubReview && s.now == LATER
    requires t == s.(approvals := s.approvals[1 := Approval(SecondPayload(v), LATER)])
    ensures Granted(cfg, t, 1, 0, DatahubWriteback, "d", 4)
  {
  }

  lemma StageNow(s: State, v: Validation, status: Status, version: nat, n: nat)
    requires Stage(s, v, status, version, n)
    ensures s.now == LATER && s.runs == map[0 := Row(status, version)] && Validations(s, 0) == [v] && v.run == 0
  {
  }

  lemma StageKept(s: State, v: Validation, status: Status, version: nat, n: nat, t: State, later: nat)
    requires Stage(s, v, status, version, n) && t.now == s.now && t.logs == s.logs && t.eventIds == s.eventIds
    requires t.candidates == s.candidates && t.validations == s.validations && t.runs == map[0 := Row(status, later)]
    ensures Stage(t, v, status, later, n)
  {
    assert Log(t, 0) == Log(s, 0);
  }

  lemma DoApproval(cfg: Config, s: State, op: Op)
    requires op.OpRecordApproval?
    ensures Do(cfg, s, op) == RecordApproval(cfg, s, op.run, op.guard, op.kind, op.target, op.inputFp, op.approvedBy,
                                             op.approvedAt, op.expiresAt, op.approvalId)
  {
    hide RecordApproval;
  }

  lemma DoBegin(cfg: Config, s: State, op: Op)
    requires op.OpBeginEffect?
    ensures Do(cfg, s, op) == BeginEffect(cfg, s, op.run, op.guard, op.kind, op.target, op.key, op.inputFp, op.intentId)
  {
    hide BeginEffect;
  }

  lemma SecondApproved(cfg: Config, before: State, v: Validation) returns (s: State)
    requires Accepts(cfg) && Reachable(cfg, before) && Stage(before, v, WritebackPending, 15, 12)
    requires FirstDone(before, v)
    ensures Reachable(cfg, s) && Stage(s, v, WritebackPending, 15, 12)
    ensures s == before.(approvals := s.approvals) && Granted(cfg, s, 1, 0, DatahubWriteback, "d", 4)
  {
    hide Reachable, Inv, Do, RecordApproval, Stage, MayApprove, IsStored, ComesNewest, Granted, FirstReceipt, Opened;
    var p := SecondPayload(v);
    var op := OpRecordApproval(0, Held(15), DatahubWriteback, "d", 4, "a", GIVEN, LIFE, 1);
    StageNow(before, v, WritebackPending, 15, 12);
    SecondMayApprove(cfg, before, v);
    SecondIsNew(before, v);
    ReachableInv(cfg, before);
    ApprovalIff(cfg, before, Held(15), p, 1);
    DoApproval(cfg, before, op);
    s := before.(approvals := before.approvals[1 := Approval(p, LATER)]);
    Commits(cfg, before, op, s);
    SecondGranted(cfg, before, v, s);
    StageKept(before, v, WritebackPending, 15, 12, s, 15);
  }

  lemma SecondMayBegin(cfg: Config, s: State, v: Validation)
    requires Accepts(cfg) && Stage(s, v, WritebackPending, 15, 12) && Granted(cfg, s, 1, 0, DatahubWriteback, "d", 4)
    ensures MayBegin(cfg, s, Held(15), SecondIntent(v)) && OverLast(s, SecondIntent(v))
  {
    hide Granted;
  }

  lemma SecondBegins(cfg: Config, before: State, v: Validation) returns (s: State)
    requires Accepts(cfg) && Reachable(cfg, before) && Stage(before, v, WritebackPending, 15, 12)
    requires before.intents == map[0 := Intended(v)] && Granted(cfg, before, 1, 0, DatahubWriteback, "d", 4)
    ensures Reachable(cfg, s) && Stage(s, v, WritebackPending, 16, 12)
    ensures s == before.(intents := map[0 := Intended(v), 1 := SecondIntent(v)], runs := s.runs)
    ensures Granted(cfg, s, 1, 0, DatahubWriteback, "d", 4)
  {
    hide Reachable, Inv, Do, BeginEffect, Stage, MayBegin, OverLast, Granted;
    var op := OpBeginEffect(0, Held(15), DatahubWriteback, "d", "k", 4, 1);
    StageNow(before, v, WritebackPending, 15, 12);
    SecondMayBegin(cfg, before, v);
    ReachableInv(cfg, before);
    BeginIff(cfg, before, Held(15), SecondIntent(v), 1);
    DoBegin(cfg, before, op);
    s := BeginEffect(cfg, before, 0, Held(15), DatahubWriteback, "d", "k", 4, 1).value;
    Commits(cfg, before, op, s);
    Only(before.runs, 0, Row(WritebackPending, 16));
    assert before.intents[1 := SecondIntent(v)] == map[0 := Intended(v), 1 := SecondIntent(v)];
    StageKept(before, v, WritebackPending, 15, 12, s, 16);
    GrantKept(cfg, before, s);
  }

  lemma GrantKept(cfg: Config, s: State, t: State)
    requires t.approvals == s.approvals && t.now == s.now && Granted(cfg, s, 1, 0, DatahubWriteback, "d", 4)
    ensures Granted(cfg, t, 1, 0, DatahubWriteback, "d", 4)
  {
    assert forall b: ApprovalId ::
        Grants(t, b, 0, DatahubWriteback, "d", 4) <==> Grants(s, b, 0, DatahubWriteback, "d", 4);
  }

  /** Both intents begun, the first one's effect done, and nothing of the second yet. */
  ghost predicate SecondReady(s: State, v: Validation) {
    && s.intents == map[0 := Intended(v), 1 := SecondIntent(v)] && s.receipts == map[0 := FirstReceipt(v)]
    && s.attempts == map[0 := Opened(Succeeded)]
    && s.reservations.Keys == {0} && s.reservations[0].token == 0
    && s.reservations[0].state.Consumed? && s.reservations[0].state.attempt == 0 && s.reservations[0].intent == 0
  }

  lemma SecondMayReserve(s: State, v: Validation)
    requires Stage(s, v, WritebackPending, 16, 12) && s.intents == map[0 := Intended(v), 1 := SecondIntent(v)]
    ensures MayReserve(s, 0, DatahubWriteback, "d", 4, "k", 1, v)
  {
  }

  lemma SecondFresh(s: State, v: Validation)
    requires SecondReady(s, v)
    ensures FreshReservation(s, 1, 1, 1)
  {
  }

  lemma SecondReserved(cfg: Config, before: State, v: Validation) returns (s: State, res: Reservation)
    requires Accepts(cfg) && Reachable(cfg, before) && Stage(before, v, WritebackPending, 16, 12)
    requires SecondReady(before, v) && Granted(cfg, before, 1, 0, DatahubWriteback, "d", 4)
    ensures Reachable(cfg, s) && s == before.(reservations := before.reservations[1 := res])
    ensures res.state == Reserved && res.intent == 1 && Bound(before.intents, res) && Snapshot(before, res)
  {
    hide Reachable, Inv, Do, Reserve, Stage, MayReserve, FreshReservation, Granted, SecondReady, Bound, Snapshot;
    var op := OpReserve(0, DatahubWriteback, "d", 4, "k", 1, v, 1, 1);
    ReadyIntents(before, v);
    SecondMayReserve(before, v);
    SecondFresh(before, v);
    ReachableInv(cfg, before);
    ReserveIff(cfg, before, 0, DatahubWriteback, "d", 4, "k", 1, v, 1, 1);
    DoReserve(cfg, before, op);
    s := Reserve(cfg, before, 0, DatahubWriteback, "d", 4, "k", 1, v, 1, 1).value;
    Commits(cfg, before, op, s);
    res := ReserveMeaning(cfg, before, 0, DatahubWriteback, "d", 4, "k", 1, v, 1, 1, s);
    ReserveSnapshots(cfg, before, op, s);
  }

  lemma ReadyIntents(s: State, v: Validation)
    requires SecondReady(s, v)
    ensures s.intents == map[0 := Intended(v), 1 := SecondIntent(v)]
    ensures s.attempts == map[0 := Opened(Succeeded)]
  {
  }

  function ClaimOf(id: ReservationId, res: Reservation): Claim {
    Claim(id, res.token, res.run, res.intent, res.key, res.kind, res.target, res.inputFp, res.validation, res.approval,
          res.approvalFp, res.intentFp)
  }

  /** The second reservation spent under its first attempt. */
  ghost predicate SecondSpent(before: State, res: Reservation, s: State) {
    && s == before.(reservations := before.reservations[1 := res.(state := Consumed(1, 1, before.now))],
                    attempts := s.attempts)
    && 1 in s.attempts && s.attempts == before.attempts[1 := s.attempts[1]]
    && s.attempts[1].intent == 1 && s.attempts[1].worker == WORKER && s.attempts[1].fence == 1
    && s.attempts[1].state == ReadyToInvoke
  }

  lemma DoConsume(cfg: Config, s: State, op: Op)
    requires op.OpConsume?
    ensures Do(cfg, s, op) == Consume(s, op.claim, op.attemptId, op.fence)
  {
    hide Consume;
  }

  lemma SnapshotWindow(before: State, res: Reservation, s: State)
    requires Snapshot(before, res) && before.runs == map[0 := Row(WritebackPending, 16)]
    requires s == before.(reservations := before.reservations[1 := res])
    ensures InWindow(s, res) && res.worker == WORKER && res.run == 0
  {
  }

  lemma SecondConsumed(cfg: Config, before: State, v: Validation) returns (s: State, res: Reservation)
    requires Accepts(cfg) && Reachable(cfg, before) && Stage(before, v, WritebackPending, 16, 12)
    requires SecondReady(before, v) && Granted(cfg, before, 1, 0, DatahubWriteback, "d", 4)
    ensures Reachable(cfg, s) && SecondSpent(before, res, s) && res.intent == 1
  {
    hide Reachable, Inv, Do, Consume, Stage, Granted, SecondReady, Bound, Snapshot, InWindow, NextAttemptNumber,
      StillCurrent;
    var mid;
    mid, res := SecondReserved(cfg, before, v);
    StageNow(before, v, WritebackPending, 16, 12);
    ReadyIntents(before, v);
    SnapshotWindow(before, res, mid);
    var op := OpConsume(ClaimOf(1, res), 1, 1);
    ConsumeIff(cfg, mid, ClaimOf(1, res), 1, 1);
    DoConsume(cfg, mid, op);
    s := Consume(mid, ClaimOf(1, res), 1, 1).value;
    Commits(cfg, mid, op, s);
    ConsumeMeaning(mid, ClaimOf(1, res), 1, 1, s);
    var spent := res.(state := Consumed(1, 1, before.now));
    assert mid.reservations[1 := spent] == before.reservations[1 := spent];
  }

  function SecondReceipt(v: Validation): Receipt {
    Receipt(Reported(1, SecondIntent(v)), v, v.candidate, v.artifactSet)
  }

  lemma SpentStage(before: State, v: Validation, res: Reservation, s: State)
    requires Stage(before, v, WritebackPending, 16, 12) && SecondSpent(before, res, s)
    ensures Stage(s, v, WritebackPending, 16, 12)
  {
    hide SecondSpent;
    assert s == before.(reservations := s.reservations, attempts := s.attempts) by { SpentTables(before, res, s); }
    assert Log(s, 0) == Log(before, 0);
  }

  lemma SpentTables(before: State, res: Reservation, s: State)
    requires SecondSpent(before, res, s)
    ensures s == before.(reservations := s.reservations, attempts := s.attempts)
    ensures 1 in s.attempts && s.attempts[1].intent == 1 && Owned(s, 1, WORKER, 1)
    ensures s.attempts[1].state == ReadyToInvoke
  {
  }

  /** Both effects done. */
  ghost predicate BothDone(s: State, v: Validation) {
    && s.intents == map[0 := Intended(v), 1 := SecondIntent(v)]
    && s.receipts == map[0 := FirstReceipt(v), 1 := SecondReceipt(v)]
    && AllSettled(s)
  }

  lemma SecondSettled(cfg: Config, before: State, v: Validation) returns (s: State)
    requires Accepts(cfg) && Reachable(cfg, before) && Stage(before, v, WritebackPending, 16, 12)
    requires SecondReady(before, v) && Granted(cfg, before, 1, 0, DatahubWriteback, "d", 4)
    ensures Reachable(cfg, s) && Stage(s, v, WritebackPending, 16, 12) && BothDone(s, v)
    ensures s.reconciliations == before.reconciliations
  {
    hide Reachable, Do, RecordSuccess, Stands, Stage, Granted, SecondReady, SecondSpent, BothDone;
    var open, res := SecondConsumed(cfg, before, v);
    SpentStage(before, v, res, open);
    SpentTables(before, res, open);
    ReadyIntents(before, v);
    StageStands(cfg, open, v, WritebackPending, 16, 12);
    var op := OpRecordSuccess(1, WORKER, 1, Reported(1, SecondIntent(v)));
    SuccessIff(cfg, open, 1, WORKER, 1, Reported(1, SecondIntent(v)));
    DoOutcome(cfg, open, op);
    s := Settles(open, 1, Reported(1, SecondIntent(v)));
    Commits(cfg, open, op, s);
    StageNow(open, v, WritebackPending, 16, 12);
    StageKept(open, v, WritebackPending, 16, 12, s, 16);
    SettledBoth(before, v, res, open, s);
  }

  lemma SettledBoth(before: State, v: Validation, res: Reservation, open: State, s: State)
    requires SecondReady(before, v) && SecondSpent(before, res, open)
    requires s == Settles(open, 1, Reported(1, SecondIntent(v)))
    ensures BothDone(s, v)
  {
    hide Intended, FirstReceipt;
    assert open.receipts[1 := SecondReceipt(v)] == map[0 := FirstReceipt(v), 1 := SecondReceipt(v)];
  }

  lemma OneOfEach(s: State, v: Validation)
    requires BothDone(s, v)
    ensures |ReceiptsOf(s.intents, s.receipts, 0, GithubReview)| == 1
    ensures |ReceiptsOf(s.intents, s.receipts, 0, DatahubWriteback)| == 1
  {
    hide AllSettled;
    assert ReceiptsOf(s.intents, s.receipts, 0, GithubReview) == {0};
    assert ReceiptsOf(s.intents, s.receipts, 0, DatahubWriteback) == {1};
  }

  lemma CompletionEvidence(cfg: Config, s: State, v: Validation)
    requires Accepts(cfg) && Stage(s, v, WritebackPending, 16, 12)
    requires |ReceiptsOf(s.intents, s.receipts, 0, GithubReview)| == 1
    requires |ReceiptsOf(s.intents, s.receipts, 0, DatahubWriteback)| == 1
    ensures 0 in s.runs && Evidence(cfg, s, 0, Completed)
  {
    hide ReceiptsOf;
  }

  /** From the settled first effect through the second to COMPLETED. */
  lemma Complete(cfg: Config, first: State, v: Validation) returns (s: State)
    requires Accepts(cfg) && Reachable(cfg, first) && Stage(first, v, Validated, 13, 10)
    requires FirstDone(first, v) && AllSettled(first)
    ensures Reachable(cfg, s) && 0 in s.runs && s.runs[0].status == Completed
    ensures s.reconciliations == first.reconciliations
  {
    hide Reachable, Stage, Granted, AllSettled, ReceiptsOf, Stands;
    var pending := Reviewed(cfg, first, v);
    DoneSame(first, v, pending);
    var approved := SecondApproved(cfg, pending, v);
    var begun := SecondBegins(cfg, approved, v);
    ReadyAt(pending, v, begun);
    var done := SecondSettled(cfg, begun, v);
    OneOfEach(done, v);
    CompletionEvidence(cfg, done, v);
    s := Further(cfg, done, v, WritebackPending, Completed, 16, 12);
  }

  lemma DoneSame(s: State, v: Validation, t: State)
    requires FirstDone(s, v) && SameEffects(s, t)
    ensures FirstDone(t, v)
  {
  }

  lemma ReadyAt(s: State, v: Validation, t: State)
    requires FirstDone(s, v)
    requires t == s.(approvals := t.approvals, runs := t.runs, intents := map[0 := Intended(v), 1 := SecondIntent(v)])
    ensures SecondReady(t, v)
  {
  }

  /** A run of calls, from the empty database, that ends with a COMPLETED run and its two receipts. */
  lemma SomeRunCompletes(cfg: Config) returns (s: State)
    requires Accepts(cfg)
    ensures Reachable(cfg, s) && 0 in s.runs && s.runs[0].status == Completed
  {
    hide Reachable, Stage, FirstDone, AllSettled;
    var first, v := FirstEffect(cfg);
    s := Complete(cfg, first, v);
  }

  /** And one that gets there although its first effect's outcome was ambiguous, by an APPLIED proof. */
  lemma SomeProofCompletes(cfg: Config) returns (s: State)
    requires Accepts(cfg)
    ensures Reachable(cfg, s) && 0 in s.runs && s.runs[0].status == Completed
    ensures 0 in s.reconciliations && s.reconciliations[0].outcome == Applied
  {
    hide Reachable, Stage, FirstDone, AllSettled;
    var first, v := FirstEffectProved(cfg);
    s := Complete(cfg, first, v);
  }
}
