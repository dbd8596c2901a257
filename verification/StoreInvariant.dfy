/**
 The joint invariant of the run store: no single guard of the source implies it,
 every step keeps it. Each part names the tables it depends on.
 */
module StoreInvariant {
  import opened Common
  import opened RunLog
  import opened StoreModel
  import opened StoreSteps

  type Runs = map<RunId, RunRow>
  type Logs = map<RunId, seq<Event>>
  type ValidationRows = map<RunId, seq<Validation>>
  type Intents = map<IntentId, Intent>
  type Reservations = map<ReservationId, Reservation>
  type Attempts = map<AttemptId, Attempt>
  type Receipts = map<IntentId, Receipt>
  type Proofs = map<AttemptId, Reconciliation>

  // ------------------------------------------------------------------------ runs

  /** The log's cursor holds exactly these row columns, and ends no later than `now`. */
  ghost predicate CursorFits(r: RunId, status: Status, lease: Option<Lease>, generation: nat, log: seq<Event>,
                             now: Time) {
    && Fold(log).Some?
    && var c := Fold(log).value;
    && c.status == status
    && c.highest == generation
    && (c.run.Some? ==> c.run.value == r)
    && c.at <= now
    && c.lease == (match lease
                   case None => None
                   case Some(l) => Some(ActiveLease(l.id, l.worker, generation, l.expiresAt)))
  }

  /** Statuses that only an accepted validation can lead to. */
  predicate NeedsValidation(s: Status) {
    s.Validated? || s.ReviewArtifactCreated? || s.WritebackPending? || s.Completed?
    || s.FailedGithub? || s.FailedWriteback?
  }

  ghost predicate RunOk(now: Time, r: RunId, row: RunRow, log: seq<Event>, vs: seq<Validation>) {
    && CursorFits(r, row.status, row.lease, row.generation, log, now)
    && (forall v :: v in vs ==> v.run == r && 0 < |v.stream| && v.stream <= log)
    && (vs != [] ==> row.mode == Live && Rank(row.status) >= 8)
    && (NeedsValidation(row.status) ==> vs != [])
    && (Terminal(row.status) ==> row.lease.None?)
  }

  ghost predicate RunsOk(now: Time, runs: Runs, logs: Logs, vs: ValidationRows) {
    && 0 <= now
    && logs.Keys <= runs.Keys
    && vs.Keys <= runs.Keys
    && forall r :: r in runs ==> RunOk(now, r, runs[r], Get(logs, r), Get(vs, r))
  }

  // ------------------------------------------------------------ approvals, intents

  /** Nothing can validate this run again, and it was validated with exactly `v` last. */
  ghost predicate Settled(runs: Runs, vs: ValidationRows, r: RunId, v: Validation) {
    && r in runs && v.run == r
    && runs[r].mode == Live
    && Rank(runs[r].status) >= 9
    && Latest(Get(vs, r)) == Some(v)
  }

  ghost predicate IntentOk(runs: Runs, vs: ValidationRows, intent: Intent) {
    && Settled(runs, vs, intent.run, intent.validation)
    && intent.candidate == intent.validation.candidate
    && intent.artifactSet == intent.validation.artifactSet
  }

  ghost predicate KeysUnique(intents: Intents) {
    forall i, j | i in intents && j in intents
               && SameKey(intents[i], intents[j].kind, intents[j].target, intents[j].key) :: i == j
  }

  ghost predicate IntentsOk(runs: Runs, vs: ValidationRows, intents: Intents) {
    (forall i :: i in intents ==> IntentOk(runs, vs, intents[i])) && KeysUnique(intents)
  }

  /** Given after the validation it approves, stored no earlier than given, and for at most an hour from then. */
  ghost predicate ApprovalTimely(a: Approval) {
    && a.payload.validation.completedAt <= a.payload.approvedAt <= a.createdAt
    && a.createdAt < a.payload.expiresAt <= a.createdAt + 3_600_000
  }

  ghost predicate ApprovalsOk(runs: Runs, vs: ValidationRows, approvals: map<ApprovalId, Approval>) {
    forall a :: a in approvals ==>
      Settled(runs, vs, approvals[a].payload.run, approvals[a].payload.validation) && ApprovalTimely(approvals[a])
  }

  // ------------------------------------------------------- reservations, attempts

  /** The run still stands exactly where the reservation was consumed. */
  ghost predicate Pinned(runs: Runs, res: Reservation) {
    && res.run in runs
    && runs[res.run].status == EffectState(res.kind)
    && LeaseIdentity(runs[res.run]) == Some((res.leaseId, res.worker))
    && runs[res.run].generation == res.generation
  }

  /** Fixed when the reservation is written. */
  ghost predicate Bound(intents: Intents, res: Reservation) {
    && res.intent in intents
    && res.intentFp == intents[res.intent]
    && res.run == res.intentFp.run && res.kind == res.intentFp.kind && res.target == res.intentFp.target
    && res.key == res.intentFp.key && res.inputFp == res.intentFp.inputFp
    && res.validation == res.intentFp.validation
    && res.runStatus == EffectState(res.kind)
  }

  /** The partial unique index on active reservations. */
  ghost predicate ActiveUnique(reservations: Reservations) {
    forall k, l | k in reservations && l in reservations && reservations[k].intent == reservations[l].intent
               && !reservations[k].state.CancelledPreSend? && !reservations[l].state.CancelledPreSend? :: k == l
  }

  ghost predicate ReservationsOk(intents: Intents, reservations: Reservations) {
    (forall k :: k in reservations ==> Bound(intents, reservations[k])) && ActiveUnique(reservations)
  }

  ghost predicate PinsOk(runs: Runs, reservations: Reservations, receipts: Receipts, proofs: Proofs) {
    forall k :: k in reservations && Unresolved(receipts, proofs, reservations[k]) ==> Pinned(runs, reservations[k])
  }

  /** A consumed reservation and its attempt point at each other. */
  ghost predicate Linked(k: ReservationId, res: Reservation, a: AttemptId, attempt: Attempt) {
    && res.state.Consumed? && res.state.attempt == a && res.state.fence == attempt.fence
    && attempt.reservation == k
    && res.intent == attempt.intent
    && res.worker == attempt.worker
    && attempt.number == 1
  }

  ghost predicate LinksOk(reservations: Reservations, attempts: Attempts) {
    && (forall k :: k in reservations && reservations[k].state.Consumed? ==>
          reservations[k].state.attempt in attempts
          && Linked(k, reservations[k], reservations[k].state.attempt, attempts[reservations[k].state.attempt]))
    && (forall a :: a in attempts ==>
          attempts[a].reservation in reservations
          && Linked(attempts[a].reservation, reservations[attempts[a].reservation], a, attempts[a]))
  }

  // ---------------------------------------------------------------------- outcomes

  /** An attempt has succeeded exactly when its intent has a receipt. */
  ghost predicate SuccessOk(attempts: Attempts, receipts: Receipts) {
    forall a :: a in attempts ==> (attempts[a].state.Succeeded? <==> attempts[a].intent in receipts)
  }

  ghost predicate ReceiptOk(i: IntentId, intent: Intent, receipt: Receipt) {
    && receipt.payload == ExpectedPayload(i, intent, receipt.payload.body)
    && receipt.validation == intent.validation
    && receipt.candidate == intent.candidate
    && receipt.artifactSet == intent.artifactSet
  }

  ghost predicate ConsumedFor(reservations: Reservations, i: IntentId) {
    exists k :: k in reservations && reservations[k].intent == i && reservations[k].state.Consumed?
  }

  ghost predicate ReceiptsOk(intents: Intents, receipts: Receipts) {
    forall i :: i in receipts ==> i in intents && ReceiptOk(i, intents[i], receipts[i])
  }

  ghost predicate ReceiptsPaidFor(reservations: Reservations, receipts: Receipts) {
    forall i :: i in receipts ==> ConsumedFor(reservations, i)
  }

  ghost predicate ProofsOk(attempts: Attempts, proofs: Proofs) {
    forall a :: a in proofs ==>
      && a in attempts
      && attempts[a].state == if proofs[a].outcome.Applied? then Succeeded else ReconciliationRequired
  }

  predicate PastGithub(s: Status) {
    s.ReviewArtifactCreated? || s.WritebackPending? || s.Completed? || s.FailedWriteback?
  }

  /** The effects a run of this status must show, and no others of their kind. */
  ghost predicate EffectsDone(intents: Intents, receipts: Receipts, r: RunId, status: Status) {
    && (PastGithub(status) ==> |ReceiptsOf(intents, receipts, r, GithubReview)| == 1)
    && (status.Completed? ==> |ReceiptsOf(intents, receipts, r, DatahubWriteback)| == 1)
  }

  ghost predicate CompletionOk(runs: Runs, intents: Intents, receipts: Receipts) {
    forall r :: r in runs ==> EffectsDone(intents, receipts, r, runs[r].status)
  }

  ghost predicate Inv(s: State) {
    && RunsOk(s.now, s.runs, s.logs, s.validations)
    && IntentsOk(s.runs, s.validations, s.intents)
    && ApprovalsOk(s.runs, s.validations, s.approvals)
    && ReservationsOk(s.intents, s.reservations)
    && PinsOk(s.runs, s.reservations, s.receipts, s.reconciliations)
    && LinksOk(s.reservations, s.attempts)
    && SuccessOk(s.attempts, s.receipts)
    && ReceiptsOk(s.intents, s.receipts)
    && ReceiptsPaidFor(s.reservations, s.receipts)
    && ProofsOk(s.attempts, s.reconciliations)
    && CompletionOk(s.runs, s.intents, s.receipts)
  }

  // ------------------------------------------- steps that touch one run's own rows

  ghost predicate EffectsUntouched(s: State, t: State) {
    && t.now == s.now
    && t.approvals == s.approvals && t.intents == s.intents && t.reservations == s.reservations
    && t.attempts == s.attempts && t.receipts == s.receipts && t.failures == s.failures
    && t.reconciliations == s.reconciliations
  }

  /** Appended at the end of one run's list, if at all. */
  ghost predicate Appended<T>(before: map<RunId, seq<T>>, after: map<RunId, seq<T>>, r: RunId) {
    after == before || (r in after && after == before[r := after[r]] && Get(before, r) <= after[r])
  }

  ghost predicate RowAdvances(a: RunRow, b: RunRow) {
    && b.mode == a.mode && b.requestKey == a.requestKey && b.inputFp == a.inputFp
    && b.version == a.version + 1
    && a.generation <= b.generation <= a.generation + 1
    && (b.status == a.status || Adjacent(a.status, b.status))
    && !Terminal(a.status)
  }

  /** One method moved run `r`: its row, its log, its validations, and no other run's. */
  ghost predicate RunStep(s: State, t: State, r: RunId) {
    && r in s.runs && EffectsUntouched(s, t)
    && r in t.runs && t.runs == s.runs[r := t.runs[r]]
    && (t.logs == s.logs || (r in t.logs && t.logs == s.logs[r := t.logs[r]]))
    && (t.validations == s.validations
        || (&& r in t.validations && t.validations == s.validations[r := t.validations[r]]
            && s.runs[r].status == Validating && t.runs[r].status == Validating))
    && Appended(s.records, t.records, r) && Appended(s.candidates, t.candidates, r)
    && RowAdvances(s.runs[r], t.runs[r])
    && RunOk(t.now, r, t.runs[r], Log(t, r), Validations(t, r))
    && Log(s, r) <= Log(t, r) && Validations(s, r) <= Validations(t, r)
    && (SameAuthority(s.runs[r], t.runs[r]) || !ActiveInvocation(s, r))
    && (t.runs[r].status == s.runs[r].status || EffectsDone(s.intents, s.receipts, r, t.runs[r].status))
  }

  lemma RunStepSettled(s: State, t: State, r: RunId, q: RunId, v: Validation)
    requires RunStep(s, t, r) && Settled(s.runs, s.validations, q, v)
    ensures Settled(t.runs, t.validations, q, v)
  {
    if q == r && t.runs[r].status != s.runs[r].status {
      EdgeRaisesRank(s.runs[r].status, t.runs[r].status);
    }
  }

  lemma RunStepPins(s: State, t: State, r: RunId)
    requires RunStep(s, t, r) && PinsOk(s.runs, s.reservations, s.receipts, s.reconciliations)
    ensures PinsOk(t.runs, t.reservations, t.receipts, t.reconciliations)
  {
    hide RunOk, RowAdvances;
    forall k | k in t.reservations && Unresolved(t.receipts, t.reconciliations, t.reservations[k])
      ensures Pinned(t.runs, t.reservations[k])
    {
      if t.reservations[k].run == r {
        assert Outstanding(s.now, s.receipts, s.reconciliations, s.reservations[k]);
        assert ActiveInvocation(s, r);
      }
    }
  }

  lemma RunStepRuns(s: State, t: State, r: RunId)
    requires RunStep(s, t, r) && RunsOk(s.now, s.runs, s.logs, s.validations)
    ensures RunsOk(t.now, t.runs, t.logs, t.validations)
  {
    hide RunOk, RowAdvances, ActiveInvocation;
    forall q | q in t.runs
      ensures RunOk(t.now, q, t.runs[q], Get(t.logs, q), Get(t.validations, q))
    {
      if q != r {
        assert RunOk(s.now, q, s.runs[q], Get(s.logs, q), Get(s.validations, q));
      }
    }
  }

  lemma RunStepIntents(s: State, t: State, r: RunId)
    requires RunStep(s, t, r) && IntentsOk(s.runs, s.validations, s.intents)
    requires ApprovalsOk(s.runs, s.validations, s.approvals)
    ensures IntentsOk(t.runs, t.validations, t.intents)
    ensures ApprovalsOk(t.runs, t.validations, t.approvals)
  {
    hide RunStep, Settled, KeysUnique;
    assert t.intents == s.intents && t.approvals == s.approvals by { RunStepFrame(s, t, r); }
    forall i | i in t.intents ensures IntentOk(t.runs, t.validations, t.intents[i]) {
      RunStepSettled(s, t, r, s.intents[i].run, s.intents[i].validation);
    }
    forall a | a in t.approvals
      ensures Settled(t.runs, t.validations, t.approvals[a].payload.run, t.approvals[a].payload.validation)
      ensures ApprovalTimely(t.approvals[a])
    {
      RunStepSettled(s, t, r, s.approvals[a].payload.run, s.approvals[a].payload.validation);
    }
  }

  lemma RunStepFrame(s: State, t: State, r: RunId)
    requires RunStep(s, t, r)
    ensures EffectsUntouched(s, t)
  {
  }

  lemma RunStepCompletion(s: State, t: State, r: RunId)
    requires RunStep(s, t, r) && CompletionOk(s.runs, s.intents, s.receipts)
    ensures CompletionOk(t.runs, t.intents, t.receipts)
  {
    hide RunOk, RowAdvances, ActiveInvocation, ReceiptsOf;
  }

  lemma RunStepKeepsInv(s: State, t: State, r: RunId)
    requires Inv(s) && RunStep(s, t, r)
    ensures Inv(t)
  {
    hide RunStep, RunsOk, IntentsOk, ApprovalsOk, ReservationsOk, PinsOk, LinksOk, SuccessOk, ReceiptsOk,
      ReceiptsPaidFor, ProofsOk, CompletionOk;
    RunStepFrame(s, t, r);
    RunStepRuns(s, t, r);
    RunStepPins(s, t, r);
    RunStepIntents(s, t, r);
    RunStepCompletion(s, t, r);
  }
}
