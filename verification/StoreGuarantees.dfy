/** The guarantees the run store gives its callers, over every reachable state and every later step. */
module StoreGuarantees {
  import opened Common
  import opened RunLog
  import opened StoreModel
  import opened StoreSteps
  import opened StoreInvariant
  import opened StoreRunMethods
  import opened StoreEffectMethods
  import opened StoreOutcomes
  import opened StoreTheorems

  // ------------------------------------------------------------------- completion

  /** One GitHub receipt and one DataHub receipt, all bound to the run's latest validation. */
  ghost predicate CompletedBy(s: State, r: RunId, g: IntentId, d: IntentId, v: Validation) {
    && ReceiptsOf(s.intents, s.receipts, r, GithubReview) == {g}
    && ReceiptsOf(s.intents, s.receipts, r, DatahubWriteback) == {d}
    && LatestValidation(s, r) == Some(v)
    && BoundTo(s, g, v) && BoundTo(s, d, v)
  }

  ghost predicate BoundTo(s: State, i: IntentId, v: Validation) {
    && i in s.receipts && i in s.intents
    && s.receipts[i].validation == v && s.receipts[i].candidate == v.candidate
        && s.receipts[i].artifactSet == v.artifactSet
    && s.receipts[i].payload == ExpectedPayload(i, s.intents[i], s.receipts[i].payload.body)
    && s.intents[i].validation == v
  }

  lemma ReceiptIsBoundTo(s: State, r: RunId, kind: Kind, i: IntentId)
    requires IntentsOk(s.runs, s.validations, s.intents) && ReceiptsOk(s.intents, s.receipts)
    requires i in ReceiptsOf(s.intents, s.receipts, r, kind)
    ensures LatestValidation(s, r).Some? && BoundTo(s, i, LatestValidation(s, r).value)
  {
    hide KeysUnique;
    assert IntentOk(s.runs, s.validations, s.intents[i]) && ReceiptOk(i, s.intents[i], s.receipts[i]);
  }

  lemma OnlyOne<T>(xs: set<T>) returns (x: T)
    requires |xs| == 1
    ensures xs == {x}
  {
    x :| x in xs;
    assert |xs - {x}| == 0;
  }

  /** What the invariant says of a completed run, without its tables unfolded. */
  lemma CompletedShape(s: State, r: RunId)
    requires Inv(s) && r in s.runs && s.runs[r].status == Completed
    ensures |ReceiptsOf(s.intents, s.receipts, r, GithubReview)| == 1
    ensures |ReceiptsOf(s.intents, s.receipts, r, DatahubWriteback)| == 1
    ensures s.runs[r].mode == Live && s.runs[r].lease.None?
    ensures IntentsOk(s.runs, s.validations, s.intents) && ReceiptsOk(s.intents, s.receipts)
  {
    hide Inv, IntentsOk, ReceiptsOk, ReceiptsOf, Fold;
    EvidenceOf(s, r);
    RunIsHere(s, r);
    assert Validations(s, r) != [];
  }

  /** Every completed run shows exactly its two bound receipts. */
  lemma CompletedRunIsBound(cfg: Config, s: State, r: RunId) returns (g: IntentId, d: IntentId, v: Validation)
    requires Reachable(cfg, s) && r in s.runs && s.runs[r].status == Completed
    ensures CompletedBy(s, r, g, d, v)
    ensures s.runs[r].mode == Live && s.runs[r].lease.None?
  {
    hide Reachable, Inv, IntentsOk, ReceiptsOk, ReceiptsOf, BoundTo;
    ReachableInv(cfg, s);
    CompletedShape(s, r);
    g := OnlyOne(ReceiptsOf(s.intents, s.receipts, r, GithubReview));
    d := OnlyOne(ReceiptsOf(s.intents, s.receipts, r, DatahubWriteback));
    assert g in ReceiptsOf(s.intents, s.receipts, r, GithubReview);
    assert d in ReceiptsOf(s.intents, s.receipts, r, DatahubWriteback);
    ReceiptIsBoundTo(s, r, GithubReview, g);
    ReceiptIsBoundTo(s, r, DatahubWriteback, d);
    v := LatestValidation(s, r).value;
  }

  /** No later step of any worker changes what a completed run shows. */
  lemma CompletionIsFinal(cfg: Config, s: State, r: RunId, g: IntentId, d: IntentId, v: Validation, more: seq<Op>)
    requires Reachable(cfg, s) && r in s.runs && s.runs[r].status == Completed && CompletedBy(s, r, g, d, v)
    ensures var t := Run(cfg, s, more);
            && r in t.runs && t.runs[r] == s.runs[r] && Log(t, r) == Log(s, r)
            && Validations(t, r) == Validations(s, r)
            && CompletedBy(t, r, g, d, v)
            && g in t.receipts && t.receipts[g] == s.receipts[g]
            && d in t.receipts && t.receipts[d] == s.receipts[d]
  {
    hide Reachable, Inv, Evolves, ReceiptsOf, Run, Kept;
    var t := Run(cfg, s, more);
    ReachableInv(cfg, s);
    RunHolds(cfg, s, more);
    FrozenRun(s, t, r);
    CompletedShape(t, r);
    KeptEffects(s, t);
    SameSingleton(s, t, r, GithubReview, g);
    SameSingleton(s, t, r, DatahubWriteback, d);
    KeptBound(s, t, g, v);
    KeptBound(s, t, d, v);
  }

  lemma KeptEffects(s: State, t: State)
    requires Evolves(s, t)
    ensures Kept(s.intents, t.intents) && Kept(s.receipts, t.receipts)
  {
    hide Kept, RunsEvolve;
  }

  lemma KeptBound(s: State, t: State, i: IntentId, v: Validation)
    requires Kept(s.intents, t.intents) && Kept(s.receipts, t.receipts) && BoundTo(s, i, v)
    ensures BoundTo(t, i, v) && t.receipts[i] == s.receipts[i]
  {
  }

  lemma FrozenRun(s: State, t: State, r: RunId)
    requires Evolves(s, t) && r in s.runs && Terminal(s.runs[r].status)
    ensures r in t.runs && t.runs[r] == s.runs[r] && Log(t, r) == Log(s, r) && Validations(t, r) == Validations(s, r)
  {
  }

  lemma SameSingleton(s: State, t: State, r: RunId, kind: Kind, i: IntentId)
    requires Kept(s.intents, t.intents) && Kept(s.receipts, t.receipts)
    requires ReceiptsOf(s.intents, s.receipts, r, kind) == {i}
    requires |ReceiptsOf(t.intents, t.receipts, r, kind)| == 1
    ensures ReceiptsOf(t.intents, t.receipts, r, kind) == {i}
  {
    assert i in ReceiptsOf(s.intents, s.receipts, r, kind);
    var j := OnlyOne(ReceiptsOf(t.intents, t.receipts, r, kind));
    assert i in ReceiptsOf(t.intents, t.receipts, r, kind);
  }

  // ------------------------------------------------------------ authority is spent once

  /** One consumed reservation for each (kind, target, key). */
  lemma AuthoritySpentOnce(cfg: Config, s: State, k: ReservationId, l: ReservationId)
    requires Reachable(cfg, s) && k in s.reservations && l in s.reservations
    requires s.reservations[k].state.Consumed? && s.reservations[l].state.Consumed?
    requires s.reservations[k].kind == s.reservations[l].kind && s.reservations[k].target == s.reservations[l].target
             && s.reservations[k].key == s.reservations[l].key
    ensures k == l
  {
    hide Reachable, Inv, IntentsOk, ReservationsOk;
    ReachableInv(cfg, s);
    InvKeys(s);
    ActiveKeyUnique(s.intents, s.reservations, k, l);
  }

  lemma InvKeys(s: State)
    requires Inv(s)
    ensures KeysUnique(s.intents) && ReservationsOk(s.intents, s.reservations) && LinksOk(s.reservations, s.attempts)
  {
    hide KeysUnique, ReservationsOk, LinksOk, RunsOk, ApprovalsOk, PinsOk, SuccessOk, ReceiptsOk, ReceiptsPaidFor,
      ProofsOk,
      CompletionOk, IntentOk;
  }

  lemma ActiveKeyUnique(intents: Intents, reservations: Reservations, k: ReservationId, l: ReservationId)
    requires KeysUnique(intents) && ReservationsOk(intents, reservations)
    requires k in reservations && l in reservations
    requires !reservations[k].state.CancelledPreSend? && !reservations[l].state.CancelledPreSend?
    requires reservations[k].kind == reservations[l].kind && reservations[k].target == reservations[l].target
             && reservations[k].key == reservations[l].key
    ensures k == l
  {
    assert Bound(intents, reservations[k]) && Bound(intents, reservations[l]);
  }

  /** Every attempt belongs to the reservation consumed for its intent. */
  lemma AttemptBelongsToConsumption(cfg: Config, s: State, a: AttemptId, k: ReservationId)
    requires Reachable(cfg, s) && a in s.attempts && k in s.reservations && s.reservations[k].state.Consumed?
    requires s.attempts[a].intent == s.reservations[k].intent
    ensures s.attempts[a].reservation == k && s.reservations[k].state.attempt == a && s.attempts[a].number == 1
  {
    hide Reachable, Inv, ReservationsOk, LinksOk;
    ReachableInv(cfg, s);
    InvKeys(s);
    LinkedBothWays(s.intents, s.reservations, s.attempts, a, k);
  }

  lemma LinkedBothWays(intents: Intents, reservations: Reservations, attempts: Attempts, a: AttemptId, k: ReservationId)
    requires ReservationsOk(intents, reservations) && LinksOk(reservations, attempts)
    requires a in attempts && k in reservations && reservations[k].state.Consumed?
    requires attempts[a].intent == reservations[k].intent
    ensures attempts[a].reservation == k && reservations[k].state.attempt == a && attempts[a].number == 1
  {
    hide Bound;
    assert Linked(attempts[a].reservation, reservations[attempts[a].reservation], a, attempts[a]);
  }

  /** Consumed and cancelled are both final, so a cancelled reservation is never consumed. */
  lemma SpentOrCancelledForever(cfg: Config, s: State, k: ReservationId, more: seq<Op>)
    requires Reachable(cfg, s) && k in s.reservations && !s.reservations[k].state.Reserved?
    ensures k in Run(cfg, s, more).reservations && Run(cfg, s, more).reservations[k] == s.reservations[k]
  {
    hide Reachable, Inv, RunsEvolve, Run;
    ReachableInv(cfg, s);
    RunHolds(cfg, s, more);
  }

  // -------------------------------------------------------------- pinned while unresolved

  /** From consumption until its outcome is known, the run cannot move under a reservation. */
  lemma PinnedUntilResolved(cfg: Config, s: State, k: ReservationId, more: seq<Op>)
    requires Reachable(cfg, s) && k in s.reservations && s.reservations[k].state.Consumed?
    ensures var t := Run(cfg, s, more);
            && k in t.reservations && t.reservations[k] == s.reservations[k]
            && (Unresolved(t.receipts, t.reconciliations, t.reservations[k]) ==> Pinned(t.runs, s.reservations[k]))
  {
    hide Reachable, Inv, Evolves, Pinned, Run;
    SpentOrCancelledForever(cfg, s, k, more);
    ReachableInv(cfg, s);
    RunHolds(cfg, s, more);
    PinsOf(Run(cfg, s, more));
  }

  lemma PinsOf(s: State)
    requires Inv(s)
    ensures PinsOk(s.runs, s.reservations, s.receipts, s.reconciliations)
  {
    hide PinsOk;
  }

  /** Every receipt is recorded in the status its kind requires, under the identity that consumed it. */
  lemma ReceiptsRecordedInPlace(cfg: Config, s: State, op: Op, i: IntentId) returns (k: ReservationId)
    requires Reachable(cfg, s) && i !in s.receipts && i in After(cfg, s, op).receipts
    ensures op.OpRecordSuccess? || op.OpReconcile?
    ensures After(cfg, s, op).runs == s.runs
    ensures k in s.reservations && s.reservations[k].state.Consumed? && s.reservations[k].intent == i
    ensures Pinned(s.runs, s.reservations[k])
  {
    hide Reachable, Inv, After;
    ReachableInv(cfg, s);
    ReceiptWriters(cfg, s, op, i);
    OpenAttemptPinned(s, op.attemptId);
    k := s.attempts[op.attemptId].reservation;
  }

  lemma ReceiptWriters(cfg: Config, s: State, op: Op, i: IntentId)
    requires Inv(s) && i !in s.receipts && i in After(cfg, s, op).receipts
    ensures op.OpRecordSuccess? || op.OpReconcile?
    ensures After(cfg, s, op).runs == s.runs
    ensures op.attemptId in s.attempts && s.attempts[op.attemptId].intent == i
            && !s.attempts[op.attemptId].state.Succeeded? && op.attemptId !in s.reconciliations
  {
    hide Inv, Do, SuccessOk, ProofsOk;
    InvParts(s);
    var t := Do(cfg, s, op).value;
    if op.OpRecordSuccess? || op.OpReconcile? {
      OutcomeWrites(cfg, s, op, i, t);
    } else {
      OthersKeepReceipts(cfg, s, op, t);
    }
  }

  lemma OutcomeWrites(cfg: Config, s: State, op: Op, i: IntentId, t: State)
    requires SuccessOk(s.attempts, s.receipts) && ProofsOk(s.attempts, s.reconciliations)
    requires op.OpRecordSuccess? || op.OpReconcile?
    requires Do(cfg, s, op) == Ok(t) && i !in s.receipts && i in t.receipts
    ensures t.runs == s.runs
    ensures op.attemptId in s.attempts && s.attempts[op.attemptId].intent == i
            && !s.attempts[op.attemptId].state.Succeeded? && op.attemptId !in s.reconciliations
  {
    hide RecordSuccess, Reconcile, SuccessOk, ProofsOk;
    if op.OpRecordSuccess? {
      SuccessWrites(cfg, s, op.attemptId, op.worker, op.fence, op.payload, i, t);
    } else {
      ReconcileWrites(cfg, s, op.run, op.guard, op.attemptId, op.worker, op.fence, op.outcome, op.proof, op.receipt,
          i, t);
    }
  }

  lemma ReconcileWrites(cfg: Config, s: State, r: RunId, g: Guard, a: AttemptId, worker: string, fence: Fence,
                        outcome: ProofOutcome, proof: Fp, receipt: Option<ReceiptPayload>, i: IntentId, t: State)
    requires SuccessOk(s.attempts, s.receipts) && ProofsOk(s.attempts, s.reconciliations)
    requires Reconcile(cfg, s, r, g, a, worker, fence, outcome, proof, receipt) == Ok(t) && i !in s.receipts
              && i in t.receipts
    ensures t.runs == s.runs
    ensures a in s.attempts && s.attempts[a].intent == i && !s.attempts[a].state.Succeeded? && a !in s.reconciliations
  {
    hide Reconcile, ReceiptOk, LockRun, SuccessOk, ProofsOk;
    ReconcileMeaning(cfg, s, r, g, a, worker, fence, outcome, proof, receipt, t);
  }

  lemma SuccessWrites(cfg: Config, s: State, a: AttemptId, worker: string, fence: Fence, p: ReceiptPayload,
                      i: IntentId, t: State)
    requires SuccessOk(s.attempts, s.receipts) && ProofsOk(s.attempts, s.reconciliations)
    requires RecordSuccess(cfg, s, a, worker, fence, p) == Ok(t) && i !in s.receipts && i in t.receipts
    ensures t.runs == s.runs
    ensures a in s.attempts && s.attempts[a].intent == i && !s.attempts[a].state.Succeeded? && a !in s.reconciliations
  {
    hide RecordSuccess, ReceiptOk;
    RecordSuccessMeaning(cfg, s, a, worker, fence, p, t);
  }

  lemma OthersKeepReceipts(cfg: Config, s: State, op: Op, t: State)
    requires Inv(s) && Do(cfg, s, op) == Ok(t) && !op.OpRecordSuccess? && !op.OpReconcile?
    ensures t.receipts == s.receipts
  {
    hide Inv, RunStep, CreateRun, RecordApproval, BeginEffect, Reserve, Consume, Cancel, RecordAmbiguous,
      ClaimDue, RenewLease, ReleaseLease, Transition, ScheduleRetry, AppendRecord, AppendCandidate, IssueValidation,
      StillCurrent, NextAttemptNumber, AcceptedValidation, Bound;
    if RewritesRun(op) {
      hide Do;
      RewriteIsStep(cfg, s, op, t);
      RunStepFrame(s, t, TargetRun(op));
    } else {
      match op
      case OpTick(_) =>
      case OpCreateRun(r, key, fp, mode, at) => CreateMeaning(s, r, key, fp, mode, at, t);
      case OpRecordApproval(r, g, kind, target, fp, approver, at, expiresAt, id) =>
        ApprovalMeaning(cfg, s, r, g, kind, target, fp, approver, at, expiresAt, id, t);
      case OpBeginEffect(r, g, kind, target, key, fp, id) => BeginMeaning(cfg, s, r, g, kind, target, key, fp, id, t);
      case OpReserve(r, kind, target, fp, key, i, v, id, token) =>
        var res := ReserveMeaning(cfg, s, r, kind, target, fp, key, i, v, id, token, t);
      case OpConsume(c, a, fence) => ConsumeMeaning(s, c, a, fence, t);
      case OpCancel(c) => CancelMeaning(s, c, t);
      case OpRecordAmbiguous(a, worker, fence, failure) => AmbiguousMeaning(s, a, worker, fence, failure, t);
    }
  }

  // -------------------------------------------------------------- outcomes are exclusive

  /** SUCCEEDED exactly with a receipt; a NOT_APPLIED proof is final and keeps the receipt away for good. */
  lemma OutcomesExclusive(cfg: Config, s: State, a: AttemptId, more: seq<Op>)
    requires Reachable(cfg, s) && a in s.attempts
    ensures s.attempts[a].state.Succeeded? <==> s.attempts[a].intent in s.receipts
    ensures var t := Run(cfg, s, more);
            && a in t.attempts && AttemptEvolves(s.attempts[a], t.attempts[a])
            && (a in s.reconciliations ==> a in t.reconciliations && t.reconciliations[a] == s.reconciliations[a])
            && (a in s.reconciliations && s.reconciliations[a].outcome.NotApplied? ==>
                  t.attempts[a].state.ReconciliationRequired? && t.attempts[a].intent !in t.receipts)
  {
    hide Reachable, Inv, Evolves, Run;
    var t := Run(cfg, s, more);
    ReachableInv(cfg, s);
    RunHolds(cfg, s, more);
    InvParts(s);
    InvParts(t);
    AttemptKept(s, t, a);
  }

  lemma AttemptKept(s: State, t: State, a: AttemptId)
    requires Evolves(s, t) && a in s.attempts
    ensures a in t.attempts && AttemptEvolves(s.attempts[a], t.attempts[a])
    ensures a in s.reconciliations ==> a in t.reconciliations && t.reconciliations[a] == s.reconciliations[a]
  {
    hide RunsEvolve;
  }

  // ------------------------------------------------------------------------ replay runs

  /** A verified replay never owns authority and never reaches an accepted validation. */
  lemma ReplayOwnsNothing(cfg: Config, s: State, r: RunId)
    requires Reachable(cfg, s) && r in s.runs && s.runs[r].mode == VerifiedReplay
    ensures Validations(s, r) == []
    ensures forall a :: a in s.approvals ==> s.approvals[a].payload.run != r
    ensures forall i :: i in s.intents ==> s.intents[i].run != r
    ensures forall k :: k in s.reservations ==> s.reservations[k].run != r
    ensures forall a :: a in s.attempts ==>
              s.attempts[a].intent in s.intents && s.intents[s.attempts[a].intent].run != r
    ensures forall i :: i in s.receipts ==> i in s.intents && s.intents[i].run != r
    ensures !NeedsValidation(s.runs[r].status)
  {
    hide Reachable, Inv, CursorFits, IntentsOk, ReservationsOk, LinksOk, ReceiptsOk, ApprovalsOk;
    ReachableInv(cfg, s);
    RunIsHere(s, r);
    OwnershipTables(s);
    ReplayHasNoIntent(s, r);
    ReplayHasNoReservation(s.intents, s.reservations, r);
    ReplayHasNoAttempt(s.intents, s.reservations, s.attempts, r);
    ReplayHasNoReceipt(s.intents, s.receipts, r);
  }

  lemma OwnershipTables(s: State)
    requires Inv(s)
    ensures IntentsOk(s.runs, s.validations, s.intents) && ApprovalsOk(s.runs, s.validations, s.approvals)
    ensures ReservationsOk(s.intents, s.reservations) && LinksOk(s.reservations, s.attempts)
    ensures ReceiptsOk(s.intents, s.receipts)
  {
    hide RunsOk, IntentsOk, ApprovalsOk, ReservationsOk, PinsOk, LinksOk, SuccessOk, ReceiptsOk, ReceiptsPaidFor,
      ProofsOk, CompletionOk;
  }

  lemma ReplayHasNoIntent(s: State, r: RunId)
    requires IntentsOk(s.runs, s.validations, s.intents) && ApprovalsOk(s.runs, s.validations, s.approvals)
    requires r in s.runs && s.runs[r].mode == VerifiedReplay
    ensures forall i :: i in s.intents ==> s.intents[i].run != r
    ensures forall a :: a in s.approvals ==> s.approvals[a].payload.run != r
  {
    hide KeysUnique;
  }

  lemma ReplayHasNoReservation(intents: Intents, reservations: Reservations, r: RunId)
    requires ReservationsOk(intents, reservations) && forall i :: i in intents ==> intents[i].run != r
    ensures forall k :: k in reservations ==> reservations[k].run != r
  {
    hide ActiveUnique;
  }

  lemma ReplayHasNoAttempt(intents: Intents, reservations: Reservations, attempts: Attempts, r: RunId)
    requires ReservationsOk(intents, reservations) && LinksOk(reservations, attempts)
    requires forall i :: i in intents ==> intents[i].run != r
    ensures forall a :: a in attempts ==> attempts[a].intent in intents && intents[attempts[a].intent].run != r
  {
    forall a | a in attempts ensures attempts[a].intent in intents {
      assert Linked(attempts[a].reservation, reservations[attempts[a].reservation], a, attempts[a]);
      assert Bound(intents, reservations[attempts[a].reservation]);
    }
  }

  lemma ReplayHasNoReceipt(intents: Intents, receipts: Receipts, r: RunId)
    requires ReceiptsOk(intents, receipts) && forall i :: i in intents ==> intents[i].run != r
    ensures forall i :: i in receipts ==> i in intents && intents[i].run != r
  {
  }

  // ------------------------------------------------------------ the log is the run's truth

  /** Replaying the log from CREATED rebuilds the row's status, lease and generation. */
  lemma ReplayRebuildsRow(cfg: Config, s: State, r: RunId)
    requires Reachable(cfg, s) && r in s.runs
    ensures var row := s.runs[r];
            Replay(Log(s, r)) == RunView(row.status,
                                         match row.lease
                                         case None => None
                                         case Some(l) => Some(ActiveLease(l.id, l.worker, row.generation, l.expiresAt)),
                                         row.generation)
    ensures forall i :: 0 <= i < |Log(s, r)| ==> Log(s, r)[i].sequence == i && Log(s, r)[i].run == r
    ensures StatusChanges(Log(s, r)) <= 12
  {
    hide Reachable, Inv;
    ReachableInv(cfg, s);
    RunIsHere(s, r);
    ReplayIsCursor(Log(s, r));
    SequencesContiguous(Log(s, r), r);
    StatusChangesBounded(Log(s, r));
  }

  lemma {:induction false} SequencesContiguous(log: seq<Event>, r: RunId)
    requires Fold(log).Some? && (Fold(log).value.run.Some? ==> Fold(log).value.run == Some(r))
    ensures forall i :: 0 <= i < |log| ==> log[i].sequence == i && log[i].run == r
    decreases |log|
  {
    if |log| > 0 {
      var front := log[..|log| - 1];
      FoldLength(front);
      SequencesContiguous(front, r);
      forall i | 0 <= i < |log| ensures log[i].sequence == i && log[i].run == r {
        if i < |log| - 1 { assert front[i] == log[i]; }
      }
    }
  }

  /** Leases of one run never overlap in database time, and the row's lease is the last one. */
  lemma LeasesExclude(cfg: Config, s: State, r: RunId)
    requires Reachable(cfg, s) && r in s.runs
    ensures var ts := Tenures(Log(s, r));
            && Disjoint(ts)
            && (s.runs[r].lease.Some? ==>
                  |ts| > 0 && ts[|ts| - 1].generation == s.runs[r].generation
                  && ts[|ts| - 1].end == s.runs[r].lease.value.expiresAt)
  {
    hide Reachable, Inv, Disjoint;
    ReachableInv(cfg, s);
    RunIsHere(s, r);
    TenuresHold(Log(s, r));
  }

  /** validationBinding: the first nonempty prefix whose fingerprint is the signed one. */
  function SignedPrefix(log: seq<Event>, signed: seq<Event>, k: nat): Option<nat>
    requires k <= |log|
    decreases |log| - k
  {
    if k == |log| then None
    else if log[..k + 1] == signed then Some(k + 1)
    else SignedPrefix(log, signed, k + 1)
  }

  lemma {:induction false} SignedPrefixFound(log: seq<Event>, signed: seq<Event>, k: nat)
    requires k < |signed| && signed <= log
    ensures SignedPrefix(log, signed, k) == Some(|signed|)
    decreases |log| - k
  {
    if k + 1 == |signed| {
      assert log[..k + 1] == signed;
    } else {
      assert |log[..k + 1]| == k + 1;
      SignedPrefixFound(log, signed, k + 1);
    }
  }

  /** The exact prefix a validation signed is recovered from the log of any later state. */
  lemma SignedPrefixRecovered(cfg: Config, s: State, r: RunId, v: Validation, more: seq<Op>)
    requires Reachable(cfg, s) && r in s.runs && v in Validations(s, r)
    ensures var t := Run(cfg, s, more);
            && r in t.runs && v in Validations(t, r) && v.run == r
            && SignedPrefix(Log(t, r), v.stream, 0) == Some(|v.stream|)
            && v.stream <= Log(t, r)
  {
    hide Reachable, Inv, Evolves, CursorFits, Run;
    var t := Run(cfg, s, more);
    ReachableInv(cfg, s);
    RunHolds(cfg, s, more);
    LogsGrow(s, t, r);
    RunIsHere(t, r);
    assert v in Validations(t, r);
    SignedPrefixFound(Log(t, r), v.stream, 0);
  }

  lemma LogsGrow(s: State, t: State, r: RunId)
    requires Evolves(s, t) && r in s.runs
    ensures r in t.runs && RowEvolves(s.runs[r], t.runs[r])
    ensures Log(s, r) <= Log(t, r) && Validations(s, r) <= Validations(t, r)
  {
    hide RowEvolves;
  }

  // ------------------------------------------------------------------------- fencing

  /** The fence a method presents, when it presents one. */
  function FenceOf(op: Op): Option<(RunId, Guard)> {
    match op
    case OpRenewLease(r, g, _, _) => Some((r, g))
    case OpReleaseLease(r, g, _) => Some((r, g))
    case OpTransition(e, version) => Some((e.run, EventGuard(e, version)))
    case OpAppendRecord(r, g, _) => Some((r, g))
    case OpAppendCandidate(r, g, _) => Some((r, g))
    case OpRecordApproval(r, g, _, _, _, _, _, _, _) => Some((r, g))
    case OpBeginEffect(r, g, _, _, _, _, _) => Some((r, g))
    case OpReconcile(r, g, _, _, _, _, _, _) => Some((r, g))
    case _ => None
  }

  lemma FenceIsChecked(cfg: Config, s: State, op: Op)
    requires FenceOf(op).Some? && Do(cfg, s, op).Ok?
    ensures var (r, g) := FenceOf(op).value; r in s.runs && Holds(s.runs[r], g, s.now)
  {
    hide Authorized, AppendEvent, UpdateRow, Prerequisites, VerifyValidation, AcceptedValidation, CurrentApproval,
      RequireApproval, LatestAttempt, ReconcileAuthority, ApplyProof, Log, Holds, LatestValidation;
  }

  /** A guard spent by a version-raising method is never accepted again, whatever happens in between. */
  lemma SpentGuardRefused(cfg: Config, s: State, op: Op, more: seq<Op>, again: Op)
    requires Reachable(cfg, s) && Do(cfg, s, op).Ok?
    requires FenceOf(op).Some? && FenceOf(again) == FenceOf(op)
    requires var r := FenceOf(op).value.0;
             r in s.runs && r in After(cfg, s, op).runs && After(cfg, s, op).runs[r].version > s.runs[r].version
    ensures Do(cfg, Run(cfg, After(cfg, s, op), more), again).Err?
  {
    var (r, g) := FenceOf(op).value;
    var t := After(cfg, s, op);
    var u := Run(cfg, t, more);
    ReachableInv(cfg, s);
    FenceIsChecked(cfg, s, op);
    StepKeepsInv(cfg, s, op);
    RunHolds(cfg, t, more);
    LogsGrow(t, u, r);
    if Do(cfg, u, again).Ok? {
      FenceIsChecked(cfg, u, again);
      hide Do, Inv, Evolves;
      assert false;
    }
  }

  /** The generation a run-mutating method acts under. */
  function GenerationOf(op: Op): Option<(RunId, nat)> {
    match op
    case OpScheduleRetry(e, _) => Some((e.run, e.generation))
    case OpIssueValidation(req, _) => Some((req.run, req.generation))
    case _ =>
      match FenceOf(op)
      case Some((r, g)) => Some((r, g.generation))
      case None => None
  }

  lemma GenerationIsChecked(cfg: Config, s: State, op: Op)
    requires GenerationOf(op).Some? && Do(cfg, s, op).Ok?
    ensures var (r, generation) := GenerationOf(op).value; r in s.runs && s.runs[r].generation == generation
  {
    if FenceOf(op).Some? {
      FenceIsChecked(cfg, s, op);
      hide Do;
    } else {
      hide Authorized, AppendEvent, UpdateRow, VerifyValidation, Log, LatestCandidate;
    }
  }

  /** A superseded lease generation can never act on the run again. */
  lemma SupersededGenerationRefused(cfg: Config, s: State, r: RunId, more: seq<Op>, op: Op)
    requires Reachable(cfg, s) && r in s.runs
    requires GenerationOf(op).Some? && GenerationOf(op).value.0 == r
    requires GenerationOf(op).value.1 < s.runs[r].generation
    ensures Do(cfg, Run(cfg, s, more), op).Err?
  {
    hide Do, Inv, Evolves, Reachable, Run;
    var t := Run(cfg, s, more);
    ReachableInv(cfg, s);
    RunHolds(cfg, s, more);
    LogsGrow(s, t, r);
    if Do(cfg, t, op).Ok? {
      GenerationIsChecked(cfg, t, op);
      assert false;
    }
  }

  /** Each claim raises the generation by exactly one; no other method changes it. */
  lemma OnlyClaimsRaiseGeneration(cfg: Config, s: State, op: Op, r: RunId)
    requires Reachable(cfg, s) && r in s.runs
    ensures var t := After(cfg, s, op);
            && r in t.runs
            && t.runs[r].generation == s.runs[r].generation
               + if op.OpClaimDue? && op.run == r && Do(cfg, s, op).Ok? then 1 else 0
  {
    hide Reachable, Inv, Do;
    ReachableInv(cfg, s);
    if Do(cfg, s, op).Ok? && op.OpClaimDue? {
      ClaimGeneration(cfg, s, op, r);
    } else if Do(cfg, s, op).Ok? {
      OthersKeepGeneration(cfg, s, op, Do(cfg, s, op).value);
    }
  }

  lemma ClaimGeneration(cfg: Config, s: State, op: Op, r: RunId)
    requires Inv(s) && op.OpClaimDue? && Do(cfg, s, op).Ok? && r in s.runs
    ensures var t := Do(cfg, s, op).value;
            r in t.runs && t.runs[r].generation == s.runs[r].generation + if op.run == r then 1 else 0
  {
    hide ClaimDue, Inv, RunHere;
    NeedsItsRun(cfg, s, op);
    RunIsHere(s, op.run);
    ClaimIsRunStep(s, op.run, op.worker, op.millis, op.leaseId, op.expiredId, op.acquiredId, Do(cfg, s, op).value);
    hide RunOk, RowAdvances;
  }

  ghost predicate KeepsGenerations(s: State, t: State) {
    forall r :: r in s.runs ==> r in t.runs && t.runs[r].generation == s.runs[r].generation
  }

  lemma OthersKeepGeneration(cfg: Config, s: State, op: Op, t: State)
    requires Inv(s) && Do(cfg, s, op) == Ok(t) && !op.OpClaimDue?
    ensures KeepsGenerations(s, t)
  {
    hide Inv, Do, KeepsGenerations;
    if RewritesRun(op) {
      RewriteKeepsGeneration(cfg, s, op, t);
    } else if op.OpRecordSuccess? || op.OpRecordAmbiguous? || op.OpReconcile? {
      OutcomeKeepsGeneration(cfg, s, op, t);
    } else {
      EffectKeepsGeneration(cfg, s, op, t);
    }
  }

  lemma RewriteKeepsGeneration(cfg: Config, s: State, op: Op, t: State)
    requires Do(cfg, s, op) == Ok(t) && RewritesRun(op) && !op.OpClaimDue?
    ensures KeepsGenerations(s, t)
  {
    hide RenewLease, ReleaseLease, Transition, ScheduleRetry, AppendRecord, AppendCandidate, IssueValidation,
      KeepsGenerations;
    match op
    case OpRenewLease(r, g, millis, eventId) => RenewKeepsGeneration(s, r, g, millis, eventId, t);
    case OpReleaseLease(r, g, eventId) => ReleaseKeepsGeneration(s, r, g, eventId, t);
    case OpTransition(e, version) => TransitionKeepsGeneration(cfg, s, e, version, t);
    case OpScheduleRetry(e, releasedId) => RetryKeepsGeneration(s, e, releasedId, t);
    case OpAppendRecord(_, _, _) | OpAppendCandidate(_, _, _) | OpIssueValidation(_, _) =>
      AppendKeepsGeneration(cfg, s, op, t);
  }

  lemma AppendKeepsRuns(s: State, e: Event, t: State)
    requires AppendEvent(s, e) == Ok(t)
    ensures t.runs == s.runs && t.now == s.now
  {
  }

  lemma UpdateMeaning(s: State, r: RunId, row: RunRow, t: State)
    requires r in s.runs && UpdateRow(s, r, row) == Ok(t)
    ensures t == s.(runs := s.runs[r := row])
  {
  }

  lemma RenewKeepsGeneration(s: State, r: RunId, g: Guard, millis: int, eventId: EventId, t: State)
    requires RenewLease(s, r, g, millis, eventId) == Ok(t)
    ensures KeepsGenerations(s, t)
  {
    hide AppendEvent;
    var row := s.runs[r];
    var lease := row.lease.value;
    var expiresAt := lease.expiresAt + millis;
    var e := Event(eventId, r, |Log(s, r)|, s.now, g.leaseId, g.worker, g.generation,
                   Renewed(lease.expiresAt, expiresAt));
    AppendKeepsRuns(s.(runs := s.runs[r := row.(lease := Some(lease.(expiresAt := expiresAt)),
                                                version := row.version + 1)]), e, t);
  }

  lemma ReleaseKeepsGeneration(s: State, r: RunId, g: Guard, eventId: EventId, t: State)
    requires ReleaseLease(s, r, g, eventId) == Ok(t)
    ensures KeepsGenerations(s, t)
  {
    hide AppendEvent, UpdateRow, Authorized, Holds;
    var row := s.runs[r].(lease := None, version := s.runs[r].version + 1);
    var s1 := UpdateRow(s, r, row).value;
    UpdateMeaning(s, r, row, s1);
    AppendKeepsRuns(s1, Event(eventId, r, |Log(s, r)|, s.now, g.leaseId, g.worker, g.generation, Released), t);
  }

  lemma TransitionKeepsGeneration(cfg: Config, s: State, e: Event, version: nat, t: State)
    requires Transition(cfg, s, e, version) == Ok(t)
    ensures KeepsGenerations(s, t)
  {
    hide AppendEvent, UpdateRow, Authorized, Holds, Prerequisites;
    var row := Moved(s.runs[e.run], e.body.to);
    var s1 := UpdateRow(s, e.run, row).value;
    UpdateMeaning(s, e.run, row, s1);
    AppendKeepsRuns(s1, e, t);
  }

  lemma RetryKeepsGeneration(s: State, e: Event, releasedId: EventId, t: State)
    requires ScheduleRetry(s, e, releasedId) == Ok(t)
    ensures KeepsGenerations(s, t)
  {
    hide AppendEvent, UpdateRow, Authorized, Holds, RetryAllowed;
    var key := RetryKey(e.run, e.body.operation, e.body.attempt);
    var s0 := s.(retries := s.retries[key := RetryRow(e.body.retryAt, e.at)]);
    var s1 := AppendEvent(s0, e).value;
    AppendKeepsRuns(s0, e, s1);
    var released := Event(releasedId, e.run, e.sequence + 1, e.at, e.leaseId, e.worker, e.generation, Released);
    var s2 := AppendEvent(s1, released).value;
    AppendKeepsRuns(s1, released, s2);
    UpdateMeaning(s2, e.run, Retried(s.runs[e.run], e.body.retryAt), t);
  }

  lemma AppendKeepsGeneration(cfg: Config, s: State, op: Op, t: State)
    requires Do(cfg, s, op) == Ok(t) && (op.OpAppendRecord? || op.OpAppendCandidate? || op.OpIssueValidation?)
    ensures KeepsGenerations(s, t)
  {
    hide Holds, LeaseActive, VerifyValidation, Log, LatestCandidate, Validations, Get, LeaseIdentity, KeepsGenerations;
    var r := TargetRun(op);
    BumpKeepsGenerations(s, t, r);
  }

  lemma BumpKeepsGenerations(s: State, t: State, r: RunId)
    requires r in s.runs && t.runs == s.runs[r := s.runs[r].(version := s.runs[r].version + 1)]
    ensures KeepsGenerations(s, t)
  {
  }

  lemma OutcomeKeepsGeneration(cfg: Config, s: State, op: Op, t: State)
    requires Inv(s) && Do(cfg, s, op) == Ok(t)
    requires op.OpRecordSuccess? || op.OpRecordAmbiguous? || op.OpReconcile?
    ensures KeepsGenerations(s, t)
  {
    hide Inv, Do, SuccessOk, ProofsOk, KeepsGenerations;
    InvParts(s);
    OutcomeKeepsRuns(cfg, s, op, t);
    RunsKeepGenerations(s, t);
  }

  lemma OutcomeKeepsRuns(cfg: Config, s: State, op: Op, t: State)
    requires SuccessOk(s.attempts, s.receipts) && ProofsOk(s.attempts, s.reconciliations)
    requires op.OpRecordSuccess? || op.OpRecordAmbiguous? || op.OpReconcile?
    requires Do(cfg, s, op) == Ok(t)
    ensures t.runs == s.runs
  {
    hide RecordSuccess, RecordAmbiguous, Reconcile, SuccessOk, ProofsOk, ReceiptOk, LockRun, Resolved, Get, Kept;
    if op.OpRecordSuccess? {
      RecordSuccessMeaning(cfg, s, op.attemptId, op.worker, op.fence, op.payload, t);
    } else if op.OpRecordAmbiguous? {
      AmbiguousMeaning(s, op.attemptId, op.worker, op.fence, op.failure, t);
    } else {
      ReconcileMeaning(cfg, s, op.run, op.guard, op.attemptId, op.worker, op.fence, op.outcome, op.proof,
          op.receipt, t);
    }
  }

  lemma RunsKeepGenerations(s: State, t: State)
    requires t.runs == s.runs
    ensures KeepsGenerations(s, t)
  {
  }

  lemma EffectKeepsGeneration(cfg: Config, s: State, op: Op, t: State)
    requires Do(cfg, s, op) == Ok(t) && !RewritesRun(op)
    requires !op.OpRecordSuccess? && !op.OpRecordAmbiguous? && !op.OpReconcile?
    ensures KeepsGenerations(s, t)
  {
    hide CreateRun, RecordApproval, BeginEffect, Reserve, Consume, Cancel, StillCurrent, NextAttemptNumber,
      AcceptedValidation, Bound;
    match op
    case OpTick(_) =>
    case OpCreateRun(q, key, fp, mode, at) => CreateMeaning(s, q, key, fp, mode, at, t);
    case OpRecordApproval(q, g, kind, target, fp, approver, at, expiresAt, id) =>
      ApprovalMeaning(cfg, s, q, g, kind, target, fp, approver, at, expiresAt, id, t);
    case OpBeginEffect(q, g, kind, target, key, fp, id) => BeginMeaning(cfg, s, q, g, kind, target, key, fp, id, t);
    case OpReserve(q, kind, target, fp, key, i, v, id, token) =>
      var res := ReserveMeaning(cfg, s, q, kind, target, fp, key, i, v, id, token, t);
    case OpConsume(c, a, fence) => ConsumeMeaning(s, c, a, fence, t);
    case OpCancel(c) => CancelMeaning(s, c, t);
  }

  /** A terminal run has no lease, is never claimed again, and its row never changes. */
  lemma TerminalIsAbsorbing(cfg: Config, s: State, r: RunId, more: seq<Op>)
    requires Reachable(cfg, s) && r in s.runs && Terminal(s.runs[r].status)
    ensures s.runs[r].lease.None?
    ensures r in Run(cfg, s, more).runs && Run(cfg, s, more).runs[r] == s.runs[r]
    ensures Log(Run(cfg, s, more), r) == Log(s, r)
  {
    hide Reachable, Inv, Evolves, CursorFits, Run;
    ReachableInv(cfg, s);
    RunIsHere(s, r);
    RunHolds(cfg, s, more);
    FrozenRun(s, Run(cfg, s, more), r);
  }

  /** Between two reachable states a run's status rank never falls, and rises whenever the status differs. */
  lemma StatusRankRises(cfg: Config, s: State, r: RunId, more: seq<Op>)
    requires Reachable(cfg, s) && r in s.runs
    ensures r in Run(cfg, s, more).runs
    ensures var after := Run(cfg, s, more).runs[r].status;
            after == s.runs[r].status || Rank(s.runs[r].status) < Rank(after) <= 12
  {
    hide Reachable, Inv, Evolves, Run;
    ReachableInv(cfg, s);
    RunHolds(cfg, s, more);
    LogsGrow(s, Run(cfg, s, more), r);
  }
}
