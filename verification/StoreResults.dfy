/** What a committed call leaves behind for the worker that made it. */
module StoreResults {
  import opened Common
  import opened RunLog
  import opened StoreModel
  import opened StoreSteps
  import opened StoreInvariant
  import opened StoreRunMethods
  import opened StoreEffectMethods
  import opened StoreOutcomes
  import opened StoreTheorems
  import opened StoreGuarantees
  import opened StoreWindows
  import opened StoreCallers

  /** A call commits the step, or reports its error and leaves the tables alone. */
  ghost predicate Committed(before: State, after: State, step: Step, r: Result<(), Error>) {
    match step
    case Ok(next) => r.Ok? && after == next
    case Err(e) => r == Err(e) && after == before
  }

  /** However a call comes out, the tables are sound after it and rows have only moved forward. */
  lemma CommitKeeps(cfg: Config, s: State, op: Op)
    requires Sound(s)
    ensures Evolves(s, s)
    ensures Do(cfg, s, op).Ok? ==> Sound(Do(cfg, s, op).value) && Evolves(s, Do(cfg, s, op).value)
  {
    hide Inv, Evolves, Do, RequestKeysOwned, GenerationsCounted;
    StepKeepsInv(cfg, s, op);
    StepKeepsKeys(cfg, s, op);
    StepKeepsCount(cfg, s, op);
    StepEvolves(cfg, s, op);
    EvolvesReflexive(s);
  }

  // ------------------------------------------------------------------------- leases

  /** The guard that a claim hands to its worker. */
  function ClaimGuard(row: RunRow, leaseId: LeaseId, worker: string): Guard {
    Guard(leaseId, worker, row.generation, row.version)
  }

  lemma ClaimShows(s: State, r: RunId, worker: string, millis: int, leaseId: LeaseId, expiredId: EventId,
                   acquiredId: EventId, t: State)
    requires Inv(s) && ClaimDue(s, r, worker, millis, leaseId, expiredId, acquiredId) == Ok(t)
    ensures r in t.runs && LockRun(t, r, ClaimGuard(t.runs[r], leaseId, worker)).Ok?
    ensures r in s.runs && t.runs[r].generation == s.runs[r].generation + 1
    ensures t.runs[r].lease == Some(Lease(leaseId, worker, s.now + millis))
  {
    hide Inv, Fold, CursorFits;
    ClaimNeeds(s, r, worker, millis, leaseId, expiredId, acquiredId);
    RunIsHere(s, r);
    hide ClaimDue;
    ClaimMeaning(s, r, worker, millis, leaseId, expiredId, acquiredId, t);
  }

  lemma ClaimNeeds(s: State, r: RunId, worker: string, millis: int, leaseId: LeaseId, expiredId: EventId,
                   acquiredId: EventId)
    requires ClaimDue(s, r, worker, millis, leaseId, expiredId, acquiredId).Ok?
    ensures r in s.runs && millis > 0
  {
    hide ExpireLapsed, Acquire;
  }

  lemma RenewShows(s: State, r: RunId, g: Guard, millis: int, eventId: EventId, t: State)
    requires RenewLease(s, r, g, millis, eventId) == Ok(t)
    ensures LockRun(t, r, NextGuard(g)).Ok? && r in s.runs && s.runs[r].lease.Some?
    ensures t.runs[r].lease.value.expiresAt >= s.runs[r].lease.value.expiresAt + millis
  {
    hide AppendEvent;
    var row := s.runs[r];
    var lease := row.lease.value;
    var expiresAt := lease.expiresAt + millis;
    var e := Event(eventId, r, |Log(s, r)|, s.now, g.leaseId, g.worker, g.generation,
                   Renewed(lease.expiresAt, expiresAt));
    AppendKeepsRuns(s.(runs := s.runs[r := row.(lease := Some(lease.(expiresAt := expiresAt)),
                                                version := row.version + 1)]), e, t);
  }

  lemma ReleaseShows(s: State, r: RunId, g: Guard, eventId: EventId, t: State)
    requires ReleaseLease(s, r, g, eventId) == Ok(t)
    ensures r in t.runs && t.runs[r].lease.None?
  {
    hide AppendEvent, UpdateRow, Authorized, Holds;
    var row := s.runs[r].(lease := None, version := s.runs[r].version + 1);
    var s1 := UpdateRow(s, r, row).value;
    UpdateMeaning(s, r, row, s1);
    AppendKeepsRuns(s1, Event(eventId, r, |Log(s, r)|, s.now, g.leaseId, g.worker, g.generation, Released), t);
  }

  lemma TransitionShows(cfg: Config, s: State, e: Event, version: nat, t: State)
    requires Inv(s) && Transition(cfg, s, e, version) == Ok(t)
    ensures e.body.StatusChanged? && e.run in t.runs && t.runs[e.run].status == e.body.to
    ensures e.run in s.runs && Adjacent(s.runs[e.run].status, e.body.to)
    ensures Log(t, e.run) == Log(s, e.run) + [e]
  {
    hide Inv, CursorFits, Prerequisites, ActiveInvocation, Fold;
    assert e.run in s.runs by { TransitionNeeds(cfg, s, e, version); }
    RunIsHere(s, e.run);
    hide Transition;
    TransitionMeaning(cfg, s, e, version, t);
  }

  lemma TransitionNeeds(cfg: Config, s: State, e: Event, version: nat)
    requires Transition(cfg, s, e, version).Ok?
    ensures e.run in s.runs
  {
    hide Authorized, AppendEvent, UpdateRow, Prerequisites;
  }

  // ------------------------------------------------------------- validation to intent

  lemma IssueShows(cfg: Config, s: State, req: IssueRequest, issued: Validation, t: State)
    requires IssueValidation(cfg, s, req, issued) == Ok(t)
    ensures LatestValidation(t, req.run) == Some(issued)
    ensures issued.stream == Log(t, req.run) && LatestCandidate(t, req.run) == Some(issued.candidate)
  {
    hide VerifyValidation;
  }

  /** ORDER BY created_at DESC, id DESC leaves at most one first row. */
  lemma CurrentApprovalUnique(s: State, a: ApprovalId, b: ApprovalId, r: RunId, kind: Kind, target: string, fp: Fp)
    requires CurrentApproval(s, a, r, kind, target, fp) && CurrentApproval(s, b, r, kind, target, fp)
    ensures a == b
  {
    assert !NewerApproval(s, b, a) && !NewerApproval(s, a, b);
  }

  lemma ApprovalIsStored(s: State, a: ApprovalId, r: RunId, kind: Kind, target: string, inputFp: Fp)
    requires CurrentApproval(s, a, r, kind, target, inputFp)
    ensures a in s.approvals
  {
  }

  lemma AcceptedIsLatest(cfg: Config, s: State, r: RunId, originalLease: bool)
    requires AcceptedValidation(cfg, s, r, originalLease).Ok?
    ensures LatestValidation(s, r) == Some(AcceptedValidation(cfg, s, r, originalLease).value)
  {
    hide VerifyValidation, LeaseActive, LeaseIdentity;
  }

  /** A recorded approval is the one that its own request then finds. */
  lemma ApprovalIsFound(cfg: Config, s: State, r: RunId, g: Guard, kind: Kind, target: string, inputFp: Fp,
                        approvedBy: string, at: Time, expiresAt: Time, id: ApprovalId, t: State)
    requires RecordApproval(cfg, s, r, g, kind, target, inputFp, approvedBy, at, expiresAt, id) == Ok(t)
    ensures AcceptedValidation(cfg, s, r, false).Ok? && Validations(t, r) == Validations(s, r)
    ensures RequireApproval(cfg, t, r, kind, target, inputFp).Ok?
    ensures var current := RequireApproval(cfg, t, r, kind, target, inputFp).value;
            && current in t.approvals
            && t.approvals[current].payload
               == ApprovalPayload(r, kind, target, inputFp, AcceptedValidation(cfg, s, r, false).value, approvedBy, at,
                                  expiresAt)
  {
    hide LockRun, RequireApproval, AcceptedValidation, CurrentApproval, EffectState;
    var current := RequireApproval(cfg, t, r, kind, target, inputFp).value;
    ApprovalIsStored(t, current, r, kind, target, inputFp);
  }

  lemma ApprovalShows(cfg: Config, s: State, r: RunId, g: Guard, kind: Kind, target: string, inputFp: Fp,
                      approvedBy: string, at: Time, expiresAt: Time, id: ApprovalId, t: State)
    requires RecordApproval(cfg, s, r, g, kind, target, inputFp, approvedBy, at, expiresAt, id) == Ok(t)
    ensures forall a :: CurrentApproval(t, a, r, kind, target, inputFp) ==>
              && t.approvals[a].payload.approvedBy == approvedBy && t.approvals[a].payload.approvedAt == at
              && t.approvals[a].payload.expiresAt == expiresAt
              && LatestValidation(t, r) == Some(t.approvals[a].payload.validation)
  {
    hide RecordApproval, RequireApproval, AcceptedValidation, Approves, NewerApproval;
    ApprovalIsFound(cfg, s, r, g, kind, target, inputFp, approvedBy, at, expiresAt, id, t);
    AcceptedIsLatest(cfg, s, r, false);
    var current := RequireApproval(cfg, t, r, kind, target, inputFp).value;
    forall a | CurrentApproval(t, a, r, kind, target, inputFp) ensures a == current {
      CurrentApprovalUnique(t, a, current, r, kind, target, inputFp);
    }
  }

  lemma BeginShows(cfg: Config, s: State, r: RunId, g: Guard, kind: Kind, target: string, key: string, inputFp: Fp,
                   id: IntentId, t: State)
    requires BeginEffect(cfg, s, r, g, kind, target, key, inputFp, id) == Ok(t)
    ensures forall i :: i in t.intents && SameKey(t.intents[i], kind, target, key) ==>
              && t.intents[i].run == r && t.intents[i].inputFp == inputFp
              && LatestValidation(t, r) == Some(t.intents[i].validation)
  {
    hide LockRun, RequireApproval, VerifyValidation;
  }

  // ----------------------------------------------------------------- authority

  /** After consumption the run is pinned where the reservation found it. */
  lemma ConsumeShows(s: State, c: Claim, a: AttemptId, fence: Fence, t: State)
    requires Inv(s) && Consume(s, c, a, fence) == Ok(t)
    ensures c.id in t.reservations && a in t.attempts && t.attempts[a].reservation == c.id
    ensures t.attempts[a].number == 1 && t.attempts[a].state == ReadyToInvoke
    ensures t.attempts[a].claimExpiresAt == t.reservations[c.id].invokeBy
    ensures Unresolved(t.receipts, t.reconciliations, t.reservations[c.id]) && Pinned(t.runs, t.reservations[c.id])
  {
    hide Inv, Consume, StillCurrent, NextAttemptNumber, LinksOk, ReservationsOk, ReceiptsPaidFor, PinsOk, Pinned,
      SuccessOk, ProofsOk;
    ConsumeKeepsInv(s, c, a, fence, t);
    ConsumeMeaning(s, c, a, fence, t);
    ReservationTables(s);
    FirstAttempt(s, c.id);
    InvParts(s);
    ProofNeedsAttempt(s, a);
    PinsOf(t);
    PinnedNow(t, c.id);
  }

  lemma ProofNeedsAttempt(s: State, a: AttemptId)
    requires ProofsOk(s.attempts, s.reconciliations) && a !in s.attempts
    ensures a !in s.reconciliations
  {
  }

  lemma PinnedNow(s: State, k: ReservationId)
    requires PinsOk(s.runs, s.reservations, s.receipts, s.reconciliations)
    requires k in s.reservations && Unresolved(s.receipts, s.reconciliations, s.reservations[k])
    ensures Pinned(s.runs, s.reservations[k])
  {
    hide Pinned, Unresolved;
  }

  lemma CancelShows(s: State, c: Claim, t: State)
    requires Cancel(s, c) == Ok(t)
    ensures forall a, fence :: Consume(t, c, a, fence).Err?
  {
    hide StillCurrent, IntentUnchanged;
  }

  // ------------------------------------------------------------------ outcomes

  lemma SuccessShows(cfg: Config, s: State, a: AttemptId, worker: string, fence: Fence, p: ReceiptPayload, t: State)
    requires SuccessOk(s.attempts, s.receipts) && RecordSuccess(cfg, s, a, worker, fence, p) == Ok(t)
    ensures a in t.attempts && t.attempts[a].state.Succeeded? && t.attempts[a].intent in t.receipts
    ensures t.receipts[t.attempts[a].intent].payload == p
  {
    hide InsertReceipt, SetAttemptState, CheckPayload, ReceiptOk;
    RecordSuccessMeaning(cfg, s, a, worker, fence, p, t);
  }

  lemma AmbiguousShows(s: State, a: AttemptId, worker: string, fence: Fence, payload: Fp, t: State)
    requires RecordAmbiguous(s, a, worker, fence, payload) == Ok(t)
    ensures a in t.attempts && t.attempts[a].state.ReconciliationRequired? && t.now == s.now
    ensures Latest(Get(t.failures, t.attempts[a].intent)) == Some(Failure(payload, s.now))
  {
    hide RecordAmbiguous;
    AmbiguousMeaning(s, a, worker, fence, payload, t);
  }

  /** A reconciliation ends the pin: its attempt's reservation is unresolved no longer. */
  lemma ReconcileShows(cfg: Config, s: State, r: RunId, g: Guard, a: AttemptId, worker: string, fence: Fence,
                       outcome: ProofOutcome, proof: Fp, receipt: Option<ReceiptPayload>, t: State)
    requires SuccessOk(s.attempts, s.receipts) && ProofsOk(s.attempts, s.reconciliations)
    requires LinksOk(s.reservations, s.attempts)
    requires Reconcile(cfg, s, r, g, a, worker, fence, outcome, proof, receipt) == Ok(t)
    ensures a in t.attempts && t.attempts[a].reservation in t.reservations
    ensures a in t.reconciliations && t.reconciliations[a] == Reconciliation(outcome, proof)
    ensures outcome.Applied? <==> t.attempts[a].state.Succeeded?
    ensures !Unresolved(t.receipts, t.reconciliations, t.reservations[t.attempts[a].reservation])
  {
    hide Reconcile, ReceiptOk, LockRun, SuccessOk, ProofsOk, LinksOk;
    ReconcileMeaning(cfg, s, r, g, a, worker, fence, outcome, proof, receipt, t);
    LinkedAttempt(s.reservations, s.attempts, a);
  }

  lemma LinkedAttempt(reservations: Reservations, attempts: Attempts, a: AttemptId)
    requires LinksOk(reservations, attempts) && a in attempts
    ensures attempts[a].reservation in reservations
    ensures var res := reservations[attempts[a].reservation];
            res.state.Consumed? && res.state.attempt == a && res.intent == attempts[a].intent
  {
    assert Linked(attempts[a].reservation, reservations[attempts[a].reservation], a, attempts[a]);
  }
}
