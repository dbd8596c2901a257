/** Recorded successes, ambiguities and reconciliations keep the joint invariant. */
module StoreOutcomes {
  import opened Common
  import opened RunLog
  import opened StoreModel
  import opened StoreSteps
  import opened StoreInvariant
  import opened StoreEffectMethods

  /** An attempt without success is unresolved unless it was proved NOT_APPLIED, so its run is pinned. */
  lemma OpenAttemptPinned(s: State, a: AttemptId)
    requires Inv(s) && a in s.attempts && !s.attempts[a].state.Succeeded?
    requires a in s.reconciliations ==> s.reconciliations[a].outcome.Applied?
    ensures s.attempts[a].intent in s.intents && s.attempts[a].intent !in s.receipts
    ensures var intent := s.intents[s.attempts[a].intent];
            intent.run in s.runs && s.runs[intent.run].status == EffectState(intent.kind)
    ensures ConsumedFor(s.reservations, s.attempts[a].intent)
    ensures var k := s.attempts[a].reservation;
            && k in s.reservations && s.reservations[k].state.Consumed? && Pinned(s.runs, s.reservations[k])
            && s.reservations[k].intent == s.attempts[a].intent
  {
    hide RunsOk, IntentsOk, ApprovalsOk, ReceiptsOk, ReceiptsPaidFor, ProofsOk, CompletionOk, ActiveUnique,
      LeaseIdentity;
    var k := s.attempts[a].reservation;
    assert Linked(k, s.reservations[k], a, s.attempts[a]);
    assert Bound(s.intents, s.reservations[k]);
    assert Unresolved(s.receipts, s.reconciliations, s.reservations[k]);
  }

  /** Rewriting an attempt's state leaves the links in place. */
  lemma StateChangeLinks(reservations: Reservations, attempts: Attempts, a: AttemptId, state: AttemptState, now: Time)
    requires LinksOk(reservations, attempts) && a in attempts
    ensures LinksOk(reservations, attempts[a := attempts[a].(state := state, updatedAt := now)])
  {
  }

  lemma SuccessTables(s: State, a: AttemptId, receipt: Receipt, proofs: Proofs, now: Time)
    requires ReservationsOk(s.intents, s.reservations) && LinksOk(s.reservations, s.attempts)
    requires SuccessOk(s.attempts, s.receipts) && ProofsOk(s.attempts, s.reconciliations)
    requires a in s.attempts && !s.attempts[a].state.Succeeded? && a !in s.reconciliations
    requires proofs == s.reconciliations
             || (a in proofs && proofs == s.reconciliations[a := proofs[a]] && proofs[a].outcome.Applied?)
    ensures var attempts := s.attempts[a := s.attempts[a].(state := Succeeded, updatedAt := now)];
            SuccessOk(attempts, s.receipts[s.attempts[a].intent := receipt]) && ProofsOk(attempts, proofs)
  {
    hide Bound;
    assert Linked(s.attempts[a].reservation, s.reservations[s.attempts[a].reservation], a, s.attempts[a]);
    forall b | b in s.attempts && s.attempts[b].intent == s.attempts[a].intent ensures b == a {
      assert Linked(s.attempts[b].reservation, s.reservations[s.attempts[b].reservation], b, s.attempts[b]);
    }
  }

  lemma ResolvingKeepsPins(s: State, i: IntentId, receipt: Receipt, proofs: Proofs)
    requires PinsOk(s.runs, s.reservations, s.receipts, s.reconciliations)
    requires forall a :: a in s.reconciliations ==> a in proofs && proofs[a] == s.reconciliations[a]
    ensures PinsOk(s.runs, s.reservations, s.receipts[i := receipt], proofs)
  {
    hide Pinned;
  }

  /** A receipt arrives while its run is in the effect state, so no finished run gains one. */
  lemma ReceiptKeepsCompletion(s: State, i: IntentId, receipt: Receipt)
    requires CompletionOk(s.runs, s.intents, s.receipts) && i in s.intents && i !in s.receipts
    requires s.intents[i].run in s.runs && s.runs[s.intents[i].run].status == EffectState(s.intents[i].kind)
    ensures CompletionOk(s.runs, s.intents, s.receipts[i := receipt])
  {
    var receipts := s.receipts[i := receipt];
    forall r | r in s.runs ensures EffectsDone(s.intents, receipts, r, s.runs[r].status) {
      assert forall kind :: s.intents[i].run != r || s.intents[i].kind != kind ==>
        ReceiptsOf(s.intents, receipts, r, kind) == ReceiptsOf(s.intents, s.receipts, r, kind);
    }
  }

  /** The state after a receipt is stored and its attempt marked, with or without an APPLIED proof. */
  function Resolved(s: State, a: AttemptId, receipt: Receipt, proofs: Proofs): State
    requires a in s.attempts
  {
    s.(receipts := s.receipts[s.attempts[a].intent := receipt],
       attempts := s.attempts[a := s.attempts[a].(state := Succeeded, updatedAt := s.now)],
       reconciliations := proofs)
  }

  lemma ResolvedKeepsInv(s: State, a: AttemptId, receipt: Receipt, proofs: Proofs)
    requires Inv(s) && a in s.attempts && !s.attempts[a].state.Succeeded? && a !in s.reconciliations
    requires proofs == s.reconciliations
             || (a in proofs && proofs == s.reconciliations[a := proofs[a]] && proofs[a].outcome.Applied?)
    requires s.attempts[a].intent in s.intents
             && ReceiptOk(s.attempts[a].intent, s.intents[s.attempts[a].intent], receipt)
    ensures Inv(Resolved(s, a, receipt, proofs))
  {
    hide RunsOk, IntentsOk, ApprovalsOk, ReservationsOk, LinksOk, PinsOk, SuccessOk, ProofsOk, CompletionOk,
      ConsumedFor,
      ReceiptOk, Pinned, LeaseIdentity;
    OpenAttemptPinned(s, a);
    var i := s.attempts[a].intent;
    SuccessTables(s, a, receipt, proofs, s.now);
    StateChangeLinks(s.reservations, s.attempts, a, Succeeded, s.now);
    ResolvingKeepsPins(s, i, receipt, proofs);
    ReceiptKeepsCompletion(s, i, receipt);
  }

  // ------------------------------------------------------------ recordEffectSuccess

  lemma InsertReceiptMeaning(s: State, i: IntentId, p: ReceiptPayload, t: State)
    requires InsertReceipt(s, i, p) == Ok(t)
    ensures i in s.intents && p == ReceiptPayload(i, s.intents[i].run, s.intents[i].kind, s.intents[i].target,
                                                  s.intents[i].inputFp, s.intents[i].validation,
                                                  s.intents[i].candidate, s.intents[i].artifactSet, p.body)
    ensures s.intents[i].candidate == s.intents[i].validation.candidate
    ensures s.intents[i].artifactSet == s.intents[i].validation.artifactSet
    ensures i !in s.receipts ==>
              t == s.(receipts := s.receipts[i := Receipt(p, p.validation, p.candidate, p.artifactSet)])
    ensures i in s.receipts ==> t == s
  {
    hide OutcomeAuthority, Latest;
  }

  lemma SetAttemptMeaning(s: State, a: AttemptId, to: AttemptState, t: State)
    requires a in s.attempts && SetAttemptState(s, a, to) == Ok(t)
    ensures t == s.(attempts := s.attempts[a := s.attempts[a].(state := to, updatedAt := s.now)])
    ensures !s.attempts[a].state.Succeeded?
    ensures to.ReconciliationRequired? ==> s.attempts[a].state.ReadyToInvoke?
  {
  }

  /** recordEffectSuccess either repeats a stored success or resolves the attempt. */
  lemma RecordSuccessMeaning(cfg: Config, s: State, a: AttemptId, worker: string, fence: Fence, p: ReceiptPayload,
                             t: State)
    requires SuccessOk(s.attempts, s.receipts) && RecordSuccess(cfg, s, a, worker, fence, p) == Ok(t)
    ensures a in s.attempts && s.attempts[a].intent in s.intents
    ensures t == s || (&& s.attempts[a].state.ReadyToInvoke?
                       && t == Resolved(s, a, Receipt(p, p.validation, p.candidate, p.artifactSet), s.reconciliations)
                       && ReceiptOk(s.attempts[a].intent, s.intents[s.attempts[a].intent],
                                    Receipt(p, p.validation, p.candidate, p.artifactSet)))
    ensures t == s ==> s.attempts[a].state.Succeeded?
    ensures t.runs == s.runs
  {
    hide InsertReceipt, SetAttemptState, CheckPayload;
    if !s.attempts[a].state.Succeeded? {
      var s1 := InsertReceipt(s, s.attempts[a].intent, p).value;
      InsertReceiptMeaning(s, s.attempts[a].intent, p, s1);
      SetAttemptMeaning(s1, a, Succeeded, t);
    }
  }

  lemma RecordSuccessKeepsInv(cfg: Config, s: State, a: AttemptId, worker: string, fence: Fence, p: ReceiptPayload,
                              t: State)
    requires Inv(s) && RecordSuccess(cfg, s, a, worker, fence, p) == Ok(t)
    ensures Inv(t)
  {
    hide RecordSuccess, RunsOk, IntentsOk, ApprovalsOk, ReservationsOk, PinsOk, LinksOk, ReceiptsOk, ReceiptsPaidFor,
      CompletionOk, Resolved, ReceiptOk;
    RecordSuccessMeaning(cfg, s, a, worker, fence, p, t);
    if t != s {
      ResolvedKeepsInv(s, a, Receipt(p, p.validation, p.candidate, p.artifactSet), s.reconciliations);
    }
  }

  // ---------------------------------------------------------- recordEffectAmbiguous

  lemma AmbiguousMeaning(s: State, a: AttemptId, worker: string, fence: Fence, payload: Fp, t: State)
    requires RecordAmbiguous(s, a, worker, fence, payload) == Ok(t)
    ensures a in s.attempts && s.attempts[a].state.ReadyToInvoke?
    ensures t.failures == s.failures[s.attempts[a].intent :=
                                       Get(s.failures, s.attempts[a].intent) + [Failure(payload, s.now)]]
    ensures t == s.(failures := t.failures,
                    attempts := s.attempts[a := s.attempts[a].(state := ReconciliationRequired, updatedAt := s.now)])
  {
    hide SetAttemptState, OutcomeAuthority;
    var attempt := s.attempts[a];
    var failures := Get(s.failures, attempt.intent) + [Failure(payload, s.now)];
    var mid := s.(failures := s.failures[attempt.intent := failures]);
    SetAttemptMeaning(mid, a, ReconciliationRequired, t);
  }

  lemma AmbiguousKeepsInv(s: State, a: AttemptId, worker: string, fence: Fence, payload: Fp, t: State)
    requires Inv(s) && RecordAmbiguous(s, a, worker, fence, payload) == Ok(t)
    ensures Inv(t)
  {
    hide RecordAmbiguous, RunsOk, IntentsOk, ApprovalsOk, ReservationsOk, PinsOk, LinksOk, ReceiptsOk, ReceiptsPaidFor,
      CompletionOk;
    AmbiguousMeaning(s, a, worker, fence, payload, t);
    StateChangeLinks(s.reservations, s.attempts, a, ReconciliationRequired, s.now);
  }

  // --------------------------------------------------------- reconcileEffectAttempt

  lemma ApplyProofMeaning(cfg: Config, s: State, a: AttemptId, receipt: Option<ReceiptPayload>, t: State)
    requires a in s.attempts && s.attempts[a].intent in s.intents && s.attempts[a].intent !in s.receipts
    requires ApplyProof(cfg, s, a, receipt) == Ok(t)
    ensures receipt.Some?
    ensures var p := receipt.value; var rc := Receipt(p, p.validation, p.candidate, p.artifactSet);
            && t == Resolved(s, a, rc, s.reconciliations)
            && ReceiptOk(s.attempts[a].intent, s.intents[s.attempts[a].intent], rc)
  {
    hide InsertReceipt, SetAttemptState, CheckPayload;
    var i := s.attempts[a].intent;
    var s1 := InsertReceipt(s, i, receipt.value).value;
    InsertReceiptMeaning(s, i, receipt.value, s1);
    SetAttemptMeaning(s1, a, Succeeded, t);
  }

  /** A reconciliation repeats a stored NOT_APPLIED proof, stores one, or resolves the attempt as APPLIED. */
  lemma ReconcileMeaning(cfg: Config, s: State, r: RunId, g: Guard, a: AttemptId, worker: string, fence: Fence,
                         outcome: ProofOutcome, proof: Fp, receipt: Option<ReceiptPayload>, t: State)
    requires SuccessOk(s.attempts, s.receipts) && ProofsOk(s.attempts, s.reconciliations)
    requires Reconcile(cfg, s, r, g, a, worker, fence, outcome, proof, receipt) == Ok(t)
    ensures a in s.attempts && s.attempts[a].state.ReconciliationRequired? && s.attempts[a].intent in s.intents
    ensures LockRun(s, r, g).Ok? && s.intents[s.attempts[a].intent].run == r
    ensures outcome.NotApplied? ==>
              t == s || (a !in s.reconciliations
                         && t == s.(reconciliations := s.reconciliations[a := Reconciliation(outcome, proof)]))
    ensures outcome.NotApplied? ==> a in t.reconciliations && t.reconciliations[a] == Reconciliation(outcome, proof)
    ensures outcome.Applied? ==>
              && a !in s.reconciliations && receipt.Some?
              && var p := receipt.value; var rc := Receipt(p, p.validation, p.candidate, p.artifactSet);
                 && t == Resolved(s, a, rc, s.reconciliations[a := Reconciliation(outcome, proof)])
                 && ReceiptOk(s.attempts[a].intent, s.intents[s.attempts[a].intent], rc)
    ensures t.runs == s.runs
  {
    hide ApplyProof, LatestAttempt, ReconcileAuthority, LockRun, ReceiptOk;
    if outcome.Applied? {
      var s1 := s.(reconciliations := s.reconciliations[a := Reconciliation(outcome, proof)]);
      ApplyProofMeaning(cfg, s1, a, receipt, t);
    }
  }

  lemma ReconcileKeepsInv(cfg: Config, s: State, r: RunId, g: Guard, a: AttemptId, worker: string, fence: Fence,
                          outcome: ProofOutcome, proof: Fp, receipt: Option<ReceiptPayload>, t: State)
    requires Inv(s) && Reconcile(cfg, s, r, g, a, worker, fence, outcome, proof, receipt) == Ok(t)
    ensures Inv(t)
  {
    hide Reconcile, RunsOk, IntentsOk, ApprovalsOk, ReservationsOk, LinksOk, ReceiptsOk, ReceiptsPaidFor,
      CompletionOk, Resolved, ReceiptOk, LockRun, Pinned;
    ReconcileMeaning(cfg, s, r, g, a, worker, fence, outcome, proof, receipt, t);
    if outcome.Applied? {
      var p := receipt.value;
      ResolvedKeepsInv(s, a, Receipt(p, p.validation, p.candidate, p.artifactSet),
                       s.reconciliations[a := Reconciliation(outcome, proof)]);
    }
  }
}
