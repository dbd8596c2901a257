/** Runs created, approvals, intents, reservations, attempts and outcomes keep the joint invariant. */
module StoreEffectMethods {
  import opened Common
  import opened RunLog
  import opened StoreModel
  import opened StoreSteps
  import opened StoreInvariant
  import opened StoreRunMethods

  // ---------------------------------------------------------- create and elapse

  lemma NewRunOk(now: Time, r: RunId, row: RunRow)
    requires 0 <= now && row.status == Created && row.lease == None && row.generation == 0
    ensures RunOk(now, r, row, [], [])
  {
  }

  lemma NewRunSettled(s: State, r: RunId, row: RunRow)
    requires r !in s.runs
    ensures forall q, v | Settled(s.runs, s.validations, q, v) :: Settled(s.runs[r := row], s.validations, q, v)
  {
  }

  lemma CreateRunKeepsInv(s: State, r: RunId, requestKey: string, inputFp: Fp, mode: Mode, at: Time, t: State)
    requires Inv(s) && CreateRun(s, r, requestKey, inputFp, mode, at) == Ok(t)
    ensures Inv(t)
  {
    hide KeysUnique, ReservationsOk, LinksOk, SuccessOk, ReceiptsOk, ReceiptsPaidFor, ProofsOk, Settled, RunOk,
      EffectsDone,
      Unresolved, Pinned, PinsOk;
    if t != s {
      var row := RunRow(requestKey, inputFp, mode, s.now, Created, 0, at, None, 0);
      NewRunOk(s.now, r, row);
      NewRunSettled(s, r, row);
      NewRunEffects(s, r);
      NewRunPins(s, r, row);
      assert t.runs == s.runs[r := row];
    }
  }

  lemma NewRunPins(s: State, r: RunId, row: RunRow)
    requires r !in s.runs && PinsOk(s.runs, s.reservations, s.receipts, s.reconciliations)
    ensures PinsOk(s.runs[r := row], s.reservations, s.receipts, s.reconciliations)
  {
    hide Unresolved;
  }

  lemma NewRunEffects(s: State, r: RunId)
    ensures EffectsDone(s.intents, s.receipts, r, Created)
  {
  }

  lemma LaterOk(now: Time, later: Time, r: RunId, row: RunRow, log: seq<Event>, vs: seq<Validation>)
    requires now <= later && RunOk(now, r, row, log, vs)
    ensures RunOk(later, r, row, log, vs)
  {
  }

  lemma TickKeepsInv(s: State, elapsed: nat)
    requires Inv(s)
    ensures Inv(s.(now := s.now + elapsed))
  {
    hide IntentsOk, ApprovalsOk, ReservationsOk, PinsOk, LinksOk, SuccessOk, ReceiptsOk, ReceiptsPaidFor, ProofsOk,
      CompletionOk, RunOk;
    forall r | r in s.runs
      ensures RunOk(s.now + elapsed, r, s.runs[r], Get(s.logs, r), Get(s.validations, r))
    {
      LaterOk(s.now, s.now + elapsed, r, s.runs[r], Get(s.logs, r), Get(s.validations, r));
    }
  }

  // ----------------------------------------------------------- approve and begin

  /** An accepted validation in an effect state settles the run. */
  lemma AcceptedSettles(cfg: Config, s: State, r: RunId, originalLease: bool, kind: Kind)
    requires RunHere(s, r) && s.runs[r].status == EffectState(kind) && s.runs[r].mode == Live
    requires AcceptedValidation(cfg, s, r, originalLease).Ok?
    ensures Settled(s.runs, s.validations, r, AcceptedValidation(cfg, s, r, originalLease).value)
  {
    hide Fold;
  }

  lemma ApprovalMeaning(cfg: Config, s: State, r: RunId, g: Guard, kind: Kind, target: string, inputFp: Fp,
                        approvedBy: string, at: Time, expiresAt: Time, id: ApprovalId, t: State)
    requires RecordApproval(cfg, s, r, g, kind, target, inputFp, approvedBy, at, expiresAt, id) == Ok(t)
    ensures r in s.runs && s.runs[r].status == EffectState(kind) && s.runs[r].mode == Live
    ensures AcceptedValidation(cfg, s, r, false).Ok?
    ensures t == s || (&& id !in s.approvals && id in t.approvals
                       && t == s.(approvals := s.approvals[id := t.approvals[id]])
                       && t.approvals[id].payload.run == r
                       && t.approvals[id].payload.validation == AcceptedValidation(cfg, s, r, false).value
                       && ApprovalTimely(t.approvals[id]))
  {
    hide AcceptedValidation, RequireApproval;
  }

  lemma ApprovalKeepsInv(cfg: Config, s: State, r: RunId, g: Guard, kind: Kind, target: string, inputFp: Fp,
                         approvedBy: string, at: Time, expiresAt: Time, id: ApprovalId, t: State)
    requires Inv(s) && RecordApproval(cfg, s, r, g, kind, target, inputFp, approvedBy, at, expiresAt, id) == Ok(t)
    ensures Inv(t)
  {
    hide RecordApproval, RunsOk, IntentsOk, ReservationsOk, PinsOk, LinksOk, SuccessOk, ReceiptsOk, ReceiptsPaidFor,
      ProofsOk, CompletionOk, Settled, AcceptedValidation, RunHere;
    ApprovalMeaning(cfg, s, r, g, kind, target, inputFp, approvedBy, at, expiresAt, id, t);
    if t != s {
      RunIsHere(s, r);
      AcceptedSettles(cfg, s, r, false, kind);
    }
  }

  /** What a committed beginEffect wrote, when it wrote anything. */
  lemma BeginMeaning(cfg: Config, s: State, r: RunId, g: Guard, kind: Kind, target: string, key: string, inputFp: Fp,
                     id: IntentId, t: State)
    requires BeginEffect(cfg, s, r, g, kind, target, key, inputFp, id) == Ok(t)
    ensures r in s.runs && s.runs[r].status == EffectState(kind) && s.runs[r].mode == Live
    ensures LeaseActive(s.runs[r], s.now)
    ensures AcceptedValidation(cfg, s, r, true).Ok?
    ensures t == s || (var v := AcceptedValidation(cfg, s, r, true).value;
                       && id !in s.intents
                       && (forall i :: i in s.intents ==> !SameKey(s.intents[i], kind, target, key))
                       && t == Bump(s.(intents := s.intents[id :=
                                         Intent(r, kind, target, key, inputFp, v, v.candidate, v.artifactSet)]), r))
  {
    hide AcceptedValidation, RequireApproval;
  }

  lemma AddIntent(s: State, id: IntentId, intent: Intent)
    requires Inv(s) && id !in s.intents && IntentOk(s.runs, s.validations, intent)
    requires forall i :: i in s.intents ==> !SameKey(s.intents[i], intent.kind, intent.target, intent.key)
    ensures Inv(s.(intents := s.intents[id := intent]))
  {
    hide RunsOk, ApprovalsOk, PinsOk, LinksOk, SuccessOk, ReceiptsPaidFor, ProofsOk, ActiveUnique, IntentOk,
      EffectsDone;
    var intents := s.intents[id := intent];
    assert id !in s.receipts;
    forall r | r in s.runs ensures EffectsDone(intents, s.receipts, r, s.runs[r].status) {
      EffectsSame(s.intents, intents, s.receipts, r, s.runs[r].status);
    }
  }

  lemma EffectsSame(before: Intents, after: Intents, receipts: Receipts, r: RunId, status: Status)
    requires forall i :: i in receipts ==> i in before && i in after && before[i] == after[i]
    ensures EffectsDone(before, receipts, r, status) == EffectsDone(after, receipts, r, status)
  {
    assert forall kind :: ReceiptsOf(before, receipts, r, kind) == ReceiptsOf(after, receipts, r, kind);
  }

  lemma BumpIsRunStep(s: State, r: RunId)
    requires RunHere(s, r) && !Terminal(s.runs[r].status)
    ensures RunStep(s, Bump(s, r), r)
  {
    hide Fold;
    var row := s.runs[r];
    RewriteIsRunStep(s, Bump(s, r), r, row.(version := row.version + 1), Log(s, r));
  }

  lemma BeginKeepsInv(cfg: Config, s: State, r: RunId, g: Guard, kind: Kind, target: string, key: string, inputFp: Fp,
                      id: IntentId, t: State)
    requires Inv(s) && BeginEffect(cfg, s, r, g, kind, target, key, inputFp, id) == Ok(t)
    ensures Inv(t)
  {
    hide BeginEffect, AcceptedValidation, Inv, RunStep, IntentOk, RunHere, Settled;
    BeginMeaning(cfg, s, r, g, kind, target, key, inputFp, id, t);
    if t != s {
      RunIsHere(s, r);
      AcceptedSettles(cfg, s, r, true, kind);
      var v := AcceptedValidation(cfg, s, r, true).value;
      var intent := Intent(r, kind, target, key, inputFp, v, v.candidate, v.artifactSet);
      SettledIntent(s, intent);
      AddIntent(s, id, intent);
      var mid := s.(intents := s.intents[id := intent]);
      RunIsHere(mid, r);
      BumpIsRunStep(mid, r);
      RunStepKeepsInv(mid, t, r);
    }
  }

  lemma RunIsHere(s: State, r: RunId)
    requires Inv(s) && r in s.runs
    ensures RunHere(s, r)
  {
    hide RunOk;
  }

  lemma SettledIntent(s: State, intent: Intent)
    requires Settled(s.runs, s.validations, intent.run, intent.validation)
    requires intent.candidate == intent.validation.candidate && intent.artifactSet == intent.validation.artifactSet
    ensures IntentOk(s.runs, s.validations, intent)
  {
  }

  // -------------------------------------------------------- reserve, cancel, consume

  lemma ReserveMeaning(cfg: Config, s: State, r: RunId, kind: Kind, target: string, inputFp: Fp, key: string,
                       i: IntentId, v: Validation, id: ReservationId, token: Token, t: State) returns (res: Reservation)
    requires Reserve(cfg, s, r, kind, target, inputFp, key, i, v, id, token) == Ok(t)
    ensures id !in s.reservations && t == s.(reservations := s.reservations[id := res])
    ensures res.state.Reserved? && Bound(s.intents, res) && res.intent == i
    ensures forall k :: k in s.reservations && s.reservations[k].intent == i ==>
              s.reservations[k].state.CancelledPreSend?
    ensures s.now < res.invokeBy <= s.now + INVOKE_MILLIS
  {
    hide RequireApproval, Fold;
    res := t.reservations[id];
  }

  /** A fresh reserved row for an intent whose other reservations were all cancelled. */
  lemma ReserveTables(s: State, id: ReservationId, res: Reservation)
    requires id !in s.reservations && res.state.Reserved? && Bound(s.intents, res)
    requires forall k :: k in s.reservations && s.reservations[k].intent == res.intent ==>
               s.reservations[k].state.CancelledPreSend?
    ensures var after := s.reservations[id := res];
      && (ReservationsOk(s.intents, s.reservations) ==> ReservationsOk(s.intents, after))
      && (PinsOk(s.runs, s.reservations, s.receipts, s.reconciliations) ==>
            PinsOk(s.runs, after, s.receipts, s.reconciliations))
      && (LinksOk(s.reservations, s.attempts) ==> LinksOk(after, s.attempts))
  {
    hide Pinned, Bound;
  }

  lemma ReserveKeepsInv(cfg: Config, s: State, r: RunId, kind: Kind, target: string, inputFp: Fp, key: string,
                        i: IntentId, v: Validation, id: ReservationId, token: Token, t: State)
    requires Inv(s) && Reserve(cfg, s, r, kind, target, inputFp, key, i, v, id, token) == Ok(t)
    ensures Inv(t)
  {
    hide Reserve, RunsOk, IntentsOk, ApprovalsOk, SuccessOk, ReceiptsOk, ProofsOk, CompletionOk, Bound, ReservationsOk,
      PinsOk, LinksOk, ReceiptsPaidFor;
    var res := ReserveMeaning(cfg, s, r, kind, target, inputFp, key, i, v, id, token, t);
    ReserveTables(s, id, res);
    KeepsConsumed(s.reservations, t.reservations, s.receipts);
  }

  /** Receipts stay paid for while consumed reservations stay. */
  lemma KeepsConsumed(before: Reservations, after: Reservations, receipts: Receipts)
    requires ReceiptsPaidFor(before, receipts)
    requires forall k :: k in before && before[k].state.Consumed? ==> k in after && after[k] == before[k]
    ensures ReceiptsPaidFor(after, receipts)
  {
    forall i | i in receipts ensures ConsumedFor(after, i) {
      var k :| k in before && before[k].intent == i && before[k].state.Consumed?;
      assert k in after && after[k].intent == i;
    }
  }

  /** Rewriting the state of one reserved reservation, short of consuming it. */
  lemma CancelTables(s: State, k: ReservationId)
    requires k in s.reservations && s.reservations[k].state.Reserved?
    ensures var after := s.reservations[k := s.reservations[k].(state := CancelledPreSend)];
      && (ReservationsOk(s.intents, s.reservations) ==> ReservationsOk(s.intents, after))
      && (PinsOk(s.runs, s.reservations, s.receipts, s.reconciliations) ==>
            PinsOk(s.runs, after, s.receipts, s.reconciliations))
      && (LinksOk(s.reservations, s.attempts) ==> LinksOk(after, s.attempts))
  {
    hide Pinned;
  }

  lemma CancelKeepsInv(s: State, c: Claim, t: State)
    requires Inv(s) && Cancel(s, c) == Ok(t)
    ensures Inv(t)
  {
    hide RunsOk, IntentsOk, ApprovalsOk, SuccessOk, ReceiptsOk, ProofsOk, CompletionOk, ReservationsOk, LinksOk, PinsOk;
    CancelTables(s, c.id);
    KeepsConsumed(s.reservations, t.reservations, s.receipts);
  }

  lemma ConsumeMeaning(s: State, c: Claim, a: AttemptId, fence: Fence, t: State)
    requires Consume(s, c, a, fence) == Ok(t)
    ensures c.id in s.reservations && s.reservations[c.id].state.Reserved? && a !in s.attempts
    ensures StillCurrent(s, s.reservations[c.id]) && s.reservations[c.id].intent == c.intent
    ensures NextAttemptNumber(s, c.intent, NextNumber(s, c.intent)) && NextNumber(s, c.intent) <= 3
    ensures var res := s.reservations[c.id];
            t == s.(reservations := s.reservations[c.id := res.(state := Consumed(a, fence, s.now))],
                    attempts := s.attempts[a := Attempt(c.intent, NextNumber(s, c.intent), res.worker, fence,
                                                        ReadyToInvoke, s.now, res.invokeBy, s.now, c.id)])
  {
    hide StillCurrent;
  }

  /** A reserved intent has no attempt yet and no receipt, so its first attempt is number one. */
  lemma FirstAttempt(s: State, k: ReservationId)
    requires ReservationsOk(s.intents, s.reservations) && LinksOk(s.reservations, s.attempts)
    requires ReceiptsPaidFor(s.reservations, s.receipts)
    requires k in s.reservations && s.reservations[k].state.Reserved?
    ensures forall b :: b in s.attempts ==> s.attempts[b].intent != s.reservations[k].intent
    ensures s.reservations[k].intent !in s.receipts
    ensures forall n: nat :: NextAttemptNumber(s, s.reservations[k].intent, n) ==> n == 1
  {
    hide Bound;
    var i := s.reservations[k].intent;
    assert i in s.receipts ==> ConsumedFor(s.reservations, i);
  }

  lemma ConsumeLinks(s: State, k: ReservationId, a: AttemptId, fence: Fence, attempt: Attempt)
    requires LinksOk(s.reservations, s.attempts) && a !in s.attempts
    requires k in s.reservations && s.reservations[k].state.Reserved?
    requires Linked(k, s.reservations[k].(state := Consumed(a, fence, s.now)), a, attempt)
    ensures LinksOk(s.reservations[k := s.reservations[k].(state := Consumed(a, fence, s.now))],
              s.attempts[a := attempt])
  {
  }

  /** Consumption happens under the identity the reservation stored. */
  lemma ConsumePins(s: State, k: ReservationId, a: AttemptId, fence: Fence)
    requires k in s.reservations && StillCurrent(s, s.reservations[k]) && Bound(s.intents, s.reservations[k])
    requires PinsOk(s.runs, s.reservations, s.receipts, s.reconciliations)
    ensures PinsOk(s.runs, s.reservations[k := s.reservations[k].(state := Consumed(a, fence, s.now))],
                   s.receipts, s.reconciliations)
  {
    hide Fold;
  }

  lemma ConsumeTables(s: State, k: ReservationId, a: AttemptId, fence: Fence, attempt: Attempt)
    requires ReservationsOk(s.intents, s.reservations) && k in s.reservations && s.reservations[k].state.Reserved?
    requires SuccessOk(s.attempts, s.receipts) && ProofsOk(s.attempts, s.reconciliations) && a !in s.attempts
    requires attempt.state.ReadyToInvoke? && attempt.intent !in s.receipts
    ensures ReservationsOk(s.intents, s.reservations[k := s.reservations[k].(state := Consumed(a, fence, s.now))])
    ensures SuccessOk(s.attempts[a := attempt], s.receipts) && ProofsOk(s.attempts[a := attempt], s.reconciliations)
  {
  }

  lemma ConsumeKeepsInv(s: State, c: Claim, a: AttemptId, fence: Fence, t: State)
    requires Inv(s) && Consume(s, c, a, fence) == Ok(t)
    ensures Inv(t)
  {
    hide Consume, RunsOk, IntentsOk, ApprovalsOk, ReceiptsOk, CompletionOk, LinksOk, ReceiptsPaidFor, NextAttemptNumber,
      StillCurrent, PinsOk, SuccessOk, ProofsOk, ActiveUnique, Bound;
    ConsumeMeaning(s, c, a, fence, t);
    FirstAttempt(s, c.id);
    ConsumePins(s, c.id, a, fence);
    ConsumeLinks(s, c.id, a, fence, t.attempts[a]);
    ConsumeTables(s, c.id, a, fence, t.attempts[a]);
    KeepsConsumed(s.reservations, t.reservations, s.receipts);
  }
}
