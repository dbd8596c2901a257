/** When the calls on a run succeed, in the columns of its own rows. */
module StoreConditions {
  import opened Common
  import opened RunLog
  import opened StoreModel
  import opened StoreSteps
  import opened StoreInvariant
  import opened StoreRunMethods
  import opened StoreEffectMethods
  import opened StoreOutcomes
  import opened StoreTheorems
  import opened StoreGuarantees
  import opened StoreWindows
  import opened StoreCallers
  import opened StoreResults
  import opened StoreRecovery

  /** The guard's columns are the run's own, and the lease they name is running. */
  ghost predicate Guards(s: State, r: RunId, leaseId: LeaseId, worker: string, generation: nat, version: nat) {
    && r in s.runs && s.runs[r].lease.Some?
    && s.runs[r].lease.value.id == leaseId && s.runs[r].lease.value.worker == worker
    && s.now < s.runs[r].lease.value.expiresAt
    && s.runs[r].generation == generation && s.runs[r].version == version
  }

  lemma LocksIff(s: State, r: RunId, g: Guard)
    ensures LockRun(s, r, g).Ok? <==> Guards(s, r, g.leaseId, g.worker, g.generation, g.version)
    ensures LockRun(s, r, g).Ok? ==> LockRun(s, r, g).value == s.runs[r]
    ensures LockRun(s, r, g) == Err(NotFound) <==> r !in s.runs
    ensures LockRun(s, r, g).Err? && r in s.runs ==> LockRun(s, r, g) == Err(LeaseConflict)
  {
  }

  // --------------------------------------------------------------- outstanding invocations

  /** The reservation may still be sent, or was sent and its attempt is neither settled nor proved NOT_APPLIED. */
  ghost predicate StillOut(s: State, res: Reservation) {
    match res.state
    case Reserved => s.now < res.invokeBy
    case Consumed(a, _, _) =>
      && a in s.attempts && !s.attempts[a].state.Succeeded?
      && !(a in s.reconciliations && s.reconciliations[a].outcome == NotApplied)
    case CancelledPreSend => false
  }

  ghost predicate InvocationOpen(s: State, r: RunId) {
    exists k :: k in s.reservations && s.reservations[k].run == r && StillOut(s, s.reservations[k])
  }

  lemma StillOutIff(s: State, k: ReservationId)
    requires LinksOk(s.reservations, s.attempts) && SuccessOk(s.attempts, s.receipts) && k in s.reservations
    ensures Outstanding(s.now, s.receipts, s.reconciliations, s.reservations[k]) <==> StillOut(s, s.reservations[k])
  {
    if s.reservations[k].state.Consumed? {
      var a := s.reservations[k].state.attempt;
      assert Linked(k, s.reservations[k], a, s.attempts[a]);
    }
  }

  /** What keeps a run in place, in terms of attempts rather than receipts. */
  lemma ActiveIff(s: State, r: RunId)
    requires Inv(s)
    ensures ActiveInvocation(s, r) <==> InvocationOpen(s, r)
  {
    hide Inv, LinksOk, SuccessOk, Outstanding, StillOut, ReservationsOk, KeysUnique;
    InvKeys(s);
    InvParts(s);
    forall k | k in s.reservations
      ensures Outstanding(s.now, s.receipts, s.reconciliations, s.reservations[k]) <==> StillOut(s, s.reservations[k])
    {
      StillOutIff(s, k);
    }
    if ActiveInvocation(s, r) {
      var k :| k in s.reservations && s.reservations[k].run == r
               && Outstanding(s.now, s.receipts, s.reconciliations, s.reservations[k]);
      assert StillOut(s, s.reservations[k]);
    }
    if InvocationOpen(s, r) {
      var k :| k in s.reservations && s.reservations[k].run == r && StillOut(s, s.reservations[k]);
      assert Outstanding(s.now, s.receipts, s.reconciliations, s.reservations[k]);
    }
  }

  // ------------------------------------------------------------------------- the event gate

  /** The number of the last retry that the log schedules for an operation. */
  function LastRetry(log: seq<Event>, op: RetryOp): nat {
    if |log| == 0 then 0
    else
      var e := log[|log| - 1];
      if e.body.RetryScheduled? && e.body.operation == op then e.body.attempt else LastRetry(log[..|log| - 1], op)
  }

  lemma {:induction false} FoldRemembersIds(log: seq<Event>)
    requires Fold(log).Some?
    ensures forall id :: id in Fold(log).value.ids <==> exists k :: 0 <= k < |log| && log[k].id == id
    decreases |log|
  {
    if |log| > 0 {
      var n := |log| - 1;
      FoldRemembersIds(log[..n]);
      hide Fold;
      CursorGrows(log, n);
      IdsGrow(Fold(log[..n]).value.ids, Fold(log).value.ids, log, n);
    }
  }

  lemma CursorGrows(log: seq<Event>, n: nat)
    requires n + 1 == |log| && Fold(log).Some?
    ensures Fold(log[..n]).Some? && Fold(log).value.ids == Fold(log[..n]).value.ids + {log[n].id}
    ensures Fold(log).value.retries == if !log[n].body.RetryScheduled? then Fold(log[..n]).value.retries
                                       else Fold(log[..n]).value.retries[log[n].body.operation := log[n].body.attempt]
  {
    hide InStep, BodyAllowed;
  }

  lemma IdsGrow(before: set<EventId>, after: set<EventId>, log: seq<Event>, n: nat)
    requires n + 1 == |log| && after == before + {log[n].id}
    requires forall id :: id in before <==> exists k :: 0 <= k < n && log[..n][k].id == id
    ensures forall id :: id in after <==> exists k :: 0 <= k < |log| && log[k].id == id
  {
    forall id ensures id in after <==> exists k :: 0 <= k < |log| && log[k].id == id {
      if id in before {
        var k :| 0 <= k < n && log[..n][k].id == id;
        assert log[k].id == id;
      }
      if k :| 0 <= k < |log| && log[k].id == id && k < n {
        assert log[..n][k].id == id;
      }
    }
  }

  lemma {:induction false} FoldRemembersRetries(log: seq<Event>, op: RetryOp)
    requires Fold(log).Some?
    ensures PreviousAttempt(Fold(log).value, op) == LastRetry(log, op)
    decreases |log|
  {
    if |log| > 0 {
      FoldRemembersRetries(log[..|log| - 1], op);
      hide Fold;
      CursorGrows(log, |log| - 1);
    }
  }

  /** An id that no event has. */
  ghost predicate Unused(s: State, r: RunId, id: EventId) {
    id !in s.eventIds && forall k :: 0 <= k < |Log(s, r)| ==> Log(s, r)[k].id != id
  }

  /** What the type of an event asks of the run whose lease holder proposes it. */
  ghost predicate BodyFits(row: RunRow, log: seq<Event>, e: Event) {
    match e.body
    case StatusChanged(from, to) => from == row.status && Adjacent(from, to)
    case Renewed(previous, next) => row.lease.Some? && previous == row.lease.value.expiresAt < next
    case Released => true
    case RetryScheduled(op, attempt, at) =>
      && attempt == LastRetry(log, op) + 1
      && (|| (attempt == 1 && at == e.at + 1_000) || (attempt == 2 && at == e.at + 5_000)
          || (attempt == 3 && at == e.at + 30_000))
      && (op == DatahubRead ==> row.status == ContextCollecting)
      && (op == Generation ==> row.status == RiskDecided || row.status == MigrationPlanned)
      && (op == GithubWrite ==> row.status == Validated)
      && (op == DatahubWrite ==> row.status == WritebackPending)
    case _ => false
  }

  /** The gate takes an event of the lease holder exactly when it is the next one, on time, new, and fits the run. */
  lemma HolderAuthorizedIff(s: State, e: Event)
    requires Inv(s) && e.run in s.runs && !e.body.Acquired? && !e.body.Expired?
    requires Guards(s, e.run, e.leaseId, e.worker, e.generation, s.runs[e.run].version)
    ensures Authorized(Log(s, e.run), e, s.now)
            <==> && e.at == s.now && e.sequence == |Log(s, e.run)| < MAX_EVENTS
                 && (forall k :: 0 <= k < |Log(s, e.run)| ==> Log(s, e.run)[k].id != e.id)
                 && BodyFits(s.runs[e.run], Log(s, e.run), e)
  {
    hide Inv, Fold;
    RunIsHere(s, e.run);
    FoldLength(Log(s, e.run));
    HolderFits(Log(s, e.run));
    FoldRemembersIds(Log(s, e.run));
    if e.body.RetryScheduled? {
      FoldRemembersRetries(Log(s, e.run), e.body.operation);
    }
    FoldAppend(Log(s, e.run), e);
  }

  // ----------------------------------------------------------------------- the evidence

  /** The run's last validation is good for its last candidate. */
  ghost predicate Stands(cfg: Config, s: State, r: RunId) {
    var vs, cs := Validations(s, r), Get(s.candidates, r);
    vs != [] && cs != [] && cfg.validationOk(vs[|vs| - 1], cs[|cs| - 1])
  }

  /** The lease under which the last validation was executed is the run's own. */
  ghost predicate ByItsHolder(s: State, r: RunId)
    requires r in s.runs
  {
    var vs := Validations(s, r);
    && vs != [] && s.runs[r].lease.Some?
    && vs[|vs| - 1].leaseId == s.runs[r].lease.value.id && vs[|vs| - 1].worker == s.runs[r].lease.value.worker
    && vs[|vs| - 1].generation == s.runs[r].generation
  }

  lemma AcceptedIff(cfg: Config, s: State, r: RunId, originalLease: bool)
    requires RunHere(s, r) && LeaseActive(s.runs[r], s.now)
    ensures AcceptedValidation(cfg, s, r, originalLease).Ok?
            <==> Stands(cfg, s, r) && (originalLease ==> ByItsHolder(s, r))
    ensures AcceptedValidation(cfg, s, r, originalLease).Ok? ==>
              LatestValidation(s, r) == Some(AcceptedValidation(cfg, s, r, originalLease).value)
  {
    hide CursorFits;
  }

  lemma PayloadIff(cfg: Config, s: State, r: RunId, kind: Kind, i: IntentId)
    requires RunHere(s, r) && i in ReceiptsOf(s.intents, s.receipts, r, kind)
    requires IntentOk(s.runs, s.validations, s.intents[i]) && ReceiptOk(i, s.intents[i], s.receipts[i])
    ensures CheckPayload(cfg, s, i, s.receipts[i].payload).Pass? <==> Stands(cfg, s, r)
    ensures CheckPayload(cfg, s, i, s.receipts[i].payload) != Fail(CorruptData)
  {
    hide CursorFits;
    assert s.intents[i].validation == Validations(s, r)[|Validations(s, r)| - 1];
  }

  lemma BoundIff(cfg: Config, s: State, r: RunId, kind: Kind)
    requires RunHere(s, r) && IntentsOk(s.runs, s.validations, s.intents) && ReceiptsOk(s.intents, s.receipts)
    ensures BoundEffect(cfg, s, r, kind).Pass?
            <==> |ReceiptsOf(s.intents, s.receipts, r, kind)| == 1 && Stands(cfg, s, r)
  {
    hide RunHere, IntentOk, ReceiptOk, CheckPayload, Stands, BoundReceipts, LatestBoundReceipts, ReceiptsOf, KeysUnique;
    EveryReceiptIsBound(s, r, kind);
    var rows := ReceiptsOf(s.intents, s.receipts, r, kind);
    if |rows| == 1 {
      var i := OnlyOne(rows);
      assert i in rows;
      ReceiptsStored(s, r, kind, i);
      PayloadIff(cfg, s, r, kind, i);
    }
  }

  lemma ReceiptsStored(s: State, r: RunId, kind: Kind, i: IntentId)
    requires IntentsOk(s.runs, s.validations, s.intents) && ReceiptsOk(s.intents, s.receipts)
    requires i in ReceiptsOf(s.intents, s.receipts, r, kind)
    ensures i in s.receipts && i in s.intents && s.intents[i].run == r
    ensures IntentOk(s.runs, s.validations, s.intents[i]) && ReceiptOk(i, s.intents[i], s.receipts[i])
  {
    hide IntentOk, ReceiptOk, KeysUnique;
  }

  /** Receipts of one run share its last validation. */
  lemma ReceiptsAgree(s: State, r: RunId, i: IntentId, j: IntentId)
    requires IntentsOk(s.runs, s.validations, s.intents) && ReceiptsOk(s.intents, s.receipts)
    requires i in s.receipts && j in s.receipts && i in s.intents && j in s.intents
    requires s.intents[i].run == r == s.intents[j].run
    ensures s.receipts[i].validation == s.receipts[j].validation
    ensures s.receipts[i].candidate == s.receipts[j].candidate
    ensures s.receipts[i].artifactSet == s.receipts[j].artifactSet
    ensures s.receipts[i].payload.validation == s.receipts[j].payload.validation
    ensures s.receipts[i].payload.candidate == s.receipts[j].payload.candidate
    ensures s.receipts[i].payload.artifactSet == s.receipts[j].payload.artifactSet
  {
    hide KeysUnique;
    assert IntentOk(s.runs, s.validations, s.intents[i]) && ReceiptOk(i, s.intents[i], s.receipts[i]);
    assert IntentOk(s.runs, s.validations, s.intents[j]) && ReceiptOk(j, s.intents[j], s.receipts[j]);
  }

  lemma BindingShared(s: State, r: RunId)
    requires IntentsOk(s.runs, s.validations, s.intents) && ReceiptsOk(s.intents, s.receipts)
    ensures SharedBinding(s, r)
  {
    hide IntentsOk, ReceiptsOk;
    forall i, j | i in BoundReceipts(s, r, GithubReview) && j in BoundReceipts(s, r, DatahubWriteback)
      ensures s.receipts[i].payload.validation == s.receipts[j].payload.validation
      ensures s.receipts[i].payload.candidate == s.receipts[j].payload.candidate
      ensures s.receipts[i].payload.artifactSet == s.receipts[j].payload.artifactSet
    {
      ReceiptsAgree(s, r, i, j);
    }
  }

  lemma TriggerIff(s: State, r: RunId, to: Status)
    requires r in s.runs && IntentsOk(s.runs, s.validations, s.intents) && ReceiptsOk(s.intents, s.receipts)
    ensures CompletionTrigger(s, r, to)
            <==> (to == ReviewArtifactCreated || to == Completed ==>
                    s.runs[r].mode == Live && |ReceiptsOf(s.intents, s.receipts, r, GithubReview)| == 1)
                 && (to == Completed ==> |ReceiptsOf(s.intents, s.receipts, r, DatahubWriteback)| == 1)
  {
    hide IntentsOk, ReceiptsOk;
    EveryReceiptIsBound(s, r, GithubReview);
    EveryReceiptIsBound(s, r, DatahubWriteback);
    forall i, j | i in LatestBoundReceipts(s, r, GithubReview) && j in LatestBoundReceipts(s, r, DatahubWriteback)
      ensures s.receipts[i].validation == s.receipts[j].validation
      ensures s.receipts[i].candidate == s.receipts[j].candidate
      ensures s.receipts[i].artifactSet == s.receipts[j].artifactSet
    {
      ReceiptsAgree(s, r, i, j);
    }
  }

  /** What stands behind the status a run moves to. */
  ghost predicate Evidence(cfg: Config, s: State, r: RunId, to: Status)
    requires r in s.runs
  {
    && (to == Validated ==> ByItsHolder(s, r))
    && (to == Validated || to == ReviewArtifactCreated || to == Completed ==> Stands(cfg, s, r))
    && (to == ReviewArtifactCreated || to == Completed ==>
          s.runs[r].mode == Live && |ReceiptsOf(s.intents, s.receipts, r, GithubReview)| == 1)
    && (to == Completed ==> |ReceiptsOf(s.intents, s.receipts, r, DatahubWriteback)| == 1)
  }

  lemma EvidenceIff(cfg: Config, s: State, r: RunId, to: Status)
    requires RunHere(s, r) && LeaseActive(s.runs[r], s.now)
    requires IntentsOk(s.runs, s.validations, s.intents) && ReceiptsOk(s.intents, s.receipts)
    ensures Prerequisites(cfg, s, r, to).Pass? <==> Evidence(cfg, s, r, to)
  {
    assert r in s.runs;
    hide RunHere, IntentsOk, ReceiptsOk, AcceptedValidation, BoundEffect, SharedBinding, CompletionTrigger, ByItsHolder,
      ReceiptsOf, LeaseActive, Stands, LatestValidation, Prerequisites;
    AcceptedIff(cfg, s, r, true);
    AcceptedIff(cfg, s, r, false);
    BoundIff(cfg, s, r, GithubReview);
    BoundIff(cfg, s, r, DatahubWriteback);
    BindingShared(s, r);
    TriggerIff(s, r, to);
    PrerequisitesAre(cfg, s, r, to);
  }

  /** The checks in order, as one condition. */
  lemma PrerequisitesAre(cfg: Config, s: State, r: RunId, to: Status)
    requires r in s.runs && SharedBinding(s, r)
    ensures Prerequisites(cfg, s, r, to).Pass?
            <==> && (to == Validated ==> AcceptedValidation(cfg, s, r, true).Ok?)
                 && (to == Completed ==> AcceptedValidation(cfg, s, r, false).Ok?)
                 && (to == ReviewArtifactCreated || to == Completed ==> BoundEffect(cfg, s, r, GithubReview).Pass?)
                 && (to == Completed ==> BoundEffect(cfg, s, r, DatahubWriteback).Pass?)
                 && CompletionTrigger(s, r, to)
  {
    hide BoundEffect, SharedBinding, CompletionTrigger, VerifyValidation;
  }

  // ----------------------------------------------------------------- calls on a run's rows

  /** All that a call on a run's lease or status writes: the row, the events, and that their ids are used. */
  ghost predicate Writes(s: State, t: State, r: RunId, row: RunRow, events: seq<Event>) {
    && r in s.runs
    && t == s.(runs := s.runs[r := row], logs := s.logs[r := Log(s, r) + events],
               eventIds := s.eventIds + (set e | e in events :: e.id), leases := t.leases, retries := t.retries)
  }

  lemma OneEvent(s: State, r: RunId, row: RunRow, e: Event)
    requires r in s.runs
    ensures Writes(s, s.(runs := s.runs[r := row], logs := s.logs[r := Log(s, r) + [e]],
                         eventIds := s.eventIds + {e.id}), r, row, [e])
  {
    assert (set f | f in [e] :: f.id) == {e.id};
  }

  /** The version goes up by one with every write to a row. */
  function Next(row: RunRow): RunRow {
    row.(version := row.version + 1)
  }

  /** Room for `n` more events. */
  ghost predicate Room(s: State, r: RunId, n: nat) {
    |Log(s, r)| + n <= 300
  }

  /** The guard of an event names the run's live lease and version, and the event comes next in its log. */
  ghost predicate NextEvent(s: State, e: Event, version: nat) {
    && Guards(s, e.run, e.leaseId, e.worker, e.generation, version)
    && e.at == s.now && e.sequence == |Log(s, e.run)| && Room(s, e.run, 1) && Unused(s, e.run, e.id)
  }

  /** An event of the lease holder is appended to its log exactly when it comes next and fits. */
  lemma AppendIff(s: State, e: Event, version: nat)
    requires Inv(s) && !e.body.Acquired? && !e.body.Expired?
    requires Guards(s, e.run, e.leaseId, e.worker, e.generation, version)
    ensures Authorized(Log(s, e.run), e, s.now) && e.id !in s.eventIds
            <==> NextEvent(s, e, version) && BodyFits(s.runs[e.run], Log(s, e.run), e)
  {
    hide Inv, Authorized, BodyFits;
    HolderAuthorizedIff(s, e);
  }

  lemma AppendTo(s: State, runs: Runs, e: Event)
    ensures AppendEvent(s.(runs := runs), e).Ok? <==> Authorized(Log(s, e.run), e, s.now) && e.id !in s.eventIds
    ensures AppendEvent(s.(runs := runs), e).Ok? ==>
              AppendEvent(s.(runs := runs), e).value
              == s.(runs := runs, logs := s.logs[e.run := Log(s, e.run) + [e]], eventIds := s.eventIds + {e.id})
  {
    hide Authorized;
  }

  /** A status is left by its success, its failure or a cancellation, and a terminal one never. */
  lemma TransitionIff(cfg: Config, s: State, e: Event, version: nat)
    requires Inv(s)
    ensures Transition(cfg, s, e, version).Ok?
            <==> && e.body.StatusChanged? && NextEvent(s, e, version) && !InvocationOpen(s, e.run)
                 && e.body.from == s.runs[e.run].status && Adjacent(e.body.from, e.body.to)
                 && Evidence(cfg, s, e.run, e.body.to)
    ensures Transition(cfg, s, e, version).Ok? ==>
              var row := s.runs[e.run];
              var t := Transition(cfg, s, e, version).value;
              && Writes(s, t, e.run, Next(row).(status := e.body.to,
                                                lease := if Rank(e.body.to) == 12 then None else row.lease), [e])
              && t.leases == s.leases && t.retries == s.retries
  {
    hide Inv, Authorized, AppendEvent, Prerequisites, ActiveInvocation, InvocationOpen, Evidence, Unused, Writes;
    var r := e.run;
    LocksIff(s, r, EventGuard(e, version));
    if e.body.StatusChanged? && Guards(s, r, e.leaseId, e.worker, e.generation, version) {
      AppendIff(s, e, version);
      RunIsHere(s, r);
      EvidenceTables(s);
      EvidenceIff(cfg, s, r, e.body.to);
      ActiveIff(s, r);
      AppendTo(s, s.runs[r := Moved(s.runs[r], e.body.to)], e);
      OneEvent(s, r, Moved(s.runs[r], e.body.to), e);
      if Adjacent(e.body.from, e.body.to) {
        EdgeRaisesRank(e.body.from, e.body.to);
      }
    }
  }

  lemma EvidenceTables(s: State)
    requires Inv(s)
    ensures IntentsOk(s.runs, s.validations, s.intents) && ReceiptsOk(s.intents, s.receipts)
  {
    hide IntentsOk, ReceiptsOk;
  }

  lemma RenewIff(s: State, r: RunId, g: Guard, millis: int, id: EventId)
    requires Inv(s)
    ensures RenewLease(s, r, g, millis, id).Ok?
            <==> && millis > 0 && Guards(s, r, g.leaseId, g.worker, g.generation, g.version)
                 && Room(s, r, 1) && Unused(s, r, id)
    ensures RenewLease(s, r, g, millis, id).Ok? ==>
              var row := s.runs[r];
              var until := row.lease.value.expiresAt + millis;
              var t := RenewLease(s, r, g, millis, id).value;
              && Writes(s, t, r, Next(row).(lease := Some(Lease(g.leaseId, g.worker, until))),
                        [Event(id, r, |Log(s, r)|, s.now, g.leaseId, g.worker, g.generation,
                               Renewed(row.lease.value.expiresAt, until))])
              && t.leases == s.leases && t.retries == s.retries
  {
    hide Inv, Authorized, AppendEvent, Unused, Writes;
    LocksIff(s, r, g);
    if millis > 0 && Guards(s, r, g.leaseId, g.worker, g.generation, g.version) {
      var lease := s.runs[r].lease.value;
      var e := Event(id, r, |Log(s, r)|, s.now, g.leaseId, g.worker, g.generation,
                     Renewed(lease.expiresAt, lease.expiresAt + millis));
      AppendIff(s, e, g.version);
      AppendTo(s, s.runs[r := s.runs[r].(lease := Some(lease.(expiresAt := lease.expiresAt + millis)),
                                         version := s.runs[r].version + 1)], e);
      OneEvent(s, r, s.runs[r].(lease := Some(lease.(expiresAt := lease.expiresAt + millis)),
                                version := s.runs[r].version + 1), e);
    }
  }

  lemma ReleaseIff(s: State, r: RunId, g: Guard, id: EventId)
    requires Inv(s)
    ensures ReleaseLease(s, r, g, id).Ok?
            <==> && Guards(s, r, g.leaseId, g.worker, g.generation, g.version)
                 && Room(s, r, 1) && Unused(s, r, id) && !InvocationOpen(s, r)
    ensures ReleaseLease(s, r, g, id).Ok? ==>
              var t := ReleaseLease(s, r, g, id).value;
              && Writes(s, t, r, Next(s.runs[r]).(lease := None),
                        [Event(id, r, |Log(s, r)|, s.now, g.leaseId, g.worker, g.generation, Released)])
              && t.leases == s.leases && t.retries == s.retries
  {
    hide Inv, Authorized, AppendEvent, Unused, InvocationOpen, ActiveInvocation, Writes;
    LocksIff(s, r, g);
    if Guards(s, r, g.leaseId, g.worker, g.generation, g.version) {
      var e := Event(id, r, |Log(s, r)|, s.now, g.leaseId, g.worker, g.generation, Released);
      AppendIff(s, e, g.version);
      ActiveIff(s, r);
      AppendTo(s, s.runs[r := s.runs[r].(lease := None, version := s.runs[r].version + 1)], e);
      OneEvent(s, r, s.runs[r].(lease := None, version := s.runs[r].version + 1), e);
    }
  }

  lemma AppendRecordIff(s: State, r: RunId, g: Guard, record: Record)
    ensures AppendRecord(s, r, g, record).Ok?
            <==> && Guards(s, r, g.leaseId, g.worker, g.generation, g.version)
                 && (record.CollectionResult? ==> record.mode == s.runs[r].mode)
                 && (record.Decision? ==> forall k :: 0 <= k < |Get(s.records, r)| && Get(s.records, r)[k].Decision? ==>
                       Get(s.records, r)[k].scope != record.scope)
    ensures AppendRecord(s, r, g, record).Ok? ==>
              AppendRecord(s, r, g, record).value
              == s.(records := s.records[r := Get(s.records, r) + [record]], runs := s.runs[r := Next(s.runs[r])])
  {
    LocksIff(s, r, g);
  }

  lemma AppendCandidateIff(s: State, r: RunId, g: Guard, candidate: Fp)
    ensures AppendCandidate(s, r, g, candidate).Ok?
            <==> Guards(s, r, g.leaseId, g.worker, g.generation, g.version) && |Get(s.candidates, r)| < 20
    ensures AppendCandidate(s, r, g, candidate).Ok? ==>
              AppendCandidate(s, r, g, candidate).value
              == s.(candidates := s.candidates[r := Get(s.candidates, r) + [candidate]],
                    runs := s.runs[r := Next(s.runs[r])])
  {
    LocksIff(s, r, g);
  }

  /** A receipt is stored exactly for what the lease holder validated: this log, and the run's last candidate. */
  lemma IssueIff(cfg: Config, s: State, req: IssueRequest, issued: Validation)
    requires Inv(s)
    ensures var r, cs := req.run, Get(s.candidates, req.run);
            IssueValidation(cfg, s, req, issued).Ok?
            <==> && r in s.runs && s.runs[r].mode == Live && s.runs[r].status == Validating
                 && Guards(s, r, req.leaseId, req.worker, req.generation, s.runs[r].version)
                 && cs != [] && req.candidate == issued.candidate == cs[|cs| - 1]
                 && req.stream == issued.stream == Log(s, r) && issued.run == r
                 && cfg.validationOk(issued, cs[|cs| - 1])
                 && issued !in Validations(s, r) && |Validations(s, r)| < 20
    ensures IssueValidation(cfg, s, req, issued).Ok? ==>
              var r := req.run;
              IssueValidation(cfg, s, req, issued).value
              == s.(validations := s.validations[r := Validations(s, r) + [issued]],
                    runs := s.runs[r := Next(s.runs[r])])
  {
    hide Inv;
    if req.run in s.runs && LeaseActive(s.runs[req.run], s.now) {
      RunIsHere(s, req.run);
      HeldIsLogged(s, req.run);
    }
  }

  /** A run with a lease has the event that acquired it. */
  lemma HeldIsLogged(s: State, r: RunId)
    requires RunHere(s, r) && s.runs[r].lease.Some?
    ensures Log(s, r) != []
  {
  }

  /** The release behind a retry's own event. */
  lemma ReleasedNext(log: seq<Event>, e: Event, released: Event, row: RunRow, now: Time)
    requires CursorFits(e.run, row.status, row.lease, row.generation, log, now) && Authorized(log, e, now)
    requires e.body.RetryScheduled? && e.sequence == |log|
    requires released == Event(released.id, e.run, e.sequence + 1, e.at, e.leaseId, e.worker, e.generation, Released)
    ensures Authorized(log + [e], released, now)
            <==> |log| + 2 <= 300 && released.id !in Fold(log).value.ids && released.id != e.id
  {
    hide Fold;
    FoldLength(log);
    FoldAppend(log, e);
    FoldAppend(log + [e], released);
  }

  lemma RetryIff(s: State, e: Event, releasedId: EventId)
    requires Inv(s)
    ensures ScheduleRetry(s, e, releasedId).Ok?
            <==> && e.body.RetryScheduled? && e.run in s.runs && NextEvent(s, e, s.runs[e.run].version)
                 && BodyFits(s.runs[e.run], Log(s, e.run), e)
                 && RetryKey(e.run, e.body.operation, e.body.attempt) !in s.retries
                 && Room(s, e.run, 2) && Unused(s, e.run, releasedId) && releasedId != e.id
                 && !InvocationOpen(s, e.run)
  {
    hide Inv, Authorized, InvocationOpen, ActiveInvocation, Unused, BodyFits, CursorFits, RunHere, Advance;
    var r := e.run;
    if e.body.RetryScheduled? && r in s.runs && Guards(s, r, e.leaseId, e.worker, e.generation, s.runs[r].version) {
      LocksIff(s, r, EventGuard(e, s.runs[r].version));
      AppendIff(s, e, s.runs[r].version);
      ActiveIff(s, r);
      if NextEvent(s, e, s.runs[r].version) && BodyFits(s.runs[r], Log(s, r), e) {
        RetryPairIff(s, e, releasedId);
      }
    } else {
      RetryNeedsGuard(s, e, releasedId);
    }
  }

  lemma RetryNeedsGuard(s: State, e: Event, releasedId: EventId)
    ensures ScheduleRetry(s, e, releasedId).Ok? ==>
              && e.body.RetryScheduled? && e.run in s.runs
              && Guards(s, e.run, e.leaseId, e.worker, e.generation, s.runs[e.run].version)
  {
    hide Authorized, AppendEvent, UpdateRow, RetryAllowed;
  }

  lemma RetryPairIff(s: State, e: Event, releasedId: EventId)
    requires Inv(s) && e.body.RetryScheduled? && e.run in s.runs && NextEvent(s, e, s.runs[e.run].version)
    requires BodyFits(s.runs[e.run], Log(s, e.run), e) && Authorized(Log(s, e.run), e, s.now)
    ensures ScheduleRetry(s, e, releasedId).Ok?
            <==> && RetryKey(e.run, e.body.operation, e.body.attempt) !in s.retries
                 && Room(s, e.run, 2) && Unused(s, e.run, releasedId) && releasedId != e.id
                 && !ActiveInvocation(s, e.run)
  {
    hide Inv, Authorized, Blocked, CursorFits, RunHere, AppendEvent, Advance, RetryAllowed;
    var r, log := e.run, Log(s, e.run);
    LocksIff(s, r, EventGuard(e, s.runs[r].version));
    LogFits(s, r);
    FitsFolds(r, s.runs[r], log, s.now);
    FoldRemembersIds(log);
    var released := Event(releasedId, r, e.sequence + 1, e.at, e.leaseId, e.worker, e.generation, Released);
    ReleasedNext(log, e, released, s.runs[r], s.now);
    var s0 := s.(retries := s.retries[RetryKey(r, e.body.operation, e.body.attempt) := RetryRow(e.body.retryAt, e.at)]);
    AppendWrites(s0, e);
    AppendWrites(AppendEvent(s0, e).value, released);
    FitsAllows(s.runs[r], log, e);
  }

  lemma FitsAllows(row: RunRow, log: seq<Event>, e: Event)
    requires e.body.RetryScheduled? && BodyFits(row, log, e)
    ensures RetryAllowed(e.body.operation, row.status)
  {
  }

  lemma AppendWrites(s: State, e: Event)
    ensures AppendEvent(s, e).Ok? <==> Authorized(Log(s, e.run), e, s.now) && e.id !in s.eventIds
    ensures AppendEvent(s, e).Ok? ==>
              var t := AppendEvent(s, e).value;
              && t == s.(logs := s.logs[e.run := Log(s, e.run) + [e]], eventIds := s.eventIds + {e.id})
              && Log(t, e.run) == Log(s, e.run) + [e]
  {
    hide Authorized;
  }

  /** What a scheduled retry writes: its row, its event and the release, and the time of the next attempt. */
  lemma RetryWrites(s: State, e: Event, releasedId: EventId)
    requires ScheduleRetry(s, e, releasedId).Ok?
    ensures e.run in s.runs && e.body.RetryScheduled?
    ensures var t := ScheduleRetry(s, e, releasedId).value;
            var released := Event(releasedId, e.run, e.sequence + 1, e.at, e.leaseId, e.worker, e.generation, Released);
            && Writes(s, t, e.run, Next(s.runs[e.run]).(nextAttemptAt := e.body.retryAt, lease := None), [e, released])
            && t.retries == s.retries[RetryKey(e.run, e.body.operation, e.body.attempt)
                                      := RetryRow(e.body.retryAt, e.at)]
            && t.leases == s.leases
  {
    hide Authorized, ActiveInvocation, AppendEvent, RetryAllowed, Writes;
    var r := e.run;
    var t := ScheduleRetry(s, e, releasedId).value;
    var released := Event(releasedId, r, e.sequence + 1, e.at, e.leaseId, e.worker, e.generation, Released);
    var s0 := s.(retries := s.retries[RetryKey(r, e.body.operation, e.body.attempt) := RetryRow(e.body.retryAt, e.at)]);
    AppendWrites(s0, e);
    var s1 := AppendEvent(s0, e).value;
    AppendWrites(s1, released);
    TwoEvents(s, r, t, e, released);
  }

  lemma PairIds(e: Event, f: Event)
    ensures (set g | g in [e, f] :: g.id) == {e.id, f.id}
  {
    assert e in [e, f] && f in [e, f];
    assert forall g :: g in [e, f] ==> g == e || g == f;
  }

  lemma TwoEvents(s: State, r: RunId, t: State, e: Event, f: Event)
    requires r in s.runs && r in t.runs
    requires t == s.(runs := s.runs[r := t.runs[r]], logs := s.logs[r := Log(s, r) + [e] + [f]],
                     eventIds := s.eventIds + {e.id} + {f.id}, leases := t.leases, retries := t.retries)
    ensures Writes(s, t, r, t.runs[r], [e, f])
  {
    PairIds(e, f);
    assert Log(s, r) + [e] + [f] == Log(s, r) + [e, f];
    assert s.eventIds + {e.id} + {f.id} == s.eventIds + {e.id, f.id};
    hide Log;
  }

  lemma FitsFolds(r: RunId, row: RunRow, log: seq<Event>, now: Time)
    requires CursorFits(r, row.status, row.lease, row.generation, log, now)
    ensures Fold(log).Some?
  {
  }

  // ------------------------------------------------------------------------- the claim queue

  /** A run that a claim query looks at: its time has come, it is not over, and nobody holds it. */
  ghost predicate Free(s: State, r: RunId) {
    && r in s.runs && s.runs[r].nextAttemptAt <= s.now && Rank(s.runs[r].status) < 12
    && (s.runs[r].lease.None? || s.runs[r].lease.value.expiresAt <= s.now)
  }

  /** The claim query's order: next attempt, then creation, then id. */
  lemma FirstDueIff(s: State, locked: set<RunId>, r: RunId)
    ensures FirstDue(s, locked, r)
            <==> && Free(s, r) && r !in locked
                 && forall q | q in s.runs && Free(s, q) && q !in locked && q != r ::
                      || s.runs[r].nextAttemptAt < s.runs[q].nextAttemptAt
                      || (&& s.runs[r].nextAttemptAt == s.runs[q].nextAttemptAt
                          && (s.runs[r].createdAt < s.runs[q].createdAt
                              || (s.runs[r].createdAt == s.runs[q].createdAt && r < q)))
  {
    forall q | q in s.runs ensures Due(s, q) <==> Free(s, q) {
      DueIff(s, q);
    }
    DueIff(s, r);
    hide Due, Free;
  }

  lemma DueIff(s: State, r: RunId)
    ensures Due(s, r) <==> Free(s, r)
  {
  }

  /** When a claim with ids that nothing has used succeeds. */
  lemma ClaimCommitsIff(cfg: Config, s: State, r: RunId, worker: string, millis: int, leaseId: LeaseId,
                        expiredId: EventId, acquiredId: EventId)
    requires Reachable(cfg, s) && Fresh(s, r, leaseId, expiredId, acquiredId)
    ensures ClaimDue(s, r, worker, millis, leaseId, expiredId, acquiredId).Ok?
            <==> && 1 <= |worker| <= 160 && millis > 0
                 && Free(s, r) && !InvocationOpen(s, r) && Room(s, r, if s.runs[r].lease.Some? then 2 else 1)
  {
    hide Reachable, Inv, ActiveInvocation, InvocationOpen, Fresh, Due, Free, ExpireLapsed, Acquire;
    ReachableInv(cfg, s);
    DueIff(s, r);
    if 1 <= |worker| <= 160 && millis > 0 {
      hide ClaimDue;
      ClaimSucceedsIff(cfg, s, r, worker, millis, leaseId, expiredId, acquiredId);
      ActiveIff(s, r);
      FreeRuns(s, r);
    }
  }

  /** What a claim writes: the end of a lapsed lease, the acquisition of the new one, and its row in the lease table. */
  lemma ClaimWrites(s: State, r: RunId, worker: string, millis: int, leaseId: LeaseId, expiredId: EventId,
                    acquiredId: EventId)
    requires ClaimDue(s, r, worker, millis, leaseId, expiredId, acquiredId).Ok?
    ensures r in s.runs
    ensures var t := ClaimDue(s, r, worker, millis, leaseId, expiredId, acquiredId).value;
            var row := s.runs[r];
            var before := if row.lease.None? then [] else [ExpiryEvent(s, r, expiredId)];
            && Writes(s, t, r,
                      Next(row).(generation := row.generation + 1,
                                 lease := Some(Lease(leaseId, worker, s.now + millis))),
                      before + [Event(acquiredId, r, |Log(s, r)| + |before|, s.now, leaseId, worker, row.generation + 1,
                                      Acquired(s.now + millis))])
            && t.leases == s.leases[leaseId := LeaseRow(r, worker, row.generation + 1, s.now, s.now + millis)]
            && t.retries == s.retries
  {
    hide ClaimDue, ExpireLapsed, Acquire, Writes, ExpiryEvent, Log;
    var s1 := ClaimInSteps(s, r, worker, millis, leaseId, expiredId, acquiredId);
    ExpiryAppends(s, r, expiredId, s1);
    AcquisitionAppends(s1, r, worker, s.now + millis, leaseId, acquiredId);
    var t := Acquire(s1, r, worker, s.now + millis, leaseId, acquiredId).value;
    TwoSteps(s, r, s.runs[r], s1, t, expiredId,
             Event(acquiredId, r, |Log(s1, r)|, s.now, leaseId, worker, s.runs[r].generation + 1,
                   Acquired(s.now + millis)));
  }

  lemma ClaimInSteps(s: State, r: RunId, worker: string, millis: int, leaseId: LeaseId, expiredId: EventId,
                     acquiredId: EventId)
    returns (s1: State)
    requires ClaimDue(s, r, worker, millis, leaseId, expiredId, acquiredId).Ok?
    ensures r in s.runs && ExpireLapsed(s, r, expiredId) == Ok(s1) && r in s1.runs
    ensures ClaimDue(s, r, worker, millis, leaseId, expiredId, acquiredId)
            == Acquire(s1, r, worker, s.now + millis, leaseId, acquiredId)
  {
    hide Due, Acquire, Authorized;
    DueNeeds(s, r);
    s1 := ExpireLapsed(s, r, expiredId).value;
  }

  lemma ExpiryAppends(s: State, r: RunId, id: EventId, t: State)
    requires r in s.runs && ExpireLapsed(s, r, id) == Ok(t)
    ensures s.runs[r].lease.None? ==> t == s
    ensures s.runs[r].lease.Some? ==>
              t == s.(logs := s.logs[r := Log(s, r) + [ExpiryEvent(s, r, id)]], eventIds := s.eventIds + {id})
  {
    hide Authorized;
  }

  lemma AcquisitionAppends(s: State, r: RunId, worker: string, expiresAt: Time, leaseId: LeaseId, id: EventId)
    requires r in s.runs && Acquire(s, r, worker, expiresAt, leaseId, id).Ok?
    ensures var row := s.runs[r];
            var e := Event(id, r, |Log(s, r)|, s.now, leaseId, worker, row.generation + 1, Acquired(expiresAt));
            Acquire(s, r, worker, expiresAt, leaseId, id).value
            == s.(runs := s.runs[r := row.(lease := Some(Lease(leaseId, worker, expiresAt)),
                                           generation := row.generation + 1, version := row.version + 1)],
                  logs := s.logs[r := Log(s, r) + [e]], eventIds := s.eventIds + {id},
                  leases := s.leases[leaseId := LeaseRow(r, worker, row.generation + 1, s.now, expiresAt)])
  {
    hide Authorized, ActiveInvocation;
  }

  lemma TwoSteps(s: State, r: RunId, row: RunRow, s1: State, t: State, expiredId: EventId, e: Event)
    requires r in s.runs && row == s.runs[r] && e.sequence == |Log(s1, r)|
    requires row.lease.None? ==> s1 == s
    requires row.lease.Some? ==> s1 == s.(logs := s.logs[r := Log(s, r) + [ExpiryEvent(s, r, expiredId)]],
                                          eventIds := s.eventIds + {expiredId})
    requires r in t.runs && t == s1.(runs := s1.runs[r := t.runs[r]], logs := s1.logs[r := Log(s1, r) + [e]],
                                     eventIds := s1.eventIds + {e.id}, leases := t.leases)
    ensures var before := if row.lease.None? then [] else [ExpiryEvent(s, r, expiredId)];
            Writes(s, t, r, t.runs[r], before + [e]) && e.sequence == |Log(s, r)| + |before|
  {
    if row.lease.None? {
      assert [] + [e] == [e];
      OneEvent(s, r, t.runs[r], e);
    } else {
      var x := ExpiryEvent(s, r, expiredId);
      PairIds(x, e);
      assert [x] + [e] == [x, e];
      assert Log(s, r) + [x] + [e] == Log(s, r) + ([x] + [e]);
      assert s1.logs[r := Log(s1, r) + [e]] == s.logs[r := Log(s, r) + ([x] + [e])];
    }
  }

  lemma FreeRuns(s: State, r: RunId)
    ensures Free(s, r) ==> r in s.runs
  {
  }

  /** A new request key makes a new run; a used one finds its run, if the request is the same. */
  lemma CreateIff(s: State, r: RunId, key: string, fp: Fp, mode: Mode, at: Time)
    requires RequestKeysOwned(s.runs)
    ensures (forall k :: k in s.runs ==> s.runs[k].requestKey != key) ==>
              CreateRun(s, r, key, fp, mode, at)
              == if 1 <= |key| <= 512 && r !in s.runs
                 then Ok(s.(runs := s.runs[r := RunRow(key, fp, mode, s.now, Created, 0, at, None, 0)]))
                 else Err(Constraint)
    ensures forall k | k in s.runs && s.runs[k].requestKey == key ::
              CreateRun(s, r, key, fp, mode, at)
              == if s.runs[k].inputFp == fp && s.runs[k].mode == mode then Ok(s) else Err(IdempotencyConflict)
  {
  }

  /** A run is not claimed before the time it was created for. */
  lemma CreatedRunWaits(cfg: Config, s: State, create: Op, more: seq<Op>, claim: Op)
    requires Reachable(cfg, s) && create.OpCreateRun? && create.run !in s.runs
    requires create.run in After(cfg, s, create).runs
    requires claim.OpClaimDue? && claim.run == create.run
    requires Run(cfg, After(cfg, s, create), more).now < create.nextAttemptAt
    ensures Do(cfg, Run(cfg, After(cfg, s, create), more), claim).Err?
  {
    hide Reachable, Inv, Do, Evolves;
    var t := After(cfg, s, create);
    var u := Run(cfg, t, more);
    ReachableInv(cfg, s);
    CreatedRow(cfg, s, create, t);
    StepKeepsInv(cfg, s, create);
    RunHolds(cfg, t, more);
    TimePasses(t, u);
    RunWaits(cfg, t, more, claim.run);
    if Do(cfg, u, claim).Ok? {
      RewriteNeedsLease(cfg, u, claim);
      assert false;
    }
  }

  lemma CreatedRow(cfg: Config, s: State, op: Op, t: State)
    requires op.OpCreateRun? && op.run !in s.runs && t == After(cfg, s, op) && op.run in t.runs
    ensures t.runs[op.run] == RunRow(op.requestKey, op.inputFp, op.mode, s.now, Created, 0, op.nextAttemptAt, None, 0)
  {
  }
}
