/**
 When an expired lease can be taken over (docs/specs/2026-08-04-durable-run-store.md asks for
 it without exception), and what becomes of a run for which it cannot.
 */
module StoreRecovery {
  import opened Common
  import opened RunLog
  import opened StoreModel
  import opened StoreSteps
  import opened StoreInvariant
  import opened StoreRunMethods
  import opened StoreEffectMethods
  import opened StoreOutcomes
  import opened StoreTheorems
  import opened StoreGuarantees
  import opened StoreWindows
  import opened StoreCallers
  import opened StoreResults

  // ---------------------------------------------------------------- what the log knows

  /** Whoever holds the lease passed the event schema when taking it. */
  lemma {:induction false} HolderFits(log: seq<Event>)
    requires Fold(log).Some? && Fold(log).value.lease.Some?
    ensures var lease := Fold(log).value.lease.value;
            1 <= |lease.worker| <= 160 && 1 <= lease.generation <= MAX_GENERATION
    decreases |log|
  {
    if |log| > 0 {
      var c := Fold(log[..|log| - 1]).value;
      if c.lease.Some? {
        HolderFits(log[..|log| - 1]);
      }
    }
  }

  /** Ids that no event of the log carries are new to its cursor. */
  lemma {:induction false} UnusedIds(log: seq<Event>, id: EventId, leaseId: LeaseId)
    requires Fold(log).Some? && forall e :: e in log ==> e.id != id && e.leaseId != leaseId
    ensures id !in Fold(log).value.ids && leaseId !in Fold(log).value.usedLeases
    decreases |log|
  {
    if |log| > 0 {
      assert log[|log| - 1] in log;
      UnusedIds(log[..|log| - 1], id, leaseId);
    }
  }

  // ------------------------------------------------------------------- taking a run over

  /** Random ids that nothing has used. */
  ghost predicate Fresh(s: State, r: RunId, leaseId: LeaseId, expiredId: EventId, acquiredId: EventId) {
    && expiredId != acquiredId && expiredId !in s.eventIds && acquiredId !in s.eventIds && leaseId !in s.leases
    && forall e :: e in Log(s, r) ==> e.id != expiredId && e.id != acquiredId && e.leaseId != leaseId
  }

  /** Room in the log for what a claim appends: an acquisition, and before it the end of a lapsed lease. */
  ghost predicate HasRoom(s: State, r: RunId) {
    r in s.runs && |Log(s, r)| + (if s.runs[r].lease.Some? then 2 else 1) <= MAX_EVENTS
  }

  /** What a claim needs of its run, apart from ids that nothing has used. */
  ghost predicate Claimable(s: State, r: RunId) {
    Due(s, r) && !ActiveInvocation(s, r) && HasRoom(s, r)
  }

  function ExpiryEvent(s: State, r: RunId, id: EventId): Event
    requires r in s.runs && s.runs[r].lease.Some?
  {
    var row := s.runs[r];
    Event(id, r, |Log(s, r)|, s.now, row.lease.value.id, row.lease.value.worker, row.generation, Expired(s.now))
  }

  lemma ExpiryAllowed(s: State, r: RunId, id: EventId, leaseId: LeaseId)
    requires RunHere(s, r) && Due(s, r) && HasRoom(s, r) && s.runs[r].lease.Some?
    requires forall e :: e in Log(s, r) ==> e.id != id && e.leaseId != leaseId
    ensures Authorized(Log(s, r), ExpiryEvent(s, r, id), s.now)
  {
    hide Fold;
    FoldLength(Log(s, r));
    HolderFits(Log(s, r));
    UnusedIds(Log(s, r), id, leaseId);
    FoldAppend(Log(s, r), ExpiryEvent(s, r, id));
  }

  lemma AcquisitionAllowed(s: State, r: RunId, worker: string, expiresAt: Time, leaseId: LeaseId, id: EventId)
    requires r in s.runs && CursorFits(r, s.runs[r].status, None, s.runs[r].generation, Log(s, r), s.now)
    requires !Terminal(s.runs[r].status) && |Log(s, r)| < MAX_EVENTS && s.runs[r].generation < MAX_GENERATION
    requires 1 <= |worker| <= 160 && expiresAt > s.now
    requires forall e :: e in Log(s, r) ==> e.id != id && e.leaseId != leaseId
    ensures Authorized(Log(s, r), Event(id, r, |Log(s, r)|, s.now, leaseId, worker, s.runs[r].generation + 1,
                                        Acquired(expiresAt)), s.now)
  {
    hide Fold;
    FoldLength(Log(s, r));
    UnusedIds(Log(s, r), id, leaseId);
    FoldAppend(Log(s, r), Event(id, r, |Log(s, r)|, s.now, leaseId, worker, s.runs[r].generation + 1,
                                Acquired(expiresAt)));
  }

  /** A free row is taken unless an invocation is outstanding. */
  lemma AcquireIff(s: State, r: RunId, worker: string, expiresAt: Time, leaseId: LeaseId, id: EventId)
    requires r in s.runs && leaseId !in s.leases && id !in s.eventIds
    requires Authorized(Log(s, r), Event(id, r, |Log(s, r)|, s.now, leaseId, worker, s.runs[r].generation + 1,
                                         Acquired(expiresAt)), s.now)
    ensures Acquire(s, r, worker, expiresAt, leaseId, id).Ok? <==> !ActiveInvocation(s, r)
  {
    hide Authorized, Blocked;
  }

  lemma ExpiryLength(s: State, r: RunId, id: EventId, t: State)
    requires r in s.runs && ExpireLapsed(s, r, id) == Ok(t)
    ensures t.runs == s.runs && t.now == s.now
    ensures |Log(t, r)| == |Log(s, r)| + if s.runs[r].lease.Some? then 1 else 0
  {
    hide Authorized;
  }

  lemma AcquireNeedsRoom(s: State, r: RunId, worker: string, expiresAt: Time, leaseId: LeaseId, id: EventId)
    requires r in s.runs && Acquire(s, r, worker, expiresAt, leaseId, id).Ok?
    ensures |Log(s, r)| < MAX_EVENTS
  {
    hide UpdateRow, AppendEvent, Fold;
    FoldLength(Log(s, r) + [Event(id, r, |Log(s, r)|, s.now, leaseId, worker, s.runs[r].generation + 1,
                                  Acquired(expiresAt))]);
  }

  /** No claim goes beyond the three hundred events of a log. */
  lemma ClaimNeedsRoom(s: State, r: RunId, worker: string, millis: int, leaseId: LeaseId, expiredId: EventId,
                       acquiredId: EventId)
    requires ClaimDue(s, r, worker, millis, leaseId, expiredId, acquiredId).Ok?
    ensures Due(s, r) && HasRoom(s, r)
  {
    hide ExpireLapsed, Acquire, Log, LeaseActive, Terminal;
    var s1 := ExpireLapsed(s, r, expiredId).value;
    ExpiryLength(s, r, expiredId, s1);
    AcquireNeedsRoom(s1, r, worker, s.now + millis, leaseId, acquiredId);
  }

  lemma ClaimNeedsClaimable(s: State, r: RunId, worker: string, millis: int, leaseId: LeaseId, expiredId: EventId,
                            acquiredId: EventId)
    requires Inv(s) && ClaimDue(s, r, worker, millis, leaseId, expiredId, acquiredId).Ok?
    ensures Claimable(s, r)
  {
    hide Inv, ClaimDue, RunHere, ActiveInvocation, HasRoom;
    ClaimNeedsRoom(s, r, worker, millis, leaseId, expiredId, acquiredId);
    RunIsHere(s, r);
    ClaimMeaning(s, r, worker, millis, leaseId, expiredId, acquiredId,
                 ClaimDue(s, r, worker, millis, leaseId, expiredId, acquiredId).value);
  }

  lemma ClaimIff(s: State, r: RunId, worker: string, millis: int, leaseId: LeaseId, expiredId: EventId,
                 acquiredId: EventId)
    requires Inv(s) && GenerationsCounted(s) && 1 <= |worker| <= 160 && millis > 0
    requires Fresh(s, r, leaseId, expiredId, acquiredId)
    ensures ClaimDue(s, r, worker, millis, leaseId, expiredId, acquiredId).Ok? <==> Claimable(s, r)
  {
    hide Inv, Acquire, Authorized, Blocked, CursorFits, RunHere, Due;
    if ClaimDue(s, r, worker, millis, leaseId, expiredId, acquiredId).Ok? {
      ClaimNeedsClaimable(s, r, worker, millis, leaseId, expiredId, acquiredId);
    }
    if Due(s, r) && HasRoom(s, r) {
      RunIsHere(s, r);
      var s1 := FreedRow(s, r, leaseId, expiredId, acquiredId);
      AcquisitionAllowed(s1, r, worker, s.now + millis, leaseId, acquiredId);
      AcquireIff(s1, r, worker, s.now + millis, leaseId, acquiredId);
    }
  }

  /**
   The exact condition under which a claim with fresh ids succeeds: the run is due, no invocation is outstanding,
   and its log has room.
   */
  lemma ClaimSucceedsIff(cfg: Config, s: State, r: RunId, worker: string, millis: int, leaseId: LeaseId,
                         expiredId: EventId, acquiredId: EventId)
    requires Reachable(cfg, s) && 1 <= |worker| <= 160 && millis > 0
    requires Fresh(s, r, leaseId, expiredId, acquiredId)
    ensures ClaimDue(s, r, worker, millis, leaseId, expiredId, acquiredId).Ok?
            <==> Due(s, r) && !ActiveInvocation(s, r) && HasRoom(s, r)
  {
    hide Reachable, Inv, RequestKeysOwned, GenerationsCounted, ClaimDue, Fresh, Due, ActiveInvocation, HasRoom;
    ReachableSound(cfg, s);
    ClaimIff(s, r, worker, millis, leaseId, expiredId, acquiredId);
  }

  /** What closing a lapsed lease writes. */
  lemma ExpiryWrites(s: State, r: RunId, id: EventId)
    requires r in s.runs
    ensures s.runs[r].lease.None? ==> ExpireLapsed(s, r, id) == Ok(s)
    ensures s.runs[r].lease.Some? && id !in s.eventIds && Authorized(Log(s, r), ExpiryEvent(s, r, id), s.now) ==>
              ExpireLapsed(s, r, id) == Ok(s.(logs := s.logs[r := Log(s, r) + [ExpiryEvent(s, r, id)]],
                                              eventIds := s.eventIds + {id}))
  {
    hide Authorized;
  }

  lemma DueNeeds(s: State, r: RunId)
    requires Due(s, r)
    ensures r in s.runs && !Terminal(s.runs[r].status) && !LeaseActive(s.runs[r], s.now)
  {
  }

  lemma HereFits(s: State, r: RunId)
    requires RunHere(s, r)
    ensures r in s.runs && CursorFits(r, s.runs[r].status, s.runs[r].lease, s.runs[r].generation, Log(s, r), s.now)
  {
    hide CursorFits;
  }

  /** The row after its lapsed lease, if any, was closed. */
  lemma FreedRow(s: State, r: RunId, leaseId: LeaseId, expiredId: EventId, acquiredId: EventId) returns (s1: State)
    requires RunHere(s, r) && Due(s, r) && HasRoom(s, r) && Fresh(s, r, leaseId, expiredId, acquiredId)
    ensures ExpireLapsed(s, r, expiredId) == Ok(s1)
    ensures s1.runs == s.runs && s1.leases == s.leases && s1.now == s.now && acquiredId !in s1.eventIds
    ensures s1.reservations == s.reservations && s1.receipts == s.receipts && s1.reconciliations == s.reconciliations
    ensures CursorFits(r, s.runs[r].status, None, s.runs[r].generation, Log(s1, r), s.now)
    ensures |Log(s1, r)| < MAX_EVENTS && forall e :: e in Log(s1, r) ==> e.id != acquiredId && e.leaseId != leaseId
    ensures !Terminal(s.runs[r].status)
  {
    hide CursorFits, Authorized, Due, RunHere, ExpireLapsed, Terminal, LeaseActive;
    DueNeeds(s, r);
    HereFits(s, r);
    ExpiryWrites(s, r, expiredId);
    if s.runs[r].lease.Some? {
      ExpiryAllowed(s, r, expiredId, leaseId);
      HolderUsed(s, r, leaseId);
    }
    s1 := ExpireLapsed(s, r, expiredId).value;
    ExpiryMeaning(s, r, expiredId, s1);
  }

  lemma {:induction false} HolderNamed(log: seq<Event>, leaseId: LeaseId)
    requires Fold(log).Some? && Fold(log).value.lease.Some? && forall e :: e in log ==> e.leaseId != leaseId
    ensures Fold(log).value.lease.value.id != leaseId
    decreases |log|
  {
    if |log| > 0 {
      assert log[|log| - 1] in log;
      var c := Fold(log[..|log| - 1]).value;
      if c.lease.Some? {
        HolderNamed(log[..|log| - 1], leaseId);
      }
    }
  }

  lemma HolderUsed(s: State, r: RunId, leaseId: LeaseId)
    requires RunHere(s, r) && s.runs[r].lease.Some? && forall e :: e in Log(s, r) ==> e.leaseId != leaseId
    ensures s.runs[r].lease.value.id != leaseId
  {
    hide Fold;
    HolderNamed(Log(s, r), leaseId);
  }

  // -------------------------------------------------------------- what cannot be taken over

  /** Nobody holds a live lease on the run. */
  ghost predicate Idle(s: State, r: RunId) {
    r in s.runs && !LeaseActive(s.runs[r], s.now)
  }

  /** An attempt awaits reconciliation, and the lease of its run has lapsed. */
  ghost predicate Stuck(s: State, a: AttemptId, r: RunId) {
    && a in s.attempts && s.attempts[a].state.ReconciliationRequired? && a !in s.reconciliations
    && s.attempts[a].reservation in s.reservations && s.reservations[s.attempts[a].reservation].run == r
    && Idle(s, r)
  }

  lemma StuckIsActive(s: State, a: AttemptId, r: RunId)
    requires Inv(s) && Stuck(s, a, r)
    ensures ActiveInvocation(s, r)
    ensures s.attempts[a].intent in s.intents && s.intents[s.attempts[a].intent].run == r
  {
    hide Inv, KeysUnique, ActiveUnique, Linked, ReceiptsPaidFor, IntentOk;
    InvKeys(s);
    InvTables(s);
    OpenAttemptPinned(s, a);
    LinkedAttempt(s.reservations, s.attempts, a);
    var k := s.attempts[a].reservation;
    assert Bound(s.intents, s.reservations[k]);
    assert Unresolved(s.receipts, s.reconciliations, s.reservations[k]);
    assert Outstanding(s.now, s.receipts, s.reconciliations, s.reservations[k]);
  }

  lemma InvTables(s: State)
    requires Inv(s)
    ensures ReservationsOk(s.intents, s.reservations)
  {
    hide ReservationsOk;
  }

  /** Every method that rewrites a run other than by claiming it needs its live lease. */
  lemma RewriteNeedsLive(cfg: Config, s: State, op: Op)
    requires RewritesRun(op) && !op.OpClaimDue? && Do(cfg, s, op).Ok?
    ensures TargetRun(op) in s.runs && LeaseActive(s.runs[TargetRun(op)], s.now)
  {
    hide Authorized, AppendEvent, UpdateRow, Prerequisites, VerifyValidation, Log, LatestCandidate, LeaseIdentity;
  }

  lemma ClaimNeedsNoInvocation(cfg: Config, s: State, op: Op)
    requires Inv(s) && op.OpClaimDue? && Do(cfg, s, op).Ok?
    ensures !ActiveInvocation(s, op.run)
  {
    hide Inv, ClaimDue, RunHere, ActiveInvocation;
    NeedsItsRun(cfg, s, op);
    RunIsHere(s, op.run);
    ClaimMeaning(s, op.run, op.worker, op.millis, op.leaseId, op.expiredId, op.acquiredId, Do(cfg, s, op).value);
  }

  lemma OneFirstDue(s: State, locked: set<RunId>, r: RunId, q: RunId)
    requires FirstDue(s, locked, r) && FirstDue(s, locked, q)
    ensures r == q
  {
    assert !Sooner(s, q, r) && !Sooner(s, r, q);
  }

  lemma NoneDue(s: State, locked: set<RunId>)
    requires forall q :: q in s.runs && Due(s, q) ==> q in locked
    ensures forall r :: !FirstDue(s, locked, r)
  {
  }

  lemma DoClaim(cfg: Config, s: State, op: Op)
    requires op.OpClaimDue?
    ensures Do(cfg, s, op) == ClaimDue(s, op.run, op.worker, op.millis, op.leaseId, op.expiredId, op.acquiredId)
  {
    hide ClaimDue;
  }

  /** While the run that is due first cannot be claimed, no worker can claim anything. */
  lemma BlockedHeadStopsAll(cfg: Config, s: State, locked: set<RunId>, r: RunId, claim: Op)
    requires Inv(s) && FirstDue(s, locked, r) && !Claimable(s, r)
    requires claim.OpClaimDue? && FirstDue(s, locked, claim.run)
    ensures Do(cfg, s, claim).Err?
  {
    hide Inv, Do, ClaimDue, Claimable, FirstDue;
    OneFirstDue(s, locked, r, claim.run);
    DoClaim(cfg, s, claim);
    if Do(cfg, s, claim).Ok? {
      ClaimNeedsClaimable(s, claim.run, claim.worker, claim.millis, claim.leaseId, claim.expiredId, claim.acquiredId);
      assert false;
    }
  }

  /** What the claim query hands out decides the call. */
  lemma HeadDecides(s: State, locked: set<RunId>, q: RunId, worker: string, millis: int, leaseId: LeaseId,
                    expiredId: EventId, acquiredId: EventId)
    requires Inv(s) && GenerationsCounted(s) && 1 <= |worker| <= 160 && millis > 0 && FirstDue(s, locked, q)
    ensures forall r | FirstDue(s, locked, r) :: r == q
    ensures ClaimDue(s, q, worker, millis, leaseId, expiredId, acquiredId).Ok? ==> Claimable(s, q)
    ensures Claimable(s, q) && Fresh(s, q, leaseId, expiredId, acquiredId) ==>
              ClaimDue(s, q, worker, millis, leaseId, expiredId, acquiredId).Ok?
  {
    hide Inv, ClaimDue, Claimable, FirstDue, Fresh, GenerationsCounted;
    forall r | FirstDue(s, locked, r) ensures r == q {
      OneFirstDue(s, locked, r, q);
    }
    if ClaimDue(s, q, worker, millis, leaseId, expiredId, acquiredId).Ok? {
      ClaimNeedsClaimable(s, q, worker, millis, leaseId, expiredId, acquiredId);
    }
    if Fresh(s, q, leaseId, expiredId, acquiredId) {
      ClaimIff(s, q, worker, millis, leaseId, expiredId, acquiredId);
    }
  }

  /** Without a live lease only a claim can touch a run. */
  lemma IdleRowStays(cfg: Config, s: State, op: Op, r: RunId)
    requires Inv(s) && Idle(s, r)
    requires op.OpClaimDue? && op.run == r ==> Do(cfg, s, op).Err?
    ensures r in After(cfg, s, op).runs && After(cfg, s, op).runs[r] == s.runs[r]
  {
    hide Inv, Do, RunStep, SuccessOk, ProofsOk;
    if Do(cfg, s, op).Ok? {
      var t := Do(cfg, s, op).value;
      if RewritesRun(op) {
        if !op.OpClaimDue? {
          RewriteNeedsLive(cfg, s, op);
        }
        RewriteIsStep(cfg, s, op, t);
        OtherRowsStay(s, t, TargetRun(op), r);
      } else if op.OpRecordSuccess? || op.OpRecordAmbiguous? || op.OpReconcile? {
        InvParts(s);
        OutcomeKeepsRuns(cfg, s, op, t);
      } else {
        EffectKeepsOtherRows(cfg, s, op, t, r);
      }
    }
  }

  lemma StuckRowStays(cfg: Config, s: State, op: Op, a: AttemptId, r: RunId)
    requires Inv(s) && Stuck(s, a, r)
    ensures r in After(cfg, s, op).runs && After(cfg, s, op).runs[r] == s.runs[r]
  {
    hide Inv, Do, ActiveInvocation, Idle;
    StuckIsActive(s, a, r);
    if op.OpClaimDue? && op.run == r && Do(cfg, s, op).Ok? {
      ClaimNeedsNoInvocation(cfg, s, op);
      assert false;
    }
    IdleRowStays(cfg, s, op, r);
  }

  // ------------------------------------------------------------------- a log without room

  /** No live lease, and no place in the log for the events of another. */
  ghost predicate OutOfRoom(s: State, r: RunId) {
    Idle(s, r) && !HasRoom(s, r)
  }

  lemma OutOfRoomRefuses(cfg: Config, s: State, op: Op, r: RunId)
    requires OutOfRoom(s, r) && RewritesRun(op) && TargetRun(op) == r
    ensures Do(cfg, s, op).Err?
  {
    hide Do, ClaimDue, HasRoom;
    if Do(cfg, s, op).Ok? {
      if op.OpClaimDue? {
        DoClaim(cfg, s, op);
        ClaimNeedsRoom(s, op.run, op.worker, op.millis, op.leaseId, op.expiredId, op.acquiredId);
      } else {
        RewriteNeedsLive(cfg, s, op);
      }
      assert false;
    }
  }

  lemma StepStaysOutOfRoom(cfg: Config, s: State, op: Op, r: RunId)
    requires Inv(s) && OutOfRoom(s, r)
    ensures var t := After(cfg, s, op); OutOfRoom(t, r) && t.runs[r] == s.runs[r] && Log(t, r) == Log(s, r)
  {
    hide Inv, Do, Evolves;
    if op.OpClaimDue? && op.run == r {
      OutOfRoomRefuses(cfg, s, op, r);
    }
    IdleRowStays(cfg, s, op, r);
    StepEvolves(cfg, s, op);
    TimePasses(s, After(cfg, s, op));
    SameVersionSameRun(s, After(cfg, s, op), r);
  }

  lemma {:induction false} RunStaysOutOfRoom(cfg: Config, s: State, ops: seq<Op>, r: RunId)
    requires Inv(s) && OutOfRoom(s, r)
    ensures var t := Run(cfg, s, ops); OutOfRoom(t, r) && t.runs[r] == s.runs[r] && Log(t, r) == Log(s, r)
    decreases |ops|
  {
    hide Inv, Do, Evolves, Log, HasRoom, LeaseActive;
    if |ops| > 0 {
      RunHolds(cfg, s, ops[..|ops| - 1]);
      RunStaysOutOfRoom(cfg, s, ops[..|ops| - 1], r);
      StepStaysOutOfRoom(cfg, Run(cfg, s, ops[..|ops| - 1]), ops[|ops| - 1], r);
    }
  }

  /** A run whose log has no room when its lease ends is never claimed, moved or settled by anyone again. */
  lemma OutOfRoomForever(cfg: Config, s: State, r: RunId, more: seq<Op>, op: Op)
    requires Reachable(cfg, s) && OutOfRoom(s, r)
    ensures var u := Run(cfg, s, more);
            && r in u.runs && u.runs[r] == s.runs[r] && Log(u, r) == Log(s, r)
            && (RewritesRun(op) && TargetRun(op) == r ==> Do(cfg, u, op).Err?)
  {
    hide Inv, Do, Evolves, Reachable, Run, HasRoom, LeaseActive;
    ReachableInv(cfg, s);
    RunStaysOutOfRoom(cfg, s, more, r);
    if RewritesRun(op) && TargetRun(op) == r {
      OutOfRoomRefuses(cfg, Run(cfg, s, more), op, r);
    }
  }

  lemma LogFits(s: State, r: RunId)
    requires Inv(s) && r in s.runs
    ensures |Log(s, r)| <= MAX_EVENTS
    ensures CursorFits(r, s.runs[r].status, s.runs[r].lease, s.runs[r].generation, Log(s, r), s.now)
  {
    hide Inv, Fold;
    RunIsHere(s, r);
    FoldLength(Log(s, r));
  }

  /** Even under a live lease a full log is the end: status, lease and generation stay as they are for good. */
  lemma FullLogFreezes(cfg: Config, s: State, r: RunId, more: seq<Op>)
    requires Reachable(cfg, s) && r in s.runs && |Log(s, r)| == MAX_EVENTS
    ensures var u := Run(cfg, s, more);
            && r in u.runs && Log(u, r) == Log(s, r)
            && u.runs[r].status == s.runs[r].status && u.runs[r].lease == s.runs[r].lease
            && u.runs[r].generation == s.runs[r].generation && !Claimable(u, r)
  {
    hide Reachable, Inv, Evolves, Run, Fold, Due, ActiveInvocation;
    var u := Run(cfg, s, more);
    ReachableInv(cfg, s);
    RunHolds(cfg, s, more);
    LogsGrow(s, u, r);
    LogFits(s, r);
    LogFits(u, r);
  }

  // ----------------------------------------------------------------- an unsettled attempt

  /** The attempt's own row, and the absence of a proof for it. */
  ghost predicate SameAttempt(s: State, t: State, a: AttemptId)
    requires a in s.attempts
  {
    a in t.attempts && t.attempts[a] == s.attempts[a] && a !in t.reconciliations
  }

  lemma LockNeedsLive(s: State, r: RunId, g: Guard)
    requires LockRun(s, r, g).Ok?
    ensures !Idle(s, r)
  {
  }

  lemma ResolvedRows(s: State, b: AttemptId, receipt: Receipt, proofs: Proofs)
    requires b in s.attempts
    ensures Resolved(s, b, receipt, proofs).reconciliations == proofs
    ensures forall a :: a in s.attempts && a != b ==>
              a in Resolved(s, b, receipt, proofs).attempts
              && Resolved(s, b, receipt, proofs).attempts[a] == s.attempts[a]
  {
  }

  lemma SuccessPassesBy(cfg: Config, s: State, b: AttemptId, worker: string, fence: Fence, p: ReceiptPayload, t: State,
                        a: AttemptId)
    requires SuccessOk(s.attempts, s.receipts) && a in s.attempts && s.attempts[a].state.ReconciliationRequired?
    requires RecordSuccess(cfg, s, b, worker, fence, p) == Ok(t) && a !in s.reconciliations
    ensures SameAttempt(s, t, a)
  {
    hide RecordSuccess, SuccessOk, ReceiptOk, Resolved;
    RecordSuccessMeaning(cfg, s, b, worker, fence, p, t);
    ResolvedRows(s, b, Receipt(p, p.validation, p.candidate, p.artifactSet), s.reconciliations);
  }

  lemma FailurePassesBy(s: State, b: AttemptId, worker: string, fence: Fence, payload: Fp, t: State, a: AttemptId)
    requires a in s.attempts && s.attempts[a].state.ReconciliationRequired?
    requires RecordAmbiguous(s, b, worker, fence, payload) == Ok(t) && a !in s.reconciliations
    ensures SameAttempt(s, t, a)
  {
    hide RecordAmbiguous;
    AmbiguousMeaning(s, b, worker, fence, payload, t);
  }

  /** A reconciliation needs the live lease of its attempt's run. */
  lemma ProofPassesBy(cfg: Config, s: State, r: RunId, g: Guard, b: AttemptId, worker: string, fence: Fence,
                      outcome: ProofOutcome, proof: Fp, receipt: Option<ReceiptPayload>, t: State, a: AttemptId)
    requires SuccessOk(s.attempts, s.receipts) && ProofsOk(s.attempts, s.reconciliations)
    requires Reconcile(cfg, s, r, g, b, worker, fence, outcome, proof, receipt) == Ok(t)
    requires a in s.attempts && a !in s.reconciliations
    requires s.attempts[a].intent in s.intents && Idle(s, s.intents[s.attempts[a].intent].run)
    ensures a != b && SameAttempt(s, t, a)
  {
    hide Reconcile, SuccessOk, ProofsOk, ReceiptOk, LockRun, Idle, Resolved;
    ReconcileMeaning(cfg, s, r, g, b, worker, fence, outcome, proof, receipt, t);
    LockNeedsLive(s, r, g);
    if outcome.Applied? {
      var p := receipt.value;
      ResolvedRows(s, b, Receipt(p, p.validation, p.candidate, p.artifactSet),
                   s.reconciliations[b := Reconciliation(outcome, proof)]);
    }
  }

  lemma OutcomesPassBy(cfg: Config, s: State, op: Op, t: State, a: AttemptId, r: RunId)
    requires SuccessOk(s.attempts, s.receipts) && ProofsOk(s.attempts, s.reconciliations) && Stuck(s, a, r)
    requires s.attempts[a].intent in s.intents && s.intents[s.attempts[a].intent].run == r
    requires op.OpRecordSuccess? || op.OpRecordAmbiguous? || op.OpReconcile?
    requires Do(cfg, s, op) == Ok(t)
    ensures SameAttempt(s, t, a) && (op.OpReconcile? ==> op.attemptId != a)
  {
    hide RecordSuccess, RecordAmbiguous, Reconcile, SuccessOk, ProofsOk, Idle, SameAttempt, ClaimDue, RenewLease,
      ReleaseLease, Transition, ScheduleRetry, AppendRecord, AppendCandidate, IssueValidation, CreateRun,
      RecordApproval, BeginEffect, Reserve, Consume, Cancel;
    match op
    case OpRecordSuccess(b, worker, fence, p) => SuccessPassesBy(cfg, s, b, worker, fence, p, t, a);
    case OpRecordAmbiguous(b, worker, fence, failure) => FailurePassesBy(s, b, worker, fence, failure, t, a);
    case OpReconcile(q, g, b, worker, fence, outcome, proof, receipt) =>
      ProofPassesBy(cfg, s, q, g, b, worker, fence, outcome, proof, receipt, t, a);
  }

  lemma BeginPassesBy(cfg: Config, s: State, q: RunId, g: Guard, kind: Kind, target: string, key: string, inputFp: Fp,
                      id: IntentId, t: State, a: AttemptId)
    requires BeginEffect(cfg, s, q, g, kind, target, key, inputFp, id) == Ok(t)
    requires a in s.attempts && a !in s.reconciliations
    ensures SameAttempt(s, t, a)
  {
    hide BeginEffect, AcceptedValidation, SameKey, Bump, LeaseActive, EffectState;
    BeginMeaning(cfg, s, q, g, kind, target, key, inputFp, id, t);
    var v := AcceptedValidation(cfg, s, q, true).value;
    BumpTables(s.(intents := s.intents[id := Intent(q, kind, target, key, inputFp, v, v.candidate, v.artifactSet)]), q);
  }

  lemma BumpTables(s: State, r: RunId)
    requires r in s.runs
    ensures Bump(s, r).attempts == s.attempts && Bump(s, r).reconciliations == s.reconciliations
  {
  }

  lemma ApprovalPassesBy(cfg: Config, s: State, q: RunId, g: Guard, kind: Kind, target: string, inputFp: Fp,
                         approver: string, at: Time, expiresAt: Time, id: ApprovalId, t: State, a: AttemptId)
    requires RecordApproval(cfg, s, q, g, kind, target, inputFp, approver, at, expiresAt, id) == Ok(t)
    requires a in s.attempts && a !in s.reconciliations
    ensures SameAttempt(s, t, a)
  {
    hide RecordApproval, AcceptedValidation;
    ApprovalMeaning(cfg, s, q, g, kind, target, inputFp, approver, at, expiresAt, id, t);
  }

  lemma ReservePassesBy(cfg: Config, s: State, q: RunId, kind: Kind, target: string, inputFp: Fp, key: string,
                        i: IntentId, v: Validation, id: ReservationId, token: Token, t: State, a: AttemptId)
    requires Reserve(cfg, s, q, kind, target, inputFp, key, i, v, id, token) == Ok(t)
    requires a in s.attempts && a !in s.reconciliations
    ensures SameAttempt(s, t, a)
  {
    hide Reserve, Bound;
    var res := ReserveMeaning(cfg, s, q, kind, target, inputFp, key, i, v, id, token, t);
  }

  lemma ConsumePassesBy(s: State, c: Claim, b: AttemptId, fence: Fence, t: State, a: AttemptId)
    requires Consume(s, c, b, fence) == Ok(t) && a in s.attempts && a !in s.reconciliations
    ensures SameAttempt(s, t, a)
  {
    hide Consume, StillCurrent, NextAttemptNumber;
    ConsumeMeaning(s, c, b, fence, t);
  }

  lemma PlainPassesBy(cfg: Config, s: State, op: Op, t: State, a: AttemptId)
    requires op.OpTick? || op.OpCreateRun? || op.OpCancel?
    requires Do(cfg, s, op) == Ok(t) && a in s.attempts && a !in s.reconciliations
    ensures SameAttempt(s, t, a)
  {
    hide CreateRun, Cancel, SameAttempt;
    if op.OpCreateRun? {
      CreateMeaning(s, op.run, op.requestKey, op.inputFp, op.mode, op.nextAttemptAt, t);
    } else if op.OpCancel? {
      CancelMeaning(s, op.claim, t);
    }
    SameTables(s, t, a);
  }

  lemma OthersPassBy(cfg: Config, s: State, op: Op, t: State, a: AttemptId)
    requires op.OpRecordApproval? || op.OpBeginEffect? || op.OpReserve? || op.OpConsume?
    requires Do(cfg, s, op) == Ok(t) && a in s.attempts && a !in s.reconciliations
    ensures SameAttempt(s, t, a)
  {
    hide RecordApproval, BeginEffect, Reserve, Consume, SameAttempt;
    if op.OpRecordApproval? {
      ApprovalPassesBy(cfg, s, op.run, op.guard, op.kind, op.target, op.inputFp, op.approvedBy, op.approvedAt,
          op.expiresAt, op.approvalId, t, a);
    } else if op.OpBeginEffect? {
      BeginPassesBy(cfg, s, op.run, op.guard, op.kind, op.target, op.key, op.inputFp, op.intentId, t, a);
    } else if op.OpReserve? {
      ReservePassesBy(cfg, s, op.run, op.kind, op.target, op.inputFp, op.key, op.intentId, op.validation,
          op.reservationId, op.token, t, a);
    } else {
      ConsumePassesBy(s, op.claim, op.attemptId, op.fence, t, a);
    }
  }

  lemma SameTables(s: State, t: State, a: AttemptId)
    requires t.attempts == s.attempts && t.reconciliations == s.reconciliations
    requires a in s.attempts && a !in s.reconciliations
    ensures SameAttempt(s, t, a)
  {
  }

  lemma RunStepPassesBy(s: State, t: State, r: RunId, a: AttemptId)
    requires RunStep(s, t, r) && a in s.attempts && a !in s.reconciliations
    ensures SameAttempt(s, t, a)
  {
    hide RunOk, RowAdvances, ActiveInvocation, EffectsDone;
  }

  /** No call of any kind records an outcome for a stuck attempt. */
  lemma StuckAttemptStays(cfg: Config, s: State, op: Op, a: AttemptId, r: RunId)
    requires Inv(s) && Stuck(s, a, r)
    ensures SameAttempt(s, After(cfg, s, op), a)
  {
    hide Inv, Do, RunStep, SuccessOk, ProofsOk, ActiveInvocation;
    StuckIsActive(s, a, r);
    if Do(cfg, s, op).Ok? {
      var t := Do(cfg, s, op).value;
      if RewritesRun(op) {
        RewriteIsStep(cfg, s, op, t);
        RunStepPassesBy(s, t, TargetRun(op), a);
      } else if op.OpRecordSuccess? || op.OpRecordAmbiguous? || op.OpReconcile? {
        InvParts(s);
        OutcomesPassBy(cfg, s, op, t, a, r);
      } else if op.OpTick? || op.OpCreateRun? || op.OpCancel? {
        PlainPassesBy(cfg, s, op, t, a);
      } else {
        OthersPassBy(cfg, s, op, t, a);
      }
    }
  }

  /** So one call leaves it stuck, with the run exactly as it was. */
  lemma StepStaysStuck(cfg: Config, s: State, op: Op, a: AttemptId, r: RunId)
    requires Inv(s) && Stuck(s, a, r)
    ensures var t := After(cfg, s, op);
            && Stuck(t, a, r) && t.attempts[a] == s.attempts[a] && t.runs[r] == s.runs[r] && Log(t, r) == Log(s, r)
  {
    hide Inv, Do, Evolves;
    var t := After(cfg, s, op);
    StuckRowStays(cfg, s, op, a, r);
    StuckAttemptStays(cfg, s, op, a, r);
    StepEvolves(cfg, s, op);
    TimePasses(s, t);
    SameVersionSameRun(s, t, r);
    ReservationKept(s, t, s.attempts[a].reservation);
  }

  lemma {:induction false} RunStaysStuck(cfg: Config, s: State, ops: seq<Op>, a: AttemptId, r: RunId)
    requires Inv(s) && Stuck(s, a, r)
    ensures var t := Run(cfg, s, ops);
            && Stuck(t, a, r) && t.attempts[a] == s.attempts[a] && t.runs[r] == s.runs[r] && Log(t, r) == Log(s, r)
    decreases |ops|
  {
    hide Inv, Do, Evolves, Log, Idle;
    if |ops| > 0 {
      RunHolds(cfg, s, ops[..|ops| - 1]);
      RunStaysStuck(cfg, s, ops[..|ops| - 1], a, r);
      StepStaysStuck(cfg, Run(cfg, s, ops[..|ops| - 1]), ops[|ops| - 1], a, r);
    }
  }

  /**
   A lease that lapses before its ambiguous effect is reconciled is lost for good: no worker ever claims the run,
   moves it or settles the attempt.
   */
  lemma StuckForever(cfg: Config, s: State, a: AttemptId, r: RunId, more: seq<Op>, op: Op)
    requires Reachable(cfg, s) && Stuck(s, a, r)
    ensures var u := Run(cfg, s, more);
            && a in u.attempts && u.attempts[a] == s.attempts[a] && a !in u.reconciliations
            && r in u.runs && u.runs[r] == s.runs[r] && Log(u, r) == Log(s, r)
            && (RewritesRun(op) && TargetRun(op) == r ==> Do(cfg, u, op).Err?)
            && (op.OpReconcile? && op.attemptId == a ==> Do(cfg, u, op).Err?)
  {
    hide Inv, Do, Evolves, Reachable, Run, ActiveInvocation;
    var u := Run(cfg, s, more);
    ReachableInv(cfg, s);
    RunHolds(cfg, s, more);
    RunStaysStuck(cfg, s, more, a, r);
    StuckIsActive(u, a, r);
    if Do(cfg, u, op).Ok? {
      NothingReachesStuck(cfg, u, op, a, r);
    }
  }

  lemma NothingReachesStuck(cfg: Config, s: State, op: Op, a: AttemptId, r: RunId)
    requires Inv(s) && Stuck(s, a, r) && Do(cfg, s, op).Ok? && ActiveInvocation(s, r)
    requires s.attempts[a].intent in s.intents && s.intents[s.attempts[a].intent].run == r
    ensures RewritesRun(op) ==> TargetRun(op) != r
    ensures op.OpReconcile? ==> op.attemptId != a
  {
    hide Inv, Do, ActiveInvocation, SuccessOk, ProofsOk;
    if op.OpClaimDue? {
      ClaimNeedsNoInvocation(cfg, s, op);
    } else if RewritesRun(op) {
      RewriteNeedsLive(cfg, s, op);
    } else if op.OpReconcile? {
      InvParts(s);
      OutcomesPassBy(cfg, s, op, Do(cfg, s, op).value, a, r);
    }
  }

  /** And every ambiguous outcome gets there, once its run's lease runs out before a reconciliation. */
  lemma AmbiguityLapses(cfg: Config, s: State, op: Op, elapsed: nat) returns (r: RunId)
    requires Inv(s) && op.OpRecordAmbiguous? && Do(cfg, s, op).Ok?
    requires forall q :: q in s.runs && s.runs[q].lease.Some? ==> s.runs[q].lease.value.expiresAt <= s.now + elapsed
    ensures Stuck(Run(cfg, s, [op, OpTick(elapsed)]), op.attemptId, r)
  {
    hide Inv, RecordAmbiguous, SuccessOk, ProofsOk, Linked, Pinned;
    var ops := [op, OpTick(elapsed)];
    var t := After(cfg, s, op);
    assert ops[..1] == [op] && [op][..0] == [];
    assert Run(cfg, s, []) == s;
    assert Run(cfg, s, [op]) == t;
    assert Run(cfg, s, ops) == After(cfg, t, OpTick(elapsed));
    r := AmbiguityPins(cfg, s, op, t);
  }

  lemma AmbiguityPins(cfg: Config, s: State, op: Op, t: State) returns (r: RunId)
    requires Inv(s) && op.OpRecordAmbiguous? && Do(cfg, s, op) == Ok(t)
    ensures op.attemptId in t.attempts && t.attempts[op.attemptId].state.ReconciliationRequired?
    ensures op.attemptId !in t.reconciliations && t.runs == s.runs && t.now == s.now
    ensures var k := t.attempts[op.attemptId].reservation;
            k in t.reservations && t.reservations[k].run == r && r in t.runs
  {
    hide Inv, RecordAmbiguous, SuccessOk, ProofsOk, Linked, Pinned;
    AmbiguousMeaning(s, op.attemptId, op.worker, op.fence, op.failure, t);
    InvParts(s);
    NotProvedYet(s, op.attemptId);
    OpenAttemptPinned(s, op.attemptId);
    r := s.reservations[s.attempts[op.attemptId].reservation].run;
    PinnedRun(s, s.attempts[op.attemptId].reservation);
  }

  lemma NotProvedYet(s: State, a: AttemptId)
    requires ProofsOk(s.attempts, s.reconciliations) && a in s.attempts && s.attempts[a].state.ReadyToInvoke?
    ensures a !in s.reconciliations
  {
  }

  lemma PinnedRun(s: State, k: ReservationId)
    requires k in s.reservations && Pinned(s.runs, s.reservations[k])
    ensures s.reservations[k].run in s.runs
  {
  }
}
