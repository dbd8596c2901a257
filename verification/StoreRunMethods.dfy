/** Claims, renewals, releases, transitions, retries and appends are run steps. */
module StoreRunMethods {
  import opened Common
  import opened RunLog
  import opened StoreModel
  import opened StoreSteps
  import opened StoreInvariant

  // ------------------------------------------------------------------- shapes

  lemma AppendMeaning(s: State, e: Event, t: State)
    requires AppendEvent(s, e) == Ok(t) && Fold(Log(s, e.run)).Some?
    ensures t == s.(logs := s.logs[e.run := Log(s, e.run) + [e]], eventIds := s.eventIds + {e.id})
    ensures Advance(Fold(Log(s, e.run)).value, e).Some?
    ensures Fold(Log(s, e.run) + [e]) == Advance(Fold(Log(s, e.run)).value, e)
    ensures e.at == s.now
  {
    FoldAppend(Log(s, e.run), e);
  }

  /** The invariant's part about run `r`. */
  ghost predicate RunHere(s: State, r: RunId) {
    r in s.runs && RunOk(s.now, r, s.runs[r], Log(s, r), Validations(s, r))
  }

  /** A commit that rewrites one row and extends its log. */
  ghost predicate Rewrites(s: State, t: State, r: RunId, row: RunRow, log: seq<Event>) {
    && r in s.runs
    && EffectsUntouched(s, t) && t.validations == s.validations
    && Appended(s.records, t.records, r) && Appended(s.candidates, t.candidates, r)
    && t.runs == s.runs[r := row]
    && (t.logs == s.logs[r := log] || (t.logs == s.logs && log == Log(s, r)))
  }

  /** The part of RunOk that a rewrite of row and log can break. */
  ghost predicate RowAndLog(s: State, r: RunId, row: RunRow, log: seq<Event>) {
    && CursorFits(r, row.status, row.lease, row.generation, log, s.now)
    && (NeedsValidation(row.status) ==> Validations(s, r) != [])
    && (Terminal(row.status) ==> row.lease.None?)
  }

  lemma RewriteIsRunStep(s: State, t: State, r: RunId, row: RunRow, log: seq<Event>)
    requires RunHere(s, r)
    requires Rewrites(s, t, r, row, log) && RowAndLog(s, r, row, log)
    requires RowAdvances(s.runs[r], row) && Log(s, r) <= log
    requires SameAuthority(s.runs[r], row) || !ActiveInvocation(s, r)
    requires row.status == s.runs[r].status || EffectsDone(s.intents, s.receipts, r, row.status)
    ensures RunStep(s, t, r)
  {
    if row.status != s.runs[r].status {
      EdgeRaisesRank(s.runs[r].status, row.status);
    }
    assert Log(t, r) == log;
  }

  // -------------------------------------------------------- leases and retries

  lemma RenewIsRunStep(s: State, r: RunId, g: Guard, millis: int, eventId: EventId, t: State)
    requires RunHere(s, r) && RenewLease(s, r, g, millis, eventId) == Ok(t)
    ensures RunStep(s, t, r)
  {
    hide RunStep, Blocked;
    var row := s.runs[r];
    var lease := row.lease.value;
    var expiresAt := lease.expiresAt + millis;
    var row' := row.(lease := Some(lease.(expiresAt := expiresAt)), version := row.version + 1);
    var e := Event(eventId, r, |Log(s, r)|, s.now, g.leaseId, g.worker, g.generation,
                   Renewed(lease.expiresAt, expiresAt));
    AppendMeaning(s.(runs := s.runs[r := row']), e, t);
    RewriteIsRunStep(s, t, r, row', Log(s, r) + [e]);
  }

  lemma ReleaseIsRunStep(s: State, r: RunId, g: Guard, eventId: EventId, t: State)
    requires RunHere(s, r) && ReleaseLease(s, r, g, eventId) == Ok(t)
    ensures RunStep(s, t, r)
  {
    hide RunStep, Blocked;
    var row := s.runs[r];
    var row' := row.(lease := None, version := row.version + 1);
    var e := Event(eventId, r, |Log(s, r)|, s.now, g.leaseId, g.worker, g.generation, Released);
    assert UpdateRow(s, r, row').Ok?;
    AppendMeaning(s.(runs := s.runs[r := row']), e, t);
    RewriteIsRunStep(s, t, r, row', Log(s, r) + [e]);
  }

  lemma ExpiryMeaning(s: State, r: RunId, expiredId: EventId, t: State)
    requires RunHere(s, r) && ExpireLapsed(s, r, expiredId) == Ok(t)
    ensures t == s.(logs := t.logs, eventIds := t.eventIds)
    ensures t.logs == s.logs || t.logs == s.logs[r := Log(t, r)]
    ensures Log(s, r) <= Log(t, r)
    ensures CursorFits(r, s.runs[r].status, None, s.runs[r].generation, Log(t, r), s.now)
  {
    hide Fold, Authorized;
    if s.runs[r].lease.Some? {
      var lease := s.runs[r].lease.value;
      AppendMeaning(s, Event(expiredId, r, |Log(s, r)|, s.now, lease.id, lease.worker,
                             s.runs[r].generation, Expired(s.now)), t);
    }
  }

  lemma AcquireMeaning(s: State, r: RunId, worker: string, expiresAt: Time, leaseId: LeaseId,
                       acquiredId: EventId, t: State)
    requires r in s.runs && CursorFits(r, s.runs[r].status, None, s.runs[r].generation, Log(s, r), s.now)
    requires Acquire(s, r, worker, expiresAt, leaseId, acquiredId) == Ok(t)
    ensures var row' := Claimed(s.runs[r], leaseId, worker, expiresAt);
            && t == s.(runs := s.runs[r := row'], logs := s.logs[r := Log(t, r)], eventIds := t.eventIds,
                leases := t.leases)
            && CursorFits(r, row'.status, row'.lease, row'.generation, Log(t, r), s.now)
    ensures Log(s, r) <= Log(t, r)
    ensures !ActiveInvocation(s, r)
  {
    hide Fold, Blocked;
    var row' := Claimed(s.runs[r], leaseId, worker, expiresAt);
    var acquired := Event(acquiredId, r, |Log(s, r)|, s.now, leaseId, worker, s.runs[r].generation + 1,
        Acquired(expiresAt));
    var s1 := s.(leases := s.leases[leaseId := LeaseRow(r, worker, s.runs[r].generation + 1, s.now, expiresAt)]);
    assert UpdateRow(s1, r, row').Ok?;
    AppendMeaning(s1.(runs := s1.runs[r := row']), acquired, t);
  }

  lemma ClaimMeaning(s: State, r: RunId, worker: string, millis: int, leaseId: LeaseId,
                     expiredId: EventId, acquiredId: EventId, t: State)
    requires RunHere(s, r)
    requires ClaimDue(s, r, worker, millis, leaseId, expiredId, acquiredId) == Ok(t)
    ensures var row' := Claimed(s.runs[r], leaseId, worker, s.now + millis);
            && Rewrites(s, t, r, row', Log(t, r))
            && CursorFits(r, row'.status, row'.lease, row'.generation, Log(t, r), s.now)
    ensures Log(s, r) <= Log(t, r)
    ensures Due(s, r) && !ActiveInvocation(s, r)
  {
    hide ExpireLapsed, Acquire, Fold, CursorFits, Due, Blocked;
    var s1 := ExpireLapsed(s, r, expiredId).value;
    ExpiryMeaning(s, r, expiredId, s1);
    AcquireMeaning(s1, r, worker, s.now + millis, leaseId, acquiredId, t);
    assert s1.logs[r := Log(t, r)] == s.logs[r := Log(t, r)];
  }

  lemma ClaimIsRunStep(s: State, r: RunId, worker: string, millis: int, leaseId: LeaseId,
                       expiredId: EventId, acquiredId: EventId, t: State)
    requires RunHere(s, r)
    requires ClaimDue(s, r, worker, millis, leaseId, expiredId, acquiredId) == Ok(t)
    ensures RunStep(s, t, r)
    ensures t.runs[r].generation == s.runs[r].generation + 1
  {
    ClaimMeaning(s, r, worker, millis, leaseId, expiredId, acquiredId, t);
    RewriteIsRunStep(s, t, r, Claimed(s.runs[r], leaseId, worker, s.now + millis), Log(t, r));
  }

  /** A live lease's retry event followed by its release leaves the log without a lease. */
  lemma RetryThenRelease(r: RunId, row: RunRow, log: seq<Event>, e: Event, released: Event, now: Time)
    requires CursorFits(r, row.status, row.lease, row.generation, log, now)
    requires e.body.RetryScheduled? && released.body.Released? && e.run == r == released.run
    requires e.at == now == released.at
    requires Advance(Fold(log).value, e).Some? && Fold(log + [e]) == Advance(Fold(log).value, e)
    requires Advance(Fold(log + [e]).value, released).Some?
             && Fold(log + [e] + [released]) == Advance(Fold(log + [e]).value, released)
    ensures CursorFits(r, row.status, None, row.generation, log + [e] + [released], now)
    ensures row.lease.Some?
  {
    hide Fold;
  }

  /** The state and log between the two events of a retry and the row update. */
  lemma RetryEvents(s: State, e: Event, releasedId: EventId, t: State) returns (s1: State, s2: State, released: Event)
    requires e.run in s.runs && ScheduleRetry(s, e, releasedId) == Ok(t)
    ensures e.body.RetryScheduled? && released.body.Released? && released.run == e.run && released.at == e.at
    ensures AppendEvent(s.(retries := s1.retries), e) == Ok(s1) && AppendEvent(s1, released) == Ok(s2)
    ensures s1.retries == s2.retries
    ensures UpdateRow(s2, e.run, Retried(s.runs[e.run], e.body.retryAt)) == Ok(t)
  {
    hide UpdateRow, Fold, Authorized, Advance, RetryAllowed, Holds;
    var r := e.run;
    var s0 := s.(retries := s.retries[RetryKey(r, e.body.operation, e.body.attempt) := RetryRow(e.body.retryAt, e.at)]);
    s1 := AppendEvent(s0, e).value;
    released := Event(releasedId, r, e.sequence + 1, e.at, e.leaseId, e.worker, e.generation, Released);
    s2 := AppendEvent(s1, released).value;
  }

  lemma RetryMeaning(s: State, e: Event, releasedId: EventId, t: State) returns (s2: State, log: seq<Event>)
    requires RunHere(s, e.run) && ScheduleRetry(s, e, releasedId) == Ok(t)
    ensures s2 == s.(retries := s2.retries, logs := s.logs[e.run := log], eventIds := s2.eventIds)
    ensures Log(s, e.run) <= log
    ensures CursorFits(e.run, s.runs[e.run].status, None, s.runs[e.run].generation, log, s.now)
    ensures UpdateRow(s2, e.run, Retried(s.runs[e.run], e.body.retryAt)) == Ok(t) && e.body.RetryScheduled?
    ensures s.runs[e.run].lease.Some?
  {
    hide ScheduleRetry, AppendEvent, UpdateRow, Fold, Advance;
    var r := e.run;
    var s1, u, released := RetryEvents(s, e, releasedId, t);
    s2 := u;
    AppendMeaning(s.(retries := s1.retries), e, s1);
    assert Log(s1, r) == Log(s, r) + [e];
    AppendMeaning(s1, released, s2);
    log := Log(s, r) + [e] + [released];
    RetryThenRelease(r, s.runs[r], Log(s, r), e, released, s.now);
  }

  lemma RetryIsRunStep(s: State, e: Event, releasedId: EventId, t: State)
    requires RunHere(s, e.run) && ScheduleRetry(s, e, releasedId) == Ok(t)
    ensures RunStep(s, t, e.run)
  {
    var s2, log := RetryMeaning(s, e, releasedId, t);
    RewriteIsRunStep(s, t, e.run, Retried(s.runs[e.run], e.body.retryAt), log);
  }

  // ------------------------------------------------------------------- appends

  lemma AppendRecordIsRunStep(s: State, r: RunId, g: Guard, record: Record, t: State)
    requires RunHere(s, r) && AppendRecord(s, r, g, record) == Ok(t)
    ensures RunStep(s, t, r)
  {
    var row := s.runs[r];
    RewriteIsRunStep(s, t, r, row.(version := row.version + 1), Log(s, r));
  }

  lemma AppendCandidateIsRunStep(s: State, r: RunId, g: Guard, candidate: Fp, t: State)
    requires RunHere(s, r) && AppendCandidate(s, r, g, candidate) == Ok(t)
    ensures RunStep(s, t, r)
  {
    var row := s.runs[r];
    RewriteIsRunStep(s, t, r, row.(version := row.version + 1), Log(s, r));
  }

  lemma IssueIsRunStep(cfg: Config, s: State, req: IssueRequest, issued: Validation, t: State)
    requires RunHere(s, req.run) && IssueValidation(cfg, s, req, issued) == Ok(t)
    ensures RunStep(s, t, req.run)
    ensures LatestValidation(t, req.run) == Some(issued) && issued.stream == Log(s, req.run)
  {
  }

  // --------------------------------------------------------------- transitions

  /** The join conditions of both completion checks are redundant: every stored receipt meets them. */
  lemma EveryReceiptIsBound(s: State, r: RunId, kind: Kind)
    requires IntentsOk(s.runs, s.validations, s.intents) && ReceiptsOk(s.intents, s.receipts)
    ensures BoundReceipts(s, r, kind) == ReceiptsOf(s.intents, s.receipts, r, kind)
    ensures LatestBoundReceipts(s, r, kind) == ReceiptsOf(s.intents, s.receipts, r, kind)
  {
    forall i | i in ReceiptsOf(s.intents, s.receipts, r, kind)
      ensures i in BoundReceipts(s, r, kind) && i in LatestBoundReceipts(s, r, kind)
    {
      assert IntentOk(s.runs, s.validations, s.intents[i]) && ReceiptOk(i, s.intents[i], s.receipts[i]);
      ReceiptIsBound(s, r, kind, i);
    }
  }

  lemma ReceiptIsBound(s: State, r: RunId, kind: Kind, i: IntentId)
    requires i in s.receipts && i in s.intents && IntentOk(s.runs, s.validations, s.intents[i])
    requires ReceiptOk(i, s.intents[i], s.receipts[i])
    requires s.intents[i].run == r && s.intents[i].kind == kind
    ensures i in BoundReceipts(s, r, kind) && i in LatestBoundReceipts(s, r, kind)
  {
  }

  lemma PrerequisitesMeaning(cfg: Config, s: State, r: RunId, to: Status)
    requires r in s.runs && Prerequisites(cfg, s, r, to).Pass?
    ensures to == Validated || to == Completed ==> Validations(s, r) != []
    ensures to == ReviewArtifactCreated || to == Completed ==> |BoundReceipts(s, r, GithubReview)| == 1
    ensures to == Completed ==> |BoundReceipts(s, r, DatahubWriteback)| == 1
  {
  }

  /** What a committed transition wrote. */
  lemma TransitionMeaning(cfg: Config, s: State, e: Event, version: nat, t: State)
    requires RunHere(s, e.run) && Transition(cfg, s, e, version) == Ok(t)
    ensures e.body.StatusChanged? && e.body.from == s.runs[e.run].status && s.runs[e.run].lease.Some?
    ensures Prerequisites(cfg, s, e.run, e.body.to).Pass?
    ensures var row' := Moved(s.runs[e.run], e.body.to);
            && t == s.(runs := s.runs[e.run := row'], logs := s.logs[e.run := Log(s, e.run) + [e]],
                       eventIds := s.eventIds + {e.id})
            && (SameAuthority(s.runs[e.run], row') || !ActiveInvocation(s, e.run))
    ensures var row' := Moved(s.runs[e.run], e.body.to);
            CursorFits(e.run, row'.status, row'.lease, row'.generation, Log(s, e.run) + [e], s.now)
    ensures Adjacent(s.runs[e.run].status, e.body.to)
  {
    var row' := Moved(s.runs[e.run], e.body.to);
    assert UpdateRow(s, e.run, row').Ok?;
    AppendMeaning(s.(runs := s.runs[e.run := row']), e, t);
  }

  lemma TransitionIsRunStep(cfg: Config, s: State, e: Event, version: nat, t: State)
    requires RunHere(s, e.run) && EffectsDone(s.intents, s.receipts, e.run, s.runs[e.run].status)
    requires IntentsOk(s.runs, s.validations, s.intents) && ReceiptsOk(s.intents, s.receipts)
              && Transition(cfg, s, e, version) == Ok(t)
    ensures RunStep(s, t, e.run)
    ensures t.runs[e.run].status == e.body.to
  {
    hide Transition, Prerequisites, Fold, CursorFits, BoundReceipts, ReceiptsOf, ActiveInvocation, RunStep;
    TransitionMeaning(cfg, s, e, version, t);
    PrerequisitesMeaning(cfg, s, e.run, e.body.to);
    EveryReceiptIsBound(s, e.run, GithubReview);
    EveryReceiptIsBound(s, e.run, DatahubWriteback);
    EdgeRaisesRank(s.runs[e.run].status, e.body.to);
    RewriteIsRunStep(s, t, e.run, t.runs[e.run], Log(s, e.run) + [e]);
  }
}
