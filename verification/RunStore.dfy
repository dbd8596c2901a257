/**
 The run store as an object. Its source counterpart has no table fields either: it holds a
 connection pool, and every method is one transaction over the database value behind it.
 A method rewrites that value row by row, commits exactly the step StoreSteps states or
 rolls back, keeps the tables sound, and tells its caller what it may rely on next.
 */
module RunStore {
  import opened Common
  import opened RunLog
  import opened StoreModel
  import Steps = StoreSteps
  import opened StoreInvariant
  import opened StoreOutcomes
  import opened StoreTheorems
  import opened StoreGuarantees
  import opened StoreWindows
  import opened StoreCallers
  import opened StoreResults
  import opened StoreRecovery

  type Step = Steps.Step

  // -------------------------------------------------------------- single-row queries

  lemma NextNumberUnique(s: State, i: IntentId, m: nat, n: nat)
    requires NextAttemptNumber(s, i, m) && NextAttemptNumber(s, i, n)
    ensures m == n
  {
  }

  lemma {:induction false} SignedPrefixMeaning(log: seq<Event>, signed: seq<Event>, k: nat)
    requires k <= |log|
    ensures match SignedPrefix(log, signed, k)
            case Some(n) => n == |signed| && signed <= log && |signed| > k
            case None => |signed| <= k || !(signed <= log)
    decreases |log| - k
  {
    if k < |log| {
      if log[..k + 1] != signed {
        SignedPrefixMeaning(log, signed, k + 1);
      }
    }
  }

  class RunStore {
    const cfg: Config
    var db: State

    ghost predicate Valid()
      reads this
    {
      Sound(db)
    }

    constructor (cfg: Config)
      ensures this.cfg == cfg && db == EMPTY && Valid()
    {
      this.cfg := cfg;
      db := EMPTY;
      new;
      EmptyInv();
      assert RequestKeysOwned(EMPTY.runs) && GenerationsCounted(EMPTY);
    }

    /** Database time passes between calls. */
    method Elapse(elapsed: nat)
      requires Valid()
      modifies this
      ensures db == old(db).(now := old(db).now + elapsed)
      ensures Valid() && Evolves(old(db), db)
    {
      hide Inv, Evolves, RequestKeysOwned, GenerationsCounted;
      CommitKeeps(cfg, db, Steps.OpTick(elapsed));
      ghost var elapsedStep := Steps.Do(cfg, db, Steps.OpTick(elapsed));
      db := db.(now := db.now + elapsed);
    }

    // --------------------------------------------------------------- shared parts

    /** A guard that locks a run names the live lease its log ends with. */
    method LockRunForLease(r: RunId, g: Guard) returns (locked: Result<RunRow, Error>)
      requires Valid()
      ensures locked == Steps.LockRun(db, r, g)
      ensures locked.Ok? ==> Replay(Log(db, r)).lease.Some? && Replay(Log(db, r)).generation == g.generation
                             && Replay(Log(db, r)).lease.value.id == g.leaseId
    {
      hide Inv, RequestKeysOwned, GenerationsCounted, Replay;
      if Steps.LockRun(db, r, g).Ok? {
        GuardIsTheLogsLease(db, r, g);
      }
      if r !in db.runs {
        return Err(NotFound);
      }
      var row := db.runs[r];
      if row.lease.None? || row.lease.value.id != g.leaseId || row.lease.value.worker != g.worker
         || row.generation != g.generation || row.version != g.version || row.lease.value.expiresAt <= db.now
      {
        return Err(LeaseConflict);
      }
      return Ok(row);
    }

    /** Replays the persisted stream with the proposed event at its end. */
    method AuthorizeEvent(e: Event) returns (ok: bool)
      ensures ok == Authorized(Log(db, e.run), e, db.now)
    {
      var passes, _ := CheckStream(Log(db, e.run) + [e]);
      ok := passes && e.at == db.now;
    }

    method AppendEvent(e: Event) returns (r: Result<(), Error>)
      modifies this
      ensures Committed(old(db), db, Steps.AppendEvent(old(db), e), r)
    {
      var ok := AuthorizeEvent(e);
      if !ok {
        return Err(Unauthorized);
      }
      if e.id in db.eventIds {
        return Err(Constraint);
      }
      db := db.(logs := db.logs[e.run := Log(db, e.run) + [e]], eventIds := db.eventIds + {e.id});
      return Ok(());
    }

    method UpdateRow(r: RunId, row: RunRow) returns (result: Result<(), Error>)
      requires r in db.runs
      modifies this
      ensures Committed(old(db), db, Steps.UpdateRow(old(db), r, row), result)
    {
      if !Steps.SameAuthority(db.runs[r], row) && ActiveInvocation(db, r) {
        return Err(Constraint);
      }
      db := db.(runs := db.runs[r := row]);
      return Ok(());
    }

    method Bump(r: RunId)
      requires r in db.runs
      modifies this
      ensures db == Steps.Bump(old(db), r)
    {
      db := db.(runs := db.runs[r := db.runs[r].(version := db.runs[r].version + 1)]);
    }

    /** validationBinding's search: the first nonempty prefix that hashes to the signed value. */
    method FindSignedPrefix(log: seq<Event>, signed: seq<Event>) returns (found: Option<nat>)
      ensures found == SignedPrefix(log, signed, 0)
    {
      var k := 0;
      while k < |log|
        invariant 0 <= k <= |log|
        invariant SignedPrefix(log, signed, 0) == SignedPrefix(log, signed, k)
      {
        if log[..k + 1] == signed {
          return Some(k + 1);
        }
        k := k + 1;
      }
      return None;
    }

    method VerifyValidation(r: RunId, v: Validation) returns (verified: Check<Error>)
      ensures verified == Steps.VerifyValidation(cfg, db, r, v)
    {
      if v.run != r {
        return Fail(StateConflict);
      }
      var candidate := LatestCandidate(db, r);
      if candidate.None? {
        return Fail(StateConflict);
      }
      var prefix := FindSignedPrefix(Log(db, r), v.stream);
      SignedPrefixMeaning(Log(db, r), v.stream, 0);
      if prefix.None? {
        return Fail(CorruptData);
      }
      return if cfg.validationOk(v, candidate.value) then Pass else Fail(StateConflict);
    }

    method AssertAcceptedValidation(r: RunId, originalLease: bool) returns (accepted: Result<Validation, Error>)
      ensures accepted == Steps.AcceptedValidation(cfg, db, r, originalLease)
    {
      if r !in db.runs {
        return Err(NotFound);
      }
      var latest := LatestValidation(db, r);
      if latest.None? {
        return Err(StateConflict);
      }
      var v := latest.value;
      var verified := VerifyValidation(r, v);
      if verified.Fail? {
        return Err(verified.error);
      }
      var row := db.runs[r];
      if !LeaseActive(row, db.now)
         || (originalLease && (row.lease.value.id != v.leaseId || row.lease.value.worker != v.worker
                               || row.generation != v.generation))
      {
        return Err(LeaseConflict);
      }
      return Ok(v);
    }

    method AssertEffectReceiptPayload(i: IntentId, payload: ReceiptPayload) returns (checked: Check<Error>)
      requires i in db.intents
      ensures checked == Steps.CheckPayload(cfg, db, i, payload)
    {
      var intent := db.intents[i];
      if intent.validation !in Validations(db, intent.run) {
        return Fail(CorruptData);
      }
      checked := VerifyValidation(intent.run, intent.validation);
      if checked.Pass? && !(&& payload == Steps.ExpectedPayload(i, intent, payload.body)
                            && intent.candidate == intent.validation.candidate
                            && intent.artifactSet == intent.validation.artifactSet)
      {
        return Fail(StateConflict);
      }
    }

    /** assertBoundEffectReceipt: one joined row, whose stored payload still verifies. */
    method AssertBoundEffectReceipt(r: RunId, kind: Kind) returns (bound: Result<IntentId, Error>)
      ensures match bound
              case Ok(i) => Steps.BoundEffect(cfg, db, r, kind).Pass? && BoundReceipts(db, r, kind) == {i}
                            && i in db.receipts
              case Err(e) => Steps.BoundEffect(cfg, db, r, kind) == Fail(e)
    {
      hide Steps.CheckPayload;
      var rows := BoundReceipts(db, r, kind);
      if |rows| != 1 {
        return Err(StateConflict);
      }
      var i :| i in rows;
      assert rows == {i} by {
        var only := OnlyOne(rows);
      }
      var checked := AssertEffectReceiptPayload(i, db.receipts[i].payload);
      PayloadErrors(cfg, db, i, db.receipts[i].payload);
      if checked.Fail? {
        return Err(checked.error);
      }
      return Ok(i);
    }

    method CheckPrerequisites(r: RunId, to: Status) returns (checked: Check<Error>)
      requires r in db.runs
      ensures checked == Steps.Prerequisites(cfg, db, r, to)
    {
      hide Steps.AcceptedValidation, Steps.BoundEffect, Steps.CompletionTrigger, BoundReceipts;
      if to == Validated || to == Completed {
        var accepted := AssertAcceptedValidation(r, to == Validated);
        if accepted.Err? {
          return Fail(accepted.error);
        }
      }
      if to == ReviewArtifactCreated || to == Completed {
        var github := AssertBoundEffectReceipt(r, GithubReview);
        if github.Err? {
          return Fail(github.error);
        }
        if to == Completed {
          var datahub := AssertBoundEffectReceipt(r, DatahubWriteback);
          if datahub.Err? {
            return Fail(datahub.error);
          }
          var a, b := db.receipts[github.value].payload, db.receipts[datahub.value].payload;
          if a.validation != b.validation || a.candidate != b.candidate || a.artifactSet != b.artifactSet {
            return Fail(StateConflict);
          }
        }
      }
      if (to == Validated || to == Completed) && LatestValidation(db, r).None? {
        return Fail(Constraint);
      }
      return if Steps.CompletionTrigger(db, r, to) then Pass else Fail(Constraint);
    }

    /** requireCurrentApproval: the newest unexpired row, whose signature must verify. */
    method RequireCurrentApproval(r: RunId, kind: Kind, target: string, inputFp: Fp)
      returns (required: Result<ApprovalId, Error>)
      ensures required == Steps.RequireApproval(cfg, db, r, kind, target, inputFp)
    {
      var newest: Option<ApprovalId> := None;
      var rest := db.approvals.Keys;
      while rest != {}
        invariant rest <= db.approvals.Keys
        invariant newest.None? ==> forall a :: a in db.approvals && a !in rest ==>
            !Approves(db, a, r, kind, target, inputFp)
        invariant newest.Some? ==>
                    && Approves(db, newest.value, r, kind, target, inputFp)
                    && forall a :: a in db.approvals && a !in rest && Approves(db, a, r, kind, target, inputFp) ==>
                         !NewerApproval(db, a, newest.value)
        decreases rest
      {
        var a :| a in rest;
        rest := rest - {a};
        if Approves(db, a, r, kind, target, inputFp) && (newest.None? || NewerApproval(db, a, newest.value)) {
          newest := Some(a);
        }
      }
      if newest.None? {
        return Err(StateConflict);
      }
      assert CurrentApproval(db, newest.value, r, kind, target, inputFp);
      forall b | CurrentApproval(db, b, r, kind, target, inputFp) ensures b == newest.value {
        CurrentApprovalUnique(db, b, newest.value, r, kind, target, inputFp);
      }
      return if cfg.approvalOk(db.approvals[newest.value].payload) then Ok(newest.value) else Err(CorruptData);
    }

    /** COALESCE(max(attempt),0)+1 */
    method NextAttempt(i: IntentId) returns (n: nat)
      ensures n == Steps.NextNumber(db, i)
    {
      n := 1;
      var rest := db.attempts.Keys;
      while rest != {}
        invariant rest <= db.attempts.Keys && n >= 1
        invariant forall a :: a in db.attempts && a !in rest && db.attempts[a].intent == i ==> db.attempts[a].number < n
        invariant n > 1 ==> exists a :: a in db.attempts && db.attempts[a].intent == i && db.attempts[a].number == n - 1
        decreases rest
      {
        var a :| a in rest;
        rest := rest - {a};
        if db.attempts[a].intent == i && db.attempts[a].number >= n {
          n := db.attempts[a].number + 1;
        }
      }
      assert NextAttemptNumber(db, i, n);
      NextNumberUnique(db, i, n, Steps.NextNumber(db, i));
    }

    // ------------------------------------------------------------- runs and leases

    /** INSERT … ON CONFLICT (request_key) DO NOTHING, then the row that owns the key. */
    method CreateRun(r: RunId, requestKey: string, inputFp: Fp, mode: Mode, nextAttemptAt: Time)
      returns (result: Result<RunId, Error>)
      requires Valid()
      modifies this
      ensures Committed(old(db), db, Steps.CreateRun(old(db), r, requestKey, inputFp, mode, nextAttemptAt),
                        result.Then())
      ensures Valid() && Evolves(old(db), db)
      ensures result.Ok? ==> OwnsKey(db, result.value, requestKey, inputFp, mode)
      ensures result.Ok? && result.value !in old(db).runs ==>
                result.value in db.runs && db.runs[result.value].lease.None?
                && db.runs[result.value].nextAttemptAt == nextAttemptAt
    {
      hide Inv, Evolves, RequestKeysOwned, GenerationsCounted;
      CommitKeeps(cfg, db, Steps.OpCreateRun(r, requestKey, inputFp, mode, nextAttemptAt));
      if exists k :: k in db.runs && db.runs[k].requestKey == requestKey {
        var k :| k in db.runs && db.runs[k].requestKey == requestKey;
        OnlyOwner(db, k);
        if db.runs[k].inputFp != inputFp || db.runs[k].mode != mode {
          return Err(IdempotencyConflict);
        }
        return Ok(k);
      }
      if !(1 <= |requestKey| <= 512) || r in db.runs {
        return Err(Constraint);
      }
      db := db.(runs := db.runs[r := RunRow(requestKey, inputFp, mode, db.now, Created, 0, nextAttemptAt, None, 0)]);
      return Ok(r);
    }

    /** ORDER BY next_attempt_at,created_at,id FOR UPDATE SKIP LOCKED LIMIT 1 */
    method FindDue(locked: set<RunId>) returns (found: Option<RunId>)
      ensures found.Some? ==> Steps.FirstDue(db, locked, found.value)
      ensures found.None? ==> forall q :: q in db.runs && Steps.Due(db, q) ==> q in locked
    {
      hide LeaseActive, Terminal;
      found := None;
      var rest := db.runs.Keys;
      while rest != {}
        invariant rest <= db.runs.Keys
        invariant found.None? ==> forall q :: q in db.runs && q !in rest && Steps.Due(db, q) ==> q in locked
        invariant found.Some? ==>
                    && Steps.Due(db, found.value) && found.value !in locked
                    && forall q :: q in db.runs && q !in rest && Steps.Due(db, q) && q !in locked ==>
                         !Steps.Sooner(db, q, found.value)
        decreases rest
      {
        var q :| q in rest;
        rest := rest - {q};
        if Steps.Due(db, q) && q !in locked && (found.None? || Steps.Sooner(db, q, found.value)) {
          found := Some(q);
        }
      }
    }

    /** What claimDue does with the row it was handed; the worker leaves with a guard that locks the run. */
    method ClaimRow(r: RunId, worker: string, millis: int, leaseId: LeaseId, expiredId: EventId, acquiredId: EventId)
      returns (result: Result<Guard, Error>)
      requires Valid()
      modifies this
      ensures Committed(old(db), db,
                        Steps.ClaimDue(old(db), r, worker, millis, leaseId, expiredId, acquiredId), result.Then())
      ensures Valid() && Evolves(old(db), db)
      ensures result.Ok? ==> r in db.runs && Steps.LockRun(db, r, result.value).Ok?
                             && db.runs[r].lease == Some(Lease(leaseId, worker, old(db).now + millis))
    {
      hide Inv, Evolves, RequestKeysOwned, GenerationsCounted, Steps.ClaimDue;
      CommitKeeps(cfg, db, Steps.OpClaimDue(r, worker, millis, leaseId, expiredId, acquiredId));
      ghost var before := db;
      var claimed := WriteClaim(r, worker, millis, leaseId, expiredId, acquiredId);
      if claimed.Err? {
        return Err(claimed.error);
      }
      ClaimShows(before, r, worker, millis, leaseId, expiredId, acquiredId, db);
      return Ok(ClaimGuard(db.runs[r], leaseId, worker));
    }

    method WriteClaim(r: RunId, worker: string, millis: int, leaseId: LeaseId, expiredId: EventId, acquiredId: EventId)
      returns (result: Result<(), Error>)
      modifies this
      ensures Committed(old(db), db,
                        Steps.ClaimDue(old(db), r, worker, millis, leaseId, expiredId, acquiredId), result)
    {
      hide Steps.AppendEvent, Steps.UpdateRow, Authorized, Steps.Due;
      var before := db;
      if !(1 <= |worker| <= 160 && millis > 0) {
        return Err(TypeError);
      }
      if !Steps.Due(db, r) {
        return Err(NotFound);
      }
      assert r in db.runs by { DueRuns(db, r); }
      var row := db.runs[r];
      if row.lease.Some? {
        var expired := Event(expiredId, r, |Log(db, r)|, db.now, row.lease.value.id, row.lease.value.worker,
                             row.generation, Expired(db.now));
        result := AppendEvent(expired);
        if result.Err? {
          return;
        }
        AppendKeepsRuns(before, expired, db);
      }
      result := Acquire(r, worker, db.now + millis, leaseId, acquiredId);
      if result.Err? {
        db := before;
      }
    }

    /** claimDue: the first due row no other transaction holds, or none; if its claim fails nothing is claimed. */
    method ClaimDue(locked: set<RunId>, worker: string, millis: int, leaseId: LeaseId, expiredId: EventId,
                    acquiredId: EventId)
      returns (claimed: Result<Option<(RunId, Guard)>, Error>)
      requires Valid()
      modifies this
      ensures Valid() && Evolves(old(db), db)
      ensures match claimed
              case Ok(None) => db == old(db) && forall q :: q in db.runs && Steps.Due(db, q) ==> q in locked
              case Ok(Some((r, g))) =>
                Steps.FirstDue(old(db), locked, r) && Steps.LockRun(db, r, g).Ok?
                && Steps.ClaimDue(old(db), r, worker, millis, leaseId, expiredId, acquiredId) == Ok(db)
              case Err(e) =>
                db == old(db)
                && (e.TypeError? || exists r ::
                      Steps.FirstDue(db, locked, r)
                      && Steps.ClaimDue(db, r, worker, millis, leaseId, expiredId, acquiredId) == Err(e))
      ensures forall r | Steps.FirstDue(old(db), locked, r) && !Claimable(old(db), r) :: claimed.Err?
      ensures 1 <= |worker| <= 160 && millis > 0 ==>
                forall r | Steps.FirstDue(old(db), locked, r) && Fresh(old(db), r, leaseId, expiredId, acquiredId) ::
                  claimed.Ok? <==> Claimable(old(db), r)
    {
      hide Inv, Evolves, RequestKeysOwned, GenerationsCounted, Steps.ClaimDue, Steps.FirstDue, Steps.LockRun,
        Steps.Due, Claimable, Fresh;
      EvolvesReflexive(db);
      if !(1 <= |worker| <= 160 && millis > 0) {
        return Err(TypeError);
      }
      var found := FindDue(locked);
      if found.None? {
        NoneDue(db, locked);
        return Ok(None);
      }
      HeadDecides(db, locked, found.value, worker, millis, leaseId, expiredId, acquiredId);
      var g :- ClaimRow(found.value, worker, millis, leaseId, expiredId, acquiredId);
      return Ok(Some((found.value, g)));
    }

    method Acquire(r: RunId, worker: string, expiresAt: Time, leaseId: LeaseId, acquiredId: EventId)
      returns (result: Result<(), Error>)
      requires r in db.runs
      modifies this
      ensures Committed(old(db), db, Steps.Acquire(old(db), r, worker, expiresAt, leaseId, acquiredId), result)
    {
      hide Steps.AppendEvent, Steps.UpdateRow, Authorized;
      var before := db;
      var row := db.runs[r];
      var acquired := Event(acquiredId, r, |Log(db, r)|, db.now, leaseId, worker, row.generation + 1,
                            Acquired(expiresAt));
      var authorized := AuthorizeEvent(acquired);
      if !authorized {
        return Err(Unauthorized);
      }
      if leaseId in db.leases {
        return Err(Constraint);
      }
      db := db.(leases := db.leases[leaseId := LeaseRow(r, worker, row.generation + 1, db.now, expiresAt)]);
      result := UpdateRow(r, Steps.Claimed(row, leaseId, worker, expiresAt));
      if result.Ok? {
        result := AppendEvent(acquired);
      }
      if result.Err? {
        db := before;
      }
    }

    /** The renewed lease lasts at least its new duration longer, and the next guard holds it. */
    method RenewLease(r: RunId, g: Guard, millis: int, eventId: EventId) returns (result: Result<RunRow, Error>)
      requires Valid()
      modifies this
      ensures Committed(old(db), db, Steps.RenewLease(old(db), r, g, millis, eventId), result.Then())
      ensures Valid() && Evolves(old(db), db)
      ensures result.Ok? ==> Steps.LockRun(db, r, NextGuard(g)) == Ok(result.value)
                             && result.value.lease.Some? && r in old(db).runs && old(db).runs[r].lease.Some?
                             && result.value.lease.value.expiresAt >= old(db).runs[r].lease.value.expiresAt + millis
    {
      hide Inv, Evolves, RequestKeysOwned, GenerationsCounted, Replay, Steps.AppendEvent, Steps.LockRun;
      CommitKeeps(cfg, db, Steps.OpRenewLease(r, g, millis, eventId));
      var before := db;
      if millis <= 0 {
        return Err(TypeError);
      }
      var row :- LockRunForLease(r, g);
      LockedRun(db, r, g);
      var lease := row.lease.value;
      var expiresAt := (if db.now > lease.expiresAt then db.now else lease.expiresAt) + millis;
      var e := Event(eventId, r, |Log(db, r)|, db.now, g.leaseId, g.worker, g.generation,
                     Renewed(lease.expiresAt, expiresAt));
      db := db.(runs := db.runs[r := row.(lease := Some(lease.(expiresAt := expiresAt)), version := row.version + 1)]);
      var appended := AppendEvent(e);
      if appended.Err? {
        db := before;
        return Err(appended.error);
      }
      RenewShows(before, r, g, millis, eventId, db);
      LockedRun(db, r, NextGuard(g));
      return Ok(db.runs[r]);
    }

    method ReleaseLease(r: RunId, g: Guard, eventId: EventId) returns (result: Result<RunRow, Error>)
      requires Valid()
      modifies this
      ensures Committed(old(db), db, Steps.ReleaseLease(old(db), r, g, eventId), result.Then())
      ensures Valid() && Evolves(old(db), db)
      ensures result.Ok? ==> r in db.runs && db.runs[r] == result.value && result.value.lease.None?
    {
      hide Inv, Evolves, RequestKeysOwned, GenerationsCounted, Replay, Steps.AppendEvent, Steps.UpdateRow,
        Steps.LockRun, Authorized;
      CommitKeeps(cfg, db, Steps.OpReleaseLease(r, g, eventId));
      var before := db;
      var row :- LockRunForLease(r, g);
      LockedRun(db, r, g);
      var e := Event(eventId, r, |Log(db, r)|, db.now, g.leaseId, g.worker, g.generation, Released);
      var authorized := AuthorizeEvent(e);
      if !authorized {
        return Err(Unauthorized);
      }
      var written := UpdateRow(r, row.(lease := None, version := row.version + 1));
      if written.Ok? {
        written := AppendEvent(e);
      }
      if written.Err? {
        db := before;
        return Err(written.error);
      }
      ReleaseShows(before, r, g, eventId, db);
      return Ok(db.runs[r]);
    }

    /** A committed transition took an edge of the status graph, and the log ends with its event. */
    method Transition(e: Event, expectedVersion: nat) returns (result: Result<RunRow, Error>)
      requires Valid()
      modifies this
      ensures Committed(old(db), db, Steps.Transition(cfg, old(db), e, expectedVersion), result.Then())
      ensures Valid() && Evolves(old(db), db)
      ensures result.Ok? ==> e.run in db.runs && db.runs[e.run] == result.value
                             && e.body.StatusChanged? && result.value.status == e.body.to
                             && e.run in old(db).runs && Adjacent(old(db).runs[e.run].status, e.body.to)
                             && Log(db, e.run) == Log(old(db), e.run) + [e]
    {
      hide Inv, Evolves, RequestKeysOwned, GenerationsCounted, Replay, Steps.AppendEvent, Steps.UpdateRow,
        Steps.LockRun, Steps.Prerequisites, Authorized;
      CommitKeeps(cfg, db, Steps.OpTransition(e, expectedVersion));
      var before := db;
      var authorized := AuthorizeEvent(e);
      if !authorized {
        return Err(Unauthorized);
      }
      if !e.body.StatusChanged? {
        return Err(StateConflict);
      }
      var row :- LockRunForLease(e.run, Steps.EventGuard(e, expectedVersion));
      LockedRun(db, e.run, Steps.EventGuard(e, expectedVersion));
      if row.status != e.body.from {
        return Err(StateConflict);
      }
      var checked := CheckPrerequisites(e.run, e.body.to);
      if checked.Fail? {
        return Err(checked.error);
      }
      if !SqlEdge(row.status, e.body.to) {
        return Err(Constraint);
      }
      var written := UpdateRow(e.run, Steps.Moved(row, e.body.to));
      if written.Ok? {
        written := AppendEvent(e);
      }
      if written.Err? {
        db := before;
        return Err(written.error);
      }
      TransitionShows(cfg, before, e, expectedVersion, db);
      return Ok(db.runs[e.run]);
    }

    /** The run is given back and not due before the delay of this attempt is over. */
    method ScheduleRetry(e: Event, releasedId: EventId) returns (result: Result<RunRow, Error>)
      requires Valid()
      modifies this
      ensures Committed(old(db), db, Steps.ScheduleRetry(old(db), e, releasedId), result.Then())
      ensures Valid() && Evolves(old(db), db)
      ensures result.Ok? ==> Waiting(db, e.run) && db.runs[e.run] == result.value && e.body.RetryScheduled?
                             && result.value.nextAttemptAt == db.now + RetryDelay(e.body.attempt)
    {
      hide Inv, Evolves, RequestKeysOwned, GenerationsCounted, Steps.ScheduleRetry;
      CommitKeeps(cfg, db, Steps.OpScheduleRetry(e, releasedId));
      ghost var before := db;
      var written := WriteRetry(e, releasedId);
      if written.Err? {
        return Err(written.error);
      }
      RetryMeans(cfg, before, Steps.OpScheduleRetry(e, releasedId), db);
      return Ok(db.runs[e.run]);
    }

    method WriteRetry(e: Event, releasedId: EventId) returns (result: Result<(), Error>)
      requires Valid()
      modifies this
      ensures Committed(old(db), db, Steps.ScheduleRetry(old(db), e, releasedId), result)
    {
      hide Inv, RequestKeysOwned, GenerationsCounted, Replay, Steps.AppendEvent, Steps.UpdateRow, Steps.LockRun,
        Authorized;
      var before := db;
      var authorized := AuthorizeEvent(e);
      if !authorized {
        return Err(Unauthorized);
      }
      if !e.body.RetryScheduled? {
        return Err(StateConflict);
      }
      if e.run !in db.runs {
        return Err(NotFound);
      }
      var row :- LockRunForLease(e.run, Steps.EventGuard(e, db.runs[e.run].version));
      LockedRun(db, e.run, Steps.EventGuard(e, db.runs[e.run].version));
      var key := RetryKey(e.run, e.body.operation, e.body.attempt);
      if key in db.retries || !RetryAllowed(e.body.operation, row.status) {
        return Err(Constraint);
      }
      db := db.(retries := db.retries[key := RetryRow(e.body.retryAt, e.at)]);
      ghost var retried := db;
      result := AppendEvent(e);
      if result.Ok? {
        AppendKeepsRuns(retried, e, db);
        var released := Event(releasedId, e.run, e.sequence + 1, e.at, e.leaseId, e.worker, e.generation, Released);
        ghost var mid := db;
        result := AppendEvent(released);
        if result.Ok? {
          AppendKeepsRuns(mid, released, db);
          result := UpdateRow(e.run, Steps.Retried(row, e.body.retryAt));
        }
      }
      if result.Err? {
        db := before;
      }
    }

    // -------------------------------------------------------------------- appends

    /** The version it returns makes the worker's next guard; the guard it was called with is spent. */
    method AppendRecord(r: RunId, g: Guard, record: Record) returns (version: Result<nat, Error>)
      requires Valid()
      modifies this
      ensures Committed(old(db), db, Steps.AppendRecord(old(db), r, g, record), version.Then())
      ensures Valid() && Evolves(old(db), db)
      ensures version.Ok? ==> Steps.LockRun(db, r, g.(version := version.value)).Ok? && Steps.LockRun(db, r, g).Err?
                              && Latest(Get(db.records, r)) == Some(record)
    {
      hide Inv, Evolves, RequestKeysOwned, GenerationsCounted, Replay, Steps.Decides;
      CommitKeeps(cfg, db, Steps.OpAppendRecord(r, g, record));
      var row :- LockRunForLease(r, g);
      if record.CollectionResult? && record.mode != row.mode {
        return Err(StateConflict);
      }
      if record.Decision? && Steps.Decides(Get(db.records, r), record.scope) {
        return Err(Constraint);
      }
      db := db.(records := db.records[r := Get(db.records, r) + [record]]);
      Bump(r);
      return Ok(g.version + 1);
    }

    method AppendMigrationCandidate(r: RunId, g: Guard, candidate: Fp) returns (version: Result<nat, Error>)
      requires Valid()
      modifies this
      ensures Committed(old(db), db, Steps.AppendCandidate(old(db), r, g, candidate), version.Then())
      ensures Valid() && Evolves(old(db), db)
      ensures version.Ok? ==> Steps.LockRun(db, r, g.(version := version.value)).Ok? && Steps.LockRun(db, r, g).Err?
                              && LatestCandidate(db, r) == Some(candidate)
    {
      hide Inv, Evolves, RequestKeysOwned, GenerationsCounted, Replay;
      CommitKeeps(cfg, db, Steps.OpAppendCandidate(r, g, candidate));
      var _ :- LockRunForLease(r, g);
      if |Get(db.candidates, r)| >= 20 {
        return Err(Constraint);
      }
      db := db.(candidates := db.candidates[r := Get(db.candidates, r) + [candidate]]);
      Bump(r);
      return Ok(g.version + 1);
    }

    /** What is stored is the latest validation, over the whole log and the latest candidate. */
    method IssueAndStoreValidationReceipt(req: Steps.IssueRequest, issued: Validation)
      returns (result: Result<(), Error>)
      requires Valid()
      modifies this
      ensures Committed(old(db), db, Steps.IssueValidation(cfg, old(db), req, issued), result)
      ensures Valid() && Evolves(old(db), db)
      ensures result.Ok? ==> LatestValidation(db, req.run) == Some(issued) && issued.stream == Log(db, req.run)
                             && LatestCandidate(db, req.run) == Some(issued.candidate)
    {
      hide Inv, Evolves, RequestKeysOwned, GenerationsCounted, Steps.VerifyValidation, LatestCandidate, LeaseActive;
      CommitKeeps(cfg, db, Steps.OpIssueValidation(req, issued));
      ghost var before := db;
      var r := req.run;
      if r !in db.runs {
        return Err(NotFound);
      }
      var row := db.runs[r];
      if !(row.mode == Live && row.status == Validating && LeaseActive(row, db.now)) {
        return Err(LeaseConflict);
      }
      var candidate := LatestCandidate(db, r);
      if candidate.None? {
        return Err(StateConflict);
      }
      if !(&& req.stream == Log(db, r) && req.candidate == candidate.value
           && LeaseIdentity(row) == Some((req.leaseId, req.worker)) && row.generation == req.generation)
      {
        return Err(LeaseConflict);
      }
      var verified := VerifyValidation(r, issued);
      if verified.Fail? {
        return Err(verified.error);
      }
      if issued.stream != Log(db, r) || issued.candidate != candidate.value {
        return Err(StateConflict);
      }
      if issued in Validations(db, r) || |Validations(db, r)| >= 20 {
        return Err(Constraint);
      }
      db := db.(validations := db.validations[r := Validations(db, r) + [issued]]);
      Bump(r);
      IssueShows(cfg, before, req, issued, db);
      return Ok(());
    }

    // --------------------------------------------------------- approval and intent

    /** The approval it returns is the current one for its request, and approves the latest validation. */
    method RecordEffectApproval(r: RunId, g: Guard, kind: Kind, target: string, inputFp: Fp, approvedBy: string,
                                approvedAt: Time, expiresAt: Time, id: ApprovalId)
      returns (result: Result<ApprovalId, Error>)
      requires Valid()
      modifies this
      ensures Committed(old(db), db,
                        Steps.RecordApproval(cfg, old(db), r, g, kind, target, inputFp, approvedBy, approvedAt,
                            expiresAt, id),
                        result.Then())
      ensures Valid() && Evolves(old(db), db)
      ensures result.Ok? ==> CurrentApproval(db, result.value, r, kind, target, inputFp)
                             && db.approvals[result.value].payload.approvedBy == approvedBy
                             && LatestValidation(db, r) == Some(db.approvals[result.value].payload.validation)
    {
      hide Inv, Evolves, RequestKeysOwned, GenerationsCounted, Steps.RecordApproval, CurrentApproval;
      CommitKeeps(cfg, db, Steps.OpRecordApproval(r, g, kind, target, inputFp, approvedBy, approvedAt, expiresAt, id));
      ghost var before := db;
      result := WriteApproval(r, g, kind, target, inputFp, approvedBy, approvedAt, expiresAt, id);
      if result.Ok? {
        ApprovalShows(cfg, before, r, g, kind, target, inputFp, approvedBy, approvedAt, expiresAt, id, db);
      }
    }

    method WriteApproval(r: RunId, g: Guard, kind: Kind, target: string, inputFp: Fp, approvedBy: string,
                         approvedAt: Time, expiresAt: Time, id: ApprovalId)
      returns (result: Result<ApprovalId, Error>)
      requires Valid()
      modifies this
      ensures Committed(old(db), db,
                        Steps.RecordApproval(cfg, old(db), r, g, kind, target, inputFp, approvedBy, approvedAt,
                            expiresAt, id),
                        result.Then())
      ensures result.Ok? ==> CurrentApproval(db, result.value, r, kind, target, inputFp)
    {
      hide Inv, RequestKeysOwned, GenerationsCounted, Replay, Steps.LockRun, Steps.AcceptedValidation,
        Steps.RequireApproval, EffectState, CurrentApproval;
      var before := db;
      if !(1 <= |target| <= 500 && 1 <= |approvedBy| <= 240) {
        return Err(TypeError);
      }
      var row :- LockRunForLease(r, g);
      if row.status != EffectState(kind) || row.mode != Live {
        return Err(StateConflict);
      }
      if approvedAt > db.now || expiresAt <= db.now || expiresAt - db.now > Steps.MAX_APPROVAL_MILLIS
         || expiresAt <= approvedAt
      {
        return Err(StateConflict);
      }
      var v :- AssertAcceptedValidation(r, false);
      if approvedAt < v.completedAt {
        return Err(StateConflict);
      }
      var payload := ApprovalPayload(r, kind, target, inputFp, v, approvedBy, approvedAt, expiresAt);
      if !cfg.approvalOk(payload) {
        return Err(StateConflict);
      }
      if exists a :: a in db.approvals && db.approvals[a].payload == payload {
        var current :- RequireCurrentApproval(r, kind, target, inputFp);
        ApprovalIsStored(db, current, r, kind, target, inputFp);
        return if db.approvals[current].payload == payload then Ok(current) else Err(IdempotencyConflict);
      }
      if id in db.approvals {
        return Err(Constraint);
      }
      db := db.(approvals := db.approvals[id := Approval(payload, db.now)]);
      var current := RequireCurrentApproval(r, kind, target, inputFp);
      if current != Ok(id) {
        db := before;
        return Err(if current.Err? then current.error else IdempotencyConflict);
      }
      return current;
    }

    /** The intent it returns is this request's, over the latest validation; no other intent has its key. */
    method BeginEffect(r: RunId, g: Guard, kind: Kind, target: string, key: string, inputFp: Fp, id: IntentId)
      returns (result: Result<IntentId, Error>)
      requires Valid()
      modifies this
      ensures Committed(old(db), db, Steps.BeginEffect(cfg, old(db), r, g, kind, target, key, inputFp, id),
                        result.Then())
      ensures Valid() && Evolves(old(db), db)
      ensures result.Ok? ==> result.value in db.intents && Steps.SameKey(db.intents[result.value], kind, target, key)
                             && db.intents[result.value].run == r && db.intents[result.value].inputFp == inputFp
                             && LatestValidation(db, r) == Some(db.intents[result.value].validation)
    {
      hide Inv, Evolves, RequestKeysOwned, GenerationsCounted, Steps.BeginEffect;
      CommitKeeps(cfg, db, Steps.OpBeginEffect(r, g, kind, target, key, inputFp, id));
      ghost var before := db;
      result := WriteIntent(r, g, kind, target, key, inputFp, id);
      if result.Ok? {
        BeginShows(cfg, before, r, g, kind, target, key, inputFp, id, db);
      }
    }

    method WriteIntent(r: RunId, g: Guard, kind: Kind, target: string, key: string, inputFp: Fp, id: IntentId)
      returns (result: Result<IntentId, Error>)
      requires Valid()
      modifies this
      ensures Committed(old(db), db, Steps.BeginEffect(cfg, old(db), r, g, kind, target, key, inputFp, id),
                        result.Then())
      ensures result.Ok? ==> result.value in db.intents && Steps.SameKey(db.intents[result.value], kind, target, key)
    {
      hide Inv, RequestKeysOwned, GenerationsCounted, Replay, Steps.LockRun, Steps.AcceptedValidation,
        Steps.RequireApproval, Steps.SameKey, Steps.Bump, KeysUnique, EffectState, CurrentApproval;
      if !(1 <= |target| <= 500) {
        return Err(TypeError);
      }
      var row :- LockRunForLease(r, g);
      LockedRun(db, r, g);
      if row.status != EffectState(kind) || row.mode != Live {
        return Err(StateConflict);
      }
      var v :- AssertAcceptedValidation(r, true);
      if cfg.production {
        var _ :- RequireCurrentApproval(r, kind, target, inputFp);
      }
      var intent := Intent(r, kind, target, key, inputFp, v, v.candidate, v.artifactSet);
      if exists i :: i in db.intents && Steps.SameKey(db.intents[i], kind, target, key) {
        var i :| i in db.intents && Steps.SameKey(db.intents[i], kind, target, key);
        OnlyIntent(db, i, kind, target, key);
        return if db.intents[i] == intent then Ok(i) else Err(IdempotencyConflict);
      }
      if id in db.intents || !(1 <= |key| <= 512) {
        return Err(Constraint);
      }
      assert Steps.SameKey(intent, kind, target, key) by { KeyOf(intent); }
      db := db.(intents := db.intents[id := intent]);
      Bump(r);
      BumpKeepsIntents(old(db).(intents := old(db).intents[id := intent]), r);
      return Ok(id);
    }

    // ------------------------------------------------------ reserve, verify, consume

    /** A reservation stores the run exactly as it stands and ends before its lease, its approval and thirty seconds. */
    method ReserveCurrentEffect(r: RunId, kind: Kind, target: string, inputFp: Fp, key: string, i: IntentId,
                                validation: Validation, id: ReservationId, token: Token)
      returns (result: Result<Reservation, Error>)
      requires Valid()
      modifies this
      ensures Committed(old(db), db,
                        Steps.Reserve(cfg, old(db), r, kind, target, inputFp, key, i, validation, id, token),
                        result.Then())
      ensures Valid() && Evolves(old(db), db)
      ensures result.Ok? ==> id in db.reservations && db.reservations[id] == result.value
                             && result.value.run == r && result.value.state.Reserved?
                             && Snapshot(old(db), result.value)
    {
      hide Inv, Evolves, RequestKeysOwned, GenerationsCounted, Steps.Reserve, Snapshot;
      var op := Steps.OpReserve(r, kind, target, inputFp, key, i, validation, id, token);
      CommitKeeps(cfg, db, op);
      ghost var before := db;
      var written := WriteReservation(r, kind, target, inputFp, key, i, validation, id, token);
      if written.Err? {
        return Err(written.error);
      }
      ReserveSnapshots(cfg, before, op, db);
      return Ok(db.reservations[id]);
    }

    method WriteReservation(r: RunId, kind: Kind, target: string, inputFp: Fp, key: string, i: IntentId,
                            validation: Validation, id: ReservationId, token: Token)
      returns (result: Result<(), Error>)
      modifies this
      ensures Committed(old(db), db,
                        Steps.Reserve(cfg, old(db), r, kind, target, inputFp, key, i, validation, id, token), result)
    {
      hide Steps.RequireApproval, Log, LatestValidation, SignedPrefix, EffectState, Steps.SameKey, Steps.Min,
        CurrentApproval;
      if !(1 <= |target| <= 500) {
        return Err(TypeError);
      }
      if r !in db.runs {
        return Err(NotFound);
      }
      var row := db.runs[r];
      if row.status != EffectState(kind) || !LeaseActive(row, db.now) {
        return Err(LeaseConflict);
      }
      if LatestValidation(db, r) != Some(validation) {
        return Err(StateConflict);
      }
      if !(&& i in db.intents && db.intents[i].run == r && Steps.SameKey(db.intents[i], kind, target, key)
           && db.intents[i].inputFp == inputFp && db.intents[i].validation == validation)
      {
        return Err(StateConflict);
      }
      var prefix := FindSignedPrefix(Log(db, r), validation.stream);
      SignedPrefixMeaning(Log(db, r), validation.stream, 0);
      if prefix.None? {
        return Err(CorruptData);
      }
      var a :- RequireCurrentApproval(r, kind, target, inputFp);
      ApprovalIsStored(db, a, r, kind, target, inputFp);
      var approval := db.approvals[a].payload;
      var lease := row.lease.value;
      var invokeBy := Steps.Min(db.now + Steps.INVOKE_MILLIS, Steps.Min(lease.expiresAt, approval.expiresAt));
      if invokeBy <= db.now {
        return Err(LeaseConflict);
      }
      if row.mode != Live || approval.validation != validation {
        return Err(Constraint);
      }
      if id in db.reservations || row.generation == 0
         || (exists k :: k in db.reservations && db.reservations[k].token == token)
         || (exists k :: k in db.reservations && db.reservations[k].intent == i
                         && !db.reservations[k].state.CancelledPreSend?)
      {
        return Err(Constraint);
      }
      db := db.(reservations := db.reservations[id :=
        Reservation(r, i, key, kind, target, inputFp, db.intents[i], validation, a, approval, Log(db, r),
                    row.version, row.status, lease.id, lease.worker, row.generation, token, invokeBy, Reserved)]);
      return Ok(());
    }

    /** verifyCurrentEffectReservation reads only; RESERVED means that a consumption now succeeds. */
    method VerifyCurrentEffect(c: Steps.Claim) returns (state: Option<ReservationState>)
      requires Valid()
      ensures state.Some? <==> Steps.Verifies(db, c)
      ensures state.Some? ==> state.value == db.reservations[c.id].state
      ensures state == Some(Reserved) ==>
                forall attempt, fence :: FreshAttempt(db, attempt, fence) ==> Steps.Consume(db, c, attempt, fence).Ok?
    {
      hide Inv, RequestKeysOwned, GenerationsCounted, Steps.StillCurrent, Steps.Consume, FreshAttempt;
      if !Steps.ClaimMatches(db, c) || !Steps.IntentUnchanged(db, c) {
        return None;
      }
      var reservation := db.reservations[c.id];
      if reservation.state.Reserved? && !Steps.StillCurrent(db, reservation) {
        return None;
      }
      forall attempt, fence | reservation.state.Reserved? && FreshAttempt(db, attempt, fence)
        ensures Steps.Consume(db, c, attempt, fence).Ok?
      {
        VerifyPredictsConsume(db, c, attempt, fence);
      }
      return Some(reservation.state);
    }

    /** The attempt is its intent's first, and the run is pinned under it until the outcome is known. */
    method ConsumeCurrentEffect(c: Steps.Claim, attempt: AttemptId, fence: Fence)
      returns (result: Result<Attempt, Error>)
      requires Valid()
      modifies this
      ensures Committed(old(db), db, Steps.Consume(old(db), c, attempt, fence), result.Then())
      ensures Valid() && Evolves(old(db), db)
      ensures result.Ok? ==> attempt in db.attempts && db.attempts[attempt] == result.value
                             && result.value.number == 1 && result.value.reservation == c.id && c.id in db.reservations
                             && result.value.claimExpiresAt == db.reservations[c.id].invokeBy
                             && Unresolved(db.receipts, db.reconciliations, db.reservations[c.id])
                             && Pinned(db.runs, db.reservations[c.id])
    {
      hide Inv, Evolves, RequestKeysOwned, GenerationsCounted, Steps.Consume, Unresolved, Pinned;
      CommitKeeps(cfg, db, Steps.OpConsume(c, attempt, fence));
      ghost var before := db;
      var written := WriteConsumption(c, attempt, fence);
      if written.Err? {
        return Err(written.error);
      }
      ConsumeShows(before, c, attempt, fence, db);
      return Ok(db.attempts[attempt]);
    }

    method WriteConsumption(c: Steps.Claim, attempt: AttemptId, fence: Fence) returns (result: Result<(), Error>)
      modifies this
      ensures Committed(old(db), db, Steps.Consume(old(db), c, attempt, fence), result)
    {
      hide Steps.StillCurrent, NextAttemptNumber;
      if !(&& Steps.ClaimMatches(db, c) && Steps.IntentUnchanged(db, c) && db.reservations[c.id].state.Reserved?
           && Steps.StillCurrent(db, db.reservations[c.id]))
      {
        return Err(Constraint);
      }
      var res := db.reservations[c.id];
      var number := NextAttempt(c.intent);
      if number > 3 {
        return Err(Constraint);
      }
      if attempt in db.attempts || exists a :: a in db.attempts && db.attempts[a].fence == fence {
        return Err(Constraint);
      }
      db := db.(reservations := db.reservations[c.id := res.(state := Consumed(attempt, fence, db.now))]);
      db := db.(attempts := db.attempts[attempt := Attempt(c.intent, number, res.worker, fence, ReadyToInvoke,
                                                           db.now, res.invokeBy, db.now, c.id)]);
      return Ok(());
    }

    /** After a cancellation no consumption of this claim succeeds. */
    method CancelCurrentEffectBeforeSend(c: Steps.Claim) returns (result: Result<(), Error>)
      requires Valid()
      modifies this
      ensures Committed(old(db), db, Steps.Cancel(old(db), c), result)
      ensures Valid() && Evolves(old(db), db)
      ensures result.Ok? ==> forall attempt, fence :: Steps.Consume(db, c, attempt, fence).Err?
    {
      hide Inv, Evolves, RequestKeysOwned, GenerationsCounted, Steps.Consume;
      CommitKeeps(cfg, db, Steps.OpCancel(c));
      ghost var before := db;
      if !Steps.ClaimMatches(db, c) || !db.reservations[c.id].state.Reserved? {
        return Err(Constraint);
      }
      db := db.(reservations := db.reservations[c.id := db.reservations[c.id].(state := CancelledPreSend)]);
      CancelShows(before, c, db);
      return Ok(());
    }

    // ------------------------------------------------------------------- outcomes

    method InsertReceipt(i: IntentId, p: ReceiptPayload) returns (result: Result<(), Error>)
      modifies this
      ensures Committed(old(db), db, Steps.InsertReceipt(old(db), i, p), result)
    {
      if !Steps.OutcomeAuthority(db, i, true) || !Steps.ReceiptBinding(db, i, p) {
        return Err(Constraint);
      }
      if i !in db.receipts {
        db := db.(receipts := db.receipts[i := Receipt(p, p.validation, p.candidate, p.artifactSet)]);
      }
      return Ok(());
    }

    method SetAttemptState(a: AttemptId, to: AttemptState) returns (result: Result<(), Error>)
      requires a in db.attempts
      modifies this
      ensures Committed(old(db), db, Steps.SetAttemptState(old(db), a, to), result)
    {
      var before := db.attempts[a];
      if db.now < before.updatedAt {
        return Err(Constraint);
      }
      var needsProof := && before.state.ReadyToInvoke? && to.ReconciliationRequired?
                        && (before.claimExpiresAt <= db.now
                            || exists k :: 0 <= k < |Get(db.failures, before.intent)|
                                        && Get(db.failures, before.intent)[k].createdAt >= before.claimedAt);
      var succeeds := !before.state.Succeeded? && to.Succeeded? && before.intent in db.receipts;
      if !needsProof && !succeeds {
        return Err(Constraint);
      }
      db := db.(attempts := db.attempts[a := before.(state := to, updatedAt := db.now)]);
      return Ok(());
    }

    /** Afterwards the attempt has succeeded and its intent's one receipt is the caller's. */
    method RecordEffectSuccess(a: AttemptId, worker: string, fence: Fence, payload: ReceiptPayload)
      returns (result: Result<(), Error>)
      requires Valid()
      modifies this
      ensures Committed(old(db), db, Steps.RecordSuccess(cfg, old(db), a, worker, fence, payload), result)
      ensures Valid() && Evolves(old(db), db)
      ensures result.Ok? ==> a in db.attempts && db.attempts[a].state.Succeeded?
                             && db.attempts[a].intent in db.receipts
                             && db.receipts[db.attempts[a].intent].payload == payload
    {
      hide Inv, Evolves, RequestKeysOwned, GenerationsCounted, Steps.RecordSuccess, SuccessOk, ProofsOk;
      CommitKeeps(cfg, db, Steps.OpRecordSuccess(a, worker, fence, payload));
      ghost var before := db;
      result := WriteSuccess(a, worker, fence, payload);
      if result.Ok? {
        InvParts(before);
        SuccessShows(cfg, before, a, worker, fence, payload, db);
      }
    }

    method WriteSuccess(a: AttemptId, worker: string, fence: Fence, payload: ReceiptPayload)
      returns (result: Result<(), Error>)
      modifies this
      ensures Committed(old(db), db, Steps.RecordSuccess(cfg, old(db), a, worker, fence, payload), result)
    {
      hide Steps.CheckPayload, Steps.StoreSuccess;
      if a !in db.attempts {
        return Err(NotFound);
      }
      var attempt := db.attempts[a];
      if attempt.intent !in db.intents {
        return Err(CorruptData);
      }
      if attempt.reservation !in db.reservations {
        return Err(StateConflict);
      }
      var res := db.reservations[attempt.reservation];
      if !res.state.Consumed? || res.state.attempt != a || res.intent != attempt.intent {
        return Err(StateConflict);
      }
      if attempt.worker != worker || attempt.fence != fence {
        return Err(LeaseConflict);
      }
      if !attempt.state.Succeeded? && !attempt.state.ReadyToInvoke? {
        return Err(LeaseConflict);
      }
      var checked := AssertEffectReceiptPayload(attempt.intent, payload);
      if checked.Fail? {
        return Err(checked.error);
      }
      result := StoreSuccess(a, payload);
    }

    method StoreSuccess(a: AttemptId, payload: ReceiptPayload) returns (result: Result<(), Error>)
      requires a in db.attempts
      modifies this
      ensures Committed(old(db), db, Steps.StoreSuccess(old(db), a, payload), result)
    {
      hide Steps.InsertReceipt, Steps.SetAttemptState, Steps.OutcomeAuthority, Steps.ReceiptBinding;
      var before := db;
      var attempt := db.attempts[a];
      if attempt.intent !in db.receipts {
        result := InsertReceipt(attempt.intent, payload);
        if result.Err? {
          return;
        }
        InsertReceiptMeaning(before, attempt.intent, payload, db);
      }
      if db.receipts[attempt.intent].payload != payload {
        db := before;
        return Err(IdempotencyConflict);
      }
      if attempt.state.Succeeded? {
        return Ok(());
      }
      result := SetAttemptState(a, Succeeded);
      if result.Err? {
        db := before;
      }
    }

    /** The attempt now waits for a reconciliation, and the failure is the last of its intent. */
    method RecordEffectAmbiguous(a: AttemptId, worker: string, fence: Fence, payload: Fp)
      returns (result: Result<(), Error>)
      requires Valid()
      modifies this
      ensures Committed(old(db), db, Steps.RecordAmbiguous(old(db), a, worker, fence, payload), result)
      ensures Valid() && Evolves(old(db), db)
      ensures result.Ok? ==> a in db.attempts && db.attempts[a].state.ReconciliationRequired?
                             && Latest(Get(db.failures, db.attempts[a].intent)) == Some(Failure(payload, db.now))
    {
      hide Inv, Evolves, RequestKeysOwned, GenerationsCounted, Steps.RecordAmbiguous;
      CommitKeeps(cfg, db, Steps.OpRecordAmbiguous(a, worker, fence, payload));
      ghost var before := db;
      result := WriteFailure(a, worker, fence, payload);
      if result.Ok? {
        AmbiguousShows(before, a, worker, fence, payload, db);
      }
    }

    method WriteFailure(a: AttemptId, worker: string, fence: Fence, payload: Fp)
      returns (result: Result<(), Error>)
      modifies this
      ensures Committed(old(db), db, Steps.RecordAmbiguous(old(db), a, worker, fence, payload), result)
    {
      hide Steps.OutcomeAuthority, Steps.SetAttemptState;
      var before := db;
      if a !in db.attempts {
        return Err(NotFound);
      }
      var attempt := db.attempts[a];
      if attempt.worker != worker || attempt.fence != fence || !attempt.state.ReadyToInvoke? {
        return Err(LeaseConflict);
      }
      if !Steps.OutcomeAuthority(db, attempt.intent, false) || |Get(db.failures, attempt.intent)| >= 100 {
        return Err(Constraint);
      }
      db := db.(failures := db.failures[attempt.intent :=
                                          Get(db.failures, attempt.intent) + [Failure(payload, db.now)]]);
      result := SetAttemptState(a, ReconciliationRequired);
      if result.Err? {
        db := before;
      }
    }

    method ApplyProof(a: AttemptId, receipt: Option<ReceiptPayload>) returns (result: Result<(), Error>)
      requires a in db.attempts && db.attempts[a].intent in db.intents
      modifies this
      ensures Committed(old(db), db, Steps.ApplyProof(cfg, old(db), a, receipt), result)
    {
      hide Steps.CheckPayload, Steps.OutcomeAuthority, Steps.ReceiptBinding, Steps.SetAttemptState;
      var before := db;
      if receipt.None? {
        return Err(StateConflict);
      }
      var i := db.attempts[a].intent;
      var checked := AssertEffectReceiptPayload(i, receipt.value);
      if checked.Fail? {
        return Err(checked.error);
      }
      result := InsertReceipt(i, receipt.value);
      if result.Ok? {
        result := SetAttemptState(a, Succeeded);
      }
      if result.Err? {
        db := before;
      }
    }

    /** A reconciliation ends the pin: its reservation is unresolved no longer. */
    method ReconcileEffectAttempt(r: RunId, g: Guard, a: AttemptId, worker: string, fence: Fence,
                                  outcome: ProofOutcome, proof: Fp, receipt: Option<ReceiptPayload>)
      returns (result: Result<(), Error>)
      requires Valid()
      modifies this
      ensures Committed(old(db), db,
                        Steps.Reconcile(cfg, old(db), r, g, a, worker, fence, outcome, proof, receipt), result)
      ensures Valid() && Evolves(old(db), db)
      ensures result.Ok? ==> a in db.reconciliations && db.reconciliations[a] == Reconciliation(outcome, proof)
                             && a in db.attempts && db.attempts[a].reservation in db.reservations
                             && (outcome.Applied? <==> db.attempts[a].state.Succeeded?)
                             && !Unresolved(db.receipts, db.reconciliations,
                                            db.reservations[db.attempts[a].reservation])
    {
      hide Inv, Evolves, RequestKeysOwned, GenerationsCounted, Steps.Reconcile, Unresolved, SuccessOk, ProofsOk,
        LinksOk, KeysUnique, ReservationsOk, ReceiptsPaidFor;
      CommitKeeps(cfg, db, Steps.OpReconcile(r, g, a, worker, fence, outcome, proof, receipt));
      ghost var before := db;
      result := WriteProof(r, g, a, worker, fence, outcome, proof, receipt);
      if result.Ok? {
        InvParts(before);
        ReservationTables(before);
        ReconcileShows(cfg, before, r, g, a, worker, fence, outcome, proof, receipt, db);
      }
    }

    method WriteProof(r: RunId, g: Guard, a: AttemptId, worker: string, fence: Fence, outcome: ProofOutcome, proof: Fp,
                      receipt: Option<ReceiptPayload>)
      returns (result: Result<(), Error>)
      requires Valid()
      modifies this
      ensures Committed(old(db), db,
                        Steps.Reconcile(cfg, old(db), r, g, a, worker, fence, outcome, proof, receipt), result)
    {
      hide Inv, RequestKeysOwned, GenerationsCounted, Replay, Steps.LockRun, Steps.ReconcileAuthority,
        Steps.ApplyProof, LatestAttempt;
      var before := db;
      if a !in db.attempts || !db.attempts[a].state.ReconciliationRequired? {
        return Err(StateConflict);
      }
      var attempt := db.attempts[a];
      if attempt.intent !in db.intents || db.intents[attempt.intent].run != r {
        return Err(StateConflict);
      }
      var _ :- LockRunForLease(r, g);
      if attempt.worker != worker || attempt.fence != fence || !LatestAttempt(db, a, attempt.intent) {
        return Err(LeaseConflict);
      }
      if !Steps.ReconcileAuthority(db, a) {
        return Err(Constraint);
      }
      if a !in db.reconciliations {
        db := db.(reconciliations := db.reconciliations[a := Reconciliation(outcome, proof)]);
      }
      result := Ok(());
      if db.reconciliations[a] != Reconciliation(outcome, proof) {
        result := Err(IdempotencyConflict);
      } else if outcome.Applied? {
        result := ApplyProof(a, receipt);
      }
      if result.Err? {
        db := before;
      }
    }

    // ---------------------------------------------------------------- any call at all

    method PerformOnRun(op: Steps.Op) returns (result: Result<(), Error>)
      requires Valid() && RewritesRun(op)
      modifies this
      ensures Valid() && Evolves(old(db), db) && Committed(old(db), db, Steps.Do(cfg, old(db), op), result)
    {
      hide Inv, Evolves, RequestKeysOwned, GenerationsCounted, Steps.ClaimDue, Steps.RenewLease, Steps.ReleaseLease,
        Steps.Transition, Steps.ScheduleRetry, Steps.AppendRecord, Steps.AppendCandidate, Steps.IssueValidation,
        Steps.LockRun;
      match op
      case OpClaimDue(r, worker, millis, leaseId, expired, acquired) =>
        var claimed := ClaimRow(r, worker, millis, leaseId, expired, acquired); result := claimed.Then();
      case OpRenewLease(r, g, millis, eventId) =>
        var row := RenewLease(r, g, millis, eventId); result := row.Then();
      case OpReleaseLease(r, g, eventId) => var row := ReleaseLease(r, g, eventId); result := row.Then();
      case OpTransition(e, version) => var row := Transition(e, version); result := row.Then();
      case OpScheduleRetry(e, releasedId) => var row := ScheduleRetry(e, releasedId); result := row.Then();
      case OpAppendRecord(r, g, record) =>
        var version := AppendRecord(r, g, record); result := version.Then();
      case OpAppendCandidate(r, g, candidate) =>
        var version := AppendMigrationCandidate(r, g, candidate); result := version.Then();
      case OpIssueValidation(req, issued) => result := IssueAndStoreValidationReceipt(req, issued);
    }

    method PerformOnEffect(op: Steps.Op) returns (result: Result<(), Error>)
      requires Valid() && !RewritesRun(op)
      modifies this
      ensures Valid() && Evolves(old(db), db) && Committed(old(db), db, Steps.Do(cfg, old(db), op), result)
    {
      hide Inv, Evolves, RequestKeysOwned, GenerationsCounted, Steps.CreateRun, Steps.RecordApproval,
        Steps.BeginEffect, Steps.Reserve, Steps.Consume, Steps.Cancel, Steps.RecordSuccess, Steps.RecordAmbiguous,
        Steps.Reconcile, Steps.LockRun;
      match op
      case OpTick(elapsed) => Elapse(elapsed); result := Ok(());
      case OpCreateRun(r, key, fp, mode, at) => var run := CreateRun(r, key, fp, mode, at); result := run.Then();
      case OpRecordApproval(r, g, kind, target, fp, approver, at, expiresAt, id) =>
        var approval := RecordEffectApproval(r, g, kind, target, fp, approver, at, expiresAt, id);
        result := approval.Then();
      case OpBeginEffect(r, g, kind, target, key, fp, id) =>
        var intent := BeginEffect(r, g, kind, target, key, fp, id); result := intent.Then();
      case OpReserve(r, kind, target, fp, key, i, v, id, token) =>
        var reservation := ReserveCurrentEffect(r, kind, target, fp, key, i, v, id, token);
        result := reservation.Then();
      case OpConsume(c, a, fence) => var attempt := ConsumeCurrentEffect(c, a, fence); result := attempt.Then();
      case OpCancel(c) => result := CancelCurrentEffectBeforeSend(c);
      case OpRecordSuccess(a, worker, fence, p) => result := RecordEffectSuccess(a, worker, fence, p);
      case OpRecordAmbiguous(a, worker, fence, failure) => result := RecordEffectAmbiguous(a, worker, fence, failure);
      case OpReconcile(r, g, a, worker, fence, outcome, proof, receipt) =>
        result := ReconcileEffectAttempt(r, g, a, worker, fence, outcome, proof, receipt);
    }

    /** Any call on a store that has only ever been used through its methods keeps the tables sound. */
    method Perform(op: Steps.Op) returns (result: Result<(), Error>)
      requires Valid()
      modifies this
      ensures Valid() && db == Steps.After(cfg, old(db), op) && Evolves(old(db), db)
      ensures result.Ok? <==> Steps.Do(cfg, old(db), op).Ok?
    {
      hide Inv, Evolves, RequestKeysOwned, GenerationsCounted, Steps.Do;
      if RewritesRun(op) {
        result := PerformOnRun(op);
      } else {
        result := PerformOnEffect(op);
      }
    }
  }

  // ------------------------------------------------------------- what the parts give

  lemma PayloadErrors(cfg: Config, s: State, i: IntentId, p: ReceiptPayload)
    requires i in s.intents
    ensures var checked := Steps.CheckPayload(cfg, s, i, p);
            checked.Fail? ==> checked.error == CorruptData || checked.error == StateConflict
  {
  }

  lemma DueRuns(s: State, r: RunId)
    requires Steps.Due(s, r)
    ensures r in s.runs
  {
  }

  lemma LockedRun(s: State, r: RunId, g: Guard)
    requires Steps.LockRun(s, r, g).Ok?
    ensures r in s.runs && Steps.LockRun(s, r, g).value == s.runs[r] && s.runs[r].lease.Some?
  {
  }

  lemma OnlyOwner(s: State, k: RunId)
    requires RequestKeysOwned(s.runs) && k in s.runs
    ensures forall j :: j in s.runs && s.runs[j].requestKey == s.runs[k].requestKey ==> j == k
  {
  }

  lemma OnlyIntent(s: State, i: IntentId, kind: Kind, target: string, key: string)
    requires Inv(s) && i in s.intents && Steps.SameKey(s.intents[i], kind, target, key)
    ensures forall j :: j in s.intents && Steps.SameKey(s.intents[j], kind, target, key) ==> j == i
  {
    hide Inv;
    InvKeys(s);
  }

  lemma KeyOf(intent: Intent)
    ensures Steps.SameKey(intent, intent.kind, intent.target, intent.key)
  {
  }

  lemma BumpKeepsIntents(s: State, r: RunId)
    requires r in s.runs
    ensures Steps.Bump(s, r).intents == s.intents
  {
  }
}
