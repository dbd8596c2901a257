/**
 What each RunStore method does to the tables, as one atomic step that either
 commits a new state or rolls back with an error (packages/db/src/store.ts and the
 procedures, constraints and triggers of packages/db/src/migrations.ts).
 */
module StoreSteps {
  import opened Common
  import opened RunLog
  import opened StoreModel

  type Step = Result<State, Error>

  // ------------------------------------------------------------- shared parts

  /** lockRunForLease */
  function LockRun(s: State, r: RunId, g: Guard): Result<RunRow, Error> {
    if r !in s.runs then Err(NotFound)
    else
      :- Need(Holds(s.runs[r], g, s.now), LeaseConflict);
      Ok(s.runs[r])
  }

  /** appendEvent, after authorizeRunEvent has accepted the event at the database time. */
  function AppendEvent(s: State, e: Event): Step {
    if !Authorized(Log(s, e.run), e, s.now) then Err(Unauthorized)
    else
      :- Need(e.id !in s.eventIds, Constraint);
      Ok(s.(logs := s.logs[e.run := Log(s, e.run) + [e]], eventIds := s.eventIds + {e.id}))
  }

  /** Status, lease identity and generation: the columns the invocation trigger protects. */
  predicate SameAuthority(a: RunRow, b: RunRow) {
    a.status == b.status && LeaseIdentity(a) == LeaseIdentity(b) && a.generation == b.generation
  }

  /** UPDATE runs, through enforce_active_effect_invocation. */
  function UpdateRow(s: State, r: RunId, row: RunRow): Step
    requires r in s.runs
  {
    var before := s.runs[r];
    :- Need(SameAuthority(before, row) || !ActiveInvocation(s, r), Constraint);
    Ok(s.(runs := s.runs[r := row]))
  }

  function Bump(s: State, r: RunId): State
    requires r in s.runs
  {
    s.(runs := s.runs[r := s.runs[r].(version := s.runs[r].version + 1)])
  }

  /** verifyValidation: same run, signed prefix recoverable, candidate present, signature good. */
  function VerifyValidation(cfg: Config, s: State, r: RunId, v: Validation): Check<Error> {
    if v.run != r then Fail(StateConflict)
    else if LatestCandidate(s, r).None? then Fail(StateConflict)
    else if !(|v.stream| > 0 && v.stream <= Log(s, r)) then Fail(CorruptData)
    else Need(cfg.validationOk(v, LatestCandidate(s, r).value), StateConflict)
  }

  /** assertAcceptedValidation */
  function AcceptedValidation(cfg: Config, s: State, r: RunId, originalLease: bool): Result<Validation, Error> {
    if r !in s.runs then Err(NotFound)
    else
      :- Need(LatestValidation(s, r).Some?, StateConflict);
      var v := LatestValidation(s, r).value;
      :- VerifyValidation(cfg, s, r, v);
      var row := s.runs[r];
      :- Need(LeaseActive(row, s.now), LeaseConflict);
      :- Need(originalLease ==> LeaseIdentity(row) == Some((v.leaseId, v.worker)) && row.generation == v.generation,
              LeaseConflict);
      Ok(v)
  }

  function ExpectedPayload(i: IntentId, intent: Intent, body: Fp): ReceiptPayload {
    ReceiptPayload(i, intent.run, intent.kind, intent.target, intent.inputFp,
                   intent.validation, intent.validation.candidate, intent.validation.artifactSet, body)
  }

  /** assertEffectReceiptPayload */
  function CheckPayload(cfg: Config, s: State, i: IntentId, payload: ReceiptPayload): Check<Error>
    requires i in s.intents
  {
    var intent := s.intents[i];
    if intent.validation !in Validations(s, intent.run) then Fail(CorruptData)
    else
      var verified := VerifyValidation(cfg, s, intent.run, intent.validation);
      if verified.Fail? then verified
      else
        Need(&& payload == ExpectedPayload(i, intent, payload.body)
             && intent.candidate == intent.validation.candidate
             && intent.artifactSet == intent.validation.artifactSet, StateConflict)
  }

  /** assertBoundEffectReceipt: the one joined row must still verify. */
  function BoundEffect(cfg: Config, s: State, r: RunId, kind: Kind): Check<Error> {
    var rows := BoundReceipts(s, r, kind);
    if |rows| != 1 then Fail(StateConflict)
    else if exists i :: i in rows && CheckPayload(cfg, s, i, s.receipts[i].payload) == Fail(CorruptData) then
      Fail(CorruptData)
    else Need(forall i :: i in rows ==> CheckPayload(cfg, s, i, s.receipts[i].payload).Pass?, StateConflict)
  }

  /** assertCompletionPrerequisites, once both receipts are known to be bound. */
  predicate SharedBinding(s: State, r: RunId) {
    forall i, j :: i in BoundReceipts(s, r, GithubReview) && j in BoundReceipts(s, r, DatahubWriteback) ==>
      && s.receipts[i].payload.validation == s.receipts[j].payload.validation
      && s.receipts[i].payload.candidate == s.receipts[j].payload.candidate
      && s.receipts[i].payload.artifactSet == s.receipts[j].payload.artifactSet
  }

  /** enforce_run_effect_completion */
  predicate CompletionTrigger(s: State, r: RunId, to: Status)
    requires r in s.runs
  {
    to == ReviewArtifactCreated || to == Completed ==>
      && s.runs[r].mode == Live
      && |LatestBoundReceipts(s, r, GithubReview)| == 1
      && (to == Completed ==>
            && |LatestBoundReceipts(s, r, DatahubWriteback)| == 1
            && (forall i, j | i in LatestBoundReceipts(s, r, GithubReview)
                              && j in LatestBoundReceipts(s, r, DatahubWriteback) ::
                  && s.receipts[i].validation == s.receipts[j].validation
                  && s.receipts[i].candidate == s.receipts[j].candidate
                  && s.receipts[i].artifactSet == s.receipts[j].artifactSet))
  }

  // ------------------------------------------------------------ runs and leases

  /** createRun: a known request key returns the stored run or conflicts. */
  function CreateRun(s: State, r: RunId, requestKey: string, inputFp: Fp, mode: Mode, nextAttemptAt: Time): Step {
    if exists k :: k in s.runs && s.runs[k].requestKey == requestKey then
      :- Need(forall k :: k in s.runs && s.runs[k].requestKey == requestKey ==>
                s.runs[k].inputFp == inputFp && s.runs[k].mode == mode, IdempotencyConflict);
      Ok(s)
    else
      :- Need(1 <= |requestKey| <= 512 && r !in s.runs, Constraint);
      Ok(s.(runs := s.runs[r := RunRow(requestKey, inputFp, mode, s.now, Created, 0, nextAttemptAt, None, 0)]))
  }

  predicate Due(s: State, r: RunId) {
    && r in s.runs
    && s.runs[r].nextAttemptAt <= s.now
    && !Terminal(s.runs[r].status)
    && !LeaseActive(s.runs[r], s.now)
  }

  /** ORDER BY next_attempt_at, created_at, id */
  predicate Sooner(s: State, q: RunId, r: RunId)
    requires q in s.runs && r in s.runs
  {
    var a, b := s.runs[q], s.runs[r];
    || a.nextAttemptAt < b.nextAttemptAt
    || (a.nextAttemptAt == b.nextAttemptAt && (a.createdAt < b.createdAt || (a.createdAt == b.createdAt && q < r)))
  }

  /** The due row that comes first among those no other transaction holds. */
  ghost predicate FirstDue(s: State, locked: set<RunId>, r: RunId) {
    && Due(s, r) && r !in locked
    && forall q :: q in s.runs && Due(s, q) && q !in locked ==> !Sooner(s, q, r)
  }

  /** The row that a claim writes. */
  function Claimed(row: RunRow, leaseId: LeaseId, worker: string, expiresAt: Time): RunRow {
    row.(lease := Some(Lease(leaseId, worker, expiresAt)), generation := row.generation + 1,
         version := row.version + 1)
  }

  /** A lapsed lease is closed by an expiry event before anything else. */
  function ExpireLapsed(s: State, r: RunId, expiredId: EventId): Step
    requires r in s.runs
  {
    var row := s.runs[r];
    if row.lease.None? then Ok(s)
    else
      AppendEvent(s, Event(expiredId, r, |Log(s, r)|, s.now, row.lease.value.id, row.lease.value.worker,
                           row.generation, Expired(s.now)))
  }

  function Acquire(s: State, r: RunId, worker: string, expiresAt: Time, leaseId: LeaseId, acquiredId: EventId): Step
    requires r in s.runs
  {
    var row := s.runs[r];
    var acquired := Event(acquiredId, r, |Log(s, r)|, s.now, leaseId, worker, row.generation + 1, Acquired(expiresAt));
    :- Need(Authorized(Log(s, r), acquired, s.now), Unauthorized);
    :- Need(leaseId !in s.leases, Constraint);
    var s1 := s.(leases := s.leases[leaseId := LeaseRow(r, worker, row.generation + 1, s.now, expiresAt)]);
    var s2 :- UpdateRow(s1, r, Claimed(row, leaseId, worker, expiresAt));
    AppendEvent(s2, acquired)
  }

  /** claimDue on the row that FOR UPDATE SKIP LOCKED handed out. */
  function ClaimDue(s: State, r: RunId, worker: string, millis: int,
                    leaseId: LeaseId, expiredId: EventId, acquiredId: EventId): Step
  {
    if !(1 <= |worker| <= 160 && millis > 0) then Err(TypeError)
    else
      :- Need(Due(s, r), NotFound);
      var s1 :- ExpireLapsed(s, r, expiredId);
      Acquire(s1, r, worker, s.now + millis, leaseId, acquiredId)
  }

  function RenewLease(s: State, r: RunId, g: Guard, millis: int, eventId: EventId): Step {
    if millis <= 0 then Err(TypeError)
    else
      var row :- LockRun(s, r, g);
      var lease := row.lease.value;
      var expiresAt := (if s.now > lease.expiresAt then s.now else lease.expiresAt) + millis;
      var e := Event(eventId, r, |Log(s, r)|, s.now, g.leaseId, g.worker, g.generation,
                     Renewed(lease.expiresAt, expiresAt));
      AppendEvent(s.(runs := s.runs[r := row.(lease := Some(lease.(expiresAt := expiresAt)),
                                              version := row.version + 1)]), e)
  }

  function ReleaseLease(s: State, r: RunId, g: Guard, eventId: EventId): Step {
    var row :- LockRun(s, r, g);
    var e := Event(eventId, r, |Log(s, r)|, s.now, g.leaseId, g.worker, g.generation, Released);
    :- Need(Authorized(Log(s, r), e, s.now), Unauthorized);
    var s1 :- UpdateRow(s, r, row.(lease := None, version := row.version + 1));
    AppendEvent(s1, e)
  }

  function EventGuard(e: Event, version: nat): Guard {
    Guard(e.leaseId, e.worker, e.generation, version)
  }

  /** The row that a status change writes. */
  function Moved(row: RunRow, to: Status): RunRow {
    row.(status := to, version := row.version + 1, lease := if Terminal(to) then None else row.lease)
  }

  /** What transition asks of the evidence behind the status it moves to. */
  function Prerequisites(cfg: Config, s: State, r: RunId, to: Status): Check<Error>
    requires r in s.runs
  {
    if to == Validated && AcceptedValidation(cfg, s, r, true).Err? then
      Fail(AcceptedValidation(cfg, s, r, true).error)
    else if to == Completed && AcceptedValidation(cfg, s, r, false).Err? then
      Fail(AcceptedValidation(cfg, s, r, false).error)
    else if (to == ReviewArtifactCreated || to == Completed) && BoundEffect(cfg, s, r, GithubReview).Fail? then
      BoundEffect(cfg, s, r, GithubReview)
    else if to == Completed && BoundEffect(cfg, s, r, DatahubWriteback).Fail? then
      BoundEffect(cfg, s, r, DatahubWriteback)
    else if to == Completed && !SharedBinding(s, r) then
      Fail(StateConflict)
    else if (to == Validated || to == Completed) && LatestValidation(s, r).None? then
      Fail(Constraint)
    else
      Need(CompletionTrigger(s, r, to), Constraint)
  }

  /** transition, with transition_run(…, p_expected_version) inside it. */
  function Transition(cfg: Config, s: State, e: Event, expectedVersion: nat): Step {
    var r := e.run;
    :- Need(Authorized(Log(s, r), e, s.now), Unauthorized);
    :- Need(e.body.StatusChanged?, StateConflict);
    var row :- LockRun(s, r, EventGuard(e, expectedVersion));
    :- Need(row.status == e.body.from, StateConflict);
    :- Prerequisites(cfg, s, r, e.body.to);
    :- Need(SqlEdge(row.status, e.body.to), Constraint);
    var s1 :- UpdateRow(s, r, Moved(row, e.body.to));
    AppendEvent(s1, e)
  }

  /** The row that a scheduled retry writes. */
  function Retried(row: RunRow, retryAt: Time): RunRow {
    row.(nextAttemptAt := retryAt, lease := None, version := row.version + 1)
  }

  /** scheduleRetry: its guard takes the version it has just read, then the lease is given back. */
  function ScheduleRetry(s: State, e: Event, releasedId: EventId): Step {
    var r := e.run;
    :- Need(Authorized(Log(s, r), e, s.now), Unauthorized);
    :- Need(e.body.RetryScheduled?, StateConflict);
    :- Need(r in s.runs, NotFound);
    var row :- LockRun(s, r, EventGuard(e, s.runs[r].version));
    var key := RetryKey(r, e.body.operation, e.body.attempt);
    :- Need(key !in s.retries && RetryAllowed(e.body.operation, row.status), Constraint);
    var s1 :- AppendEvent(s.(retries := s.retries[key := RetryRow(e.body.retryAt, e.at)]), e);
    var released := Event(releasedId, r, e.sequence + 1, e.at, e.leaseId, e.worker, e.generation, Released);
    var s2 :- AppendEvent(s1, released);
    UpdateRow(s2, r, Retried(row, e.body.retryAt))
  }

  // ----------------------------------------------------------------- appends

  predicate Decides(records: seq<Record>, scope: Scope) {
    exists k :: 0 <= k < |records| && records[k].Decision? && records[k].scope == scope
  }

  /** appendPositioned for bundles, appendImpactCollectionResult and saveDecision. */
  function AppendRecord(s: State, r: RunId, g: Guard, record: Record): Step {
    var row :- LockRun(s, r, g);
    :- Need(record.CollectionResult? ==> record.mode == row.mode, StateConflict);
    :- Need(record.Decision? ==> !Decides(Get(s.records, r), record.scope), Constraint);
    Ok(Bump(s.(records := s.records[r := Get(s.records, r) + [record]]), r))
  }

  function AppendCandidate(s: State, r: RunId, g: Guard, candidate: Fp): Step {
    var _ :- LockRun(s, r, g);
    :- Need(|Get(s.candidates, r)| < 20, Constraint);
    Ok(Bump(s.(candidates := s.candidates[r := Get(s.candidates, r) + [candidate]]), r))
  }

  /** What the caller of the signer claims to have executed against. */
  datatype IssueRequest = IssueRequest(
    run: RunId, stream: seq<Event>, candidate: Fp, leaseId: LeaseId, worker: string, generation: nat)

  /** issueAndStoreValidationReceipt; `issued` is what the issuer callback returned. */
  function IssueValidation(cfg: Config, s: State, req: IssueRequest, issued: Validation): Step {
    var r := req.run;
    :- Need(r in s.runs, NotFound);
    var row := s.runs[r];
    :- Need(row.mode == Live && row.status == Validating && LeaseActive(row, s.now), LeaseConflict);
    :- Need(LatestCandidate(s, r).Some?, StateConflict);
    var candidate := LatestCandidate(s, r).value;
    :- Need(&& req.stream == Log(s, r) && req.candidate == candidate
            && LeaseIdentity(row) == Some((req.leaseId, req.worker))
            && row.generation == req.generation, LeaseConflict);
    :- VerifyValidation(cfg, s, r, issued);
    :- Need(issued.stream == Log(s, r) && issued.candidate == candidate, StateConflict);
    :- Need(issued !in Validations(s, r) && |Validations(s, r)| < 20, Constraint);
    Ok(Bump(s.(validations := s.validations[r := Validations(s, r) + [issued]]), r))
  }

  // --------------------------------------------------------- approval and intent

  const MAX_APPROVAL_MILLIS := 3_600_000

  /** recordEffectApproval, through enforce_effect_approval_binding. */
  ghost function RecordApproval(cfg: Config, s: State, r: RunId, g: Guard, kind: Kind, target: string, inputFp: Fp,
                                approvedBy: string, approvedAt: Time, expiresAt: Time, id: ApprovalId): Step
  {
    if !(1 <= |target| <= 500 && 1 <= |approvedBy| <= 240) then Err(TypeError)
    else
      var row :- LockRun(s, r, g);
      :- Need(row.status == EffectState(kind) && row.mode == Live, StateConflict);
      :- Need(&& approvedAt <= s.now < expiresAt && expiresAt - s.now <= MAX_APPROVAL_MILLIS
              && expiresAt > approvedAt, StateConflict);
      var v :- AcceptedValidation(cfg, s, r, false);
      :- Need(approvedAt >= v.completedAt, StateConflict);
      var payload := ApprovalPayload(r, kind, target, inputFp, v, approvedBy, approvedAt, expiresAt);
      :- Need(cfg.approvalOk(payload), StateConflict);
      if exists a :: a in s.approvals && s.approvals[a].payload == payload then
        var current :- RequireApproval(cfg, s, r, kind, target, inputFp);
        :- Need(s.approvals[current].payload == payload, IdempotencyConflict);
        Ok(s)
      else
        :- Need(id !in s.approvals, Constraint);
        var s1 := s.(approvals := s.approvals[id := Approval(payload, s.now)]);
        var current :- RequireApproval(cfg, s1, r, kind, target, inputFp);
        :- Need(current == id, IdempotencyConflict);
        Ok(s1)
  }

  /** requireCurrentApproval: the row its query returns, if that row verifies. */
  ghost function RequireApproval(cfg: Config, s: State, r: RunId, kind: Kind, target: string, inputFp: Fp)
    : (result: Result<ApprovalId, Error>)
    ensures result.Ok? ==> CurrentApproval(s, result.value, r, kind, target, inputFp)
  {
    if exists a :: CurrentApproval(s, a, r, kind, target, inputFp) then
      var a :| CurrentApproval(s, a, r, kind, target, inputFp);
      :- Need(cfg.approvalOk(s.approvals[a].payload), CorruptData);
      Ok(a)
    else Err(StateConflict)
  }

  /** beginEffect: one intent for each (kind, target, key), reused only for identical input. */
  ghost function BeginEffect(cfg: Config, s: State, r: RunId, g: Guard, kind: Kind, target: string, key: string,
                             inputFp: Fp, id: IntentId): Step
  {
    if !(1 <= |target| <= 500) then Err(TypeError)
    else
      var row :- LockRun(s, r, g);
      :- Need(row.status == EffectState(kind) && row.mode == Live, StateConflict);
      var v :- AcceptedValidation(cfg, s, r, true);
      var _ :- if cfg.production then RequireApproval(cfg, s, r, kind, target, inputFp).Then() else Ok(());
      var intent := Intent(r, kind, target, key, inputFp, v, v.candidate, v.artifactSet);
      if exists i :: i in s.intents && SameKey(s.intents[i], kind, target, key) then
        :- Need(forall i :: i in s.intents && SameKey(s.intents[i], kind, target, key) ==> s.intents[i] == intent,
                IdempotencyConflict);
        Ok(s)
      else
        :- Need(id !in s.intents && 1 <= |key| <= 512, Constraint);
        Ok(Bump(s.(intents := s.intents[id := intent]), r))
  }

  predicate SameKey(i: Intent, kind: Kind, target: string, key: string) {
    i.kind == kind && i.target == target && i.key == key
  }

  // ----------------------------------------------------------- reserve and consume

  function Min(a: Time, b: Time): Time {
    if a < b then a else b
  }

  const INVOKE_MILLIS := 30_000

  /** reserveCurrentEffect with effect_reserve_current. */
  ghost function Reserve(cfg: Config, s: State, r: RunId, kind: Kind, target: string, inputFp: Fp, key: string,
                         i: IntentId, validation: Validation, id: ReservationId, token: Token): Step
  {
    if !(1 <= |target| <= 500) then Err(TypeError)
    else
      :- Need(r in s.runs, NotFound);
      var row := s.runs[r];
      :- Need(row.status == EffectState(kind) && LeaseActive(row, s.now), LeaseConflict);
      :- Need(LatestValidation(s, r) == Some(validation), StateConflict);
      :- Need(i in s.intents && s.intents[i].run == r && SameKey(s.intents[i], kind, target, key)
              && s.intents[i].inputFp == inputFp && s.intents[i].validation == validation, StateConflict);
      :- Need(|validation.stream| > 0 && validation.stream <= Log(s, r), CorruptData);
      var a :- RequireApproval(cfg, s, r, kind, target, inputFp);
      var approval := s.approvals[a].payload;
      var lease := row.lease.value;
      var invokeBy := Min(s.now + INVOKE_MILLIS, Min(lease.expiresAt, approval.expiresAt));
      :- Need(invokeBy > s.now, LeaseConflict);
      :- Need(row.mode == Live && approval.validation == validation, Constraint);
      :- Need(&& id !in s.reservations
              && (forall k :: k in s.reservations ==> s.reservations[k].token != token)
              && (forall k :: k in s.reservations && s.reservations[k].intent == i ==>
                    s.reservations[k].state.CancelledPreSend?)
              && row.generation > 0, Constraint);
      Ok(s.(reservations := s.reservations[id :=
        Reservation(r, i, key, kind, target, inputFp, s.intents[i], validation, a, approval, Log(s, r),
                    row.version, row.status, lease.id, lease.worker, row.generation, token, invokeBy, Reserved)]))
  }

  /** The claim a worker presents to verify, consume or cancel a reservation. */
  datatype Claim = Claim(
    id: ReservationId, token: Token, run: RunId, intent: IntentId, key: string, kind: Kind, target: string,
    effectFp: Fp, validation: Validation, approval: ApprovalId, approvalFp: ApprovalPayload, intentFp: Intent)

  predicate ClaimMatches(s: State, c: Claim) {
    && c.id in s.reservations
    && var res := s.reservations[c.id];
    && res.token == c.token && res.run == c.run && res.intent == c.intent && res.key == c.key
    && res.kind == c.kind && res.target == c.target && res.inputFp == c.effectFp
    && res.validation == c.validation && res.approval == c.approval && res.approvalFp == c.approvalFp
    && res.intentFp == c.intentFp
  }

  predicate IntentUnchanged(s: State, c: Claim) {
    c.intent in s.intents && s.intents[c.intent] == c.intentFp
  }

  /** Everything effect_verify_current and effect_consume_current recheck against the live rows. */
  predicate StillCurrent(s: State, res: Reservation) {
    && res.run in s.runs
    && var row := s.runs[res.run];
    && row.mode == Live && row.version == res.runVersion && row.status == res.runStatus
    && LeaseIdentity(row) == Some((res.leaseId, res.worker)) && row.generation == res.generation
    && LeaseActive(row, s.now) && res.invokeBy > s.now
    && Log(s, res.run) == res.eventPrefix
    && LatestValidation(s, res.run) == Some(res.validation)
    && res.approval in s.approvals && s.approvals[res.approval].payload == res.approvalFp
    && res.approvalFp.validation == res.validation && res.approvalFp.expiresAt > s.now
  }

  /** effect_verify_current: reads only, and a consumed reservation stays verifiable. */
  predicate Verifies(s: State, c: Claim) {
    && ClaimMatches(s, c) && IntentUnchanged(s, c)
    && (s.reservations[c.id].state.Reserved? ==> StillCurrent(s, s.reservations[c.id]))
  }

  /** effect_consume_current: spend the reservation and open its attempt together. */
  ghost function Consume(s: State, c: Claim, attempt: AttemptId, fence: Fence): Step {
    if !(ClaimMatches(s, c) && IntentUnchanged(s, c) && s.reservations[c.id].state.Reserved?
         && StillCurrent(s, s.reservations[c.id])) then Err(Constraint)
    else
      var res := s.reservations[c.id];
      var number := NextNumber(s, c.intent);
      :- Need(number <= 3, Constraint);
      :- Need(&& attempt !in s.attempts
              && forall a :: a in s.attempts ==> s.attempts[a].fence != fence, Constraint);
      Ok(s.(reservations := s.reservations[c.id := res.(state := Consumed(attempt, fence, s.now))],
            attempts := s.attempts[attempt := Attempt(c.intent, number, res.worker, fence, ReadyToInvoke,
                                                      s.now, res.invokeBy, s.now, c.id)]))
  }

  ghost function NextNumber(s: State, i: IntentId): (n: nat)
    ensures NextAttemptNumber(s, i, n)
  {
    var own := set a | a in s.attempts && s.attempts[a].intent == i;
    NumbersBounded(s, own);
    var n: nat :| BoundsNumbers(s, own, n); n
  }

  ghost predicate BoundsNumbers(s: State, own: set<AttemptId>, n: nat)
    requires own <= s.attempts.Keys
  {
    && n >= 1
    && (forall a :: a in own ==> s.attempts[a].number < n)
    && (n > 1 ==> exists a :: a in own && s.attempts[a].number == n - 1)
  }

  lemma NumbersBounded(s: State, own: set<AttemptId>)
    requires own <= s.attempts.Keys
    ensures exists n: nat :: BoundsNumbers(s, own, n)
  {
    if own == {} {
      assert BoundsNumbers(s, own, 1);
    } else {
      var a :| a in own;
      NumbersBounded(s, own - {a});
      var n: nat :| BoundsNumbers(s, own - {a}, n);
      assert BoundsNumbers(s, own, if s.attempts[a].number < n then n else s.attempts[a].number + 1);
    }
  }

  /** effect_cancel_reservation_before_send */
  function Cancel(s: State, c: Claim): Step {
    if !(ClaimMatches(s, c) && s.reservations[c.id].state.Reserved?) then Err(Constraint)
    else Ok(s.(reservations := s.reservations[c.id := s.reservations[c.id].(state := CancelledPreSend)]))
  }

  // ------------------------------------------------------------------ outcomes

  /** enforce_effect_outcome_authority for the intent's latest attempt. */
  predicate OutcomeAuthority(s: State, i: IntentId, isReceipt: bool) {
    exists a :: a in s.attempts && LatestAttempt(s, a, i)
      && var attempt := s.attempts[a];
         && attempt.reservation in s.reservations
         && s.reservations[attempt.reservation].state.Consumed?
         && s.reservations[attempt.reservation].state.attempt == a
         && s.reservations[attempt.reservation].state.fence == attempt.fence
         && (attempt.state.ReadyToInvoke?
             || (isReceipt && attempt.state.ReconciliationRequired?
                 && a in s.reconciliations && s.reconciliations[a].outcome.Applied?))
  }

  /** enforce_effect_receipt_payload_binding */
  predicate ReceiptBinding(s: State, i: IntentId, p: ReceiptPayload) {
    && i in s.intents
    && var intent := s.intents[i];
    && p == ReceiptPayload(i, intent.run, intent.kind, intent.target, intent.inputFp,
                           intent.validation, intent.candidate, intent.artifactSet, p.body)
    && LatestValidation(s, intent.run) == Some(intent.validation)
    && intent.candidate == intent.validation.candidate
    && intent.artifactSet == intent.validation.artifactSet
  }

  /** effect_insert_receipt: ON CONFLICT (intent_id) DO NOTHING, but the triggers fire first. */
  function InsertReceipt(s: State, i: IntentId, p: ReceiptPayload): Step {
    if !(OutcomeAuthority(s, i, true) && ReceiptBinding(s, i, p)) then Err(Constraint)
    else if i in s.receipts then Ok(s)
    else Ok(s.(receipts := s.receipts[i := Receipt(p, p.validation, p.candidate, p.artifactSet)]))
  }

  /** effect_set_attempt_state under enforce_effect_attempt_transition. */
  function SetAttemptState(s: State, a: AttemptId, to: AttemptState): Step
    requires a in s.attempts
  {
    var before := s.attempts[a];
    :- Need(s.now >= before.updatedAt, Constraint);
    :- Need(|| (&& before.state.ReadyToInvoke? && to.ReconciliationRequired?
                && (before.claimExpiresAt <= s.now
                    || exists k :: 0 <= k < |Get(s.failures, before.intent)|
                                && Get(s.failures, before.intent)[k].createdAt >= before.claimedAt))
            || (!before.state.Succeeded? && to.Succeeded? && before.intent in s.receipts), Constraint);
    Ok(s.(attempts := s.attempts[a := before.(state := to, updatedAt := s.now)]))
  }

  function RecordSuccess(cfg: Config, s: State, a: AttemptId, worker: string, fence: Fence,
                         payload: ReceiptPayload): Step {
    if a !in s.attempts then Err(NotFound)
    else
      var attempt := s.attempts[a];
      :- Need(attempt.intent in s.intents, CorruptData);
      :- Need(attempt.reservation in s.reservations, StateConflict);
      var res := s.reservations[attempt.reservation];
      :- Need(res.state.Consumed? && res.state.attempt == a && res.intent == attempt.intent, StateConflict);
      :- Need(attempt.worker == worker && attempt.fence == fence, LeaseConflict);
      :- Need(attempt.state.Succeeded? || attempt.state.ReadyToInvoke?, LeaseConflict);
      :- CheckPayload(cfg, s, attempt.intent, payload);
      StoreSuccess(s, a, payload)
  }

  /** The writing half of a success: a repeated equal receipt is accepted. */
  function StoreSuccess(s: State, a: AttemptId, payload: ReceiptPayload): Step
    requires a in s.attempts
  {
    var attempt := s.attempts[a];
    var s1 :- if attempt.intent in s.receipts then Ok(s) else InsertReceipt(s, attempt.intent, payload);
    :- Need(s1.receipts[attempt.intent].payload == payload, IdempotencyConflict);
    if attempt.state.Succeeded? then Ok(s1) else SetAttemptState(s1, a, Succeeded)
  }

  function RecordAmbiguous(s: State, a: AttemptId, worker: string, fence: Fence, payload: Fp): Step {
    if a !in s.attempts then Err(NotFound)
    else
      var attempt := s.attempts[a];
      :- Need(attempt.worker == worker && attempt.fence == fence && attempt.state.ReadyToInvoke?, LeaseConflict);
      :- Need(OutcomeAuthority(s, attempt.intent, false) && |Get(s.failures, attempt.intent)| < 100, Constraint);
      SetAttemptState(s.(failures := s.failures[attempt.intent :=
                                                  Get(s.failures, attempt.intent) + [Failure(payload, s.now)]]),
                      a, ReconciliationRequired)
  }

  /** enforce_effect_reconciliation_authority */
  predicate ReconcileAuthority(s: State, a: AttemptId) {
    && a in s.attempts && s.attempts[a].state.ReconciliationRequired?
    && s.attempts[a].reservation in s.reservations
    && s.reservations[s.attempts[a].reservation].state.Consumed?
    && s.reservations[s.attempts[a].reservation].state.attempt == a
  }

  function Reconcile(cfg: Config, s: State, r: RunId, g: Guard, a: AttemptId, worker: string, fence: Fence,
                     outcome: ProofOutcome, proof: Fp, receipt: Option<ReceiptPayload>): Step
  {
    if !(a in s.attempts && s.attempts[a].state.ReconciliationRequired?) then Err(StateConflict)
    else
      var attempt := s.attempts[a];
      :- Need(attempt.intent in s.intents && s.intents[attempt.intent].run == r, StateConflict);
      var _ :- LockRun(s, r, g);
      :- Need(attempt.worker == worker && attempt.fence == fence, LeaseConflict);
      :- Need(LatestAttempt(s, a, attempt.intent), LeaseConflict);
      :- Need(ReconcileAuthority(s, a), Constraint);
      var s1 := if a in s.reconciliations then s
                else s.(reconciliations := s.reconciliations[a := Reconciliation(outcome, proof)]);
      :- Need(s1.reconciliations[a] == Reconciliation(outcome, proof), IdempotencyConflict);
      if outcome.NotApplied? then Ok(s1) else ApplyProof(cfg, s1, a, receipt)
  }

  /** The APPLIED half of a reconciliation: the receipt and the final attempt state. */
  function ApplyProof(cfg: Config, s: State, a: AttemptId, receipt: Option<ReceiptPayload>): Step
    requires a in s.attempts && s.attempts[a].intent in s.intents
  {
    if receipt.None? then Err(StateConflict)
    else
      var i := s.attempts[a].intent;
      :- CheckPayload(cfg, s, i, receipt.value);
      var s1 :- InsertReceipt(s, i, receipt.value);
      SetAttemptState(s1, a, Succeeded)
  }

  // ---------------------------------------------------------------- all methods

  datatype Op =
    | OpTick(elapsed: nat)
    | OpCreateRun(run: RunId, requestKey: string, inputFp: Fp, mode: Mode, nextAttemptAt: Time)
    | OpClaimDue(run: RunId, worker: string, millis: int, leaseId: LeaseId, expiredId: EventId, acquiredId: EventId)
    | OpRenewLease(run: RunId, guard: Guard, millis: int, eventId: EventId)
    | OpReleaseLease(run: RunId, guard: Guard, eventId: EventId)
    | OpTransition(event: Event, expectedVersion: nat)
    | OpScheduleRetry(event: Event, releasedId: EventId)
    | OpAppendRecord(run: RunId, guard: Guard, record: Record)
    | OpAppendCandidate(run: RunId, guard: Guard, candidate: Fp)
    | OpIssueValidation(request: IssueRequest, issued: Validation)
    | OpRecordApproval(run: RunId, guard: Guard, kind: Kind, target: string, inputFp: Fp,
                       approvedBy: string, approvedAt: Time, expiresAt: Time, approvalId: ApprovalId)
    | OpBeginEffect(run: RunId, guard: Guard, kind: Kind, target: string, key: string, inputFp: Fp, intentId: IntentId)
    | OpReserve(run: RunId, kind: Kind, target: string, inputFp: Fp, key: string, intentId: IntentId,
                validation: Validation, reservationId: ReservationId, token: Token)
    | OpConsume(claim: Claim, attemptId: AttemptId, fence: Fence)
    | OpCancel(claim: Claim)
    | OpRecordSuccess(attemptId: AttemptId, worker: string, fence: Fence, payload: ReceiptPayload)
    | OpRecordAmbiguous(attemptId: AttemptId, worker: string, fence: Fence, failure: Fp)
    | OpReconcile(run: RunId, guard: Guard, attemptId: AttemptId, worker: string, fence: Fence,
                  outcome: ProofOutcome, proof: Fp, receipt: Option<ReceiptPayload>)

  ghost function Do(cfg: Config, s: State, op: Op): Step {
    match op
    case OpTick(elapsed) => Ok(s.(now := s.now + elapsed))
    case OpCreateRun(r, key, inputFp, mode, at) => CreateRun(s, r, key, inputFp, mode, at)
    case OpClaimDue(r, worker, millis, leaseId, expired, acquired) =>
      ClaimDue(s, r, worker, millis, leaseId, expired, acquired)
    case OpRenewLease(r, g, millis, eventId) => RenewLease(s, r, g, millis, eventId)
    case OpReleaseLease(r, g, eventId) => ReleaseLease(s, r, g, eventId)
    case OpTransition(e, version) => Transition(cfg, s, e, version)
    case OpScheduleRetry(e, releasedId) => ScheduleRetry(s, e, releasedId)
    case OpAppendRecord(r, g, record) => AppendRecord(s, r, g, record)
    case OpAppendCandidate(r, g, candidate) => AppendCandidate(s, r, g, candidate)
    case OpIssueValidation(req, issued) => IssueValidation(cfg, s, req, issued)
    case OpRecordApproval(r, g, kind, target, fp, approver, at, expiresAt, id) =>
      RecordApproval(cfg, s, r, g, kind, target, fp, approver, at, expiresAt, id)
    case OpBeginEffect(r, g, kind, target, key, fp, id) => BeginEffect(cfg, s, r, g, kind, target, key, fp, id)
    case OpReserve(r, kind, target, fp, key, i, v, id, token) =>
      Reserve(cfg, s, r, kind, target, fp, key, i, v, id, token)
    case OpConsume(c, a, fence) => Consume(s, c, a, fence)
    case OpCancel(c) => Cancel(s, c)
    case OpRecordSuccess(a, worker, fence, payload) => RecordSuccess(cfg, s, a, worker, fence, payload)
    case OpRecordAmbiguous(a, worker, fence, failure) => RecordAmbiguous(s, a, worker, fence, failure)
    case OpReconcile(r, g, a, worker, fence, outcome, proof, receipt) =>
      Reconcile(cfg, s, r, g, a, worker, fence, outcome, proof, receipt)
  }

  /** A failed call rolls its transaction back. */
  ghost function After(cfg: Config, s: State, op: Op): State {
    match Do(cfg, s, op)
    case Ok(next) => next
    case Err(_) => s
  }

  /** Any interleaving of any workers' calls. */
  ghost function Run(cfg: Config, s: State, ops: seq<Op>): State
    decreases |ops|
  {
    if |ops| == 0 then s else After(cfg, Run(cfg, s, ops[..|ops| - 1]), ops[|ops| - 1])
  }
}
