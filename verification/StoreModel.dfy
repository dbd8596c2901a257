/**
 The tables of the run store as they stand after migration 0005, and the queries
 the procedures and triggers make on them. Rows keyed by run id are kept grouped by
 run and in position order. A SHA-256 fingerprint is modelled by the value it is
 taken of, which makes hashing injective.
 */
module StoreModel {
  import opened Common
  import opened RunLog

  type Fp = nat
  type IntentId = nat
  type ApprovalId = nat
  type ReservationId = nat
  type AttemptId = nat
  type Token = nat
  type Fence = nat

  datatype Mode = Live | VerifiedReplay
  datatype Kind = GithubReview | DatahubWriteback

  datatype Error =
    | NotFound | LeaseConflict | StateConflict | IdempotencyConflict | CorruptData
    | TypeError | Unauthorized | Constraint

  datatype Lease = Lease(id: LeaseId, worker: string, expiresAt: Time)

  datatype RunRow = RunRow(
    requestKey: string, inputFp: Fp, mode: Mode, createdAt: Time, status: Status, version: nat,
    nextAttemptAt: Time, lease: Option<Lease>, generation: nat)

  datatype LeaseRow = LeaseRow(run: RunId, worker: string, generation: nat, acquiredAt: Time, expiresAt: Time)

  datatype RetryKey = RetryKey(run: RunId, operation: RetryOp, attempt: nat)
  datatype RetryRow = RetryRow(retryAt: Time, createdAt: Time)

  /** A signed live receipt; `stream` is the event prefix its header fingerprints. */
  datatype Validation = Validation(
    run: RunId, candidate: Fp, artifactSet: Fp, stream: seq<Event>,
    leaseId: LeaseId, worker: string, generation: nat, completedAt: Time, nonce: nat)

  datatype ApprovalPayload = ApprovalPayload(
    run: RunId, kind: Kind, target: string, inputFp: Fp, validation: Validation,
    approvedBy: string, approvedAt: Time, expiresAt: Time)
  datatype Approval = Approval(payload: ApprovalPayload, createdAt: Time)

  datatype Intent = Intent(
    run: RunId, kind: Kind, target: string, key: string, inputFp: Fp,
    validation: Validation, candidate: Fp, artifactSet: Fp)

  datatype ReservationState =
    | Reserved
    | Consumed(attempt: AttemptId, fence: Fence, consumedAt: Time)
    | CancelledPreSend

  datatype Reservation = Reservation(
    run: RunId, intent: IntentId, key: string, kind: Kind, target: string, inputFp: Fp, intentFp: Intent,
    validation: Validation, approval: ApprovalId, approvalFp: ApprovalPayload, eventPrefix: seq<Event>,
    runVersion: nat, runStatus: Status, leaseId: LeaseId, worker: string, generation: nat,
    token: Token, invokeBy: Time, state: ReservationState)

  datatype AttemptState = ReadyToInvoke | ReconciliationRequired | Succeeded
  datatype Attempt = Attempt(
    intent: IntentId, number: nat, worker: string, fence: Fence, state: AttemptState,
    claimedAt: Time, claimExpiresAt: Time, updatedAt: Time, reservation: ReservationId)

  /** The binding fields of a receipt payload; `body` stands for the rest of it. */
  datatype ReceiptPayload = ReceiptPayload(
    intent: IntentId, run: RunId, kind: Kind, target: string, inputFp: Fp,
    validation: Validation, candidate: Fp, artifactSet: Fp, body: Fp)
  datatype Receipt = Receipt(payload: ReceiptPayload, validation: Validation, candidate: Fp, artifactSet: Fp)

  datatype Failure = Failure(payload: Fp, createdAt: Time)

  datatype ProofOutcome = Applied | NotApplied
  datatype Reconciliation = Reconciliation(outcome: ProofOutcome, proof: Fp)

  datatype Scope = Baseline | Grounded

  /** Bundles and decisions; what they say is opaque, a collection result names the mode it was made in. */
  datatype Record = EvidenceBundle(payload: Fp) | CollectionResult(mode: Mode, payload: Fp)
    | Decision(scope: Scope, payload: Fp)

  datatype State = State(
    now: Time,
    runs: map<RunId, RunRow>,
    logs: map<RunId, seq<Event>>,
    eventIds: set<EventId>,
    leases: map<LeaseId, LeaseRow>,
    retries: map<RetryKey, RetryRow>,
    records: map<RunId, seq<Record>>,
    candidates: map<RunId, seq<Fp>>,
    validations: map<RunId, seq<Validation>>,
    approvals: map<ApprovalId, Approval>,
    intents: map<IntentId, Intent>,
    reservations: map<ReservationId, Reservation>,
    attempts: map<AttemptId, Attempt>,
    receipts: map<IntentId, Receipt>,
    failures: map<IntentId, seq<Failure>>,
    reconciliations: map<AttemptId, Reconciliation>)

  const EMPTY := State(0, map[], map[], {}, map[], map[], map[], map[], map[], map[], map[], map[], map[],
                       map[], map[], map[])

  /** The deciders the store is configured with: signature checks and the mutation mode. */
  datatype Config = Config(
    validationOk: (Validation, Fp) -> bool,
    approvalOk: ApprovalPayload -> bool,
    production: bool)

  datatype Guard = Guard(leaseId: LeaseId, worker: string, generation: nat, version: nat)

  // ----------------------------------------------------------------- queries

  function Get<K, V>(m: map<K, seq<V>>, k: K): seq<V> {
    if k in m then m[k] else []
  }

  function Log(s: State, r: RunId): seq<Event> {
    Get(s.logs, r)
  }

  function Validations(s: State, r: RunId): seq<Validation> {
    Get(s.validations, r)
  }

  /** ORDER BY position DESC LIMIT 1. */
  function Latest<T>(xs: seq<T>): Option<T> {
    if |xs| == 0 then None else Some(xs[|xs| - 1])
  }

  function LatestValidation(s: State, r: RunId): Option<Validation> {
    Latest(Validations(s, r))
  }

  function LatestCandidate(s: State, r: RunId): Option<Fp> {
    Latest(Get(s.candidates, r))
  }

  predicate LeaseActive(row: RunRow, now: Time) {
    row.lease.Some? && row.lease.value.expiresAt > now
  }

  /** The lease columns the invocation trigger watches, apart from the generation. */
  function LeaseIdentity(row: RunRow): Option<(LeaseId, string)> {
    match row.lease
    case None => None
    case Some(l) => Some((l.id, l.worker))
  }

  predicate Holds(row: RunRow, g: Guard, now: Time) {
    && LeaseActive(row, now)
    && row.lease.value.id == g.leaseId
    && row.lease.value.worker == g.worker
    && row.generation == g.generation
    && row.version == g.version
  }

  /** The only status in which an effect of this kind may be prepared. */
  function EffectState(k: Kind): Status {
    match k
    case GithubReview => Validated
    case DatahubWriteback => WritebackPending
  }

  /** A consumed reservation whose outcome is not yet recorded. */
  predicate Unresolved(receipts: map<IntentId, Receipt>, proofs: map<AttemptId, Reconciliation>, res: Reservation) {
    && res.state.Consumed?
    && res.intent !in receipts
    && !(res.state.attempt in proofs && proofs[res.state.attempt].outcome.NotApplied?)
  }

  /** A reservation that may still be sent, or was sent and is unresolved. */
  predicate Outstanding(now: Time, receipts: map<IntentId, Receipt>, proofs: map<AttemptId, Reconciliation>,
                        res: Reservation)
  {
    (res.state.Reserved? && res.invokeBy > now) || Unresolved(receipts, proofs, res)
  }

  predicate Blocked(now: Time, reservations: map<ReservationId, Reservation>, receipts: map<IntentId, Receipt>,
                    proofs: map<AttemptId, Reconciliation>, r: RunId)
  {
    exists k :: k in reservations && reservations[k].run == r && Outstanding(now, receipts, proofs, reservations[k])
  }

  /** What enforce_active_effect_invocation looks for. */
  predicate ActiveInvocation(s: State, r: RunId) {
    Blocked(s.now, s.reservations, s.receipts, s.reconciliations, r)
  }

  /** A validation row with this id exists: ids are content hashes. */
  predicate ValidationStored(s: State, v: Validation) {
    v in Validations(s, v.run)
  }

  /** The join of intents, receipts and validations that the completion checks count. */
  function BoundReceipts(s: State, r: RunId, kind: Kind): set<IntentId> {
    set i | i in s.receipts && i in s.intents
         && s.intents[i].run == r && s.intents[i].kind == kind
         && ValidationStored(s, s.intents[i].validation)
         && s.receipts[i].validation == s.intents[i].validation
         && s.intents[i].candidate == s.intents[i].validation.candidate
         && s.receipts[i].candidate == s.intents[i].candidate
         && s.intents[i].artifactSet == s.intents[i].validation.artifactSet
         && s.receipts[i].artifactSet == s.intents[i].artifactSet
  }

  /** The same join in the trigger, which keeps only the latest validation. */
  function LatestBoundReceipts(s: State, r: RunId, kind: Kind): set<IntentId> {
    set i | i in s.receipts && i in s.intents
         && s.intents[i].run == r && s.intents[i].kind == kind
         && LatestValidation(s, r) == Some(s.intents[i].validation)
         && s.intents[i].candidate == s.intents[i].validation.candidate
         && s.intents[i].artifactSet == s.intents[i].validation.artifactSet
  }

  /** All receipts of a kind in a run, with no further condition. */
  function ReceiptsOf(intents: map<IntentId, Intent>, receipts: map<IntentId, Receipt>, r: RunId, kind: Kind)
    : set<IntentId>
  {
    set i | i in receipts && i in intents && intents[i].run == r && intents[i].kind == kind
  }

  /** The newest unexpired approval for a request, the row requireCurrentApproval selects. */
  predicate Approves(s: State, a: ApprovalId, r: RunId, kind: Kind, target: string, inputFp: Fp) {
    && a in s.approvals
    && s.approvals[a].payload.run == r && s.approvals[a].payload.kind == kind
    && s.approvals[a].payload.target == target && s.approvals[a].payload.inputFp == inputFp
    && s.approvals[a].payload.expiresAt > s.now
  }

  predicate NewerApproval(s: State, b: ApprovalId, a: ApprovalId)
    requires a in s.approvals && b in s.approvals
  {
    s.approvals[b].createdAt > s.approvals[a].createdAt
    || (s.approvals[b].createdAt == s.approvals[a].createdAt && b > a)
  }

  predicate CurrentApproval(s: State, a: ApprovalId, r: RunId, kind: Kind, target: string, inputFp: Fp) {
    && Approves(s, a, r, kind, target, inputFp)
    && forall b :: b in s.approvals && Approves(s, b, r, kind, target, inputFp) ==> !NewerApproval(s, b, a)
  }

  /** The latest attempt of an intent, ORDER BY attempt DESC LIMIT 1. */
  predicate LatestAttempt(s: State, a: AttemptId, i: IntentId) {
    && a in s.attempts && s.attempts[a].intent == i
    && forall b :: b in s.attempts && s.attempts[b].intent == i ==> s.attempts[b].number <= s.attempts[a].number
  }

  /** COALESCE(max(attempt),0)+1, stated as the number it is. */
  predicate NextAttemptNumber(s: State, i: IntentId, n: nat) {
    && n >= 1
    && (forall b :: b in s.attempts && s.attempts[b].intent == i ==> s.attempts[b].number < n)
    && (n > 1 ==> exists b :: b in s.attempts && s.attempts[b].intent == i && s.attempts[b].number == n - 1)
  }
}
