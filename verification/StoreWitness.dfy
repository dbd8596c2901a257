/** Two runs of the store, from an empty database to a lease that nobody can ever take over again. */
module StoreWitness {
  import opened Common
  import opened RunLog
  import opened StoreModel
  import opened StoreSteps
  import opened StoreInvariant
  import opened StoreRunMethods
  import opened StoreEffectMethods
  import opened StoreOutcomes
  import opened StoreTheorems
  import opened StoreGuarantees
  import opened StoreResults
  import opened StoreRecovery
  import opened StoreConditions

  /** A store whose deciders accept whatever they are asked. */
  ghost predicate Accepts(cfg: Config) {
    (forall v, c :: cfg.validationOk(v, c)) && forall p :: cfg.approvalOk(p)
  }

  const WORKER := "w"
  const LIFE := 60_000
  const GIVEN := 4_000
  const LATER := 5_000

  function Row(status: Status, version: nat): RunRow {
    RunRow("k", 0, Live, 0, status, version, 0, Some(Lease(0, WORKER, LIFE)), 1)
  }

  function Held(version: nat): Guard {
    Guard(0, WORKER, 1, version)
  }

  /** Run 0 in this status and version under its first lease, with a log of `n` events and no effect begun. */
  ghost predicate At(s: State, status: Status, version: nat, n: nat) {
    && s.now == 0 && s.runs == map[0 := Row(status, version)]
    && 1 <= n == |Log(s, 0)| < 50
    && (forall id :: id in s.eventIds ==> id < n)
    && Fold(Log(s, 0)) == Some(Cursor(n, Some(0), s.eventIds, 0, status, Some(ActiveLease(0, WORKER, 1, LIFE)),
                                      {0}, 1, map[]))
    && s.approvals == map[] && s.intents == map[] && s.reservations == map[] && s.attempts == map[]
    && s.receipts == map[] && s.failures == map[] && s.reconciliations == map[]
  }

  lemma Only<K, V>(m: map<K, V>, k: K, v: V)
    requires m.Keys <= {k}
    ensures m[k := v] == map[k := v]
  {
  }

  lemma ReachStep(cfg: Config, s: State, op: Op)
    requires Reachable(cfg, s)
    ensures Reachable(cfg, After(cfg, s, op))
  {
    hide Do;
    var ops: seq<Op> :| Run(cfg, EMPTY, ops) == s;
    assert (ops + [op])[..|ops + [op]| - 1] == ops;
    assert Run(cfg, EMPTY, ops + [op]) == After(cfg, s, op);
  }

  lemma Commits(cfg: Config, s: State, op: Op, t: State)
    requires Reachable(cfg, s) && Do(cfg, s, op) == Ok(t)
    ensures Reachable(cfg, t)
  {
    hide Reachable, Do;
    ReachStep(cfg, s, op);
  }

  lemma DoReserve(cfg: Config, s: State, op: Op)
    requires op.OpReserve?
    ensures Do(cfg, s, op) == Reserve(cfg, s, op.run, op.kind, op.target, op.inputFp, op.key, op.intentId,
                                      op.validation, op.reservationId, op.token)
  {
    hide Reserve;
  }

  lemma FirstState(cfg: Config) returns (s: State)
    requires Accepts(cfg)
    ensures Reachable(cfg, s)
    ensures s == EMPTY.(runs := map[0 := RunRow("k", 0, Live, 0, Created, 0, 0, None, 0)])
  {
    assert Run(cfg, EMPTY, []) == EMPTY;
    var op := OpCreateRun(0, "k", 0, Live, 0);
    ReachStep(cfg, EMPTY, op);
    s := After(cfg, EMPTY, op);
    assert EMPTY.runs == map[];
    assert CreateRun(EMPTY, 0, "k", 0, Live, 0).Ok?;
  }

  lemma FirstEvent(e: Event)
    requires e == Event(0, 0, 0, 0, 0, WORKER, 1, Acquired(LIFE))
    ensures Authorized([], e, 0)
    ensures Fold([e]) == Some(Cursor(1, Some(0), {0}, 0, Created, Some(ActiveLease(0, WORKER, 1, LIFE)), {0}, 1, map[]))
  {
    FoldAppend([], e);
    assert [] + [e] == [e];
    assert START.ids + {0} == {0} && START.usedLeases + {0} == {0};
  }

  lemma ClaimStep(s: State, e: Event)
    requires s == EMPTY.(runs := map[0 := RunRow("k", 0, Live, 0, Created, 0, 0, None, 0)])
    requires e == Event(0, 0, 0, 0, 0, WORKER, 1, Acquired(LIFE)) && Authorized([], e, 0)
    ensures ClaimDue(s, 0, WORKER, LIFE, 0, 1, 0).Ok?
    ensures var t := ClaimDue(s, 0, WORKER, LIFE, 0, 1, 0).value;
            t == s.(runs := map[0 := Row(Created, 1)], logs := map[0 := [e]], eventIds := {0}, leases := t.leases)
  {
    hide Fold, Authorized;
    assert Log(s, 0) == [] && [] + [e] == [e] && !ActiveInvocation(s, 0);
    assert s.runs[0 := Row(Created, 1)] == map[0 := Row(Created, 1)];
    assert s.logs[0 := [e]] == map[0 := [e]] && s.eventIds + {0} == {0};
  }

  lemma ClaimedState(cfg: Config) returns (s: State)
    requires Accepts(cfg)
    ensures Reachable(cfg, s) && At(s, Created, 1, 1)
    ensures s.candidates == map[] && s.validations == map[]
  {
    hide Fold, Authorized, ClaimDue;
    var before := FirstState(cfg);
    var e := Event(0, 0, 0, 0, 0, WORKER, 1, Acquired(LIFE));
    FirstEvent(e);
    ClaimStep(before, e);
    ReachStep(cfg, before, OpClaimDue(0, WORKER, LIFE, 0, 1, 0));
    s := After(cfg, before, OpClaimDue(0, WORKER, LIFE, 0, 1, 0));
    assert Log(s, 0) == [e];
  }

  lemma CandidateState(cfg: Config) returns (s: State)
    requires Accepts(cfg)
    ensures Reachable(cfg, s) && At(s, Created, 2, 1)
    ensures s.candidates == map[0 := [7]] && s.validations == map[]
  {
    hide Fold;
    var before := ClaimedState(cfg);
    var op := OpAppendCandidate(0, Held(1), 7);
    ReachStep(cfg, before, op);
    s := After(cfg, before, op);
    assert Get(before.candidates, 0) + [7] == [7];
    assert before.candidates[0 := [7]] == map[0 := [7]];
    assert before.runs[0 := Row(Created, 2)] == map[0 := Row(Created, 2)];
    assert Log(s, 0) == Log(before, 0);
  }

  // -------------------------------------------------------------------- along the statuses

  function MoveEvent(n: nat, from: Status, to: Status): Event {
    Event(n, 0, n, 0, 0, WORKER, 1, StatusChanged(from, to))
  }

  lemma StepAllowed(s: State, from: Status, to: Status, version: nat, n: nat)
    requires At(s, from, version, n) && SuccessOf(from) == Some(to) && !Terminal(from) && !Terminal(to)
    ensures Authorized(Log(s, 0), MoveEvent(n, from, to), 0)
    ensures Fold(Log(s, 0) + [MoveEvent(n, from, to)])
            == Some(Cursor(n + 1, Some(0), s.eventIds + {n}, 0, to, Some(ActiveLease(0, WORKER, 1, LIFE)), {0}, 1,
                           map[]))
  {
    hide Fold;
    FoldAppend(Log(s, 0), MoveEvent(n, from, to));
  }

  /** One status further, when its evidence is there. */
  lemma MoveOn(cfg: Config, s: State, from: Status, to: Status, version: nat, n: nat) returns (t: State)
    requires Accepts(cfg)
    requires Reachable(cfg, s) && At(s, from, version, n) && n < 40 && SuccessOf(from) == Some(to)
    requires !Terminal(from) && !Terminal(to) && Prerequisites(cfg, s, 0, to).Pass?
    ensures Reachable(cfg, t) && At(t, to, version + 1, n + 1)
    ensures t.candidates == s.candidates && t.validations == s.validations && Log(s, 0) <= Log(t, 0)
  {
    hide Fold, Authorized, Prerequisites;
    StepAllowed(s, from, to, version, n);
    var e := MoveEvent(n, from, to);
    var op := OpTransition(e, version);
    ReachStep(cfg, s, op);
    t := After(cfg, s, op);
    assert LockRun(s, 0, EventGuard(e, version)).Ok? && !ActiveInvocation(s, 0);
    assert s.runs[0 := Row(to, version + 1)] == map[0 := Row(to, version + 1)];
    assert Log(t, 0) == Log(s, 0) + [e];
  }

  lemma PlainMove(cfg: Config, s: State, to: Status)
    requires Accepts(cfg)
    requires 0 in s.runs && to != Validated && to != ReviewArtifactCreated && to != Completed
    ensures Prerequisites(cfg, s, 0, to).Pass?
  {
    hide AcceptedValidation, BoundEffect;
  }

  lemma PlainMoveOn(cfg: Config, s: State, from: Status, to: Status, version: nat, n: nat) returns (t: State)
    requires Accepts(cfg)
    requires Reachable(cfg, s) && At(s, from, version, n) && n < 40 && SuccessOf(from) == Some(to)
    requires to != Validated && to != ReviewArtifactCreated && !Terminal(from) && !Terminal(to)
    ensures Reachable(cfg, t) && At(t, to, version + 1, n + 1)
    ensures t.candidates == s.candidates && t.validations == s.validations
  {
    hide Fold, Prerequisites, Reachable;
    PlainMove(cfg, s, to);
    t := MoveOn(cfg, s, from, to, version, n);
  }

  lemma ValidatingState(cfg: Config) returns (s: State)
    requires Accepts(cfg)
    ensures Reachable(cfg, s) && At(s, Validating, 10, 9)
    ensures s.candidates == map[0 := [7]] && s.validations == map[]
  {
    hide At, Reachable;
    s := CandidateState(cfg);
    s := PlainMoveOn(cfg, s, Created, ChangeParsed, 2, 1);
    s := PlainMoveOn(cfg, s, ChangeParsed, BaselineAssessed, 3, 2);
    s := PlainMoveOn(cfg, s, BaselineAssessed, ContextCollecting, 4, 3);
    s := PlainMoveOn(cfg, s, ContextCollecting, ContextCollected, 5, 4);
    s := PlainMoveOn(cfg, s, ContextCollected, RiskDecided, 6, 5);
    s := PlainMoveOn(cfg, s, RiskDecided, MigrationPlanned, 7, 6);
    s := PlainMoveOn(cfg, s, MigrationPlanned, PatchGenerated, 8, 7);
    s := PlainMoveOn(cfg, s, PatchGenerated, Validating, 9, 8);
  }

  /** What was executed, over the log as it then stood. */
  function Signed(log: seq<Event>): Validation {
    Validation(0, 7, 5, log, 0, WORKER, 1, 0, 0)
  }

  lemma IssuedState(cfg: Config) returns (s: State, log: seq<Event>)
    requires Accepts(cfg)
    ensures Reachable(cfg, s) && At(s, Validating, 11, 9) && Log(s, 0) == log
    ensures s.candidates == map[0 := [7]] && s.validations == map[0 := [Signed(log)]]
  {
    hide Fold, Reachable;
    var before := ValidatingState(cfg);
    log := Log(before, 0);
    var op := OpIssueValidation(IssueRequest(0, log, 7, 0, WORKER, 1), Signed(log));
    ReachStep(cfg, before, op);
    s := After(cfg, before, op);
    assert LatestCandidate(before, 0) == Some(7);
    assert Validations(before, 0) + [Signed(log)] == [Signed(log)];
    assert before.validations[0 := [Signed(log)]] == map[0 := [Signed(log)]];
    assert before.runs[0 := Row(Validating, 11)] == map[0 := Row(Validating, 11)];
    assert Log(s, 0) == log;
  }

  /** The log of run 0 has `n` events, with smaller ids. */
  ghost predicate Logged(s: State, n: nat) {
    && |Log(s, 0)| == n && (forall k :: 0 <= k < n ==> Log(s, 0)[k].id < n)
    && forall id :: id in s.eventIds ==> id < n
  }

  lemma AtIsLogged(s: State, status: Status, version: nat, n: nat)
    requires At(s, status, version, n)
    ensures Logged(s, n)
  {
    hide Fold;
    FoldRemembersIds(Log(s, 0));
    forall k | 0 <= k < n ensures Log(s, 0)[k].id < n {
      assert Log(s, 0)[k].id in s.eventIds;
    }
  }

  /** Validated, a while ago: what the steps of the effect look at. */
  ghost predicate ReadyForEffect(s: State, v: Validation, version: nat) {
    && s.now == LATER && s.runs == map[0 := Row(Validated, version)] && Logged(s, 10)
    && v.run == 0 && v.leaseId == 0 && v.worker == WORKER && v.generation == 1 && v.completedAt == 0
    && v.stream != [] && v.stream <= Log(s, 0)
    && LatestCandidate(s, 0) == Some(7) && Validations(s, 0) == [v]
  }

  lemma ValidatedState(cfg: Config) returns (s: State, v: Validation)
    requires Accepts(cfg)
    ensures Reachable(cfg, s) && ReadyForEffect(s, v, 12)
    ensures s.approvals == map[] && s.intents == map[] && s.reservations == map[] && s.attempts == map[]
    ensures s.receipts == map[] && s.failures == map[] && s.reconciliations == map[]
  {
    hide Fold, Reachable, Prerequisites;
    var before, log := IssuedState(cfg);
    v := Signed(log);
    EvidenceThere(cfg, before, v);
    var moved := MoveOn(cfg, before, Validating, Validated, 11, 9);
    AtIsLogged(moved, Validated, 12, 10);
    ReachStep(cfg, moved, OpTick(LATER));
    s := After(cfg, moved, OpTick(LATER));
    assert Log(s, 0) == Log(moved, 0);
  }

  lemma EvidenceThere(cfg: Config, s: State, v: Validation)
    requires Accepts(cfg)
    requires At(s, Validating, 11, 9) && v == Signed(Log(s, 0))
    requires s.candidates == map[0 := [7]] && s.validations == map[0 := [v]]
    ensures Prerequisites(cfg, s, 0, Validated).Pass?
  {
    hide Fold;
    assert LatestValidation(s, 0) == Some(v);
    assert LatestCandidate(s, 0) == Some(7);
    assert VerifyValidation(cfg, s, 0, v).Pass?;
  }

  lemma StillAccepted(cfg: Config, s: State, v: Validation, version: nat, originalLease: bool)
    requires Accepts(cfg)
    requires ReadyForEffect(s, v, version)
    ensures AcceptedValidation(cfg, s, 0, originalLease) == Ok(v)
  {
  }

  // ------------------------------------------------------------------------ the effect

  function Approved(v: Validation): ApprovalPayload {
    ApprovalPayload(0, GithubReview, "t", 3, v, "a", GIVEN, LIFE)
  }

  function Intended(v: Validation): Intent {
    Intent(0, GithubReview, "t", "k", 3, v, v.candidate, v.artifactSet)
  }

  lemma OneApproval(cfg: Config, s: State, v: Validation)
    requires Accepts(cfg)
    requires s.approvals == map[0 := Approval(Approved(v), LATER)] && s.now == LATER
    ensures RequireApproval(cfg, s, 0, GithubReview, "t", 3) == Ok(0)
  {
    assert Approves(s, 0, 0, GithubReview, "t", 3);
    assert CurrentApproval(s, 0, 0, GithubReview, "t", 3);
  }

  lemma ApprovedState(cfg: Config) returns (s: State, v: Validation)
    requires Accepts(cfg)
    ensures Reachable(cfg, s) && ReadyForEffect(s, v, 12)
    ensures s.approvals == map[0 := Approval(Approved(v), LATER)]
    ensures s.intents == map[] && s.reservations == map[] && s.attempts == map[]
    ensures s.receipts == map[] && s.failures == map[] && s.reconciliations == map[]
  {
    hide Reachable, AcceptedValidation, RequireApproval, CurrentApproval;
    var before;
    before, v := ValidatedState(cfg);
    StillAccepted(cfg, before, v, 12, false);
    var after := before.(approvals := before.approvals[0 := Approval(Approved(v), LATER)]);
    assert after.approvals == map[0 := Approval(Approved(v), LATER)];
    OneApproval(cfg, after, v);
    var op := OpRecordApproval(0, Held(12), GithubReview, "t", 3, "a", GIVEN, LIFE, 0);
    assert LockRun(before, 0, Held(12)).Ok?;
    assert Do(cfg, before, op) == Ok(after);
    ReachStep(cfg, before, op);
    s := after;
  }

  lemma BegunState(cfg: Config) returns (s: State, v: Validation)
    requires Accepts(cfg)
    ensures Reachable(cfg, s) && ReadyForEffect(s, v, 13)
    ensures s.approvals == map[0 := Approval(Approved(v), LATER)] && s.intents == map[0 := Intended(v)]
    ensures s.reservations == map[] && s.attempts == map[]
    ensures s.receipts == map[] && s.failures == map[] && s.reconciliations == map[]
  {
    hide Reachable, AcceptedValidation, RequireApproval;
    var before;
    before, v := ApprovedState(cfg);
    StillAccepted(cfg, before, v, 12, true);
    OneApproval(cfg, before, v);
    var op := OpBeginEffect(0, Held(12), GithubReview, "t", "k", 3, 0);
    assert LockRun(before, 0, Held(12)).Ok?;
    ReachStep(cfg, before, op);
    s := After(cfg, before, op);
    Only(before.intents, 0, Intended(v));
    Only(before.runs, 0, Row(Validated, 13));
    assert Log(s, 0) == Log(before, 0);
  }

  /** What the reservation of that intent stores. */
  function Stored(s: State, v: Validation, state: ReservationState): Reservation {
    Reservation(0, 0, "k", GithubReview, "t", 3, Intended(v), v, 0, Approved(v), Log(s, 0), 13, Validated, 0, WORKER, 1,
                0, LATER + INVOKE_MILLIS, state)
  }

  lemma ReservedState(cfg: Config) returns (s: State, v: Validation)
    requires Accepts(cfg)
    ensures Reachable(cfg, s) && ReadyForEffect(s, v, 13)
    ensures s.approvals == map[0 := Approval(Approved(v), LATER)] && s.intents == map[0 := Intended(v)]
    ensures s.reservations == map[0 := Stored(s, v, Reserved)] && s.attempts == map[]
    ensures s.receipts == map[] && s.failures == map[] && s.reconciliations == map[]
  {
    hide Reachable, Do, RequireApproval, CurrentApproval, Fold, Approved, Intended;
    var before;
    before, v := BegunState(cfg);
    OneApproval(cfg, before, v);
    var op := OpReserve(0, GithubReview, "t", 3, "k", 0, v, 0, 0);
    DoReserve(cfg, before, op);
    Reserves(cfg, before, v);
    s := before.(reservations := map[0 := Stored(before, v, Reserved)]);
    Commits(cfg, before, op, s);
    assert Log(s, 0) == Log(before, 0);
  }

  lemma Reserves(cfg: Config, s: State, v: Validation)
    requires ReadyForEffect(s, v, 13) && s.reservations == map[]
    requires s.approvals == map[0 := Approval(Approved(v), LATER)] && s.intents == map[0 := Intended(v)]
    requires RequireApproval(cfg, s, 0, GithubReview, "t", 3) == Ok(0)
    ensures Reserve(cfg, s, 0, GithubReview, "t", 3, "k", 0, v, 0, 0)
            == Ok(s.(reservations := map[0 := Stored(s, v, Reserved)]))
  {
    hide RequireApproval, Fold, Logged;
    assert LatestValidation(s, 0) == Some(v);
    Only(s.reservations, 0, Stored(s, v, Reserved));
  }

  function Presented(v: Validation): Claim {
    Claim(0, 0, 0, 0, "k", GithubReview, "t", 3, v, 0, Approved(v), Intended(v))
  }

  function Opened(state: AttemptState): Attempt {
    Attempt(0, 1, WORKER, 0, state, LATER, LATER + INVOKE_MILLIS, LATER, 0)
  }

  lemma StillStands(s: State, v: Validation)
    requires ReadyForEffect(s, v, 13) && s.approvals == map[0 := Approval(Approved(v), LATER)]
    ensures StillCurrent(s, Stored(s, v, Reserved))
  {
    assert LatestValidation(s, 0) == Some(v);
  }

  lemma ConsumedState(cfg: Config) returns (s: State, v: Validation)
    requires Accepts(cfg)
    ensures Reachable(cfg, s) && ReadyForEffect(s, v, 13)
    ensures s.approvals == map[0 := Approval(Approved(v), LATER)] && s.intents == map[0 := Intended(v)]
    ensures s.reservations == map[0 := Stored(s, v, Consumed(0, 0, LATER))]
    ensures s.attempts == map[0 := Opened(ReadyToInvoke)]
    ensures s.receipts == map[] && s.failures == map[] && s.reconciliations == map[]
  {
    hide Reachable, StillCurrent, NextAttemptNumber;
    var before;
    before, v := ReservedState(cfg);
    StillStands(before, v);
    FirstNumber(before);
    var op := OpConsume(Presented(v), 0, 0);
    assert ClaimMatches(before, Presented(v)) && IntentUnchanged(before, Presented(v));
    ReachStep(cfg, before, op);
    s := After(cfg, before, op);
    var spent := Stored(before, v, Consumed(0, 0, LATER));
    assert before.reservations[0 := spent] == map[0 := spent];
    assert before.attempts[0 := Opened(ReadyToInvoke)] == map[0 := Opened(ReadyToInvoke)];
    assert Log(s, 0) == Log(before, 0);
  }

  lemma FirstNumber(s: State)
    requires s.attempts == map[]
    ensures NextNumber(s, 0) == 1
  {
    assert NextAttemptNumber(s, 0, NextNumber(s, 0));
  }

  lemma AmbiguityRecorded(s: State, v: Validation)
    requires s.now == LATER && s.reservations == map[0 := Stored(s, v, Consumed(0, 0, LATER))]
    requires s.attempts == map[0 := Opened(ReadyToInvoke)] && s.failures == map[]
    ensures RecordAmbiguous(s, 0, WORKER, 0, 9).Ok?
  {
    assert LatestAttempt(s, 0, 0);
    assert OutcomeAuthority(s, 0, false);
    var mid := s.(failures := s.failures[0 := Get(s.failures, 0) + [Failure(9, LATER)]]);
    assert Get(mid.failures, 0)[0].createdAt >= LATER;
  }

  /** The store can get there: a run whose lease has lapsed, and which is due. */
  lemma SomeRunIsStuck(cfg: Config) returns (s: State)
    requires Accepts(cfg)
    ensures Reachable(cfg, s) && Stuck(s, 0, 0) && Due(s, 0) && s.runs[0].lease.Some?
  {
    hide Reachable, Inv, RecordAmbiguous;
    var open, v := ConsumedState(cfg);
    AmbiguityRecorded(open, v);
    ReachableInv(cfg, open);
    var op := OpRecordAmbiguous(0, WORKER, 0, 9);
    ReachStep(cfg, open, op);
    var waiting := After(cfg, open, op);
    AmbiguousMeaning(open, 0, WORKER, 0, 9, waiting);
    var r := AmbiguityPins(cfg, open, op, waiting);
    ReachStep(cfg, waiting, OpTick(LIFE));
    s := After(cfg, waiting, OpTick(LIFE));
  }

  /** Its expired lease is never reclaimed, whatever anyone does. */
  lemma ExpiredNeverReclaimed(cfg: Config) returns (s: State)
    requires Accepts(cfg)
    ensures Reachable(cfg, s) && Due(s, 0) && s.runs[0].lease.Some?
    ensures forall more: seq<Op>, claim: Op | claim.OpClaimDue? && claim.run == 0 ::
              Do(cfg, Run(cfg, s, more), claim).Err?
  {
    hide Reachable, Stuck, Due, Do, Run;
    s := SomeRunIsStuck(cfg);
    forall more: seq<Op>, claim: Op | claim.OpClaimDue? && claim.run == 0
      ensures Do(cfg, Run(cfg, s, more), claim).Err?
    {
      StuckForever(cfg, s, 0, 0, more, claim);
    }
  }

  // ------------------------------------------------------------- a lease renewed too often

  /** Run 0 after its claim and renewals: `n` events, each of which prolonged the first lease by LIFE. */
  ghost predicate Prolonged(s: State, n: nat) {
    && s.now == 0 && 1 <= n == |Log(s, 0)| <= MAX_EVENTS
    && s.runs == map[0 := RunRow("k", 0, Live, 0, Created, n, 0, Some(Lease(0, WORKER, LIFE * n)), 1)]
    && (forall id :: id in s.eventIds ==> id < n)
    && Fold(Log(s, 0)) == Some(Cursor(n, Some(0), s.eventIds, 0, Created, Some(ActiveLease(0, WORKER, 1, LIFE * n)),
                                      {0}, 1, map[]))
    && s.reservations == map[]
  }

  function Renewal(n: nat): Event {
    Event(n, 0, n, 0, 0, WORKER, 1, Renewed(LIFE * n, LIFE * (n + 1)))
  }

  lemma RenewalAllowed(s: State, n: nat)
    requires Prolonged(s, n) && n < MAX_EVENTS
    ensures Authorized(Log(s, 0), Renewal(n), 0)
    ensures Fold(Log(s, 0) + [Renewal(n)])
            == Some(Cursor(n + 1, Some(0), s.eventIds + {n}, 0, Created,
                           Some(ActiveLease(0, WORKER, 1, LIFE * (n + 1))), {0}, 1, map[]))
  {
    hide Fold;
    FoldAppend(Log(s, 0), Renewal(n));
  }

  lemma OnceMore(cfg: Config, s: State, n: nat) returns (t: State)
    requires Reachable(cfg, s) && Prolonged(s, n) && n < MAX_EVENTS
    ensures Reachable(cfg, t) && Prolonged(t, n + 1)
  {
    hide Fold, Authorized;
    RenewalAllowed(s, n);
    var op := OpRenewLease(0, Held(n), LIFE, n);
    ReachStep(cfg, s, op);
    t := After(cfg, s, op);
    assert LockRun(s, 0, Held(n)).Ok?;
    var row := RunRow("k", 0, Live, 0, Created, n + 1, 0, Some(Lease(0, WORKER, LIFE * (n + 1))), 1);
    assert s.runs[0 := row] == map[0 := row];
    assert Log(t, 0) == Log(s, 0) + [Renewal(n)];
  }

  lemma {:induction false} RenewedTo(cfg: Config, n: nat) returns (s: State)
    requires Accepts(cfg) && 1 <= n <= MAX_EVENTS
    ensures Reachable(cfg, s) && Prolonged(s, n)
    decreases n
  {
    hide Fold, Reachable;
    if n == 1 {
      s := ClaimedState(cfg);
    } else {
      s := RenewedTo(cfg, n - 1);
      s := OnceMore(cfg, s, n - 1);
    }
  }

  /** One claim and 298 renewals leave no room for another claim: due, free of any invocation, and refused for good. */
  lemma RenewedNeverReclaimed(cfg: Config) returns (s: State)
    requires Accepts(cfg)
    ensures Reachable(cfg, s) && Due(s, 0) && s.runs[0].lease.Some? && |Log(s, 0)| == MAX_EVENTS - 1
    ensures !ActiveInvocation(s, 0) && !Claimable(s, 0)
    ensures forall more: seq<Op>, claim: Op | claim.OpClaimDue? && claim.run == 0 ::
              Do(cfg, Run(cfg, s, more), claim).Err?
  {
    hide Reachable, Do, Run, Fold;
    var held := RenewedTo(cfg, MAX_EVENTS - 1);
    s := Lapsed(cfg, held, MAX_EVENTS - 1);
    forall more: seq<Op>, claim: Op | claim.OpClaimDue? && claim.run == 0
      ensures Do(cfg, Run(cfg, s, more), claim).Err?
    {
      OutOfRoomForever(cfg, s, 0, more, claim);
    }
  }

  lemma Lapsed(cfg: Config, s: State, n: nat) returns (t: State)
    requires Reachable(cfg, s) && Prolonged(s, n)
    ensures Reachable(cfg, t) && Log(t, 0) == Log(s, 0) && t.runs == s.runs && t.now == LIFE * n
    ensures t.reservations == map[] && 0 in t.runs && Idle(t, 0)
  {
    hide Reachable, Fold;
    ReachStep(cfg, s, OpTick(LIFE * n));
    t := After(cfg, s, OpTick(LIFE * n));
  }
}
