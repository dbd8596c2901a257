/** When the calls around an effect succeed, in the columns of the rows they read. */
module StoreEffectConditions {
  import opened Common
  import opened RunLog
  import opened StoreModel
  import opened StoreSteps
  import opened StoreInvariant
  import opened StoreRunMethods
  import opened StoreEffectMethods
  import opened StoreOutcomes
  import opened StoreTheorems
  import opened StoreGuarantees
  import opened StoreWindows
  import opened StoreCallers
  import opened StoreResults
  import opened StoreRecovery
  import opened StoreConditions
  import opened StoreReservations

  // -------------------------------------------------------------------------- approvals

  /** An unexpired approval of this request. */
  ghost predicate Grants(s: State, a: ApprovalId, r: RunId, kind: Kind, target: string, inputFp: Fp) {
    && a in s.approvals && s.now < s.approvals[a].payload.expiresAt
    && s.approvals[a].payload.run == r && s.approvals[a].payload.kind == kind
    && s.approvals[a].payload.target == target && s.approvals[a].payload.inputFp == inputFp
  }

  /** The newest of them, by creation and then by id. */
  ghost predicate Newest(s: State, a: ApprovalId, r: RunId, kind: Kind, target: string, inputFp: Fp) {
    && Grants(s, a, r, kind, target, inputFp)
    && forall b: ApprovalId | Grants(s, b, r, kind, target, inputFp) && b != a ::
         || s.approvals[b].createdAt < s.approvals[a].createdAt
         || (s.approvals[b].createdAt == s.approvals[a].createdAt && b < a)
  }

  lemma CurrentIff(s: State, a: ApprovalId, r: RunId, kind: Kind, target: string, inputFp: Fp)
    ensures CurrentApproval(s, a, r, kind, target, inputFp) <==> Newest(s, a, r, kind, target, inputFp)
    ensures Newest(s, a, r, kind, target, inputFp) ==> a in s.approvals
  {
    assert forall b: ApprovalId :: Approves(s, b, r, kind, target, inputFp) <==> Grants(s, b, r, kind, target, inputFp);
  }

  /** The newest approval of this request, and the decider takes it. */
  ghost predicate Granted(cfg: Config, s: State, a: ApprovalId, r: RunId, kind: Kind, target: string, inputFp: Fp) {
    Newest(s, a, r, kind, target, inputFp) && cfg.approvalOk(s.approvals[a].payload)
  }

  lemma RequireIff(cfg: Config, s: State, r: RunId, kind: Kind, target: string, inputFp: Fp)
    ensures var found := RequireApproval(cfg, s, r, kind, target, inputFp);
            && (found.Ok? <==> exists a: ApprovalId :: Granted(cfg, s, a, r, kind, target, inputFp))
            && (found.Ok? ==> Granted(cfg, s, found.value, r, kind, target, inputFp))
            && forall a: ApprovalId | Granted(cfg, s, a, r, kind, target, inputFp) :: found == Ok(a)
  {
    hide CurrentApproval, Newest;
    forall a ensures CurrentApproval(s, a, r, kind, target, inputFp) <==> Newest(s, a, r, kind, target, inputFp) {
      CurrentIff(s, a, r, kind, target, inputFp);
    }
    forall a, b | CurrentApproval(s, a, r, kind, target, inputFp) && CurrentApproval(s, b, r, kind, target, inputFp)
      ensures a == b
    {
      CurrentApprovalUnique(s, a, b, r, kind, target, inputFp);
    }
    if a: ApprovalId :| Newest(s, a, r, kind, target, inputFp) {
      CurrentIff(s, a, r, kind, target, inputFp);
      assert CurrentApproval(s, a, r, kind, target, inputFp);
      assert Granted(cfg, s, a, r, kind, target, inputFp) <==> cfg.approvalOk(s.approvals[a].payload);
    }
  }

  /** The status in which an effect of this kind is prepared. */
  ghost predicate InPlace(s: State, r: RunId, kind: Kind)
    requires r in s.runs
  {
    && s.runs[r].mode == Live
    && (kind == GithubReview ==> s.runs[r].status == Validated)
    && (kind == DatahubWriteback ==> s.runs[r].status == WritebackPending)
  }

  /** What a request for approval asks of the run and of its own times; it approves the run's last validation. */
  ghost predicate MayApprove(cfg: Config, s: State, g: Guard, p: ApprovalPayload) {
    && 1 <= |p.target| <= 500 && 1 <= |p.approvedBy| <= 240
    && Guards(s, p.run, g.leaseId, g.worker, g.generation, g.version) && InPlace(s, p.run, p.kind)
    && Stands(cfg, s, p.run) && p.validation == Validations(s, p.run)[|Validations(s, p.run)| - 1]
    && p.validation.completedAt <= p.approvedAt <= s.now < p.expiresAt <= s.now + 3_600_000
    && cfg.approvalOk(p)
  }

  ghost predicate IsStored(s: State, p: ApprovalPayload) {
    exists a :: a in s.approvals && s.approvals[a].payload == p
  }

  /** The newest approval of the request says the same. */
  ghost predicate Repeats(s: State, p: ApprovalPayload) {
    exists a: ApprovalId :: Newest(s, a, p.run, p.kind, p.target, p.inputFp) && s.approvals[a].payload == p
  }

  /** A row of this id, stored now, is the newest of its request. */
  ghost predicate ComesNewest(s: State, id: ApprovalId, p: ApprovalPayload) {
    forall b: ApprovalId | Grants(s, b, p.run, p.kind, p.target, p.inputFp) ::
      s.approvals[b].createdAt < s.now || (s.approvals[b].createdAt == s.now && b < id)
  }

  ghost function Recording(cfg: Config, s: State, g: Guard, p: ApprovalPayload, id: ApprovalId): Step {
    RecordApproval(cfg, s, p.run, g, p.kind, p.target, p.inputFp, p.approvedBy, p.approvedAt, p.expiresAt, id)
  }

  lemma RecordingNeeds(cfg: Config, s: State, g: Guard, p: ApprovalPayload, id: ApprovalId)
    requires Inv(s) && Recording(cfg, s, g, p, id).Ok?
    requires Validations(s, p.run) != [] ==> p.validation == Validations(s, p.run)[|Validations(s, p.run)| - 1]
    ensures MayApprove(cfg, s, g, p)
  {
    hide Inv, AcceptedValidation, RequireApproval, Stands, RunHere;
    LocksIff(s, p.run, g);
    RunIsHere(s, p.run);
    AcceptedIff(cfg, s, p.run, false);
    assert Stands(cfg, s, p.run);
    StandsMeans(cfg, s, p.run);
  }

  lemma StandsMeans(cfg: Config, s: State, r: RunId)
    requires Stands(cfg, s, r)
    ensures Validations(s, r) != [] && Get(s.candidates, r) != []
    ensures LatestValidation(s, r) == Some(Validations(s, r)[|Validations(s, r)| - 1])
  {
  }

  /** What remains once the request may be approved. */
  lemma RecordingDecides(cfg: Config, s: State, g: Guard, p: ApprovalPayload, id: ApprovalId)
    requires Inv(s) && MayApprove(cfg, s, g, p)
    ensures var t := s.(approvals := s.approvals[id := Approval(p, s.now)]);
            Recording(cfg, s, g, p, id)
            == if IsStored(s, p) then
                 match RequireApproval(cfg, s, p.run, p.kind, p.target, p.inputFp)
                 case Ok(a) => if s.approvals[a].payload == p then Ok(s) else Err(IdempotencyConflict)
                 case Err(e) => Err(e)
               else if id in s.approvals then Err(Constraint)
               else
                 match RequireApproval(cfg, t, p.run, p.kind, p.target, p.inputFp)
                 case Ok(a) => if a == id then Ok(t) else Err(IdempotencyConflict)
                 case Err(e) => Err(e)
  {
    hide Inv, AcceptedValidation, RequireApproval, Stands, RunHere;
    LocksIff(s, p.run, g);
    RunIsHere(s, p.run);
    AcceptedIff(cfg, s, p.run, false);
    StandsMeans(cfg, s, p.run);
  }

  lemma NewIsNewest(s: State, id: ApprovalId, p: ApprovalPayload)
    requires id !in s.approvals && s.now < p.expiresAt
    ensures Newest(s.(approvals := s.approvals[id := Approval(p, s.now)]), id, p.run, p.kind, p.target, p.inputFp)
            <==> ComesNewest(s, id, p)
  {
    var t := s.(approvals := s.approvals[id := Approval(p, s.now)]);
    assert forall b: ApprovalId | b != id ::
        Grants(t, b, p.run, p.kind, p.target, p.inputFp) <==> Grants(s, b, p.run, p.kind, p.target, p.inputFp);
  }

  /**
   An approval is taken exactly when its request may be approved and it is then the newest of the request: an equal one
   that is already there, and nothing changes, or the new row, which is all that is added.
   */
  lemma ApprovalIff(cfg: Config, s: State, g: Guard, p: ApprovalPayload, id: ApprovalId)
    requires Inv(s)
    requires Validations(s, p.run) != [] ==> p.validation == Validations(s, p.run)[|Validations(s, p.run)| - 1]
    ensures var call := RecordApproval(cfg, s, p.run, g, p.kind, p.target, p.inputFp, p.approvedBy, p.approvedAt,
                                       p.expiresAt, id);
            && (call.Ok? <==> && MayApprove(cfg, s, g, p)
                              && if IsStored(s, p) then Repeats(s, p) else id !in s.approvals && ComesNewest(s, id, p))
            && (call.Ok? ==> call.value == if IsStored(s, p) then s
                                           else s.(approvals := s.approvals[id := Approval(p, s.now)]))
  {
    hide Inv, RecordApproval, RequireApproval, Newest, ComesNewest, MayApprove;
    if Recording(cfg, s, g, p, id).Ok? {
      RecordingNeeds(cfg, s, g, p, id);
    }
    if MayApprove(cfg, s, g, p) {
      MayApproveMeans(cfg, s, g, p);
      RecordingDecides(cfg, s, g, p, id);
      RequireIff(cfg, s, p.run, p.kind, p.target, p.inputFp);
      if Repeats(s, p) {
        var a := RepeatIsGranted(cfg, s, p);
      }
      if id !in s.approvals {
        var t := s.(approvals := s.approvals[id := Approval(p, s.now)]);
        RequireIff(cfg, t, p.run, p.kind, p.target, p.inputFp);
        NewIsNewest(s, id, p);
        assert Granted(cfg, t, id, p.run, p.kind, p.target, p.inputFp) <==> ComesNewest(s, id, p);
      }
    }
  }

  lemma RepeatIsGranted(cfg: Config, s: State, p: ApprovalPayload) returns (a: ApprovalId)
    requires Repeats(s, p) && cfg.approvalOk(p)
    ensures Granted(cfg, s, a, p.run, p.kind, p.target, p.inputFp) && s.approvals[a].payload == p
  {
    a :| Newest(s, a, p.run, p.kind, p.target, p.inputFp) && s.approvals[a].payload == p;
  }

  lemma MayApproveMeans(cfg: Config, s: State, g: Guard, p: ApprovalPayload)
    requires MayApprove(cfg, s, g, p)
    ensures s.now < p.expiresAt && cfg.approvalOk(p)
  {
    hide Stands;
  }

  // ----------------------------------------------------------------------------- intents

  /** What beginEffect asks before it looks for the key. */
  ghost predicate MayBegin(cfg: Config, s: State, g: Guard, intent: Intent) {
    && 1 <= |intent.target| <= 500
    && Guards(s, intent.run, g.leaseId, g.worker, g.generation, g.version) && InPlace(s, intent.run, intent.kind)
    && Stands(cfg, s, intent.run) && ByItsHolder(s, intent.run)
    && (cfg.production ==>
          exists a: ApprovalId :: Granted(cfg, s, a, intent.run, intent.kind, intent.target, intent.inputFp))
  }

  /** An intent over the run's last validation. */
  ghost predicate OverLast(s: State, intent: Intent) {
    var vs := Validations(s, intent.run);
    vs != [] ==> intent.validation == vs[|vs| - 1]
                 && intent.candidate == intent.validation.candidate
                 && intent.artifactSet == intent.validation.artifactSet
  }

  ghost function Beginning(cfg: Config, s: State, g: Guard, intent: Intent, id: IntentId): Step {
    BeginEffect(cfg, s, intent.run, g, intent.kind, intent.target, intent.key, intent.inputFp, id)
  }

  lemma BeginningNeeds(cfg: Config, s: State, g: Guard, intent: Intent, id: IntentId)
    requires Inv(s) && Beginning(cfg, s, g, intent, id).Ok?
    ensures MayBegin(cfg, s, g, intent)
  {
    hide Inv, AcceptedValidation, RequireApproval, Stands, RunHere, ByItsHolder, Granted, SameKey;
    LocksIff(s, intent.run, g);
    RunIsHere(s, intent.run);
    AcceptedIff(cfg, s, intent.run, true);
    RequireIff(cfg, s, intent.run, intent.kind, intent.target, intent.inputFp);
  }

  lemma BeginningDecides(cfg: Config, s: State, g: Guard, intent: Intent, id: IntentId)
    requires Inv(s) && MayBegin(cfg, s, g, intent) && OverLast(s, intent)
    ensures Beginning(cfg, s, g, intent, id)
            == if exists i :: i in s.intents && SameKey(s.intents[i], intent.kind, intent.target, intent.key) then
                 (if forall i :: i in s.intents && SameKey(s.intents[i], intent.kind, intent.target, intent.key) ==>
                       s.intents[i] == intent
                  then Ok(s) else Err(IdempotencyConflict))
               else if id !in s.intents && 1 <= |intent.key| <= 512 then
                 Ok(Bump(s.(intents := s.intents[id := intent]), intent.run))
               else Err(Constraint)
  {
    hide Inv, AcceptedValidation, RequireApproval, Stands, RunHere, ByItsHolder, Granted, SameKey;
    LocksIff(s, intent.run, g);
    RunIsHere(s, intent.run);
    AcceptedIff(cfg, s, intent.run, true);
    StandsMeans(cfg, s, intent.run);
    RequireIff(cfg, s, intent.run, intent.kind, intent.target, intent.inputFp);
  }

  /**
   An effect begins exactly when its request may, and its key is new and well-formed or belongs to an equal intent. A
   new key adds the intent and one to the run's version; an equal intent changes nothing.
   */
  lemma BeginIff(cfg: Config, s: State, g: Guard, intent: Intent, id: IntentId)
    requires Inv(s) && OverLast(s, intent)
    ensures var call := BeginEffect(cfg, s, intent.run, g, intent.kind, intent.target, intent.key, intent.inputFp, id);
            var mine := set i | i in s.intents && s.intents[i].kind == intent.kind
                                && s.intents[i].target == intent.target && s.intents[i].key == intent.key;
            && (call.Ok? <==> && MayBegin(cfg, s, g, intent) && (forall i :: i in mine ==> s.intents[i] == intent)
                              && (mine == {} ==> id !in s.intents && 1 <= |intent.key| <= 512))
            && (call.Ok? && mine != {} ==> call.value == s)
            && (call.Ok? && mine == {} ==>
                  && intent.run in s.runs
                  && call.value == s.(intents := s.intents[id := intent],
                                      runs := s.runs[intent.run := s.runs[intent.run].(
                                                       version := s.runs[intent.run].version + 1)]))
  {
    hide Inv, BeginEffect, MayBegin;
    if Beginning(cfg, s, g, intent, id).Ok? {
      BeginningNeeds(cfg, s, g, intent, id);
    }
    if MayBegin(cfg, s, g, intent) {
      BeginningDecides(cfg, s, g, intent, id);
      var mine := set i | i in s.intents && s.intents[i].kind == intent.kind && s.intents[i].target == intent.target
                          && s.intents[i].key == intent.key;
      assert forall i :: i in mine <==> i in s.intents && SameKey(s.intents[i], intent.kind, intent.target, intent.key);
      assert intent.run in s.runs by { BeginsInRun(cfg, s, g, intent); }
    }
  }

  lemma BeginsInRun(cfg: Config, s: State, g: Guard, intent: Intent)
    requires MayBegin(cfg, s, g, intent)
    ensures intent.run in s.runs
  {
    hide Stands, ByItsHolder, Granted;
  }

  // ---------------------------------------------------------------- reserve, verify, consume

  /** The intent that a reservation is asked for, over the run's last validation, under a live lease. */
  ghost predicate MayReserve(s: State, r: RunId, kind: Kind, target: string, inputFp: Fp, key: string, i: IntentId,
                             v: Validation)
  {
    var vs := Validations(s, r);
    && 1 <= |target| <= 500 && r in s.runs && InPlace(s, r, kind)
    && s.runs[r].lease.Some? && s.now < s.runs[r].lease.value.expiresAt
    && vs != [] && vs[|vs| - 1] == v
    && i in s.intents && s.intents[i].run == r && s.intents[i].kind == kind && s.intents[i].target == target
    && s.intents[i].key == key && s.intents[i].inputFp == inputFp
  }

  /** Ids that nothing has used, for an intent whose other reservations are all cancelled. */
  ghost predicate FreshReservation(s: State, i: IntentId, id: ReservationId, token: Token) {
    && id !in s.reservations
    && forall k | k in s.reservations ::
         && s.reservations[k].token != token
         && (s.reservations[k].intent == i ==> s.reservations[k].state.CancelledPreSend?)
  }

  /** What the joint invariant adds to a live run with a validation, an intent and an approval. */
  lemma ReserveFacts(s: State, r: RunId, i: IntentId, a: ApprovalId)
    requires Inv(s) && r in s.runs && s.runs[r].lease.Some? && Validations(s, r) != []
    requires i in s.intents && s.intents[i].run == r && a in s.approvals && s.approvals[a].payload.run == r
    ensures var v := Validations(s, r)[|Validations(s, r)| - 1];
            && s.intents[i].validation == v && s.approvals[a].payload.validation == v
            && |v.stream| > 0 && v.stream <= Log(s, r) && s.runs[r].generation > 0
  {
    hide Inv, Fold, KeysUnique, ReceiptsOk;
    EvidenceTables(s);
    ApprovalTable(s);
    RunIsHere(s, r);
    HolderFits(Log(s, r));
    assert IntentOk(s.runs, s.validations, s.intents[i]);
  }

  lemma ReservingNeeds(cfg: Config, s: State, r: RunId, kind: Kind, target: string, inputFp: Fp, key: string,
                       i: IntentId, v: Validation, id: ReservationId, token: Token)
    requires Reserve(cfg, s, r, kind, target, inputFp, key, i, v, id, token).Ok?
    ensures MayReserve(s, r, kind, target, inputFp, key, i, v) && FreshReservation(s, i, id, token)
    ensures RequireApproval(cfg, s, r, kind, target, inputFp).Ok?
  {
    hide RequireApproval, Log, Min;
  }

  lemma ReservingGoes(cfg: Config, s: State, r: RunId, kind: Kind, target: string, inputFp: Fp, key: string,
                      i: IntentId, v: Validation, id: ReservationId, token: Token, a: ApprovalId)
    requires MayReserve(s, r, kind, target, inputFp, key, i, v) && FreshReservation(s, i, id, token)
    requires RequireApproval(cfg, s, r, kind, target, inputFp) == Ok(a)
    requires a in s.approvals && s.now < s.approvals[a].payload.expiresAt && s.approvals[a].payload.validation == v
    requires s.intents[i].validation == v && |v.stream| > 0 && v.stream <= Log(s, r) && s.runs[r].generation > 0
    ensures Reserve(cfg, s, r, kind, target, inputFp, key, i, v, id, token).Ok?
  {
    hide RequireApproval, Log;
  }

  lemma GrantedMeans(cfg: Config, s: State, a: ApprovalId, r: RunId, kind: Kind, target: string, inputFp: Fp)
    requires Granted(cfg, s, a, r, kind, target, inputFp)
    ensures a in s.approvals && s.approvals[a].payload.run == r && s.now < s.approvals[a].payload.expiresAt
  {
  }

  /** A reservation is made exactly for a begun intent of a live run with a granted approval, and no other one open. */
  lemma ReserveIff(cfg: Config, s: State, r: RunId, kind: Kind, target: string, inputFp: Fp, key: string,
                   i: IntentId, v: Validation, id: ReservationId, token: Token)
    requires Inv(s)
    ensures Reserve(cfg, s, r, kind, target, inputFp, key, i, v, id, token).Ok?
            <==> && MayReserve(s, r, kind, target, inputFp, key, i, v) && FreshReservation(s, i, id, token)
                 && exists a: ApprovalId :: Granted(cfg, s, a, r, kind, target, inputFp)
  {
    hide Inv, Reserve, RequireApproval, Granted, FreshReservation;
    RequireIff(cfg, s, r, kind, target, inputFp);
    if Reserve(cfg, s, r, kind, target, inputFp, key, i, v, id, token).Ok? {
      ReservingNeeds(cfg, s, r, kind, target, inputFp, key, i, v, id, token);
    }
    if a: ApprovalId :| Granted(cfg, s, a, r, kind, target, inputFp) {
      GrantedMeans(cfg, s, a, r, kind, target, inputFp);
      if MayReserve(s, r, kind, target, inputFp, key, i, v) && FreshReservation(s, i, id, token) {
        ReserveFacts(s, r, i, a);
        ReservingGoes(cfg, s, r, kind, target, inputFp, key, i, v, id, token, a);
      }
    }
  }

  /** The claim says of its reservation what is stored. */
  ghost predicate Presents(s: State, c: Claim) {
    && c.id in s.reservations
    && var res := s.reservations[c.id];
       c == Claim(c.id, res.token, res.run, res.intent, res.key, res.kind, res.target, res.inputFp, res.validation,
                  res.approval, res.approvalFp, res.intentFp)
  }

  /** Its run has not moved since, and its time is not over. */
  ghost predicate InWindow(s: State, res: Reservation) {
    res.run in s.runs && s.runs[res.run].version == res.runVersion && s.now < res.invokeBy
  }

  lemma PresentsIff(s: State, c: Claim)
    requires ReservationsOk(s.intents, s.reservations)
    ensures ClaimMatches(s, c) && IntentUnchanged(s, c) <==> Presents(s, c)
    ensures ClaimMatches(s, c) <==> Presents(s, c)
  {
    hide ActiveUnique;
    assert c.id in s.reservations ==> Bound(s.intents, s.reservations[c.id]);
  }

  /** In a reachable state the recheck against the live rows comes down to the run's version and the deadline. */
  lemma CurrentIffInWindow(s: State, res: Reservation)
    requires Faithful(s, res)
    ensures StillCurrent(s, res) <==> InWindow(s, res)
  {
  }

  lemma VerifyIff(cfg: Config, s: State, c: Claim)
    requires Reachable(cfg, s)
    ensures Verifies(s, c)
            <==> Presents(s, c) && (s.reservations[c.id].state == Reserved ==> InWindow(s, s.reservations[c.id]))
  {
    hide Reachable, Inv, StillCurrent, Faithful, ReservationsOk, LinksOk, ReceiptsPaidFor, InWindow;
    ReachableHolds(cfg, s);
    ReservationTables(s);
    PresentsIff(s, c);
    if c.id in s.reservations {
      CurrentIffInWindow(s, s.reservations[c.id]);
    }
  }

  /** Authority is spent exactly when it is presented, unspent, inside its window and under fresh ids. */
  lemma ConsumeIff(cfg: Config, s: State, c: Claim, attempt: AttemptId, fence: Fence)
    requires Reachable(cfg, s)
    ensures Consume(s, c, attempt, fence).Ok?
            <==> && Presents(s, c) && s.reservations[c.id].state == Reserved && InWindow(s, s.reservations[c.id])
                 && attempt !in s.attempts && forall a :: a in s.attempts ==> s.attempts[a].fence != fence
  {
    hide Reachable, Inv, StillCurrent, Faithful, NextAttemptNumber, ReservationsOk, LinksOk, ReceiptsPaidFor, InWindow,
      ClaimMatches, IntentUnchanged;
    ReachableHolds(cfg, s);
    ReservationTables(s);
    PresentsIff(s, c);
    if Presents(s, c) && s.reservations[c.id].state == Reserved {
      CurrentIffInWindow(s, s.reservations[c.id]);
      FirstAttempt(s, c.id);
      assert NextAttemptNumber(s, c.intent, NextNumber(s, c.intent));
    }
  }

  lemma CancelIff(s: State, c: Claim)
    requires Inv(s)
    ensures Cancel(s, c).Ok? <==> Presents(s, c) && s.reservations[c.id].state == Reserved
  {
    hide Inv, ReservationsOk, LinksOk, ReceiptsPaidFor, ClaimMatches, IntentUnchanged;
    ReservationTables(s);
    PresentsIff(s, c);
  }

  // ----------------------------------------------------------------------------- outcomes

  /** The payload repeats what the intent says. */
  ghost predicate Answers(s: State, i: IntentId, p: ReceiptPayload) {
    && i in s.intents
    && var intent := s.intents[i];
       p == ReceiptPayload(i, intent.run, intent.kind, intent.target, intent.inputFp, intent.validation,
                           intent.candidate, intent.artifactSet, p.body)
  }

  lemma AnswerIff(cfg: Config, s: State, i: IntentId, p: ReceiptPayload)
    requires i in s.intents && IntentOk(s.runs, s.validations, s.intents[i]) && RunHere(s, s.intents[i].run)
    ensures CheckPayload(cfg, s, i, p).Pass? <==> Answers(s, i, p) && Stands(cfg, s, s.intents[i].run)
    ensures ReceiptBinding(s, i, p) <==> Answers(s, i, p)
  {
    hide CursorFits;
    var vs := Validations(s, s.intents[i].run);
    assert s.intents[i].validation == vs[|vs| - 1];
  }

  /** Who presents the attempt's outcome. */
  ghost predicate Owned(s: State, a: AttemptId, worker: string, fence: Fence) {
    a in s.attempts && s.attempts[a].worker == worker && s.attempts[a].fence == fence
  }

  /** The only attempt of its intent, so its own state decides which outcome the trigger lets in. */
  lemma AuthorityIff(s: State, a: AttemptId, isReceipt: bool)
    requires ReservationsOk(s.intents, s.reservations) && LinksOk(s.reservations, s.attempts) && a in s.attempts
    ensures LatestAttempt(s, a, s.attempts[a].intent)
    ensures ReconcileAuthority(s, a) == s.attempts[a].state.ReconciliationRequired?
    ensures OutcomeAuthority(s, s.attempts[a].intent, isReceipt)
            <==> || s.attempts[a].state == ReadyToInvoke
                 || (&& isReceipt && s.attempts[a].state == ReconciliationRequired && a in s.reconciliations
                     && s.reconciliations[a].outcome == Applied)
  {
    hide Bound;
    var i := s.attempts[a].intent;
    forall b | b in s.attempts && s.attempts[b].intent == i ensures b == a {
      assert Linked(s.attempts[b].reservation, s.reservations[s.attempts[b].reservation], b, s.attempts[b]);
      assert Linked(s.attempts[a].reservation, s.reservations[s.attempts[a].reservation], a, s.attempts[a]);
    }
    assert LatestAttempt(s, a, i);
  }

  /** What the joint invariant says of an attempt and the rows it points at. */
  lemma AttemptFacts(s: State, a: AttemptId)
    requires Inv(s) && a in s.attempts
    ensures ReservationsOk(s.intents, s.reservations) && LinksOk(s.reservations, s.attempts)
    ensures var i := s.attempts[a].intent; var k := s.attempts[a].reservation;
            && i in s.intents && IntentOk(s.runs, s.validations, s.intents[i]) && RunHere(s, s.intents[i].run)
            && k in s.reservations && s.reservations[k].state.Consumed? && s.reservations[k].state.attempt == a
            && s.reservations[k].intent == i
            && (s.attempts[a].state == Succeeded <==> i in s.receipts)
            && (a in s.reconciliations ==>
                  s.attempts[a].state == if s.reconciliations[a].outcome == Applied then Succeeded
                                         else ReconciliationRequired)
  {
    hide Inv, LinksOk, ReservationsOk, ReceiptsPaidFor, SuccessOk, ProofsOk, IntentsOk, ReceiptsOk, RunHere;
    ReservationTables(s);
    EvidenceTables(s);
    InvParts(s);
    LinkedAttempt(s.reservations, s.attempts, a);
    IntentStored(s, s.attempts[a].reservation);
    AttemptTables(s, a);
    IntentRun(s, s.attempts[a].intent);
    RunIsHere(s, s.intents[s.attempts[a].intent].run);
  }

  lemma IntentStored(s: State, k: ReservationId)
    requires ReservationsOk(s.intents, s.reservations) && k in s.reservations
    ensures s.reservations[k].intent in s.intents
  {
    assert Bound(s.intents, s.reservations[k]);
  }

  lemma AttemptTables(s: State, a: AttemptId)
    requires SuccessOk(s.attempts, s.receipts) && ProofsOk(s.attempts, s.reconciliations) && a in s.attempts
    ensures s.attempts[a].state == Succeeded <==> s.attempts[a].intent in s.receipts
    ensures a in s.reconciliations ==>
              s.attempts[a].state == if s.reconciliations[a].outcome == Applied then Succeeded
                                     else ReconciliationRequired
  {
  }

  lemma IntentRun(s: State, i: IntentId)
    requires IntentsOk(s.runs, s.validations, s.intents) && i in s.intents
    ensures IntentOk(s.runs, s.validations, s.intents[i]) && s.intents[i].run in s.runs
  {
    hide KeysUnique;
  }

  /** The tables after a receipt settles its attempt. */
  function Settles(s: State, a: AttemptId, p: ReceiptPayload): State
    requires a in s.attempts
  {
    s.(receipts := s.receipts[s.attempts[a].intent := Receipt(p, p.validation, p.candidate, p.artifactSet)],
       attempts := s.attempts[a := s.attempts[a].(state := Succeeded, updatedAt := s.now)])
  }

  lemma StoringReceipt(s: State, a: AttemptId, p: ReceiptPayload)
    requires a in s.attempts && s.attempts[a].intent !in s.receipts && !s.attempts[a].state.Succeeded?
    requires s.attempts[a].updatedAt <= s.now
    ensures var inserted := InsertReceipt(s, s.attempts[a].intent, p);
            && (inserted.Ok? <==> OutcomeAuthority(s, s.attempts[a].intent, true)
                                  && ReceiptBinding(s, s.attempts[a].intent, p))
            && (inserted.Ok? ==> SetAttemptState(inserted.value, a, Succeeded) == Ok(Settles(s, a, p))
                                 && inserted.value.receipts[s.attempts[a].intent].payload == p)
  {
    hide OutcomeAuthority, ReceiptBinding;
  }

  /**
   A success is recorded exactly by the attempt's own worker and fence, with the payload of the intent over a validation
   that still stands, while the attempt is open; or again, with the receipt that is stored.
   */
  lemma SuccessIff(cfg: Config, s: State, a: AttemptId, worker: string, fence: Fence, p: ReceiptPayload)
    requires Reachable(cfg, s)
    ensures var call := RecordSuccess(cfg, s, a, worker, fence, p);
            && (call.Ok? <==>
                  && Owned(s, a, worker, fence)
                  && Answers(s, s.attempts[a].intent, p) && Stands(cfg, s, s.intents[s.attempts[a].intent].run)
                  && match s.attempts[a].state
                     case ReadyToInvoke => true
                     case ReconciliationRequired => false
                     case Succeeded =>
                       s.attempts[a].intent in s.receipts && s.receipts[s.attempts[a].intent].payload == p)
            && (call.Ok? ==> call.value == if s.attempts[a].state == Succeeded then s else Settles(s, a, p))
  {
    hide Reachable, Inv, AllFaithful, InsertReceipt, SetAttemptState, CheckPayload, Stands, Answers, RunHere, IntentOk,
      LinksOk, ReservationsOk, OutcomeAuthority, ReceiptBinding, LatestAttempt, ReconcileAuthority;
    ReachableHolds(cfg, s);
    if a in s.attempts {
      AttemptFacts(s, a);
      AnswerIff(cfg, s, s.attempts[a].intent, p);
      AuthorityIff(s, a, true);
      if s.attempts[a].state == ReadyToInvoke {
        StoringReceipt(s, a, p);
      }
    }
  }

  /** An ambiguity is recorded exactly by the attempt's own worker and fence while it is open, up to a hundred times. */
  lemma AmbiguousIff(cfg: Config, s: State, a: AttemptId, worker: string, fence: Fence, failure: Fp)
    requires Reachable(cfg, s)
    ensures var call := RecordAmbiguous(s, a, worker, fence, failure);
            && (call.Ok? <==> && Owned(s, a, worker, fence) && s.attempts[a].state == ReadyToInvoke
                              && |Get(s.failures, s.attempts[a].intent)| < 100)
            && (call.Ok? ==>
                  var i := s.attempts[a].intent;
                  call.value == s.(failures := s.failures[i := Get(s.failures, i) + [Failure(failure, s.now)]],
                                   attempts := s.attempts[a := s.attempts[a].(state := ReconciliationRequired,
                                                                              updatedAt := s.now)]))
  {
    hide Reachable, Inv, AllFaithful, OutcomeAuthority, RunHere, IntentOk, LinksOk, ReservationsOk, LatestAttempt,
      ReconcileAuthority;
    ReachableHolds(cfg, s);
    if a in s.attempts {
      AttemptFacts(s, a);
      AuthorityIff(s, a, false);
      var i := s.attempts[a].intent;
      var mid := s.(failures := s.failures[i := Get(s.failures, i) + [Failure(failure, s.now)]]);
      assert Get(mid.failures, i)[|Get(s.failures, i)|].createdAt == s.now;
    }
  }

  /** A proof is taken if there is none yet, or it is the NOT_APPLIED one that is stored. */
  ghost predicate NewProof(s: State, a: AttemptId, outcome: ProofOutcome, proof: Fp) {
    a in s.reconciliations ==> outcome == NotApplied && s.reconciliations[a] == Reconciliation(NotApplied, proof)
  }

  /** What an APPLIED proof brings: the receipt, which settles the attempt. */
  lemma ApplyingIff(cfg: Config, s: State, a: AttemptId, receipt: Option<ReceiptPayload>)
    requires ReservationsOk(s.intents, s.reservations) && LinksOk(s.reservations, s.attempts) && a in s.attempts
    requires s.attempts[a].intent in s.intents && IntentOk(s.runs, s.validations, s.intents[s.attempts[a].intent])
    requires RunHere(s, s.intents[s.attempts[a].intent].run)
    requires s.attempts[a].state == ReconciliationRequired && s.attempts[a].intent !in s.receipts
    requires a in s.reconciliations && s.reconciliations[a].outcome == Applied && s.attempts[a].updatedAt <= s.now
    ensures var call := ApplyProof(cfg, s, a, receipt);
            && (call.Ok? <==> && receipt.Some? && Answers(s, s.attempts[a].intent, receipt.value)
                              && Stands(cfg, s, s.intents[s.attempts[a].intent].run))
            && (call.Ok? ==> call.value == Settles(s, a, receipt.value))
  {
    hide InsertReceipt, SetAttemptState, CheckPayload, Stands, Answers, RunHere, IntentOk, LinksOk, ReservationsOk,
      OutcomeAuthority, ReceiptBinding, LatestAttempt, ReconcileAuthority, Settles;
    if receipt.Some? {
      AnswerIff(cfg, s, s.attempts[a].intent, receipt.value);
      AuthorityIff(s, a, true);
      StoringReceipt(s, a, receipt.value);
    }
  }

  /** What a reconciliation asks of the attempt, of the guard of its run, and of the proof. */
  ghost predicate MayReconcile(cfg: Config, s: State, r: RunId, g: Guard, a: AttemptId, worker: string, fence: Fence,
                               outcome: ProofOutcome, proof: Fp, receipt: Option<ReceiptPayload>)
  {
    && Owned(s, a, worker, fence) && s.attempts[a].state == ReconciliationRequired
    && s.attempts[a].intent in s.intents && s.intents[s.attempts[a].intent].run == r
    && Guards(s, r, g.leaseId, g.worker, g.generation, g.version)
    && NewProof(s, a, outcome, proof)
    && (outcome == Applied ==>
          receipt.Some? && Answers(s, s.attempts[a].intent, receipt.value) && Stands(cfg, s, r))
  }

  /** The tables with its proof, and for APPLIED with the receipt that settles the attempt. */
  function Proved(s: State, a: AttemptId, outcome: ProofOutcome, proof: Fp, receipt: Option<ReceiptPayload>): State
    requires a in s.attempts && (outcome == Applied ==> receipt.Some?)
  {
    var t := s.(reconciliations := s.reconciliations[a := Reconciliation(outcome, proof)]);
    if outcome == Applied then Settles(t, a, receipt.value) else t
  }

  /** The steps of a reconciliation once the attempt's rows are known. */
  lemma Reconciling(cfg: Config, s: State, r: RunId, g: Guard, a: AttemptId, worker: string, fence: Fence,
                    outcome: ProofOutcome, proof: Fp, receipt: Option<ReceiptPayload>)
    requires a in s.attempts && s.attempts[a].intent in s.intents && LatestAttempt(s, a, s.attempts[a].intent)
    requires ReconcileAuthority(s, a) == s.attempts[a].state.ReconciliationRequired?
    requires s.attempts[a].state.ReconciliationRequired? && a in s.reconciliations ==>
               s.reconciliations[a].outcome == NotApplied
    ensures var call := Reconcile(cfg, s, r, g, a, worker, fence, outcome, proof, receipt);
            var t := s.(reconciliations := s.reconciliations[a := Reconciliation(outcome, proof)]);
            && (call.Ok? <==>
                  && s.attempts[a].state == ReconciliationRequired && s.intents[s.attempts[a].intent].run == r
                  && LockRun(s, r, g).Ok? && Owned(s, a, worker, fence) && NewProof(s, a, outcome, proof)
                  && (outcome == Applied ==> ApplyProof(cfg, t, a, receipt).Ok?))
            && (call.Ok? ==>
                  call.value == if outcome == Applied then ApplyProof(cfg, t, a, receipt).value else t)
  {
    hide LockRun, LatestAttempt, ReconcileAuthority, ApplyProof;
    assert a in s.reconciliations ==> s.reconciliations[a := s.reconciliations[a]] == s.reconciliations;
  }

  /**
   A reconciliation is taken exactly for an attempt that awaits it, under the live guard of its run and by its own
   worker and fence, with a proof that is new or stored, and for APPLIED with the intent's payload over a validation
   that stands.
   */
  lemma ReconcileIff(cfg: Config, s: State, r: RunId, g: Guard, a: AttemptId, worker: string, fence: Fence,
                     outcome: ProofOutcome, proof: Fp, receipt: Option<ReceiptPayload>)
    requires Reachable(cfg, s)
    ensures Reconcile(cfg, s, r, g, a, worker, fence, outcome, proof, receipt).Ok?
            <==> MayReconcile(cfg, s, r, g, a, worker, fence, outcome, proof, receipt)
    ensures MayReconcile(cfg, s, r, g, a, worker, fence, outcome, proof, receipt) ==>
              Reconcile(cfg, s, r, g, a, worker, fence, outcome, proof, receipt)
              == Ok(Proved(s, a, outcome, proof, receipt))
  {
    hide Reachable, Inv, AllFaithful, Reconcile, ApplyProof, Stands, Answers, RunHere, IntentOk, LinksOk,
      ReservationsOk, OutcomeAuthority, LatestAttempt, ReconcileAuthority, Settles, Guards;
    ReachableHolds(cfg, s);
    LocksIff(s, r, g);
    if a in s.attempts {
      AttemptFacts(s, a);
      AuthorityIff(s, a, true);
      Reconciling(cfg, s, r, g, a, worker, fence, outcome, proof, receipt);
      if s.attempts[a].state == ReconciliationRequired && outcome == Applied {
        var proved := s.(reconciliations := s.reconciliations[a := Reconciliation(outcome, proof)]);
        ProvedRows(cfg, s, proved, a, receipt);
        ApplyingIff(cfg, proved, a, receipt);
      }
    } else {
      AttemptNeeded(cfg, s, r, g, a, worker, fence, outcome, proof, receipt);
    }
  }

  lemma AttemptNeeded(cfg: Config, s: State, r: RunId, g: Guard, a: AttemptId, worker: string, fence: Fence,
                      outcome: ProofOutcome, proof: Fp, receipt: Option<ReceiptPayload>)
    requires a !in s.attempts
    ensures Reconcile(cfg, s, r, g, a, worker, fence, outcome, proof, receipt).Err?
  {
  }

  /** A proof changes no row that the receipt is checked against. */
  lemma ProvedRows(cfg: Config, s: State, t: State, a: AttemptId, receipt: Option<ReceiptPayload>)
    requires t == s.(reconciliations := t.reconciliations) && a in s.attempts && s.attempts[a].intent in s.intents
    requires RunHere(s, s.intents[s.attempts[a].intent].run)
    ensures RunHere(t, t.intents[t.attempts[a].intent].run)
    ensures receipt.Some? ==>
              (Answers(t, t.attempts[a].intent, receipt.value) <==> Answers(s, s.attempts[a].intent, receipt.value))
    ensures Stands(cfg, t, t.intents[t.attempts[a].intent].run) <==> Stands(cfg, s, s.intents[s.attempts[a].intent].run)
  {
    hide RunOk;
  }

  /** A recorded failure keeps its place among those of its intent in every later state. */
  lemma FailureStays(cfg: Config, s: State, op: Op, more: seq<Op>)
    requires Reachable(cfg, s) && op.OpRecordAmbiguous? && Do(cfg, s, op).Ok?
    ensures op.attemptId in s.attempts
    ensures var i := s.attempts[op.attemptId].intent;
            Get(s.failures, i) + [Failure(op.failure, s.now)] <= Get(Run(cfg, After(cfg, s, op), more).failures, i)
  {
    hide Reachable, Inv, Evolves, Run, Grow, RecordAmbiguous;
    var t := After(cfg, s, op);
    var u := Run(cfg, t, more);
    ReachableInv(cfg, s);
    AmbiguousMeaning(s, op.attemptId, op.worker, op.fence, op.failure, t);
    StepKeepsInv(cfg, s, op);
    RunHolds(cfg, t, more);
    FailuresGrow(t, u);
    GrowKeeps(t.failures, u.failures, s.attempts[op.attemptId].intent);
  }

  lemma FailuresGrow(s: State, t: State)
    requires Evolves(s, t)
    ensures Grow(s.failures, t.failures)
  {
    hide Grow, RunsEvolve, Stamped;
  }
}
