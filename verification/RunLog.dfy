/**
 The run-event log of one run and the gate that authorizes each new event
 (packages/domain/src/run.ts). The gate replays the whole stream; its cursor is
 the bookkeeping of that replay.
 */
module RunLog {
  import opened Common

  type Time = int       // milliseconds
  type RunId = nat
  type EventId = nat
  type LeaseId = nat

  const MAX_EVENTS := 300
  const MAX_GENERATION := 1_000_000

  // ---------------------------------------------------------------- statuses

  datatype Status =
    | Created | ChangeParsed | BaselineAssessed | ContextCollecting | ContextCollected
    | RiskDecided | MigrationPlanned | PatchGenerated | Validating | Validated
    | ReviewArtifactCreated | WritebackPending | Completed
    | FailedContext | FailedGeneration | FailedValidation | FailedGithub | FailedWriteback
    | Cancelled

  predicate Terminal(s: Status) {
    s.Completed? || s.FailedContext? || s.FailedGeneration? || s.FailedValidation?
    || s.FailedGithub? || s.FailedWriteback? || s.Cancelled?
  }

  function SuccessOf(s: Status): Option<Status> {
    match s
    case Created => Some(ChangeParsed)
    case ChangeParsed => Some(BaselineAssessed)
    case BaselineAssessed => Some(ContextCollecting)
    case ContextCollecting => Some(ContextCollected)
    case ContextCollected => Some(RiskDecided)
    case RiskDecided => Some(MigrationPlanned)
    case MigrationPlanned => Some(PatchGenerated)
    case PatchGenerated => Some(Validating)
    case Validating => Some(Validated)
    case Validated => Some(ReviewArtifactCreated)
    case ReviewArtifactCreated => Some(WritebackPending)
    case WritebackPending => Some(Completed)
    case _ => None
  }

  function FailureOf(s: Status): Option<Status> {
    match s
    case ContextCollecting | ContextCollected => Some(FailedContext)
    case RiskDecided | MigrationPlanned | PatchGenerated => Some(FailedGeneration)
    case Validating => Some(FailedValidation)
    case Validated | ReviewArtifactCreated => Some(FailedGithub)
    case WritebackPending => Some(FailedWriteback)
    case _ => None
  }

  /** isAdjacentRunStatus: the domain's edges. */
  predicate Adjacent(from: Status, to: Status) {
    && !Terminal(from)
    && (to == Cancelled || SuccessOf(from) == Some(to) || FailureOf(from) == Some(to))
  }

  /** transition_run's edges: the SQL list also lets CANCELLED follow anything. */
  predicate SqlEdge(from: Status, to: Status) {
    to == Cancelled || SuccessOf(from) == Some(to) || FailureOf(from) == Some(to)
  }

  function Rank(s: Status): nat {
    match s
    case Created => 0
    case ChangeParsed => 1
    case BaselineAssessed => 2
    case ContextCollecting => 3
    case ContextCollected => 4
    case RiskDecided => 5
    case MigrationPlanned => 6
    case PatchGenerated => 7
    case Validating => 8
    case Validated => 9
    case ReviewArtifactCreated => 10
    case WritebackPending => 11
    case _ => 12
  }

  // ------------------------------------------------------------------ events

  datatype RetryOp = DatahubRead | Generation | GithubWrite | DatahubWrite

  datatype Body =
    | StatusChanged(from: Status, to: Status)
    | Acquired(expiresAt: Time)
    | Renewed(previousExpiresAt: Time, newExpiresAt: Time)
    | Released
    | Expired(expiredAt: Time)
    | RetryScheduled(operation: RetryOp, attempt: nat, retryAt: Time)

  datatype Event = Event(
    id: EventId, run: RunId, sequence: nat, at: Time,
    leaseId: LeaseId, worker: string, generation: nat, body: Body)

  function RetryDelay(attempt: nat): Time {
    if attempt == 1 then 1_000 else if attempt == 2 then 5_000 else 30_000
  }

  predicate RetryAllowed(op: RetryOp, s: Status) {
    match op
    case DatahubRead => s == ContextCollecting
    case Generation => s == RiskDecided || s == MigrationPlanned
    case GithubWrite => s == Validated
    case DatahubWrite => s == WritebackPending
  }

  /** The per-event schema refinements. */
  predicate WellFormed(e: Event) {
    && 1 <= e.generation <= MAX_GENERATION
    && 1 <= |e.worker| <= 160
    && match e.body
       case StatusChanged(from, to) => Adjacent(from, to)
       case Acquired(expiresAt) => expiresAt > e.at
       case Renewed(previous, expiresAt) => expiresAt > previous && e.at < previous
       case Released => true
       case Expired(expiredAt) => expiredAt == e.at
       case RetryScheduled(_, attempt, retryAt) =>
         1 <= attempt <= 3 && retryAt - e.at == RetryDelay(attempt)
  }

  // -------------------------------------------------------------------- gate

  datatype ActiveLease = ActiveLease(id: LeaseId, worker: string, generation: nat, expiresAt: Time)

  datatype Cursor = Cursor(
    length: nat, run: Option<RunId>, ids: set<EventId>, at: Time,
    status: Status, lease: Option<ActiveLease>,
    usedLeases: set<LeaseId>, highest: nat, retries: map<RetryOp, nat>)

  const START := Cursor(0, None, {}, 0, Created, None, {}, 0, map[])

  predicate Owns(c: Cursor, e: Event) {
    && c.lease.Some?
    && c.lease.value.id == e.leaseId
    && c.lease.value.worker == e.worker
    && c.lease.value.generation == e.generation
  }

  predicate OwnsLive(c: Cursor, e: Event) {
    Owns(c, e) && e.at < c.lease.value.expiresAt
  }

  function PreviousAttempt(c: Cursor, op: RetryOp): nat {
    if op in c.retries then c.retries[op] else 0
  }

  /** The checks the stream refinement makes on one event before looking at its type. */
  predicate InStep(c: Cursor, e: Event) {
    && WellFormed(e)
    && c.length < MAX_EVENTS
    && (c.run.Some? ==> c.run.value == e.run)
    && e.id !in c.ids
    && e.sequence == c.length
    && (c.length > 0 ==> e.at >= c.at && !Terminal(c.status))
  }

  /** The checks that depend on the event's type. */
  predicate BodyAllowed(c: Cursor, e: Event) {
    match e.body
    case StatusChanged(from, _) => OwnsLive(c, e) && from == c.status
    case Acquired(_) => c.lease.None? && e.leaseId !in c.usedLeases && e.generation > c.highest
    case Renewed(previous, _) => OwnsLive(c, e) && c.lease.value.expiresAt == previous
    case Released => OwnsLive(c, e)
    case Expired(expiredAt) => Owns(c, e) && expiredAt >= c.lease.value.expiresAt
    case RetryScheduled(op, attempt, _) =>
      OwnsLive(c, e) && RetryAllowed(op, c.status) && attempt == PreviousAttempt(c, op) + 1
  }

  function Advance(c: Cursor, e: Event): Option<Cursor> {
    if !InStep(c, e) || !BodyAllowed(c, e) then None
    else
      var next := c.(length := c.length + 1, run := Some(e.run), ids := c.ids + {e.id}, at := e.at);
      match e.body
      case StatusChanged(_, to) =>
        Some(next.(status := to, lease := if Terminal(to) then None else c.lease))
      case Acquired(expiresAt) =>
        Some(next.(lease := Some(ActiveLease(e.leaseId, e.worker, e.generation, expiresAt)),
                   usedLeases := c.usedLeases + {e.leaseId}, highest := e.generation))
      case Renewed(_, expiresAt) =>
        Some(next.(lease := Some(ActiveLease(e.leaseId, e.worker, e.generation, expiresAt))))
      case Released => Some(next.(lease := None))
      case Expired(_) => Some(next.(lease := None))
      case RetryScheduled(op, attempt, _) => Some(next.(retries := c.retries[op := attempt]))
  }

  /** The cursor after a stream, or None when the refinement reports any issue. */
  function Fold(log: seq<Event>): Option<Cursor>
    decreases |log|
  {
    if |log| == 0 then Some(START)
    else
      match Fold(log[..|log| - 1])
      case None => None
      case Some(c) => Advance(c, log[|log| - 1])
  }

  /** authorizeRunEvent: the stream with the proposed event must pass, at the trusted time. */
  predicate Authorized(log: seq<Event>, e: Event, now: Time) {
    e.at == now && Fold(log + [e]).Some?
  }

  /** The refinement's own loop, which stops at nothing and remembers whether it saw an issue. */
  method CheckStream(log: seq<Event>) returns (ok: bool, cursor: Cursor)
    ensures ok <==> Fold(log).Some?
    ensures ok ==> Fold(log) == Some(cursor)
  {
    ok, cursor := true, START;
    for i := 0 to |log|
      invariant ok <==> Fold(log[..i]).Some?
      invariant ok ==> Fold(log[..i]) == Some(cursor)
    {
      assert log[..i + 1][..i] == log[..i];
      if ok {
        var next := Advance(cursor, log[i]);
        if next.Some? {
          cursor := next.value;
        } else {
          ok := false;
        }
      }
    }
    assert log[..|log|] == log;
  }

  lemma FoldAppend(log: seq<Event>, e: Event)
    ensures Fold(log + [e]) == match Fold(log) case None => None case Some(c) => Advance(c, e)
  {
    assert (log + [e])[..|log|] == log;
  }

  lemma {:induction false} FoldPrefix(log: seq<Event>, k: nat)
    requires k <= |log| && Fold(log).Some?
    ensures Fold(log[..k]).Some?
    decreases |log|
  {
    if k == |log| {
      assert log[..k] == log;
    } else {
      FoldPrefix(log[..|log| - 1], k);
      assert log[..|log| - 1][..k] == log[..k];
    }
  }

  lemma {:induction false} FoldLength(log: seq<Event>)
    requires Fold(log).Some?
    ensures Fold(log).value.length == |log| <= MAX_EVENTS
    ensures |log| > 0 ==> Fold(log).value.at == log[|log| - 1].at
    ensures Fold(log).value.lease.Some? ==>
              Fold(log).value.lease.value.generation == Fold(log).value.highest
    decreases |log|
  {
    if |log| > 0 {
      FoldLength(log[..|log| - 1]);
    }
  }

  // ----------------------------------------------------- what the gate gives

  /** What a reader of the log sees: no checks, only the effect of each event. */
  datatype RunView = RunView(status: Status, lease: Option<ActiveLease>, generation: nat)

  function Apply(v: RunView, e: Event): RunView {
    match e.body
    case StatusChanged(_, to) => v.(status := to, lease := if Terminal(to) then None else v.lease)
    case Acquired(expiresAt) =>
      v.(lease := Some(ActiveLease(e.leaseId, e.worker, e.generation, expiresAt)), generation := e.generation)
    case Renewed(_, expiresAt) =>
      v.(lease := Some(ActiveLease(e.leaseId, e.worker, e.generation, expiresAt)))
    case Released | Expired(_) => v.(lease := None)
    case RetryScheduled(_, _, _) => v
  }

  function Replay(log: seq<Event>): RunView
    decreases |log|
  {
    if |log| == 0 then RunView(Created, None, 0)
    else Apply(Replay(log[..|log| - 1]), log[|log| - 1])
  }

  lemma {:induction false} ReplayIsCursor(log: seq<Event>)
    requires Fold(log).Some?
    ensures var c := Fold(log).value; Replay(log) == RunView(c.status, c.lease, c.highest)
    decreases |log|
  {
    if |log| > 0 {
      ReplayIsCursor(log[..|log| - 1]);
    }
  }

  lemma EdgeRaisesRank(from: Status, to: Status)
    requires Adjacent(from, to)
    ensures Rank(from) < Rank(to) <= 12
    ensures Terminal(to) <==> Rank(to) == 12
    ensures SqlEdge(from, to)
  {
  }

  /** The status graph by ranks: one step up, the failure of one's own stage, or a cancellation. */
  lemma EdgesByRank(from: Status, to: Status)
    ensures Adjacent(from, to)
            <==> && Rank(from) < 12
                 && (|| to == Cancelled || (Rank(to) < 12 && Rank(to) == Rank(from) + 1)
                     || (to == Completed && Rank(from) == 11)
                     || (to == FailedContext && 3 <= Rank(from) <= 4)
                     || (to == FailedGeneration && 5 <= Rank(from) <= 7)
                     || (to == FailedValidation && Rank(from) == 8)
                     || (to == FailedGithub && 9 <= Rank(from) <= 10)
                     || (to == FailedWriteback && Rank(from) == 11))
  {
  }

  function StatusChanges(log: seq<Event>): nat
    decreases |log|
  {
    if |log| == 0 then 0
    else StatusChanges(log[..|log| - 1]) + if log[|log| - 1].body.StatusChanged? then 1 else 0
  }

  /** An accepted log changes status at most twelve times, and nothing follows a terminal status. */
  lemma {:induction false} StatusChangesBounded(log: seq<Event>)
    requires Fold(log).Some?
    ensures StatusChanges(log) <= Rank(Fold(log).value.status) <= 12
    ensures forall i :: 0 <= i < |log| && log[i].body.StatusChanged? && Terminal(log[i].body.to) ==> i == |log| - 1
    decreases |log|
  {
    if |log| > 0 {
      var front := log[..|log| - 1];
      StatusChangesBounded(front);
      FoldLength(front);
      var last := log[|log| - 1];
      if last.body.StatusChanged? {
        EdgeRaisesRank(last.body.from, last.body.to);
      }
      if |front| > 0 {
        forall i | 0 <= i < |log| - 1 && log[i].body.StatusChanged? && Terminal(log[i].body.to)
          ensures false
        {
          assert front[i] == log[i];
          TerminalEndsLog(front, last);
        }
      }
    }
  }

  lemma TerminalEndsLog(front: seq<Event>, e: Event)
    requires |front| > 0 && Fold(front).Some? && Fold(front + [e]).Some?
    ensures !front[|front| - 1].body.StatusChanged? || !Terminal(front[|front| - 1].body.to)
  {
    FoldAppend(front, e);
    FoldLength(front);
  }

  // ------------------------------------------------------------ lease tenures

  /** The database-time interval during which one lease could authorize work. */
  datatype Tenure = Tenure(generation: nat, start: Time, end: Time)

  function EndLast(ts: seq<Tenure>, at: Time): seq<Tenure> {
    if |ts| == 0 then ts else ts[|ts| - 1 := ts[|ts| - 1].(end := at)]
  }

  function TenuresAfter(ts: seq<Tenure>, e: Event): seq<Tenure> {
    match e.body
    case StatusChanged(_, to) => if Terminal(to) then EndLast(ts, e.at) else ts
    case Acquired(expiresAt) => ts + [Tenure(e.generation, e.at, expiresAt)]
    case Renewed(_, expiresAt) => EndLast(ts, expiresAt)
    case Released => EndLast(ts, e.at)
    case Expired(_) => ts
    case RetryScheduled(_, _, _) => ts
  }

  function Tenures(log: seq<Event>): seq<Tenure>
    decreases |log|
  {
    if |log| == 0 then [] else TenuresAfter(Tenures(log[..|log| - 1]), log[|log| - 1])
  }

  ghost predicate Disjoint(ts: seq<Tenure>) {
    && (forall i :: 0 <= i < |ts| ==> ts[i].start <= ts[i].end)
    && (forall i, j :: 0 <= i < j < |ts| ==> ts[i].end <= ts[j].start && ts[i].generation < ts[j].generation)
  }

  /** How the last tenure stands against the cursor. */
  ghost predicate TenureCursor(ts: seq<Tenure>, c: Cursor) {
    && (|ts| == 0 ==> c.lease.None? && c.highest == 0)
    && (|ts| > 0 ==>
          && c.length > 0
          && ts[|ts| - 1].generation == c.highest
          && ts[|ts| - 1].start <= c.at
          && (c.lease.None? ==> ts[|ts| - 1].end <= c.at)
          && (c.lease.Some? ==> ts[|ts| - 1].end == c.lease.value.expiresAt))
  }

  lemma EndLastKeepsDisjoint(ts: seq<Tenure>, at: Time)
    requires Disjoint(ts) && |ts| > 0 && ts[|ts| - 1].start <= at
    ensures Disjoint(EndLast(ts, at))
  {
  }

  lemma TenureStep(ts: seq<Tenure>, c: Cursor, e: Event)
    requires Disjoint(ts) && TenureCursor(ts, c) && Advance(c, e).Some?
    requires c.lease.Some? ==> c.lease.value.generation == c.highest
    ensures Disjoint(TenuresAfter(ts, e)) && TenureCursor(TenuresAfter(ts, e), Advance(c, e).value)
  {
    match e.body
    case StatusChanged(_, to) => if Terminal(to) { EndLastKeepsDisjoint(ts, e.at); }
    case Acquired(expiresAt) =>
      if |ts| > 0 {
        assert ts[|ts| - 1].end <= e.at;
      }
    case Renewed(_, expiresAt) => EndLastKeepsDisjoint(ts, expiresAt);
    case Released => EndLastKeepsDisjoint(ts, e.at);
    case Expired(_) =>
    case RetryScheduled(_, _, _) =>
  }

  lemma {:induction false} TenuresHold(log: seq<Event>)
    requires Fold(log).Some?
    ensures Disjoint(Tenures(log)) && TenureCursor(Tenures(log), Fold(log).value)
    decreases |log|
  {
    if |log| > 0 {
      var front := log[..|log| - 1];
      TenuresHold(front);
      FoldLength(front);
      TenureStep(Tenures(front), Fold(front).value, log[|log| - 1]);
    }
  }

  /** Lease exclusion: tenures of successive generations never overlap in database time. */
  lemma TenuresDisjoint(log: seq<Event>)
    requires Fold(log).Some?
    ensures forall i, j :: 0 <= i < j < |Tenures(log)| ==>
      && Tenures(log)[i].end <= Tenures(log)[j].start
      && Tenures(log)[i].generation < Tenures(log)[j].generation
  {
    TenuresHold(log);
  }

  /** Fencing in the log: an event never carries an older generation than one before it. */
  lemma {:induction false} GenerationsNeverFall(log: seq<Event>)
    requires Fold(log).Some?
    ensures forall i, j :: 0 <= i <= j < |log| ==> log[i].generation <= log[j].generation
    ensures forall i :: 0 <= i < |log| ==> log[i].generation <= Fold(log).value.highest
    decreases |log|
  {
    if |log| > 0 {
      var front := log[..|log| - 1];
      GenerationsNeverFall(front);
      FoldLength(front);
      assert forall i :: 0 <= i < |front| ==> log[i] == front[i];
      assert log[|log| - 1].generation == Fold(log).value.highest;
    }
  }

  /** Every event but an expiry lies inside the tenure of the lease it carries. */
  lemma {:induction false} EventsInsideTenure(log: seq<Event>)
    requires Fold(log).Some? && |log| > 0
    ensures var e := log[|log| - 1]; var before := Tenures(log[..|log| - 1]);
            !e.body.Acquired? && !e.body.Expired? ==>
              |before| > 0 && var t := before[|before| - 1];
              t.generation == e.generation && t.start <= e.at < t.end
  {
    TenuresHold(log[..|log| - 1]);
    FoldLength(log[..|log| - 1]);
  }
}
