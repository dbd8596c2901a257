/**
 What may happen around a write-back call: deliveries of what was sent, edits by
 others, other writers, late consumptions. And what none of it can break.
 */
module WritebackSafety {
  import opened Common
  import opened WritebackModel

  type Claim = nat

  datatype RowState = Reserved | Consumed(attempt: string, fence: string)
  datatype AuthorityRow = AuthorityRow(effect: Request, invokeBy: Time, reservation: string, state: RowState)

  /** One mutation on its way: for which request, under which claim, and the clock reading before it left. */
  datatype Send = Send(mutation: Mutation, request: Request, claim: Claim, at: Time)

  /** Everything a port shares with the rest of the system. */
  datatype Whole = Whole(world: World, sends: seq<Send>, rows: map<Claim, AuthorityRow>, now: Time)

  ghost predicate ConsumedUntil(rows: map<Claim, AuthorityRow>, claim: Claim, q: Request, invokeBy: Time) {
    claim in rows && rows[claim].state.Consumed? && rows[claim].effect == q && rows[claim].invokeBy == invokeBy
  }

  /** The claim's row is the one this consumption answered with. */
  ghost predicate ConsumedAs(rows: map<Claim, AuthorityRow>, claim: Claim, c: ConsumedAuthority) {
    claim in rows && rows[claim] == AuthorityRow(c.effect, c.invokeBy, c.reservation, Consumed(c.attempt, c.fence))
  }

  /** Sent for an approved effect, whose consumed authority the last clock reading had not outlived. */
  ghost predicate SendOk(s: Send, rows: map<Claim, AuthorityRow>, now: Time) {
    && s.claim in rows && ConsumedUntil(rows, s.claim, s.request, rows[s.claim].invokeBy)
    && s.at <= rows[s.claim].invokeBy && s.at <= now
    && (s.mutation == SaveDocument(DocumentArgumentsOf(s.request)) || s.mutation == AddTags(TagArgumentsOf(s.request)))
  }

  ghost predicate Saved(s: Send, id: DocumentId, d: Document) {
    && s.mutation.SaveDocument? && DocumentIdOf(s.request) == id
    && d == Document(Title(s.request), Content(s.request), [s.request.source])
  }

  /** Every decision document is exactly what some request had saved. */
  ghost predicate DocumentsIssued(w: World, sends: seq<Send>) {
    forall id :: id in w.docs ==> exists k :: 0 <= k < |sends| && Saved(sends[k], id, w.docs[id])
  }

  /** Reviewed comes only from a sent tag, and a tag is only sent for a document that is there. */
  ghost predicate TagsBacked(w: World, sends: seq<Send>) {
    && (forall k :: 0 <= k < |sends| && sends[k].mutation.AddTags? ==> DocumentIdOf(sends[k].request) in w.docs)
    && (REVIEWED in w.tags ==> exists k :: 0 <= k < |sends| && sends[k].mutation.AddTags?)
  }

  ghost predicate SendsOk(sends: seq<Send>, rows: map<Claim, AuthorityRow>, now: Time) {
    forall k :: 0 <= k < |sends| ==> SendOk(sends[k], rows, now)
  }

  ghost predicate Safe(x: Whole) {
    DocumentsIssued(x.world, x.sends) && TagsBacked(x.world, x.sends) && SendsOk(x.sends, x.rows, x.now)
  }

  /** A remote that holds neither decision documents nor the Reviewed tag, and nothing under way. */
  ghost predicate Clean(x: Whole) {
    x.world.docs == map[] && REVIEWED !in x.world.tags && x.sends == []
  }

  lemma CleanIsSafe(x: Whole)
    requires Clean(x)
    ensures Safe(x)
  {
  }

  /** The Reviewed tag never stands without the exact decision document of a request that was sent. */
  lemma ReviewedHasItsDocument(x: Whole) returns (q: Request)
    requires Safe(x) && REVIEWED in x.world.tags
    ensures HoldsDocument(x.world, q)
    ensures exists k :: 0 <= k < |x.sends| && x.sends[k].request == q && x.sends[k].mutation.SaveDocument?
  {
    var k :| 0 <= k < |x.sends| && x.sends[k].mutation.AddTags?;
    var id := DocumentIdOf(x.sends[k].request);
    var l :| 0 <= l < |x.sends| && Saved(x.sends[l], id, x.world.docs[id]);
    q := x.sends[l].request;
  }

  /** When every write was for one request, it is that request's document. */
  lemma ReviewedHasTheDocument(x: Whole, q: Request)
    requires Safe(x) && REVIEWED in x.world.tags
    requires forall k :: 0 <= k < |x.sends| ==> x.sends[k].request == q
    ensures HoldsDocument(x.world, q)
  {
    var sent := ReviewedHasItsDocument(x);
  }

  // ------------------------------------------------------------------------ time order

  /** How the whole may move while others act: nothing sent, consumed or documented goes away, nothing is backdated. */
  ghost predicate Later(x: Whole, y: Whole) {
    && x.now <= y.now
    && x.sends <= y.sends
    && (forall k :: |x.sends| <= k < |y.sends| ==> x.now <= y.sends[k].at)
    && x.world.docs.Keys <= y.world.docs.Keys
    && RowsLater(x.rows, y.rows)
  }

  /** A reservation can only be spent, once. */
  ghost predicate RowsLater(before: map<Claim, AuthorityRow>, after: map<Claim, AuthorityRow>) {
    forall c :: c in before ==>
      c in after && after[c] == if before[c].state.Consumed? then before[c] else before[c].(state := after[c].state)
  }

  lemma LaterTransitive(x: Whole, y: Whole, z: Whole)
    requires Later(x, y) && Later(y, z)
    ensures Later(x, z)
  {
    assert forall k :: 0 <= k < |y.sends| ==> z.sends[k] == y.sends[k];
  }

  /** Nothing was sent between the two under a claim whose deadline had passed at the first. */
  ghost predicate Silent(x: Whole, y: Whole) {
    forall k, claim | |x.sends| <= k < |y.sends| && claim in x.rows && x.rows[claim].invokeBy < x.now ::
      y.sends[k].claim != claim
  }

  /** Once a claim's deadline has passed, no call and no writer ever sends under it again. */
  lemma ExpiredClaimsAreSilent(x: Whole, y: Whole)
    requires Later(x, y) && Safe(y)
    ensures Silent(x, y)
  {
    hide DocumentsIssued, TagsBacked;
    forall k, claim | |x.sends| <= k < |y.sends| && claim in x.rows && x.rows[claim].invokeBy < x.now
      ensures y.sends[k].claim != claim
    {
      assert SendOk(y.sends[k], y.rows, y.now);
    }
  }

  lemma LaterReflexive(x: Whole)
    ensures Later(x, x)
  {
  }

  lemma SendStaysOk(s: Send, x: Whole, rows: map<Claim, AuthorityRow>, now: Time)
    requires SendOk(s, x.rows, x.now) && x.now <= now
    requires RowsLater(x.rows, rows)
    ensures SendOk(s, rows, now)
  {
  }

  lemma RowsAndClockMove(x: Whole, rows: map<Claim, AuthorityRow>, now: Time)
    requires Safe(x) && x.now <= now
    requires RowsLater(x.rows, rows)
    ensures var y := x.(rows := rows, now := now); Safe(y) && Later(x, y)
  {
    hide DocumentsIssued, TagsBacked, SendOk;
    forall k | 0 <= k < |x.sends| ensures SendOk(x.sends[k], rows, now) {
      SendStaysOk(x.sends[k], x, rows, now);
    }
  }

  /** Others may edit the entity and its other tags; only a sent tag sets Reviewed. */
  lemma EditMoves(x: Whole, world: World)
    requires Safe(x) && world.docs == x.world.docs && (REVIEWED in world.tags ==> REVIEWED in x.world.tags)
    ensures var y := x.(world := world); Safe(y) && Later(x, y)
  {
    hide SendOk, SendsOk;
  }

  /** A delivery, on time, late or repeated. */
  lemma DeliveryMoves(x: Whole, k: nat, version: Option<string>)
    requires Safe(x) && k < |x.sends|
    ensures var y := x.(world := Apply(x.world, x.sends[k].mutation, version)); Safe(y) && Later(x, y)
  {
    assert SendOk(x.sends[k], x.rows, x.now);
    if x.sends[k].mutation.SaveDocument? {
      SavedByItself(x.sends[k], x.rows, x.now);
      DocumentArrives(x, k, version);
    } else {
      TagArrives(x, k, version);
    }
  }

  lemma DocumentArrives(x: Whole, k: nat, version: Option<string>)
    requires Safe(x) && k < |x.sends| && x.sends[k].mutation.SaveDocument?
    requires var d := x.sends[k].mutation.document; Saved(x.sends[k], d.id, Document(d.title, d.content, d.related))
    ensures var y := x.(world := Apply(x.world, x.sends[k].mutation, version)); Safe(y) && Later(x, y)
  {
    hide SendsOk, Saved;
    var y := x.(world := Apply(x.world, x.sends[k].mutation, version));
    forall id | id in y.world.docs ensures exists l :: 0 <= l < |x.sends| && Saved(x.sends[l], id, y.world.docs[id]) {
      if id == x.sends[k].mutation.document.id {
        assert Saved(x.sends[k], id, y.world.docs[id]);
      } else {
        var l :| 0 <= l < |x.sends| && Saved(x.sends[l], id, x.world.docs[id]);
      }
    }
  }

  lemma TagArrives(x: Whole, k: nat, version: Option<string>)
    requires Safe(x) && k < |x.sends| && x.sends[k].mutation.AddTags?
    ensures var y := x.(world := Apply(x.world, x.sends[k].mutation, version)); Safe(y) && Later(x, y)
  {
    hide SendsOk, Saved;
  }

  lemma SavedByItself(s: Send, rows: map<Claim, AuthorityRow>, now: Time)
    requires SendOk(s, rows, now) && s.mutation.SaveDocument?
    ensures var d := s.mutation.document; Saved(s, d.id, Document(d.title, d.content, d.related))
  {
  }

  /** A mutation leaves: a document any time, a tag only when its document is there. */
  lemma SendMoves(x: Whole, s: Send)
    requires Safe(x) && SendOk(s, x.rows, x.now) && s.at == x.now
    requires s.mutation.AddTags? ==> DocumentIdOf(s.request) in x.world.docs
    ensures var y := x.(sends := x.sends + [s]); Safe(y) && Later(x, y)
  {
    hide SendOk, Saved;
    var y := x.(sends := x.sends + [s]);
    forall id | id in y.world.docs ensures exists l :: 0 <= l < |y.sends| && Saved(y.sends[l], id, y.world.docs[id]) {
      var l :| 0 <= l < |x.sends| && Saved(x.sends[l], id, x.world.docs[id]);
      assert y.sends[l] == x.sends[l];
    }
    if REVIEWED in x.world.tags {
      var k :| 0 <= k < |x.sends| && x.sends[k].mutation.AddTags?;
      assert y.sends[k].mutation.AddTags?;
    }
  }
}
