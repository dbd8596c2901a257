/**
 LiveDataHubWritebackPort.write over a remote, an authority and a clock that may fail,
 stall or move at every call (packages/datahub/src/writeback.ts).
 */
module Writeback {
  import opened Common
  import opened WritebackModel
  import opened WritebackSafety

  /** How a remote call comes back: with a value, with an error, or not at all. */
  datatype Call<+T> = Done(value: T) | Failed(fault: Fault) | Crashed

  datatype Verified = Verified(
    effect: Request, invokeBy: Time, reservation: string, consumed: bool, attempt: string, fence: string)

  /**
   What surrounds a call. In a storm anything may fail or move. Otherwise nobody else acts, time stands still and every
   call is answered, but for the one send that Lost names: the save or the tag, applied or not, fails with this fault.
   */
  datatype Weather = Storm | Calm | Lost(document: bool, applied: bool, fault: Fault)

  datatype Outcome = Returned(receipt: Receipt) | Threw(fault: Fault) | Died

  method AnyNat() returns (n: nat) {
    var i: int := *;
    n := if i < 0 then -i else i;
  }

  /** The reader, the mutation tools, the authority and the clock that a port depends on. */
  class Surroundings {
    var x: Whole
    ghost var seen: seq<World>   // the remote as each successful read found it
    const weather: Weather

    constructor (x: Whole, weather: Weather)
      ensures this.x == x && this.weather == weather && seen == []
    {
      this.x := x;
      this.weather := weather;
      seen := [];
    }

    predicate Still() {
      !weather.Storm?
    }

    /** The weather is against this send. */
    predicate Hits(m: Mutation) {
      weather.Lost? && (weather.document <==> m.SaveDocument?)
    }

    /** What a send leaves of the remote, while the surroundings are still. */
    function Sent(w: World, m: Mutation): World {
      if Hits(m) && !weather.applied then w else Apply(w, m, w.version)
    }

    /** What the last successful read found. */
    ghost function Found(): World
      requires seen != []
      reads this`seen
    {
      seen[|seen| - 1]
    }

    /** One thing that others may do. */
    method OtherStep()
      requires Safe(x)
      modifies this`x
      ensures Safe(x) && Later(old(x), x)
    {
      var choice: int := *;
      var claim: Claim := AnyNat();
      if choice == 0 {
        var k := AnyNat();
        var version: Option<string> := *;
        if k < |x.sends| {
          DeliveryMoves(x, k, version);
          x := x.(world := Apply(x.world, x.sends[k].mutation, version));
        }
      } else if choice == 1 {
        var world: World := *;
        if world.docs == x.world.docs && (REVIEWED in world.tags ==> REVIEWED in x.world.tags) {
          EditMoves(x, world);
          x := x.(world := world);
        }
      } else if choice == 2 {
        var new': AuthorityRow := *;
        var row := if claim in x.rows then x.rows[claim].(state := new'.state) else new';
        if claim in x.rows ==> x.rows[claim].state.Reserved? {
          RowsAndClockMove(x, x.rows[claim := row], x.now);
          x := x.(rows := x.rows[claim := row]);
        }
      } else if choice == 3 {
        var send: Send := *;
        if claim in x.rows && x.rows[claim].state.Consumed? && x.now <= x.rows[claim].invokeBy {
          OtherSend(claim, send.mutation.SaveDocument?);
        }
      } else {
        var elapsed := AnyNat();
        RowsAndClockMove(x, x.rows, x.now + elapsed);
        x := x.(now := x.now + elapsed);
      }
    }

    /** Another writer sends what its own claim allows. */
    method OtherSend(claim: Claim, document: bool)
      requires Safe(x) && claim in x.rows && x.rows[claim].state.Consumed? && x.now <= x.rows[claim].invokeBy
      modifies this`x
      ensures Safe(x) && Later(old(x), x)
    {
      var q := x.rows[claim].effect;
      if document || DocumentIdOf(q) in x.world.docs {
        var m := if document then SaveDocument(DocumentArgumentsOf(q)) else AddTags(TagArgumentsOf(q));
        SendMoves(x, Send(m, q, claim, x.now));
        x := x.(sends := x.sends + [Send(m, q, claim, x.now)]);
      }
    }

    /** Any number of such steps, unless the surroundings are still. */
    method Interfere()
      requires Safe(x)
      modifies this`x
      ensures Safe(x) && Later(old(x), x) && (Still() ==> x == old(x))
    {
      if !Still() {
        ghost var start := x;
        var steps := AnyNat();
        for i := 0 to steps
          invariant Safe(x) && Later(start, x)
        {
          ghost var mid := x;
          OtherStep();
          LaterTransitive(start, mid, x);
        }
      }
    }

    /** Clock readings never go back. */
    method ReadClock() returns (t: Time)
      requires Safe(x)
      modifies this`x
      ensures t == x.now >= old(x).now && x == old(x).(now := t) && Safe(x) && Later(old(x), x)
      ensures Still() ==> x == old(x)
    {
      var elapsed := AnyNat();
      if !Still() {
        RowsAndClockMove(x, x.rows, x.now + elapsed);
        x := x.(now := x.now + elapsed);
      }
      t := x.now;
    }

    method Fate() returns (fate: Call<()>)
      ensures Still() ==> fate == Done(())
    {
      var any: Call<()> := *;
      return if Still() then Done(()) else any;
    }

    /** readExact, with the checks every use of it makes; the remote may have moved on before the answer is used. */
    method Read(q: Request, phase: Phase) returns (r: Call<(Snapshot, WriteProof)>)
      requires Safe(x)
      modifies this`x, this`seen
      ensures Safe(x) && Later(old(x), x) && (Still() ==> x == old(x) && !r.Crashed?)
      ensures old(seen) <= seen
      ensures r.Done? ==> |seen| == |old(seen)| + 1 && Observe(Found(), q, phase) == Ok(r.value)
                          && Found().docs.Keys <= x.world.docs.Keys && (Still() ==> Found() == x.world)
      ensures Still() && r.Failed? ==> Observe(x.world, q, phase) == Err(r.fault)
    {
      hide Safe, Observe, RowsLater;
      ghost var start := x;
      Interfere();
      var fate := Fate();
      match fate
      case Crashed => return Crashed;
      case Failed(fault) => return Failed(fault);
      case Done(_) =>
        match Observe(x.world, q, phase)
        case Err(fault) => return Failed(fault);
        case Ok(shown) =>
          ghost var found := x;
          seen := seen + [found.world];
          Interfere();
          LaterTransitive(start, found, x);
          return Done(shown);
    }

    /** verifyCurrentEffectReservation */
    method Verify(claim: Claim) returns (r: Call<Verified>)
      requires Safe(x)
      modifies this`x
      ensures Safe(x) && Later(old(x), x) && (Still() ==> x == old(x))
      ensures r.Done? ==> claim in x.rows && r.value == RowView(x.rows[claim])
      ensures Still() && claim in x.rows ==> r.Done?
    {
      Interfere();
      var fate := Fate();
      match fate
      case Crashed => return Crashed;
      case Failed(fault) => return Failed(fault);
      case Done(_) =>
        if claim !in x.rows {
          return Failed(Fault(AUTHORITY_INVALID, false));
        }
        return Done(RowView(x.rows[claim]));
    }

    /** consumeCurrentEffect: it may be refused, and its answer may be lost after it took effect. */
    method Consume(claim: Claim, q: Request) returns (r: Call<ConsumedAuthority>)
      requires Safe(x)
      modifies this`x
      ensures Safe(x) && Later(old(x), x)
      ensures r.Done? ==> ConsumedAs(x.rows, claim, r.value) && r.value.effect == q
      ensures Still() && claim in old(x).rows && old(x).rows[claim].state.Reserved? && old(x).rows[claim].effect == q
              && old(x).now < old(x).rows[claim].invokeBy ==>
                && r.Done? && |r.value.attempt| >= 1 && |r.value.fence| >= 1
                && r.value.invokeBy == old(x).rows[claim].invokeBy
                && x == old(x).(rows := x.rows)
    {
      Interfere();
      var lostBefore := Fate();
      if !lostBefore.Done? {
        return if lostBefore.Crashed? then Crashed else Failed(lostBefore.fault);
      }
      if claim !in x.rows || !x.rows[claim].state.Reserved? || x.rows[claim].effect != q
         || x.rows[claim].invokeBy <= x.now
      {
        return Failed(Fault(AMBIGUOUS, true));
      }
      var attempt: string := *;
      var fence: string := *;
      if Still() {
        attempt, fence := "attempt", "fence";
      }
      var row := x.rows[claim].(state := WritebackSafety.Consumed(attempt, fence));
      RowsAndClockMove(x, x.rows[claim := row], x.now);
      x := x.(rows := x.rows[claim := row]);
      ghost var consumed := x;
      Interfere();
      var lostAfter := Fate();
      if !lostAfter.Done? {
        return if lostAfter.Crashed? then Crashed else Failed(lostAfter.fault);
      }
      return Done(ConsumedAuthority(fence, attempt, q, row.invokeBy, row.reservation));
    }

    /** A mutation tool call: once sent it may be applied now or later, whatever comes back. */
    method Invoke(m: Mutation, q: Request, claim: Claim, at: Time) returns (r: Call<()>)
      requires Safe(x) && SendOk(Send(m, q, claim, at), x.rows, x.now) && at == x.now
      requires m.AddTags? ==> DocumentIdOf(q) in x.world.docs
      modifies this`x
      ensures Safe(x) && Later(old(x), x) && Send(m, q, claim, at) in x.sends
      ensures Still() ==>
                && r == (if Hits(m) then Failed(weather.fault) else Done(()))
                && x.world == Sent(old(x).world, m) && x == old(x).(world := x.world, sends := x.sends)
    {
      ghost var start := x;
      SendMoves(x, Send(m, q, claim, at));
      x := x.(sends := x.sends + [Send(m, q, claim, at)]);
      assert x.sends[|x.sends| - 1] == Send(m, q, claim, at);
      ghost var mid := x;
      if !Still() {
        Interfere();
      } else if !Hits(m) || weather.applied {
        DeliveryMoves(x, |x.sends| - 1, x.world.version);
        x := x.(world := Apply(x.world, m, x.world.version));
      }
      LaterTransitive(start, mid, x);
      r := Fate();
      if Still() && Hits(m) {
        r := Failed(weather.fault);
      }
    }
  }

  /** What one call to write sent, in order: at most the document and then the tag. */
  ghost predicate OwnSends(own: seq<Send>, q: Request, claim: Claim) {
    && |own| <= 2
    && (forall k :: 0 <= k < |own| ==> own[k].request == q && own[k].claim == claim)
    && (|own| == 2 ==> own[0].mutation.SaveDocument? && own[1].mutation.AddTags?)
  }

  /** How many sends of a call were answered. */
  function Answered(came: seq<Call<()>>): nat {
    if |came| == 0 then 0 else (if came[0].Done? then 1 else 0) + Answered(came[1..])
  }

  lemma AnsweredAppend(one: seq<Call<()>>, more: seq<Call<()>>)
    requires |one| <= 1
    ensures Answered(one + more) == Answered(one) + Answered(more)
  {
    if |one| == 1 {
      assert (one + more)[1..] == more && one[1..] == [];
    } else {
      assert one + more == more;
    }
  }

  ghost predicate AllIn(own: seq<Send>, x: Whole) {
    forall k :: 0 <= k < |own| ==> own[k] in x.sends
  }

  lemma StaysIn(own: seq<Send>, x: Whole, y: Whole)
    requires AllIn(own, x) && Later(x, y)
    ensures AllIn(own, y)
  {
  }

  lemma LaterKeepsConsumed(x: Whole, y: Whole, claim: Claim, c: ConsumedAuthority)
    requires Later(x, y) && ConsumedAs(x.rows, claim, c)
    ensures ConsumedAs(y.rows, claim, c)
  {
  }

  /** A read acceptable afterwards is acceptable beforehand exactly when the version is the expected one. */
  lemma SameVersion(w: World, q: Request)
    requires Observe(w, q, After).Ok? && w.version == Some(q.version)
    ensures Observe(w, q, Before) == Observe(w, q, After)
  {
    hide ProofState;
  }

  lemma LaterAgrees(x: Whole, y: Whole, claim: Claim, v: Verified)
    requires Later(x, y) && claim in x.rows && Agrees(v, x.rows[claim])
    ensures claim in y.rows && Agrees(v, y.rows[claim])
  {
  }

  /** What an accepted read says about the remote. */
  lemma ObservedMeans(w: World, q: Request, phase: Phase)
    requires Observe(w, q, phase).Ok?
    ensures var proof := Observe(w, q, phase).value.1;
            && (proof.document <==> HoldsDocument(w, q)) && (proof.tag <==> REVIEWED in w.tags)
            && (proof.document ==> DocumentIdOf(q) in w.docs)
            && w.version.Some?
            && Observe(w, q, After) == Ok(Observe(w, q, phase).value)
  {
    hide ParseEntities, ProofState;
    ProofIsExact(w, q);
    ParsedTags(w, q);
  }

  /** An undisturbed document write shows in the read after it. */
  lemma DocumentStep(w: World, q: Request)
    requires Observe(w, q, Before).Ok?
    ensures var proof := Observe(w, q, Before).value.1;
            var w' := if proof.document then w else Apply(w, SaveDocument(DocumentArgumentsOf(q)), w.version);
            && Observe(w', q, After).Ok? && w'.tags == w.tags && w'.version == w.version
            && Observe(w', q, After).value.1 == WriteProof(true, proof.tag)
  {
    hide Observe, Apply;
    ObservedMeans(w, q, Before);
    DocumentShows(w, q, Before);
  }

  /** A tag that arrives ends in success, unless the entity was full; one that is lost leaves an ambiguous receipt. */
  lemma TagStep(w: World, first: World, q: Request, r: Outcome, w': World, lost: bool)
    requires Observe(w, q, After).Ok? && Observe(w, q, After).value.1 == WriteProof(true, false)
    requires w.tags == first.tags
    requires w' == if lost then w else Apply(w, AddTags(TagArgumentsOf(q)), w.version)
    requires match Observe(w', q, After) case Ok(_) => r.Returned? case Err(fault) => r == Threw(fault)
    requires r.Returned? ==> ReceiptMeans(r.receipt, q, first, w')
    ensures if lost then
              r.Returned? && r.receipt.status == AMBIGUOUS_STATUS && r.receipt.proof == WriteProof(true, false)
            else if |first.tags| < 200 then r.Returned? && r.receipt.status == SUCCEEDED && w'.version == w.version
            else r == Threw(Fault(SCHEMA_DRIFT, false))
  {
    hide Apply, Observe, HoldsDocument;
    ObservedMeans(w, q, After);
    AtMostTwoHundred(w, q);
    TagShows(w, q);
    TagKeepsVersion(w, q);
    if |first.tags| < 200 {
      ObservedMeans(w', q, After);
    }
  }

  /** Without the document a receipt is ambiguous. */
  lemma UnheldIsAmbiguous(r: Receipt, q: Request, w0: World, w1: World)
    requires ReceiptMeans(r, q, w0, w1) && !r.proof.document
    ensures r.status == AMBIGUOUS_STATUS
  {
    hide HoldsDocument;
  }

  lemma TagKeepsVersion(w: World, q: Request)
    ensures Apply(w, AddTags(TagArgumentsOf(q)), w.version).version == w.version
  {
  }

  lemma AtMostTwoHundred(w: World, q: Request)
    requires Observe(w, q, After).Ok?
    ensures |w.tags| <= 200
  {
  }

  /** Whether a call goes on or ends here. */
  datatype Next = Proceed | Stop(outcome: Outcome)

  class Port {
    const out: Surroundings
    const enabled: bool
    const targetInstance: Option<string>
    const claim: Claim

    constructor (out: Surroundings, enabled: bool, targetInstance: Option<string>, claim: Claim)
      ensures this.out == out && this.enabled == enabled && this.targetInstance == targetInstance && this.claim == claim
    {
      this.out := out;
      this.enabled := enabled;
      this.targetInstance := targetInstance;
      this.claim := claim;
    }

    /** The receipt names this claim's consumption, and its last read was acceptable. */
    ghost predicate Accounted(r: Receipt, q: Request, x: Whole, found: World) {
      && r.authority.Some? && ConsumedAs(x.rows, claim, r.authority.value) && r.authority.value.effect == q
      && AuthorityValid(r.authority.value, None)
      && Observe(found, q, After).Ok? && Observe(found, q, After).value.1 == r.proof
    }

    /** A receipt is true of what the last read found, and nothing has moved since if the surroundings are still. */
    ghost predicate TrueReceipt(r: Receipt, q: Request, first: World)
      reads out
    {
      && out.seen != [] && ReceiptMeans(r, q, first, out.Found()) && Accounted(r, q, out.x, out.Found())
      && (out.Still() ==> out.Found() == out.x.world)
    }

    /** Reads once more and answers with the receipt of what is there. */
    method Conclude(q: Request, before: Snapshot, ghost first: World, c: ConsumedAuthority, invocations: nat)
      returns (r: Outcome)
      requires Safe(out.x) && ConsumedAs(out.x.rows, claim, c) && c.effect == q && AuthorityValid(c, None)
      requires Observe(first, q, Before).Ok? && before == Observe(first, q, Before).value.0
      modifies out
      ensures Safe(out.x) && Later(old(out.x), out.x)
      ensures r.Returned? ==> TrueReceipt(r.receipt, q, first)
      ensures old(out.seen) <= out.seen && (r.Returned? ==> r.receipt.invocations == invocations)
      ensures out.Still() ==> out.x == old(out.x)
                              && match Observe(out.x.world, q, After)
                                 case Ok(_) => r.Returned?
                                 case Err(fault) => r == Threw(fault)
    {
      ghost var start := out.x;
      var read := out.Read(q, After);
      ghost var mid := out.x;
      match read
      case Crashed => return Died;
      case Failed(fault) => return Threw(fault);
      case Done((after, proof)) =>
        r := Answer(q, before, first, after, proof, After, c, invocations);
        LaterTransitive(start, mid, out.x);
    }

    /** A receipt over the last read that was made; the remote may move on before the caller has it. */
    method Answer(q: Request, before: Snapshot, ghost first: World, after: Snapshot, proof: WriteProof,
                  ghost phase: Phase,
                  c: ConsumedAuthority, invocations: nat)
      returns (r: Outcome)
      requires Safe(out.x) && ConsumedAs(out.x.rows, claim, c) && c.effect == q && AuthorityValid(c, None)
      requires Observe(first, q, Before).Ok? && before == Observe(first, q, Before).value.0
      requires out.seen != [] && Observe(out.Found(), q, phase) == Ok((after, proof))
      requires out.Still() ==> out.Found() == out.x.world
      modifies out`x
      ensures Safe(out.x) && Later(old(out.x), out.x)
      ensures r.Returned? && TrueReceipt(r.receipt, q, first)
      ensures r.receipt.invocations == invocations && r.receipt.authority == Some(c) && r.receipt.proof == proof
      ensures out.Still() ==> out.x == old(out.x)
    {
      hide Safe, Observe, RowsLater, ConsumedAs, ReceiptMeans;
      ghost var start := out.x;
      var now := out.ReadClock();
      ghost var mid := out.x;
      out.Interfere();
      LaterTransitive(start, mid, out.x);
      LaterKeepsConsumed(start, out.x, claim, c);
      SucceededIffHeld(first, out.Found(), q, phase, now, invocations, Some(c));
      ObservedMeans(out.Found(), q, phase);
      return Returned(MakeReceipt(q, before, after, proof, now, invocations, Some(c)));
    }

    /** One mutation under a deadline that is read right before it leaves. */
    method SendInTime(m: Mutation, q: Request, c: ConsumedAuthority)
      returns (r: Call<()>, ghost own: seq<Send>, ghost came: seq<Call<()>>)
      requires Safe(out.x) && ConsumedAs(out.x.rows, claim, c) && c.effect == q && AuthorityValid(c, None)
      requires m == SaveDocument(DocumentArgumentsOf(q))
               || (m == AddTags(TagArgumentsOf(q)) && DocumentIdOf(q) in out.x.world.docs)
      modifies out`x
      ensures Safe(out.x) && Later(old(out.x), out.x)
      ensures AllIn(own, out.x) && |own| <= 1
      ensures forall k :: 0 <= k < |own| ==> own[k].request == q && own[k].claim == claim && own[k].mutation == m
      ensures old(out.x).now > c.invokeBy ==> own == []
      ensures came == if own == [] then [] else [r]
      ensures own == [] ==> r == Failed(Fault(AUTHORITY_INVALID, false))
      ensures out.Still() && AuthorityValid(c, Some(old(out.x).now)) ==>
                && r == (if out.Hits(m) then Failed(out.weather.fault) else Done(())) && |own| == 1
                && out.x.world == out.Sent(old(out.x).world, m)
                && out.x == old(out.x).(world := out.x.world, sends := out.x.sends)
    {
      ghost var start := out.x;
      own, came := [], [];
      var now := out.ReadClock();
      if !AuthorityValid(c, Some(now)) {
        return Failed(Fault(AUTHORITY_INVALID, false)), own, came;
      }
      ghost var mid := out.x;
      r := out.Invoke(m, q, claim, now);
      own, came := [Send(m, q, claim, now)], [r];
      LaterTransitive(start, mid, out.x);
    }

    /** The weather takes the answer to the save, or to the tag. */
    ghost predicate LosesSave() {
      out.weather.Lost? && out.weather.document
    }

    ghost predicate LosesTag() {
      out.weather.Lost? && !out.weather.document
    }

    /** The first write, skipped when the document already stands. */
    method EnsureDocument(q: Request, before: Snapshot, ghost first: World, c: ConsumedAuthority, present: bool)
      returns (next: Next, invocations: nat, ghost own: seq<Send>, ghost came: seq<Call<()>>)
      requires Safe(out.x) && ConsumedAs(out.x.rows, claim, c) && c.effect == q && AuthorityValid(c, None)
      requires Observe(first, q, Before).Ok? && before == Observe(first, q, Before).value.0
      requires present == Observe(first, q, Before).value.1.document
      modifies out
      ensures Safe(out.x) && Later(old(out.x), out.x)
      ensures AllIn(own, out.x) && |own| <= 1 && (present ==> own == [])
      ensures forall k :: 0 <= k < |own| ==>
                own[k].request == q && own[k].claim == claim && own[k].mutation == SaveDocument(DocumentArgumentsOf(q))
      ensures next.Stop? && next.outcome.Returned? ==>
                && TrueReceipt(next.outcome.receipt, q, first)
                && next.outcome.receipt.invocations == invocations && !next.outcome.receipt.proof.document
      ensures |came| == |own| && invocations == Answered(came)
      ensures own == [] && !present ==> next == Stop(Threw(Fault(AUTHORITY_INVALID, false)))
      ensures own != [] ==>
                match came[0]
                case Done(_) => next == Proceed
                case Crashed => next == Stop(Died)
                case Failed(fault) => !fault.retryable ==> next == Stop(Threw(fault))
      ensures old(out.seen) <= out.seen
      ensures out.Still() && present ==> next == Proceed && out.x == old(out.x)
      ensures out.Still() && !present && first == old(out.x).world && AuthorityValid(c, Some(old(out.x).now)) ==>
                && |own| == 1 && out.x.world == out.Sent(first, SaveDocument(DocumentArgumentsOf(q)))
                && out.x == old(out.x).(world := out.x.world, sends := out.x.sends)
                && if !LosesSave() || (out.weather.fault.retryable && out.weather.applied) then next == Proceed
                   else if !out.weather.fault.retryable then next == Stop(Threw(out.weather.fault))
                   else next.Stop? && next.outcome.Returned?
    {
      hide Safe, ReceiptMeans, Accounted, Observe, HoldsDocument, Apply, ConsumedAs, DocumentArgumentsOf,
        AuthorityValid, RowsLater;
      invocations, own, came := 0, [], [];
      LaterReflexive(out.x);
      ObservedMeans(first, q, Before);
      DocumentStep(first, q);
      if present {
        return Proceed, invocations, own, came;
      }
      ghost var start := out.x;
      var sent;
      sent, own, came := SendInTime(SaveDocument(DocumentArgumentsOf(q)), q, c);
      ghost var mid := out.x;
      match sent
      case Done(_) => return Proceed, 1, own, came;
      case Crashed => return Stop(Died), invocations, own, came;
      case Failed(fault) =>
        if !fault.retryable {
          return Stop(Threw(fault)), invocations, own, came;
        }
        var read := out.Read(q, After);
        StaysIn(own, mid, out.x);
        LaterTransitive(start, mid, out.x);
        LaterKeepsConsumed(start, out.x, claim, c);
        match read
        case Crashed => return Stop(Died), invocations, own, came;
        case Failed(again) => return Stop(Threw(again)), invocations, own, came;
        case Done((reconciled, proof)) =>
          if proof.document {
            return Proceed, invocations, own, came;
          }
          ghost var seen := out.x;
          var outcome := Answer(q, before, first, reconciled, proof, After, c, invocations);
          StaysIn(own, seen, out.x);
          LaterTransitive(start, seen, out.x);
          return Stop(outcome), invocations, own, came;
    }

    /** The second write, and the receipt of the last read. */
    method EnsureTag(q: Request, before: Snapshot, ghost first: World, c: ConsumedAuthority, tagged: bool,
                     sentBefore: nat)
      returns (r: Outcome, ghost own: seq<Send>, ghost came: seq<Call<()>>)
      requires Safe(out.x) && ConsumedAs(out.x.rows, claim, c) && c.effect == q && AuthorityValid(c, None)
      requires DocumentIdOf(q) in out.x.world.docs
      requires Observe(first, q, Before).Ok? && before == Observe(first, q, Before).value.0
      modifies out
      ensures Safe(out.x) && Later(old(out.x), out.x)
      ensures AllIn(own, out.x) && |own| <= 1 && (tagged ==> own == [])
      ensures forall k :: 0 <= k < |own| ==>
                own[k].request == q && own[k].claim == claim && own[k].mutation == AddTags(TagArgumentsOf(q))
      ensures |came| == |own| && (own != [] && came[0].Crashed? ==> r == Died)
      ensures r.Returned? ==> TrueReceipt(r.receipt, q, first) && r.receipt.invocations == sentBefore + Answered(came)
      ensures old(out.seen) <= out.seen
      ensures out.Still() && !tagged && AuthorityValid(c, Some(old(out.x).now)) ==>
                && |own| == 1 && out.x.world == out.Sent(old(out.x).world, AddTags(TagArgumentsOf(q)))
                && out.x == old(out.x).(world := out.x.world, sends := out.x.sends)
                && match Observe(out.x.world, q, After)
                   case Ok(_) => r.Returned?
                   case Err(fault) => r == Threw(fault)
    {
      hide Safe, ReceiptMeans, Accounted, Observe, Apply, ConsumedAs, TagArgumentsOf, AuthorityValid, RowsLater;
      own, came := [], [];
      var invocations := sentBefore;
      ghost var start := out.x;
      if !tagged {
        var sent;
        sent, own, came := SendInTime(AddTags(TagArgumentsOf(q)), q, c);
        match sent
        case Done(_) => invocations := invocations + 1;
        case Crashed => return Died, own, came;
        case Failed(_) =>   // retryable or not, the next step is one more read
      }
      ghost var mid := out.x;
      LaterKeepsConsumed(start, mid, claim, c);
      r := Conclude(q, before, first, c, invocations);
      StaysIn(own, mid, out.x);
      LaterTransitive(start, mid, out.x);
    }

    /** Settings and request checks that come before anything else. */
    function Admits(q: Request): Check<Fault> {
      if !enabled then Fail(Fault(CONFIGURATION, false))
      else if ValidateRequest(q).Fail? then ValidateRequest(q)
      else Need(targetInstance.None? || targetInstance.value == q.targetInstance, Conflict())
    }

    /** Consumed authority for this request, spending the reservation when it is still unspent. */
    method ObtainAuthority(q: Request, verified: Verified) returns (r: Call<ConsumedAuthority>)
      requires Safe(out.x) && verified.effect == q
      requires claim in out.x.rows && Agrees(verified, out.x.rows[claim])
      modifies out`x
      ensures Safe(out.x) && Later(old(out.x), out.x)
      ensures r.Done? ==> ConsumedAs(out.x.rows, claim, r.value) && r.value.effect == q
                          && AuthorityValid(r.value, None)
      ensures out.Still() && verified.consumed && old(out.x).now <= verified.invokeBy
              && |verified.attempt| >= 1 && |verified.fence| >= 1 ==>
                r.Done? && r.value.invokeBy == verified.invokeBy && out.x == old(out.x)
      ensures out.Still() && !verified.consumed && claim in old(out.x).rows
              && verified == RowView(old(out.x).rows[claim]) && old(out.x).now < verified.invokeBy ==>
                r.Done? && r.value.invokeBy == verified.invokeBy && out.x == old(out.x).(rows := out.x.rows)
    {
      hide Safe;
      ghost var start := out.x;
      if verified.consumed {
        var c := ConsumedAuthority(verified.fence, verified.attempt, verified.effect, verified.invokeBy,
            verified.reservation);
        var now := out.ReadClock();
        return if AuthorityValid(c, Some(now)) then Done(c) else Failed(Fault(AUTHORITY_INVALID, false));
      }
      r := out.Consume(claim, q);
      if r.Done? {
        ghost var mid := out.x;
        var now := out.ReadClock();
        LaterTransitive(start, mid, out.x);
        if !AuthorityValid(r.value, Some(now)) {
          return Failed(Fault(AUTHORITY_INVALID, false));
        }
      }
    }

    /** The one precondition a caller can check for an undisturbed write to finish. */
    ghost predicate Ready(q: Request)
      reads out
    {
      && Admits(q).Pass? && claim in out.x.rows
      && var row := out.x.rows[claim];
      && row.effect == q && |row.reservation| >= 1
      && Observe(out.x.world, q, Before).Ok?
      && var proof := Observe(out.x.world, q, Before).value.1;
      && !proof.tag
      && (row.state.Reserved? ==> !proof.document && out.x.now < row.invokeBy)
      && (row.state.Consumed? ==> out.x.now <= row.invokeBy && |row.state.attempt| >= 1 && |row.state.fence| >= 1)
    }

    /** The write is already there, and this claim's consumption accounts for it. */
    ghost predicate AlreadyWritten(q: Request)
      reads out
    {
      && Admits(q).Pass? && claim in out.x.rows
      && var row := out.x.rows[claim];
      && row.effect == q && row.state.Consumed? && |row.reservation| >= 1
      && |row.state.attempt| >= 1 && |row.state.fence| >= 1
      && Observe(out.x.world, q, Before).Ok?
      && Observe(out.x.world, q, Before).value.1 == WriteProof(true, true)
    }

    /** An admitted request whose claim is its own, and what the remote then shows of the write. */
    ghost predicate Verifiable(q: Request)
      reads out
    {
      && Admits(q).Pass? && claim in out.x.rows
      && var row := out.x.rows[claim];
      && row.effect == q && |row.reservation| >= 1 && Observe(out.x.world, q, Before).Ok?
      && (row.state.Consumed? ==> |row.state.attempt| >= 1 && |row.state.fence| >= 1)
    }

    /** Parts of the write that this claim cannot have made: a tag by itself, or anything before it was consumed. */
    ghost predicate Contradicts(q: Request)
      requires Verifiable(q)
      reads out
    {
      var proof := Observe(out.x.world, q, Before).value.1;
      (proof.tag && !proof.document) || (out.x.rows[claim].state.Reserved? && (proof.document || proof.tag))
    }

    /** The claim was consumed, its deadline has passed, and the tag is missing. */
    ghost predicate TooLate(q: Request)
      requires Verifiable(q)
      reads out
    {
      && out.x.rows[claim].state.Consumed? && out.x.now > out.x.rows[claim].invokeBy
      && !Observe(out.x.world, q, Before).value.1.tag
    }

    /** What verify answered still lets this call spend or use the claim. */
    ghost predicate CanObtain(q: Request, verified: Verified)
      reads out
    {
      if verified.consumed then out.x.now <= verified.invokeBy && |verified.attempt| >= 1 && |verified.fence| >= 1
      else claim in out.x.rows && verified == RowView(out.x.rows[claim]) && out.x.now < verified.invokeBy
    }

    /** How a call ends once it has sent its tag, while the surroundings are still. */
    ghost predicate TagEnds(r: Outcome, first: World)
      reads out
    {
      if LosesTag() && !out.weather.applied then
        r.Returned? && r.receipt.status == AMBIGUOUS_STATUS && r.receipt.proof == WriteProof(true, false)
      else if |first.tags| < 200 then
        r.Returned? && r.receipt.status == SUCCEEDED && out.x.world.version == first.version
      else r == Threw(Fault(SCHEMA_DRIFT, false))
    }

    /** How a call that sends anything ends while the surroundings are still, whatever answer is lost. */
    ghost predicate Ends(r: Outcome, own: seq<Send>, present: bool, first: World)
      reads out
    {
      if !present && LosesSave() && !out.weather.fault.retryable then
        r == Threw(out.weather.fault) && |own| == 1 && own[0].mutation.SaveDocument?
      else if !present && LosesSave() && !out.weather.applied then
        && r.Returned? && r.receipt.status == AMBIGUOUS_STATUS && !r.receipt.proof.document
        && |own| == 1 && own[0].mutation.SaveDocument? && out.x.world == first
      else
        && |own| == (if present then 1 else 2) && own[|own| - 1].mutation.AddTags?
        && TagEnds(r, first)
    }

    /** What came back decides: a final refusal of the save is what the call throws, and answered sends are counted. */
    ghost predicate Accounts(r: Outcome, own: seq<Send>, came: seq<Call<()>>) {
      && |came| == |own|
      && (r.Returned? ==> r.receipt.invocations == Answered(came))
      && (own != [] && own[0].mutation.SaveDocument? && came[0].Failed? && !came[0].fault.retryable ==>
            |own| == 1 && r == Threw(came[0].fault))
      && (own != [] && came[|came| - 1].Crashed? ==> r == Died)
    }

    /** Everything after the first read. */
    method WriteFrom(q: Request, verified: Verified, before: Snapshot, existing: WriteProof, ghost first: World)
      returns (r: Outcome, ghost own: seq<Send>, ghost came: seq<Call<()>>)
      requires Safe(out.x) && verified.effect == q && out.seen != [] && first == out.Found()
      requires first.docs.Keys <= out.x.world.docs.Keys && (out.Still() ==> first == out.x.world)
      requires claim in out.x.rows && Agrees(verified, out.x.rows[claim])
      requires Observe(first, q, Before) == Ok((before, existing))
      requires existing.tag ==> existing.document
      requires existing.document ==> verified.consumed
      requires verified.consumed ==> |verified.attempt| >= 1 && |verified.fence| >= 1
      modifies out
      ensures Safe(out.x) && Later(old(out.x), out.x)
      ensures OwnSends(own, q, claim) && AllIn(own, out.x)
      ensures r.Returned? ==> TrueReceipt(r.receipt, q, first)
      ensures old(out.seen) <= out.seen
      ensures Accounts(r, own, came)
      ensures out.Still() && existing.tag ==>
                r.Returned? && r.receipt.status == SUCCEEDED && own == [] && out.x == old(out.x)
      ensures out.Still() && !existing.tag && old(CanObtain(q, verified)) ==> Ends(r, own, existing.document, first)
      ensures out.Still() && !existing.tag && verified.consumed && old(out.x).now > verified.invokeBy ==>
                r.Returned? && r.receipt.status == AMBIGUOUS_STATUS && own == [] && out.x == old(out.x)
    {
      hide Safe, Apply, DocumentArgumentsOf, TagArgumentsOf, Observe, RowsLater, HoldsDocument, Ends;
      own, came := [], [];
      ghost var start := out.x;
      LaterReflexive(out.x);
      ObservedMeans(first, q, Before);
      var held := ConsumedAuthority(verified.fence, verified.attempt, verified.effect, verified.invokeBy,
          verified.reservation);
      if existing.document && existing.tag {
        r := Answer(q, before, first, before, existing, Before, held, 0);
        return;
      }
      if verified.consumed {
        var now := out.ReadClock();
        if now > verified.invokeBy {
          ghost var read := out.x;
          r := Answer(q, before, first, before, existing, Before, held, 0);
          LaterTransitive(start, read, out.x);
          return;
        }
      }
      ghost var s1 := out.x;
      var client := out.Fate();   // mutationClientFactory
      if !client.Done? {
        return if client.Crashed? then Died else Threw(client.fault), own, came;
      }
      var obtained := ObtainAuthority(q, verified);
      ghost var s2 := out.x;
      LaterTransitive(start, s1, s2);
      if !obtained.Done? {
        return if obtained.Crashed? then Died else Threw(obtained.fault), own, came;
      }
      r, own, came := WriteUnder(q, before, existing, first, obtained.value);
      LaterTransitive(start, s2, out.x);
    }

    /** Reads what the first write left, and goes on to the tag if the document is there. */
    method WriteTag(q: Request, before: Snapshot, ghost first: World, c: ConsumedAuthority, sentBefore: nat)
      returns (r: Outcome, ghost own: seq<Send>, ghost came: seq<Call<()>>)
      requires Safe(out.x) && ConsumedAs(out.x.rows, claim, c) && c.effect == q && AuthorityValid(c, None)
      requires Observe(first, q, Before).Ok? && before == Observe(first, q, Before).value.0
      modifies out
      ensures Safe(out.x) && Later(old(out.x), out.x)
      ensures AllIn(own, out.x) && |own| <= 1
      ensures forall k :: 0 <= k < |own| ==>
                own[k].request == q && own[k].claim == claim && own[k].mutation == AddTags(TagArgumentsOf(q))
      ensures |came| == |own| && (own != [] && came[0].Crashed? ==> r == Died)
      ensures r.Returned? ==> TrueReceipt(r.receipt, q, first) && r.receipt.invocations == sentBefore + Answered(came)
      ensures old(out.seen) <= out.seen
      ensures out.Still() && AuthorityValid(c, Some(old(out.x).now)) && old(out.x).world.tags == first.tags
              && old(out.x).world.version == first.version && Observe(old(out.x).world, q, After).Ok?
              && Observe(old(out.x).world, q, After).value.1 == WriteProof(true, false) ==>
                |own| == 1 && TagEnds(r, first)
    {
      hide Safe, Apply, DocumentArgumentsOf, TagArgumentsOf, ReceiptMeans, Accounted, Observe, ConsumedAs, RowsLater,
        HoldsDocument, AuthorityValid, Later;
      ghost var start := out.x;
      own, came := [], [];
      var read := out.Read(q, After);
      ghost var s2 := out.x;
      LaterKeepsConsumed(start, s2, claim, c);
      match read
      case Crashed => return Died, own, came;
      case Failed(fault) => return Threw(fault), own, came;
      case Done((after, proof)) =>
        ObservedMeans(out.Found(), q, After);
        if !proof.document {
          r := Answer(q, before, first, after, proof, After, c, sentBefore);
          LaterTransitive(start, s2, out.x);
          return;
        }
        r, own, came := EnsureTag(q, before, first, c, proof.tag, sentBefore);
        LaterTransitive(start, s2, out.x);
        if out.Still() && AuthorityValid(c, Some(start.now)) && start.world.tags == first.tags
           && proof == WriteProof(true, false)
        {
          TagStep(start.world, first, q, r, out.x.world, LosesTag() && !out.weather.applied);
        }
    }

    /** The two writes under consumed authority. */
    method WriteUnder(q: Request, before: Snapshot, existing: WriteProof, ghost first: World, c: ConsumedAuthority)
      returns (r: Outcome, ghost own: seq<Send>, ghost came: seq<Call<()>>)
      requires Safe(out.x) && ConsumedAs(out.x.rows, claim, c) && c.effect == q && AuthorityValid(c, None)
      requires Observe(first, q, Before) == Ok((before, existing)) && !existing.tag
      modifies out
      ensures Safe(out.x) && Later(old(out.x), out.x)
      ensures OwnSends(own, q, claim) && AllIn(own, out.x)
      ensures r.Returned? ==> TrueReceipt(r.receipt, q, first)
      ensures old(out.seen) <= out.seen
      ensures Accounts(r, own, came)
      ensures out.Still() && first == old(out.x).world && AuthorityValid(c, Some(old(out.x).now)) ==>
                Ends(r, own, existing.document, first)
    {
      hide Safe, Apply, DocumentArgumentsOf, TagArgumentsOf, ReceiptMeans, Accounted, Observe, ConsumedAs, RowsLater,
        HoldsDocument, AuthorityValid, Later, TagEnds;
      ghost var start := out.x;
      var next, invocations;
      next, invocations, own, came := EnsureDocument(q, before, first, c, existing.document);
      ghost var mid := out.x;
      if next.Stop? {
        if next.outcome.Returned? {
          UnheldIsAmbiguous(next.outcome.receipt, q, first, out.Found());
        }
        return next.outcome, own, came;
      }
      DocumentStep(first, q);
      LaterKeepsConsumed(start, mid, claim, c);
      ghost var tags, after;
      r, tags, after := WriteTag(q, before, first, c, invocations);
      StaysIn(own, mid, out.x);
      LaterTransitive(start, mid, out.x);
      AnsweredAppend(came, after);
      own, came := own + tags, came + after;
    }

    method Write(q: Request) returns (r: Outcome, ghost own: seq<Send>, ghost came: seq<Call<()>>, ghost first: World)
      requires Safe(out.x)
      modifies out
      ensures Safe(out.x) && Later(old(out.x), out.x)
      ensures OwnSends(own, q, claim) && AllIn(own, out.x)
      ensures r.Returned? ==> TrueReceipt(r.receipt, q, first)
      ensures old(out.seen) <= out.seen
      ensures r.Returned? ==> |out.seen| > |old(out.seen)| && first == out.seen[|old(out.seen)|]
      ensures r.Returned? && r.receipt.status == SUCCEEDED ==>
                (out.x.world == out.Found() && out.x.world.version == Some(q.version) ==> AlreadyWritten(q))
      ensures Admits(q).Fail? ==> r == Threw(Admits(q).error) && out.x == old(out.x) && own == []
      ensures Accounts(r, own, came)
      ensures out.Still() && old(AlreadyWritten(q)) ==>
                r.Returned? && r.receipt.status == SUCCEEDED && own == [] && out.x == old(out.x)
      ensures out.Still() && old(Verifiable(q) && Contradicts(q)) ==>
                r == Threw(Conflict()) && own == [] && out.x == old(out.x)
      ensures out.Still() && old(Verifiable(q) && !Contradicts(q) && TooLate(q)) ==>
                r.Returned? && r.receipt.status == AMBIGUOUS_STATUS && own == [] && out.x == old(out.x)
      ensures out.Still() && old(Ready(q)) ==>
                && first == old(out.x).world && Ends(r, own, Observe(first, q, Before).value.1.document, first)
    {
      hide Safe, Observe, HoldsDocument, RowsLater, ValidateRequest, Ends;
      own, came, first := [], [], out.x.world;
      LaterReflexive(out.x);
      var admitted := Admits(q);
      if admitted.Fail? {
        return Threw(admitted.error), own, came, first;
      }
      ghost var start := out.x;
      var answer := out.Verify(claim);
      if !answer.Done? {
        return if answer.Crashed? then Died else Threw(answer.fault), own, came, first;
      }
      var verified := answer.value;
      if verified.effect != q || |verified.reservation| < 1
         || (verified.consumed && (|verified.fence| < 1 || |verified.attempt| < 1))
      {
        return Threw(Fault(AUTHORITY_INVALID, false)), own, came, first;
      }
      ghost var checked := out.x;
      var read := out.Read(q, Before);
      LaterTransitive(start, checked, out.x);
      if !read.Done? {
        return if read.Crashed? then Died else Threw(read.fault), own, came, first;
      }
      first := out.Found();
      var (before, existing) := read.value;
      if (existing.tag && !existing.document) || (!verified.consumed && (existing.document || existing.tag)) {
        return Threw(Conflict()), own, came, first;
      }
      LaterAgrees(checked, out.x, claim, verified);
      ghost var seen := out.x;
      r, own, came := WriteFrom(q, verified, before, existing, first);
      LaterTransitive(start, seen, out.x);
      if r.Returned? && r.receipt.status == SUCCEEDED && out.x.world == out.Found()
         && out.x.world.version == Some(q.version)
      {
        SameVersion(out.x.world, q);
        LaterAgrees(seen, out.x, claim, verified);
      }
    }

    /** Any number of calls, whatever happens during and between them. */
    method WriteAll(requests: seq<Request>) returns (outcomes: seq<Outcome>)
      requires Clean(out.x)
      modifies out
      ensures Safe(out.x) && Later(old(out.x), out.x) && |outcomes| == |requests|
      ensures Silent(old(out.x), out.x)
      ensures REVIEWED in out.x.world.tags ==>
                exists k :: 0 <= k < |out.x.sends| && out.x.sends[k].mutation.SaveDocument?
                         && HoldsDocument(out.x.world, out.x.sends[k].request)
    {
      hide Safe, Later, HoldsDocument, Observe, Silent;
      ghost var start := out.x;
      assert Safe(start) by { CleanIsSafe(start); }
      LaterReflexive(start);
      outcomes := [];
      for i := 0 to |requests|
        invariant Safe(out.x) && Later(start, out.x) && |outcomes| == i
      {
        ghost var before := out.x;
        out.Interfere();
        ghost var mid := out.x;
        var r, _, _, _ := Write(requests[i]);
        LaterTransitive(start, before, mid);
        LaterTransitive(start, mid, out.x);
        outcomes := outcomes + [r];
      }
      ghost var written := out.x;
      out.Interfere();
      LaterTransitive(start, written, out.x);
      ExpiredClaimsAreSilent(start, out.x);
      if REVIEWED in out.x.world.tags {
        ghost var q := ReviewedHasItsDocument(out.x);
      }
    }

    /** A success whose version stands, repeated while nothing else happens, sends nothing and succeeds again. */
    method WriteTwice(q: Request) returns (r: Outcome, again: Outcome)
      requires Safe(out.x) && out.weather.Calm? && Ready(q) && |out.x.world.tags| < 200
      modifies out
      ensures r.Returned? && r.receipt.status == SUCCEEDED
      ensures again.Returned? && again.receipt.status == SUCCEEDED && again.receipt.invocations == 0
    {
      hide Safe, Ready, AlreadyWritten, Accounted, HoldsDocument, Later, Observe;
      ghost var own, came, first;
      r, own, came, first := Write(q);
      again, own, came, first := Write(q);
    }
  }

  /** What verify answered still describes the row, which may have been spent since. */
  ghost predicate Agrees(v: Verified, row: AuthorityRow) {
    && v.effect == row.effect && v.invokeBy == row.invokeBy && v.reservation == row.reservation
    && (v.consumed ==> v == RowView(row))
  }

  function RowView(row: AuthorityRow): Verified {
    Verified(row.effect, row.invokeBy, row.reservation, row.state.Consumed?,
             if row.state.Consumed? then row.state.attempt else "", if row.state.Consumed? then row.state.fence else "")
  }
}
