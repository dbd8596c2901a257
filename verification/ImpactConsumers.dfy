/**
 The consumer groups derived from DataHub evidence (packages/domain/src/impact-consumer.ts),
 and why a complete context always shows exactly four (packages/domain/src/evidence.ts).
 */
module ImpactConsumers {
  import opened Common

  type Urn = string

  datatype Payload =
    | LineagePath(nodes: seq<Urn>)
    | DashboardItem(dashboardUrn: Urn, dashboardOwners: seq<string>)
    | ModelItem(modelUrn: Urn, featureUrn: Urn, modelOwners: seq<string>)
    | QueryItem(queryUrn: Urn)
    | OtherItem
  datatype Evidence = Evidence(id: string, title: string, target: Option<Urn>, payload: Payload)

  datatype Kind = DataModel | DashboardConsumer | MlConsumer | UnmanagedQuery
  datatype Consumer = Consumer(
    kind: Kind, title: string, urn: Urn, evidenceIds: seq<string>, owners: seq<string>,
    lineagePath: seq<Urn>, feature: Option<Urn>)

  function Rank(k: Kind): nat {
    match k
    case DataModel => 0
    case DashboardConsumer => 1
    case MlConsumer => 2
    case UnmanagedQuery => 3
  }

  /** text.includes(part) */
  predicate Contains(text: string, part: string) {
    exists k :: 0 <= k <= |text| && part <= text[k..]
  }

  predicate NamesDataset(u: Urn) {
    Contains(u, "urn:li:dataset:")
  }

  /** isIntermediateNode: staging views. */
  predicate Intermediate(u: Urn) {
    Contains(u, "stg_orders") || Contains(u, ".stg_")
  }

  predicate WordChar(c: char) {
    'a' <= c <= 'z' || 'A' <= c <= 'Z' || '0' <= c <= '9' || c == '_'
  }

  function LastComma(text: string): Option<nat> {
    if text == [] then None
    else if text[|text| - 1] == ',' then Some(|text| - 1)
    else LastComma(text[..|text| - 1])
  }

  lemma {:induction false} LastCommaIs(text: string, j: nat)
    requires j < |text| && text[j] == ',' && ',' !in text[j + 1..]
    ensures LastComma(text) == Some(j)
    decreases |text|
  {
    if j < |text| - 1 {
      assert text[|text| - 1] == text[j + 1..][|text| - 2 - j];
      assert text[..|text| - 1][j + 1..] <= text[j + 1..];
      LastCommaIs(text[..|text| - 1], j);
    }
  }

  lemma {:induction false} LastCommaMeans(text: string)
    ensures match LastComma(text)
            case Some(j) => j < |text| && text[j] == ',' && ',' !in text[j + 1..]
            case None => ',' !in text
    decreases |text|
  {
    if text != [] && text[|text| - 1] != ',' {
      LastCommaMeans(text[..|text| - 1]);
      assert text == text[..|text| - 1] + [text[|text| - 1]];
      if LastComma(text).Some? {
        var j := LastComma(text).value;
        assert text[j + 1..] == text[..|text| - 1][j + 1..] + [text[|text| - 1]];
      }
    }
  }

  /** extractDatasetName: what stands between the last two commas, if a bare word and a parenthesis follow. */
  function DatasetName(u: Urn): string {
    if u == [] || u[|u| - 1] != ')' then u
    else
      var body := u[..|u| - 1];
      match LastComma(body)
      case None => u
      case Some(j) =>
        LastCommaMeans(body);
        if j + 1 == |body| || exists k :: j < k < |body| && !WordChar(body[k]) then u
        else
          match LastComma(body[..j])
          case None => u
          case Some(i) =>
            LastCommaMeans(body[..j]);
            if i + 1 == j then u else body[i + 1..j]
  }

  /** The parts that the pattern matches. */
  ghost predicate NamedBy(u: Urn, before: string, name: string, word: string) {
    && u == before + "," + name + "," + word + ")"
    && name != "" && ',' !in name && word != "" && forall c :: c in word ==> WordChar(c)
  }

  lemma NamedByGives(u: Urn, before: string, name: string, word: string)
    requires NamedBy(u, before, name, word)
    ensures DatasetName(u) == name
  {
    hide LastComma;
    var front := before + "," + name;
    var body := front + "," + word;
    assert u[..|u| - 1] == body;
    assert body[|front| + 1..] == word;
    LastCommaIs(body, |front|);
    assert body[..|front|] == front && front[|before| + 1..] == name;
    LastCommaIs(front, |before|);
    assert forall k :: |front| < k < |body| ==> body[k] in word;
  }

  lemma AtComma(text: string, j: nat)
    requires j < |text| && text[j] == ','
    ensures text == text[..j] + "," + text[j + 1..]
  {
  }

  lemma NameIsMatched(u: Urn) returns (before: string, name: string, word: string)
    requires DatasetName(u) != u
    ensures NamedBy(u, before, name, word)
  {
    hide LastComma;
    var body := u[..|u| - 1];
    assert u == body + ")";
    LastCommaMeans(body);
    var j := LastComma(body).value;
    var front := body[..j];
    LastCommaMeans(front);
    var i := LastComma(front).value;
    before, name, word := front[..i], front[i + 1..], body[j + 1..];
    assert name != "" && word != "" && ',' !in name;
    assert forall c :: c in word ==> WordChar(c);
    hide DatasetName, WordChar;
    AtComma(front, i);
    AtComma(body, j);
  }

  /** The name is the pattern's group where the pattern matches, and the whole URN where it does not. */
  lemma DatasetNameMeaning(u: Urn)
    ensures forall before, name, word | NamedBy(u, before, name, word) :: DatasetName(u) == name
    ensures DatasetName(u) != u ==> exists before, name, word :: NamedBy(u, before, name, word)
  {
    hide NamedBy, DatasetName;
    forall before, name, word | NamedBy(u, before, name, word) ensures DatasetName(u) == name {
      NamedByGives(u, before, name, word);
    }
    if DatasetName(u) != u {
      var before, name, word := NameIsMatched(u);
    }
  }

  function FeatureUrns(evidence: seq<Evidence>): set<Urn> {
    set k | 0 <= k < |evidence| && evidence[k].payload.ModelItem? :: evidence[k].payload.featureUrn
  }

  /** A lineage node that stands for a data model of its own. The URN of a field names its dataset too. */
  predicate Qualifies(u: Urn, source: Urn, features: set<Urn>) {
    NamesDataset(u) && u != source && !Intermediate(u) && u !in features
  }

  // ------------------------------------------------------------ what a derivation is

  /** The consumer is what this evidence item shows. */
  ghost predicate From(c: Consumer, item: Evidence, source: Urn, features: set<Urn>) {
    && c.evidenceIds == [item.id]
    && match c.kind
       case DataModel =>
         && item.payload.LineagePath? && c.lineagePath == item.payload.nodes && c.feature.None?
             && Qualifies(c.urn, source, features) && c.title == DatasetName(c.urn) && c.owners == []
         && exists i :: 1 <= i < |item.payload.nodes| && item.payload.nodes[i] == c.urn
       case DashboardConsumer =>
         && item.payload.DashboardItem? && c.urn == item.payload.dashboardUrn && c.title == item.title
         && c.owners == item.payload.dashboardOwners && c.feature.None? && c.lineagePath == []
       case MlConsumer =>
         && item.payload.ModelItem? && c.urn == item.payload.modelUrn && c.title == item.title
         && c.owners == item.payload.modelOwners && c.feature == Some(item.payload.featureUrn)
         && c.lineagePath == []
       case UnmanagedQuery =>
         && item.payload.QueryItem? && c.urn == item.payload.queryUrn && c.title == item.title && c.feature.None?
         && c.owners == [] && c.lineagePath == []
  }

  ghost predicate Evidenced(c: Consumer, evidence: seq<Evidence>, source: Urn) {
    exists k :: 0 <= k < |evidence| && From(c, evidence[k], source, FeatureUrns(evidence))
  }

  ghost predicate Sound(consumers: seq<Consumer>, evidence: seq<Evidence>, source: Urn) {
    forall j :: 0 <= j < |consumers| ==> Evidenced(consumers[j], evidence, source)
  }

  ghost predicate DistinctUrns(consumers: seq<Consumer>) {
    forall i, j :: 0 <= i < j < |consumers| ==> consumers[i].urn != consumers[j].urn
  }

  ghost predicate OrderedByKind(consumers: seq<Consumer>) {
    forall i, j :: 0 <= i < j < |consumers| ==> Rank(consumers[i].kind) <= Rank(consumers[j].kind)
  }

  ghost predicate Shown(consumers: seq<Consumer>, u: Urn) {
    exists j :: 0 <= j < |consumers| && consumers[j].urn == u
  }

  /** Shown, or absorbed as the feature dataset of a model that is shown. */
  ghost predicate Accounted(consumers: seq<Consumer>, u: Urn) {
    Shown(consumers, u) || exists j :: 0 <= j < |consumers| && consumers[j].feature == Some(u)
  }

  /** What an item calls for is shown or absorbed. */
  ghost predicate ItemAccounted(consumers: seq<Consumer>, item: Evidence, source: Urn, features: set<Urn>) {
    match item.payload
    case LineagePath(nodes) =>
      forall i :: 1 <= i < |nodes| && Qualifies(nodes[i], source, features) ==> Shown(consumers, nodes[i])
    case DashboardItem(u, _) => Shown(consumers, u)
    case ModelItem(u, _, _) => Accounted(consumers, u)
    case QueryItem(u) => Accounted(consumers, u)
    case OtherItem => true
  }

  ghost predicate Derived(consumers: seq<Consumer>, evidence: seq<Evidence>, source: Urn) {
    && Sound(consumers, evidence, source) && DistinctUrns(consumers) && OrderedByKind(consumers)
    && forall k :: 0 <= k < |evidence| ==> ItemAccounted(consumers, evidence[k], source, FeatureUrns(evidence))
  }

  // -------------------------------------------------------------------- which offers stay

  /** An offer stays unless an earlier one has its URN, or an earlier one that stayed absorbs it as a feature. */
  ghost predicate Stays(offers: seq<Consumer>, p: nat)
    requires p < |offers|
    decreases p
  {
    !exists q: nat :: q < p && (offers[q].urn == offers[p].urn
                                || (offers[q].feature == Some(offers[p].urn) && Stays(offers, q)))
  }

  /** Those of the first `n` offers that stay, in their order. */
  ghost function Staying(offers: seq<Consumer>, n: nat): seq<Consumer>
    requires n <= |offers|
  {
    if n == 0 then [] else Staying(offers, n - 1) + if Stays(offers, n - 1) then [offers[n - 1]] else []
  }

  lemma StaysIffUnseen(offers: seq<Consumer>, p: nat)
    requires p < |offers|
    ensures Stays(offers, p)
            <==> forall q: nat | q < p ::
                   offers[q].urn != offers[p].urn && !(offers[q].feature == Some(offers[p].urn) && Stays(offers, q))
  {
  }

  lemma {:induction false} StaysOnPrefix(offers: seq<Consumer>, more: seq<Consumer>, p: nat)
    requires p < |offers|
    ensures Stays(offers + more, p) == Stays(offers, p)
    decreases p
  {
    hide Stays;
    StaysIffUnseen(offers, p);
    StaysIffUnseen(offers + more, p);
    forall q: nat | q < p ensures Stays(offers + more, q) == Stays(offers, q) && (offers + more)[q] == offers[q] {
      StaysOnPrefix(offers, more, q);
    }
  }

  lemma {:induction false} StayingOnPrefix(offers: seq<Consumer>, more: seq<Consumer>, n: nat)
    requires n <= |offers|
    ensures Staying(offers + more, n) == Staying(offers, n)
    decreases n
  {
    hide Stays;
    if n > 0 {
      StayingOnPrefix(offers, more, n - 1);
      StaysOnPrefix(offers, more, n - 1);
    }
  }

  /** Where the offers that stay stood: in rising positions, each the first with its URN. */
  lemma {:induction false} FirstOfferStays(offers: seq<Consumer>, n: nat) returns (at: seq<nat>)
    requires n <= |offers|
    ensures |at| == |Staying(offers, n)|
    ensures forall j :: 0 <= j < |at| ==>
              && at[j] < n && Staying(offers, n)[j] == offers[at[j]]
              && forall q: nat :: q < at[j] ==> offers[q].urn != offers[at[j]].urn
    ensures forall i, j :: 0 <= i < j < |at| ==> at[i] < at[j]
  {
    hide Stays;
    if n == 0 {
      at := [];
    } else {
      at := FirstOfferStays(offers, n - 1);
      StaysIffUnseen(offers, n - 1);
      if Stays(offers, n - 1) {
        at := at + [n - 1];
      }
    }
  }

  /** What the nodes of a lineage path offer, up to the n-th. */
  ghost function PathOffers(item: Evidence, source: Urn, features: set<Urn>, n: nat): seq<Consumer>
    requires item.payload.LineagePath? && n <= |item.payload.nodes|
  {
    if n <= 1 then []
    else
      var u := item.payload.nodes[n - 1];
      PathOffers(item, source, features, n - 1)
      + if Qualifies(u, source, features)
        then [Consumer(DataModel, DatasetName(u), u, [item.id], [], item.payload.nodes, None)] else []
  }

  /** What all lineage paths offer, in evidence order. */
  ghost function ModelOffers(evidence: seq<Evidence>, source: Urn, features: set<Urn>, n: nat): seq<Consumer>
    requires n <= |evidence|
  {
    if n == 0 then []
    else
      ModelOffers(evidence, source, features, n - 1)
      + if evidence[n - 1].payload.LineagePath?
        then PathOffers(evidence[n - 1], source, features, |evidence[n - 1].payload.nodes|) else []
  }

  /** What the items of one later kind offer, in evidence order. */
  ghost function KindOffers(evidence: seq<Evidence>, rank: nat, n: nat): seq<Consumer>
    requires n <= |evidence| && 1 <= rank <= 3
  {
    if n == 0 then []
    else
      KindOffers(evidence, rank, n - 1)
      + if ItemRank(evidence[n - 1]) == rank then [Offering(evidence[n - 1]).value] else []
  }

  /** Everything that is offered, kind after kind. */
  ghost function AllOffers(evidence: seq<Evidence>, source: Urn): seq<Consumer> {
    ModelOffers(evidence, source, FeatureUrns(evidence), |evidence|)
    + KindOffers(evidence, 1, |evidence|) + KindOffers(evidence, 2, |evidence|) + KindOffers(evidence, 3, |evidence|)
  }

  /** The q-th offer takes this URN. */
  ghost predicate Takes(offers: seq<Consumer>, q: nat, u: Urn) {
    q < |offers| && (offers[q].urn == u || (offers[q].feature == Some(u) && Stays(offers, q)))
  }

  /** An offer of this URN would go. */
  ghost predicate Taken(offers: seq<Consumer>, u: Urn) {
    exists q: nat :: q < |offers| && Takes(offers, q, u)
  }

  /** The consumers so far are the offers that stay, and the URNs seen are those that are taken. */
  ghost predicate Reflects(consumers: seq<Consumer>, seen: set<Urn>, offers: seq<Consumer>) {
    consumers == Staying(offers, |offers|) && forall u :: u in seen <==> Taken(offers, u)
  }

  lemma LastStays(offers: seq<Consumer>, c: Consumer)
    ensures Stays(offers + [c], |offers|) <==> !Taken(offers, c.urn)
  {
    assert forall q: nat | q < |offers| ::
        Takes(offers, q, c.urn) <==> offers[q].urn == c.urn || (offers[q].feature == Some(c.urn) && Stays(offers, q));
    hide Stays, Takes;
    var longer := offers + [c];
    StaysIffUnseen(longer, |offers|);
    forall q: nat | q < |offers| ensures Stays(longer, q) == Stays(offers, q) && longer[q] == offers[q] {
      StaysOnPrefix(offers, [c], q);
    }
  }

  lemma TakesOnPrefix(offers: seq<Consumer>, c: Consumer, q: nat, u: Urn)
    requires q < |offers|
    ensures Takes(offers + [c], q, u) == Takes(offers, q, u)
  {
    hide Stays;
    StaysOnPrefix(offers, [c], q);
  }

  lemma TakenNext(offers: seq<Consumer>, c: Consumer, u: Urn)
    ensures Taken(offers + [c], u)
            <==> Taken(offers, u) || c.urn == u || (c.feature == Some(u) && Stays(offers + [c], |offers|))
  {
    var longer := offers + [c];
    assert Takes(longer, |offers|, u) <==> c.urn == u || (c.feature == Some(u) && Stays(longer, |offers|));
    hide Stays, Takes;
    if Taken(longer, u) {
      var q: nat :| q < |longer| && Takes(longer, q, u);
      if q < |offers| {
        TakesOnPrefix(offers, c, q, u);
        assert Taken(offers, u);
      }
    }
    if Taken(offers, u) {
      var q: nat :| q < |offers| && Takes(offers, q, u);
      TakesOnPrefix(offers, c, q, u);
      assert q < |longer|;
    }
  }

  /** One offer more: what Offer does with it is what it should. */
  lemma OfferReflects(consumers: seq<Consumer>, seen: set<Urn>, offers: seq<Consumer>, c: Consumer)
    requires Reflects(consumers, seen, offers) && (c.feature.Some? ==> Rank(c.kind) >= 2)
    ensures Reflects(Offer(consumers, seen, c).0, Offer(consumers, seen, c).1, offers + [c])
  {
    hide Stays, Taken;
    LastStays(offers, c);
    StayingOnPrefix(offers, [c], |offers|);
    forall u ensures u in Offer(consumers, seen, c).1 <==> Taken(offers + [c], u) {
      TakenNext(offers, c, u);
    }
  }

  // ------------------------------------------------------------------ the derivation

  /** How far a derivation has come: every kind up to `rank`, and which URNs were seen. */
  ghost predicate Progress(consumers: seq<Consumer>, seen: set<Urn>, rank: nat, evidence: seq<Evidence>, source: Urn) {
    && Sound(consumers, evidence, source) && DistinctUrns(consumers) && OrderedByKind(consumers)
    && (forall j :: 0 <= j < |consumers| ==> Rank(consumers[j].kind) <= rank && consumers[j].urn in seen)
    && (forall u :: u in seen ==> Accounted(consumers, u))
    && (rank < 2 ==> forall u :: u in seen ==> Shown(consumers, u))
  }

  lemma Push(consumers: seq<Consumer>, seen: set<Urn>, c: Consumer, k: nat, evidence: seq<Evidence>, source: Urn)
    requires Progress(consumers, seen, Rank(c.kind), evidence, source) && c.urn !in seen
    requires k < |evidence| && From(c, evidence[k], source, FeatureUrns(evidence))
    ensures var absorbed := if c.feature.Some? && Rank(c.kind) >= 2 then {c.feature.value} else {};
            Progress(consumers + [c], seen + {c.urn} + absorbed, Rank(c.kind), evidence, source)
    ensures forall item | ItemAccounted(consumers, item, source, FeatureUrns(evidence)) ::
              ItemAccounted(consumers + [c], item, source, FeatureUrns(evidence))
    ensures Shown(consumers + [c], c.urn)
  {
    hide From, Qualifies, FeatureUrns;
    var more := consumers + [c];
    assert forall j :: 0 <= j < |consumers| ==> more[j] == consumers[j];
    assert more[|consumers|] == c;
    forall u | Shown(consumers, u) ensures Shown(more, u) {
      var j :| 0 <= j < |consumers| && consumers[j].urn == u;
      assert more[j].urn == u;
    }
    forall u | Accounted(consumers, u) ensures Accounted(more, u) {
      if !Shown(consumers, u) {
        var j :| 0 <= j < |consumers| && consumers[j].feature == Some(u);
        assert more[j].feature == Some(u);
      }
    }
  }

  lemma Raise(consumers: seq<Consumer>, seen: set<Urn>, rank: nat, later: nat, evidence: seq<Evidence>, source: Urn)
    requires Progress(consumers, seen, rank, evidence, source) && rank <= later
    ensures Progress(consumers, seen, later, evidence, source)
  {
    hide Sound, DistinctUrns, OrderedByKind, Accounted, Shown;
  }

  /** Items of the kinds up to `rank` that have been gone through. */
  ghost predicate Through(consumers: seq<Consumer>, evidence: seq<Evidence>, source: Urn, n: nat, rank: nat) {
    forall k :: 0 <= k < n && k < |evidence| && ItemRank(evidence[k]) == rank ==>
      ItemAccounted(consumers, evidence[k], source, FeatureUrns(evidence))
  }

  function ItemRank(item: Evidence): nat {
    match item.payload
    case LineagePath(_) => 0
    case DashboardItem(_, _) => 1
    case ModelItem(_, _, _) => 2
    case QueryItem(_) => 3
    case OtherItem => 4
  }

  /** One consumer more, when its URN has not been seen. */
  function Offer(consumers: seq<Consumer>, seen: set<Urn>, c: Consumer): (r: (seq<Consumer>, set<Urn>)) {
    if c.urn in seen then (consumers, seen)
    else
      (consumers + [c],
       seen + {c.urn} + if c.feature.Some? && Rank(c.kind) >= 2 then {c.feature.value} else {})
  }

  lemma Offered(consumers: seq<Consumer>, seen: set<Urn>, c: Consumer, k: nat, evidence: seq<Evidence>, source: Urn)
    requires Progress(consumers, seen, Rank(c.kind), evidence, source)
    requires k < |evidence| && From(c, evidence[k], source, FeatureUrns(evidence))
    ensures var (more, known) := Offer(consumers, seen, c);
            && Progress(more, known, Rank(c.kind), evidence, source)
            && Accounted(more, c.urn) && (Rank(c.kind) < 2 ==> Shown(more, c.urn))
    ensures forall item | ItemAccounted(consumers, item, source, FeatureUrns(evidence)) ::
              ItemAccounted(Offer(consumers, seen, c).0, item, source, FeatureUrns(evidence))
  {
    hide From, Qualifies, FeatureUrns, Sound, DistinctUrns, OrderedByKind, ItemAccounted;
    if c.urn !in seen {
      Push(consumers, seen, c, k, evidence, source);
    }
  }

  /** The dataset nodes of one lineage path. */
  method AddDataModels(consumers: seq<Consumer>, seen: set<Urn>, k: nat, evidence: seq<Evidence>, source: Urn,
                       features: set<Urn>, ghost offers: seq<Consumer>)
    returns (more: seq<Consumer>, known: set<Urn>)
    requires Progress(consumers, seen, 0, evidence, source) && features == FeatureUrns(evidence)
    requires k < |evidence| && evidence[k].payload.LineagePath? && Reflects(consumers, seen, offers)
    ensures Progress(more, known, 0, evidence, source)
    ensures Reflects(more, known,
                     offers + PathOffers(evidence[k], source, features, |evidence[k].payload.nodes|))
    ensures ItemAccounted(more, evidence[k], source, features)
    ensures forall item | ItemAccounted(consumers, item, source, features) ::
              ItemAccounted(more, item, source, features)
  {
    hide Sound, DistinctUrns, OrderedByKind, Qualifies, FeatureUrns, Shown, DatasetName, Reflects, Offer;
    more, known := consumers, seen;
    var item := evidence[k];
    var nodes := item.payload.nodes;
    var i := 1;
    assert nodes == [] ==> PathOffers(item, source, features, 0) == [];
    assert offers + [] == offers;
    while i < |nodes|
      invariant 1 <= i && (i <= |nodes| || nodes == [])
      invariant Reflects(more, known, offers + PathOffers(item, source, features, if i <= |nodes| then i else 0))
      invariant Progress(more, known, 0, evidence, source)
      invariant forall l :: 1 <= l < i && l < |nodes| && Qualifies(nodes[l], source, features) ==> Shown(more, nodes[l])
      invariant forall it | ItemAccounted(consumers, it, source, features) :: ItemAccounted(more, it, source, features)
    {
      if Qualifies(nodes[i], source, features) {
        var c := Consumer(DataModel, DatasetName(nodes[i]), nodes[i], [item.id], [], nodes, None);
        assert From(c, evidence[k], source, features);
        Offered(more, known, c, k, evidence, source);
        OfferShows(more, known, c);
        OfferReflects(more, known, offers + PathOffers(item, source, features, i), c);
        assert offers + PathOffers(item, source, features, i) + [c]
            == offers + (PathOffers(item, source, features, i) + [c]);
        var offered := Offer(more, known, c);
        more, known := offered.0, offered.1;
      } else {
        assert PathOffers(item, source, features, i) + [] == PathOffers(item, source, features, i);
      }
      i := i + 1;
    }
  }

  lemma OfferShows(consumers: seq<Consumer>, seen: set<Urn>, c: Consumer)
    ensures forall u | Shown(consumers, u) :: Shown(Offer(consumers, seen, c).0, u)
  {
    var more := Offer(consumers, seen, c).0;
    forall u | Shown(consumers, u) ensures Shown(more, u) {
      var j :| 0 <= j < |consumers| && consumers[j].urn == u;
      assert more[j].urn == u;
    }
  }

  /** The consumer that a dashboard, model or query item offers. */
  function Offering(item: Evidence): Option<Consumer> {
    match item.payload
    case DashboardItem(u, owners) => Some(Consumer(DashboardConsumer, item.title, u, [item.id], owners, [], None))
    case ModelItem(u, feature, owners) =>
      Some(Consumer(MlConsumer, item.title, u, [item.id], owners, [], Some(feature)))
    case QueryItem(u) => Some(Consumer(UnmanagedQuery, item.title, u, [item.id], [], [], None))
    case _ => None
  }

  lemma OfferingIsFrom(item: Evidence, source: Urn, features: set<Urn>)
    requires Offering(item).Some?
    ensures From(Offering(item).value, item, source, features)
    ensures Rank(Offering(item).value.kind) == ItemRank(item)
  {
  }

  lemma OfferingAccounts(consumers: seq<Consumer>, item: Evidence, source: Urn, features: set<Urn>)
    requires Offering(item).Some? && Accounted(consumers, Offering(item).value.urn)
    requires ItemRank(item) < 2 ==> Shown(consumers, Offering(item).value.urn)
    ensures ItemAccounted(consumers, item, source, features)
  {
  }

  /** One of the three later loops: every item of one kind, in evidence order. */
  method AddKind(consumers: seq<Consumer>, seen: set<Urn>, rank: nat, evidence: seq<Evidence>, source: Urn,
                 ghost offers: seq<Consumer>)
    returns (more: seq<Consumer>, known: set<Urn>)
    requires Progress(consumers, seen, rank, evidence, source) && 1 <= rank <= 3 && Reflects(consumers, seen, offers)
    ensures Progress(more, known, rank, evidence, source)
    ensures Reflects(more, known, offers + KindOffers(evidence, rank, |evidence|))
    ensures Through(more, evidence, source, |evidence|, rank)
    ensures forall item | ItemAccounted(consumers, item, source, FeatureUrns(evidence)) ::
              ItemAccounted(more, item, source, FeatureUrns(evidence))
  {
    hide Progress, From, FeatureUrns, Shown, Accounted, ItemAccounted, Reflects, Offer;
    more, known := consumers, seen;
    assert offers + [] == offers;
    for k := 0 to |evidence|
      invariant Progress(more, known, rank, evidence, source)
      invariant Reflects(more, known, offers + KindOffers(evidence, rank, k))
      invariant Through(more, evidence, source, k, rank)
      invariant forall item | ItemAccounted(consumers, item, source, FeatureUrns(evidence)) ::
                  ItemAccounted(more, item, source, FeatureUrns(evidence))
    {
      if ItemRank(evidence[k]) == rank {
        var c := Offering(evidence[k]).value;
        OfferingIsFrom(evidence[k], source, FeatureUrns(evidence));
        Offered(more, known, c, k, evidence, source);
        OfferReflects(more, known, offers + KindOffers(evidence, rank, k), c);
        assert offers + KindOffers(evidence, rank, k) + [c] == offers + (KindOffers(evidence, rank, k) + [c]);
        var offered := Offer(more, known, c);
        more, known := offered.0, offered.1;
        OfferingAccounts(more, evidence[k], source, FeatureUrns(evidence));
      } else {
        assert KindOffers(evidence, rank, k) + [] == KindOffers(evidence, rank, k);
      }
    }
  }

  method DeriveImpactConsumers(evidence: seq<Evidence>, source: Urn) returns (consumers: seq<Consumer>)
    ensures Derived(consumers, evidence, source)
    ensures var offers := AllOffers(evidence, source); consumers == Staying(offers, |offers|)
  {
    hide Sound, DistinctUrns, OrderedByKind, ItemAccounted, Accounted, Shown, FeatureUrns, Stays, Taken, KindOffers;
    var features := FeatureUrns(evidence);
    var seen: set<Urn> := {};
    consumers := [];
    Nothing(evidence, source);
    for k := 0 to |evidence|
      invariant Progress(consumers, seen, 0, evidence, source) && Through(consumers, evidence, source, k, 0)
      invariant Reflects(consumers, seen, ModelOffers(evidence, source, features, k))
    {
      ghost var offers := ModelOffers(evidence, source, features, k);
      if evidence[k].payload.LineagePath? {
        consumers, seen := AddDataModels(consumers, seen, k, evidence, source, features, offers);
      } else {
        assert offers + [] == offers;
      }
    }
    ghost var offers := ModelOffers(evidence, source, features, |evidence|);
    Raise(consumers, seen, 0, 1, evidence, source);
    consumers, seen := AddKind(consumers, seen, 1, evidence, source, offers);
    offers := offers + KindOffers(evidence, 1, |evidence|);
    Raise(consumers, seen, 1, 2, evidence, source);
    consumers, seen := AddKind(consumers, seen, 2, evidence, source, offers);
    offers := offers + KindOffers(evidence, 2, |evidence|);
    Raise(consumers, seen, 2, 3, evidence, source);
    consumers, seen := AddKind(consumers, seen, 3, evidence, source, offers);
    forall k | 0 <= k < |evidence| ensures ItemAccounted(consumers, evidence[k], source, features) {
      OthersAccounted(consumers, evidence[k], source, features);
    }
  }

  lemma Nothing(evidence: seq<Evidence>, source: Urn)
    ensures Progress([], {}, 0, evidence, source) && Reflects([], {}, [])
  {
  }

  lemma OthersAccounted(consumers: seq<Consumer>, item: Evidence, source: Urn, features: set<Urn>)
    ensures ItemRank(item) == 4 ==> ItemAccounted(consumers, item, source, features)
    ensures ItemRank(item) <= 4
  {
  }

  // ----------------------------------------------------------------- exactly four

  ghost predicate ExactlyFour(consumers: seq<Consumer>) {
    && |consumers| == 4
    && (forall j :: 0 <= j < 4 ==> Rank(consumers[j].kind) == j && consumers[j].evidenceIds != [])
    && DistinctUrns(consumers)
  }

  const CANONICAL_KINDS := [DataModel, DashboardConsumer, MlConsumer, UnmanagedQuery]

  datatype CardError = COUNT_MISMATCH | ORDER_MISMATCH | DUPLICATE_URN | WITHOUT_EVIDENCE

  method AssertExactlyFourConsumers(consumers: seq<Consumer>) returns (error: Option<CardError>)
    ensures error.None? <==> ExactlyFour(consumers)
  {
    if |consumers| != |CANONICAL_KINDS| {
      return Some(COUNT_MISMATCH);
    }
    if exists j :: 0 <= j < |consumers| && consumers[j].kind != CANONICAL_KINDS[j] {
      return Some(ORDER_MISMATCH);
    }
    var urns: set<Urn> := set j | 0 <= j < |consumers| :: consumers[j].urn;
    assert urns == {consumers[0].urn, consumers[1].urn, consumers[2].urn, consumers[3].urn};
    FourDistinct(consumers[0].urn, consumers[1].urn, consumers[2].urn, consumers[3].urn);
    if |urns| != |consumers| {
      return Some(DUPLICATE_URN);
    }
    if exists j :: 0 <= j < |consumers| && consumers[j].evidenceIds == [] {
      return Some(WITHOUT_EVIDENCE);
    }
    return None;
  }

  lemma FourDistinct(a: Urn, b: Urn, c: Urn, d: Urn)
    ensures |{a, b, c, d}| == 4 <==> a != b && a != c && a != d && b != c && b != d && c != d
  {
  }
}
