/**
 The COMPLETE clause of an impact context (packages/domain/src/evidence.ts), as far as it
 concerns consumers: its remaining conditions only narrow the contexts further.
 */
module CompleteContext {
  import opened Common
  import opened ImpactConsumers

  /** The seven URNs that a complete context is about. */
  datatype Names = Names(orders: Urn, staging: Urn, revenue: Urn, features: Urn, dashboard: Urn, model: Urn, query: Urn)

  function DashboardNodes(n: Names): seq<Urn> {
    [n.orders, n.staging, n.revenue, n.dashboard]
  }

  function ModelNodes(n: Names): seq<Urn> {
    [n.orders, n.staging, n.features, n.model]
  }

  /** What the derivation needs of them: which texts name datasets and staging views, and which differ. */
  ghost predicate Fits(n: Names) {
    && NamesDataset(n.revenue) && !NamesDataset(n.dashboard) && !NamesDataset(n.model)
    && Intermediate(n.staging) && !Intermediate(n.revenue)
    && n.revenue != n.orders && n.revenue != n.features && n.features != n.model && n.features != n.query
    && n.revenue != n.dashboard && n.revenue != n.model && n.revenue != n.query
    && n.dashboard != n.model && n.dashboard != n.query && n.model != n.query
  }

  /** context.evidence.filter(item => item.kind === …) */
  function OfRank(evidence: seq<Evidence>, rank: nat): seq<Evidence> {
    if |evidence| == 0 then []
    else
      OfRank(evidence[..|evidence| - 1], rank)
      + if ItemRank(evidence[|evidence| - 1]) == rank then [evidence[|evidence| - 1]] else []
  }

  function FindPath(paths: seq<Evidence>, target: Urn): Option<Evidence> {
    if |paths| == 0 then None
    else if paths[0].target == Some(target) then Some(paths[0])
    else FindPath(paths[1..], target)
  }

  predicate PathIs(paths: seq<Evidence>, target: Urn, nodes: seq<Urn>) {
    var path := FindPath(paths, target);
    path.Some? && path.value.payload.LineagePath? && path.value.payload.nodes == nodes
  }

  predicate PathsComplete(n: Names, paths: seq<Evidence>) {
    |paths| == 2 && PathIs(paths, n.dashboard, DashboardNodes(n)) && PathIs(paths, n.model, ModelNodes(n))
  }

  predicate DashboardsComplete(n: Names, items: seq<Evidence>) {
    |items| == 1 && items[0].payload.DashboardItem? && items[0].payload.dashboardUrn == n.dashboard
  }

  predicate ModelsComplete(n: Names, items: seq<Evidence>) {
    && |items| == 1 && items[0].payload.ModelItem?
    && items[0].payload.modelUrn == n.model && items[0].payload.featureUrn == n.features
  }

  predicate QueriesComplete(n: Names, items: seq<Evidence>) {
    |items| == 1 && items[0].payload.QueryItem? && items[0].payload.queryUrn == n.query
  }

  predicate Complete(n: Names, evidence: seq<Evidence>) {
    && PathsComplete(n, OfRank(evidence, 0)) && DashboardsComplete(n, OfRank(evidence, 1))
    && ModelsComplete(n, OfRank(evidence, 2)) && QueriesComplete(n, OfRank(evidence, 3))
  }

  lemma {:induction false} OfRankMeaning(evidence: seq<Evidence>, rank: nat, item: Evidence)
    ensures item in OfRank(evidence, rank) <==> item in evidence && ItemRank(item) == rank
    decreases |evidence|
  {
    if |evidence| > 0 {
      var n := |evidence| - 1;
      OfRankMeaning(evidence[..n], rank, item);
      assert evidence == evidence[..n] + [evidence[n]];
    }
  }

  lemma {:induction false} FindPathMeaning(paths: seq<Evidence>, target: Urn)
    requires FindPath(paths, target).Some?
    ensures FindPath(paths, target).value in paths && FindPath(paths, target).value.target == Some(target)
    decreases |paths|
  {
    if paths[0].target != Some(target) {
      FindPathMeaning(paths[1..], target);
    }
  }

  /** In a complete context every item of a consumer kind is one of the canonical five. */
  ghost predicate Canonical(n: Names, item: Evidence) {
    match item.payload
    case LineagePath(nodes) => nodes == DashboardNodes(n) || nodes == ModelNodes(n)
    case DashboardItem(u, _) => u == n.dashboard
    case ModelItem(u, feature, _) => u == n.model && feature == n.features
    case QueryItem(u) => u == n.query
    case OtherItem => true
  }

  lemma CompleteIsCanonical(n: Names, evidence: seq<Evidence>, item: Evidence)
    requires Fits(n) && Complete(n, evidence) && item in evidence
    ensures Canonical(n, item)
  {
    hide OfRank, FindPath;
    OfRankMeaning(evidence, ItemRank(item), item);
    if item.payload.LineagePath? {
      var paths := OfRank(evidence, 0);
      FindPathMeaning(paths, n.dashboard);
      FindPathMeaning(paths, n.model);
      assert n.dashboard != n.model;
      assert paths[0] == FindPath(paths, n.dashboard).value || paths[0] == FindPath(paths, n.model).value;
    }
  }

  lemma HasItem(n: Names, evidence: seq<Evidence>, rank: nat) returns (item: Evidence)
    requires Fits(n) && Complete(n, evidence) && 1 <= rank <= 3
    ensures item in evidence && ItemRank(item) == rank
  {
    hide OfRank, FindPath;
    item := OfRank(evidence, rank)[0];
    OfRankMeaning(evidence, rank, item);
  }

  lemma HasDashboardPath(n: Names, evidence: seq<Evidence>) returns (item: Evidence)
    requires Fits(n) && Complete(n, evidence)
    ensures item in evidence && item.payload.LineagePath? && item.payload.nodes == DashboardNodes(n)
  {
    hide OfRank, FindPath;
    item := FindPath(OfRank(evidence, 0), n.dashboard).value;
    FindPathMeaning(OfRank(evidence, 0), n.dashboard);
    OfRankMeaning(evidence, 0, item);
  }

  lemma FeaturesAre(n: Names, evidence: seq<Evidence>)
    requires Fits(n) && Complete(n, evidence)
    ensures FeatureUrns(evidence) == {n.features}
  {
    hide Complete;
    var model := HasItem(n, evidence, 2);
    var k :| 0 <= k < |evidence| && evidence[k] == model;
    CompleteIsCanonical(n, evidence, model);
    forall u | u in FeatureUrns(evidence) ensures u == n.features {
      var l :| 0 <= l < |evidence| && evidence[l].payload.ModelItem? && evidence[l].payload.featureUrn == u;
      CompleteIsCanonical(n, evidence, evidence[l]);
    }
  }

  /** Of all canonical nodes only the revenue table stands for itself. */
  lemma OnlyRevenueQualifies(n: Names, u: Urn)
    requires Fits(n) && (u in DashboardNodes(n)[1..] || u in ModelNodes(n)[1..])
    ensures Qualifies(u, n.orders, {n.features}) <==> u == n.revenue
  {
    hide Intermediate, NamesDataset;
  }

  function CanonicalUrn(n: Names, rank: nat): Urn {
    if rank == 0 then n.revenue else if rank == 1 then n.dashboard else if rank == 2 then n.model else n.query
  }

  lemma SoundWitness(consumers: seq<Consumer>, evidence: seq<Evidence>, source: Urn, j: nat) returns (k: nat)
    requires Sound(consumers, evidence, source) && j < |consumers|
    ensures k < |evidence| && From(consumers[j], evidence[k], source, FeatureUrns(evidence))
  {
    hide From, FeatureUrns;
    assert Evidenced(consumers[j], evidence, source);
    k :| 0 <= k < |evidence| && From(consumers[j], evidence[k], source, FeatureUrns(evidence));
  }

  /** Each kind has one possible URN. */
  lemma ConsumerIsCanonical(n: Names, consumers: seq<Consumer>, evidence: seq<Evidence>, j: nat)
    requires Fits(n) && Complete(n, evidence) && Sound(consumers, evidence, n.orders) && j < |consumers|
    ensures consumers[j].urn == CanonicalUrn(n, Rank(consumers[j].kind)) && consumers[j].evidenceIds != []
  {
    hide Complete, Fits, Qualifies, FeatureUrns, Sound, DatasetName;
    FeaturesAre(n, evidence);
    var k := SoundWitness(consumers, evidence, n.orders, j);
    CompleteIsCanonical(n, evidence, evidence[k]);
    if consumers[j].kind.DataModel? {
      var nodes := evidence[k].payload.nodes;
      var i :| 1 <= i < |nodes| && nodes[i] == consumers[j].urn;
      assert nodes[1..][i - 1] == consumers[j].urn;
      OnlyRevenueQualifies(n, consumers[j].urn);
    }
  }

  /** And each canonical URN is shown. */
  lemma CanonicalIsShown(n: Names, consumers: seq<Consumer>, evidence: seq<Evidence>, rank: nat)
    requires Fits(n) && Complete(n, evidence) && Derived(consumers, evidence, n.orders) && rank <= 3
    ensures Shown(consumers, CanonicalUrn(n, rank))
  {
    hide Complete, Qualifies, FeatureUrns, Sound, DistinctUrns, OrderedByKind, Shown, Intermediate, NamesDataset;
    FeaturesAre(n, evidence);
    if rank == 0 {
      var item := HasDashboardPath(n, evidence);
      var k :| 0 <= k < |evidence| && evidence[k] == item;
      assert ItemAccounted(consumers, evidence[k], n.orders, FeatureUrns(evidence));
      assert item.payload.nodes[2] == n.revenue && n.revenue == DashboardNodes(n)[1..][1];
      OnlyRevenueQualifies(n, n.revenue);
    } else {
      var item := HasItem(n, evidence, rank);
      CompleteIsCanonical(n, evidence, item);
      var k :| 0 <= k < |evidence| && evidence[k] == item;
      assert ItemAccounted(consumers, evidence[k], n.orders, FeatureUrns(evidence));
      if rank >= 2 {
        NotAbsorbed(n, consumers, evidence, CanonicalUrn(n, rank));
      }
    }
  }

  /** No canonical consumer is a model's feature dataset. */
  lemma NotAbsorbed(n: Names, consumers: seq<Consumer>, evidence: seq<Evidence>, u: Urn)
    requires Fits(n) && Complete(n, evidence) && Derived(consumers, evidence, n.orders) && Accounted(consumers, u)
    requires u == n.model || u == n.query
    ensures Shown(consumers, u)
  {
    hide Complete, Qualifies, FeatureUrns, DistinctUrns, OrderedByKind, Shown, ItemAccounted, DatasetName,
      Intermediate, NamesDataset;
    if j :| 0 <= j < |consumers| && consumers[j].feature == Some(u) {
      var k := SoundWitness(consumers, evidence, n.orders, j);
      CompleteIsCanonical(n, evidence, evidence[k]);
    }
  }

  /** Whatever the order of a complete context's evidence, its consumers are exactly the four groups. */
  lemma CompleteGivesFour(n: Names, consumers: seq<Consumer>, evidence: seq<Evidence>)
    requires Fits(n) && Complete(n, evidence) && Derived(consumers, evidence, n.orders)
    ensures ExactlyFour(consumers)
    ensures forall j :: 0 <= j < 4 ==> consumers[j].urn == CanonicalUrn(n, j)
  {
    hide Complete, CanonicalUrn, Sound, ItemAccounted;
    forall j | 0 <= j < |consumers|
      ensures consumers[j].urn == CanonicalUrn(n, Rank(consumers[j].kind)) && consumers[j].evidenceIds != []
    {
      ConsumerIsCanonical(n, consumers, evidence, j);
    }
    RanksCount(n, consumers);
    forall rank | 0 <= rank <= 3 ensures Shown(consumers, CanonicalUrn(n, rank)) {
      CanonicalIsShown(n, consumers, evidence, rank);
    }
    AllFour(n, consumers);
  }

  lemma CanonicalUrnsDiffer(n: Names)
    requires Fits(n)
    ensures forall a: nat, b: nat | a <= 3 && b <= 3 && CanonicalUrn(n, a) == CanonicalUrn(n, b) :: a == b
  {
  }

  /** Distinct URNs with one URN for each kind make the kinds strictly rising. */
  lemma RanksCount(n: Names, consumers: seq<Consumer>)
    requires DistinctUrns(consumers) && OrderedByKind(consumers)
    requires forall j :: 0 <= j < |consumers| ==> consumers[j].urn == CanonicalUrn(n, Rank(consumers[j].kind))
    ensures |consumers| <= 4
    ensures forall i, j :: 0 <= i < j < |consumers| ==> Rank(consumers[i].kind) < Rank(consumers[j].kind)
    ensures forall j :: 0 <= j < |consumers| ==> Rank(consumers[j].kind) >= j
  {
    hide CanonicalUrn;
    if |consumers| >= 1 { assert Rank(consumers[0].kind) >= 0; }
    if |consumers| >= 2 { assert Rank(consumers[1].kind) >= 1; }
    if |consumers| >= 3 { assert Rank(consumers[2].kind) >= 2; }
    if |consumers| >= 4 { assert Rank(consumers[3].kind) >= 3; }
    assert |consumers| > 4 ==> Rank(consumers[3].kind) < Rank(consumers[4].kind);
  }

  lemma ShownKind(n: Names, consumers: seq<Consumer>, rank: nat) returns (j: nat)
    requires forall i :: 0 <= i < |consumers| ==> consumers[i].urn == CanonicalUrn(n, Rank(consumers[i].kind))
    requires Fits(n) && rank <= 3 && Shown(consumers, CanonicalUrn(n, rank))
    ensures j < |consumers| && Rank(consumers[j].kind) == rank
  {
    CanonicalUrnsDiffer(n);
    j :| 0 <= j < |consumers| && consumers[j].urn == CanonicalUrn(n, rank);
  }

  lemma AllFour(n: Names, consumers: seq<Consumer>)
    requires Fits(n) && |consumers| <= 4
    requires forall i, j :: 0 <= i < j < |consumers| ==> Rank(consumers[i].kind) < Rank(consumers[j].kind)
    requires forall j :: 0 <= j < |consumers| ==> consumers[j].urn == CanonicalUrn(n, Rank(consumers[j].kind))
    requires forall rank: nat :: rank <= 3 ==> Shown(consumers, CanonicalUrn(n, rank))
    ensures |consumers| == 4 && forall j :: 0 <= j < 4 ==> Rank(consumers[j].kind) == j
  {
    hide CanonicalUrn, Shown;
    var first := ShownKind(n, consumers, 0);
    var second := ShownKind(n, consumers, 1);
    var third := ShownKind(n, consumers, 2);
    var last := ShownKind(n, consumers, 3);
    assert first < second < third < last;
  }

  /** Derivation followed by the check never fails on a complete context. */
  method CheckComplete(n: Names, evidence: seq<Evidence>) returns (error: Option<CardError>)
    ensures Fits(n) && Complete(n, evidence) ==> error.None?
  {
    hide Fits, Complete, Derived, ExactlyFour;
    var consumers := DeriveImpactConsumers(evidence, n.orders);
    if Fits(n) && Complete(n, evidence) {
      CompleteGivesFour(n, consumers, evidence);
    }
    error := AssertExactlyFourConsumers(consumers);
  }

  // ------------------------------------------------------------- the canonical texts

  lemma PartIsShown(text: string, part: string, c: char)
    ensures Contains(text, part) && c in part ==> c in text
  {
    if Contains(text, part) && c in part {
      var k :| 0 <= k <= |text| && part <= text[k..];
      var i :| 0 <= i < |part| && part[i] == c;
      assert text[k + i] == text[k..][i] == part[i];
    }
  }

  /** A part of a text with one underscore has the same character before it. */
  lemma UnderscoreFits(before: string, after: string, part: string, i: nat)
    requires '_' !in before && '_' !in after && 1 <= i < |part| && part[i] == '_'
    ensures Contains(before + "_" + after, part) ==> before != "" && part[i - 1] == before[|before| - 1]
  {
    var text := before + "_" + after;
    if Contains(text, part) {
      var k :| 0 <= k <= |text| && part <= text[k..];
      assert text[k + i] == text[k..][i] == part[i] && text[k + i - 1] == text[k..][i - 1] == part[i - 1];
      OnlyUnderscore(before, after, k + i);
    }
  }

  lemma OnlyUnderscore(before: string, after: string, k: nat)
    requires '_' !in before && '_' !in after
    ensures k < |before + "_" + after| && (before + "_" + after)[k] == '_' ==> k == |before|
  {
    var text := before + "_" + after;
    assert k < |before| ==> text[k] == before[k] && before[k] in before;
    assert |before| < k < |text| ==> text[k] == after[k - |before| - 1] && text[k] in after;
  }

  lemma ContainsMiddle(before: string, part: string, after: string)
    ensures Contains(before + part + after, part)
  {
    assert (before + part + after)[|before|..] == part + after;
  }

  function Platform(): string { "(urn:li:" + "dataPlatform:" }
  function Instance(): string { "lineageguard-" + "canonical." }
  function Schemas(): string { "lineageguard." }
  function Prod(): string { ",PROD)" }

  /** What follows the entity type in the URN of every dataset. */
  function DatasetHead(): string {
    Platform() + "postgres," + Instance() + Schemas()
  }

  function OrdersUrn(): Urn {
    "urn:li:dataset:" + DatasetHead() + "commerce.orders" + Prod()
  }

  function StagingUrn(): Urn {
    "urn:li:dataset:" + DatasetHead() + "analytics." + "stg_orders" + Prod()
  }

  function RevenueUrn(): Urn {
    "urn:li:dataset:" + DatasetHead() + "analytics.customer" + "_" + ("revenue" + Prod())
  }

  function FeaturesUrn(): Urn {
    "urn:li:dataset:" + DatasetHead() + "fraud.customer_features" + Prod()
  }

  function DashboardUrn(): Urn {
    "urn:li:dashboard:(" + "looker," + Instance() + "finance-revenue-dashboard)"
  }

  function ModelUrn(): Urn {
    "urn:li:mlModel:" + Platform() + "mlflow," + Instance() + "fraud-model-v3" + Prod()
  }

  function QueryDigits(): string {
    "e4bbe7075754d05de68f76" + "ff0a9b127532e044da8ab" + "0a357bce7e0d41f7ad22c"
  }

  function QueryUrn(): Urn {
    "urn:li:query:" + Instance() + "system." + QueryDigits()
  }

  function CanonicalNames(): Names {
    Names(OrdersUrn(), StagingUrn(), RevenueUrn(), FeaturesUrn(), DashboardUrn(), ModelUrn(), QueryUrn())
  }

  lemma StartsWith(a: string, b: string, c: string, d: string, e: string)
    ensures Contains(a + b + c + d + e, a)
  {
    var text := a + b + c + d + e;
    assert a <= text[0..];
  }

  lemma RevenueNamesDataset()
    ensures NamesDataset(RevenueUrn())
  {
    hide DatasetHead, Prod, Contains;
    StartsWith("urn:li:dataset:", DatasetHead(), "analytics.customer", "_", "revenue" + Prod());
  }

  lemma RevenueIsPlain()
    ensures !Intermediate(RevenueUrn())
  {
    SmallPieceTexts();
    HeadIsPlain();
    hide DatasetHead, Prod;
    var before, after := "urn:li:dataset:" + DatasetHead() + "analytics.customer", "revenue" + Prod();
    UnderscoreFits(before, after, "stg_orders", 3);
    UnderscoreFits(before, after, ".stg_", 4);
  }

  lemma PlatformText()
    ensures '_' !in Platform() && 's' !in Platform() && 't' in Platform() && 'h' !in Platform() && '(' in Platform()
    ensures 'y' !in Platform()
  {
  }

  lemma InstanceText()
    ensures '_' !in Instance() && 's' !in Instance() && 't' !in Instance() && 'h' !in Instance() && '(' !in Instance()
    ensures 'y' !in Instance()
  {
  }

  lemma SmallPieceTexts()
    ensures '_' !in Prod() && 's' !in Prod() && 'h' !in Prod() && 'y' !in Prod()
    ensures '_' !in Schemas() && 'y' !in Schemas()
  {
  }

  lemma HeadIsPlain()
    ensures '_' !in DatasetHead() && 'y' !in DatasetHead()
    ensures 's' in DatasetHead() && 't' in DatasetHead() && '(' in DatasetHead()
  {
    PlatformText();
    InstanceText();
    SmallPieceTexts();
    hide Platform, Instance, Schemas;
  }

  lemma StagingIsIntermediate()
    ensures Intermediate(StagingUrn())
  {
    hide DatasetHead, Prod;
    ContainsMiddle("urn:li:dataset:" + DatasetHead() + "analytics.", "stg_orders", Prod());
  }

  lemma OthersNameNoDataset()
    ensures !NamesDataset(DashboardUrn()) && !NamesDataset(ModelUrn())
  {
    DashboardText();
    ModelText();
    hide DashboardUrn, ModelUrn;
    PartIsShown(DashboardUrn(), "urn:li:dataset:", 't');
    PartIsShown(ModelUrn(), "urn:li:dataset:", 's');
  }

  lemma DashboardText()
    ensures 't' !in DashboardUrn() && 'h' in DashboardUrn() && '(' in DashboardUrn()
  {
    InstanceText();
    hide Instance;
  }

  lemma ModelText()
    ensures 's' !in ModelUrn() && 'h' !in ModelUrn() && '(' in ModelUrn()
  {
    PlatformText();
    InstanceText();
    SmallPieceTexts();
    hide Platform, Instance, Prod;
  }

  lemma DigitsText()
    ensures '(' !in QueryDigits()
  {
  }

  lemma QueryText()
    ensures '(' !in QueryUrn()
  {
    InstanceText();
    DigitsText();
    hide Instance, QueryDigits;
  }

  lemma RevenueText()
    ensures '_' in RevenueUrn() && 's' in RevenueUrn() && 't' in RevenueUrn() && '(' in RevenueUrn()
    ensures 'y' in RevenueUrn()
  {
    HeadIsPlain();
    hide DatasetHead, Prod;
    assert 'y' in "analytics.customer";
  }

  lemma OrdersText()
    ensures '_' !in OrdersUrn()
  {
    HeadIsPlain();
    SmallPieceTexts();
    hide DatasetHead, Prod;
  }

  lemma FeaturesText()
    ensures 'y' !in FeaturesUrn() && 's' in FeaturesUrn() && '(' in FeaturesUrn()
  {
    HeadIsPlain();
    SmallPieceTexts();
    hide DatasetHead, Prod;
  }

  /** The canonical URNs are such names. */
  lemma CanonicalNamesFit()
    ensures Fits(CanonicalNames())
  {
    hide OrdersUrn, StagingUrn, RevenueUrn, FeaturesUrn, DashboardUrn, ModelUrn, QueryUrn, NamesDataset, Intermediate;
    RevenueNamesDataset();
    RevenueIsPlain();
    StagingIsIntermediate();
    OthersNameNoDataset();
    DashboardText();
    ModelText();
    QueryText();
    RevenueText();
    OrdersText();
    FeaturesText();
  }
}
