/** Binding an accepted candidate to its change, context and assessment (packages/domain/src/migration.ts). */
module MigrationBinding {
  import opened Common
  import opened Text
  import opened MigrationCandidate

  datatype Payload =
    | OwnerEvidence(ownerUrn: string, assetUrn: string)
    | DashboardEvidence(dashboardUrn: string)
    | ModelEvidence(modelUrn: string)
    | OtherEvidence
  datatype Evidence = Evidence(id: string, payload: Payload)

  datatype Change = Change(id: string, fingerprint: string, patchFingerprint: string, baseSha: string)
  datatype Context = Context(changeId: string, fingerprint: string, evidence: seq<Evidence>)
  datatype Reason = Reason(ruleId: string, evidenceIds: seq<string>)
  datatype Assessment = Assessment(
    changeId: string, grounded: bool, contextFingerprint: string, decision: string, reasons: seq<Reason>)

  datatype BindError =
    | InvalidCandidate | SourceBinding | RiskEvidence | OutsideContext
    | OwnerReviewers | OwnerAssets | Escalations | BaseSha

  // ------------------------------------------------------------------- ownership

  /** The OWNER reviewers, in order. */
  function OwnersOf(reviewers: seq<Reviewer>): seq<(string, seq<string>)> {
    if |reviewers| == 0 then []
    else
      var front := OwnersOf(reviewers[..|reviewers| - 1]);
      match reviewers[|reviewers| - 1]
      case Owner(urn, assets) => front + [(urn, assets)]
      case UnresolvedOwner(_, _) => front
  }

  /** Every (owner, asset) pair that a list of owner reviewers claims. */
  function Pairs(owners: seq<(string, seq<string>)>): multiset<(string, string)> {
    if |owners| == 0 then multiset{}
    else Pairs(owners[..|owners| - 1]) + Tagged(owners[|owners| - 1].0, owners[|owners| - 1].1)
  }

  function Tagged(owner: string, assets: seq<string>): multiset<(string, string)> {
    if |assets| == 0 then multiset{}
    else Tagged(owner, assets[..|assets| - 1]) + multiset{(owner, assets[|assets| - 1])}
  }

  /** Every (owner, asset) pair in the ownership evidence. */
  function EvidencePairs(evidence: seq<Evidence>): multiset<(string, string)> {
    if |evidence| == 0 then multiset{}
    else
      EvidencePairs(evidence[..|evidence| - 1]) +
      match evidence[|evidence| - 1].payload
      case OwnerEvidence(owner, asset) => multiset{(owner, asset)}
      case _ => multiset{}
  }

  /** The assets that the ownership evidence gives one owner, in evidence order. */
  function AssetsOf(evidence: seq<Evidence>, owner: string): seq<string> {
    if |evidence| == 0 then []
    else
      var front := AssetsOf(evidence[..|evidence| - 1], owner);
      match evidence[|evidence| - 1].payload
      case OwnerEvidence(o, asset) => if o == owner then front + [asset] else front
      case _ => front
  }

  function Lookup(m: map<string, seq<string>>, k: string): seq<string> {
    if k in m then m[k] else []
  }

  method CollectOwnerAssets(evidence: seq<Evidence>) returns (ownerAssets: map<string, seq<string>>)
    ensures forall o :: Lookup(ownerAssets, o) == AssetsOf(evidence, o)
    ensures forall o :: o in ownerAssets <==> AssetsOf(evidence, o) != []
  {
    ownerAssets := map[];
    for i := 0 to |evidence|
      invariant forall o :: Lookup(ownerAssets, o) == AssetsOf(evidence[..i], o)
      invariant forall o :: o in ownerAssets <==> AssetsOf(evidence[..i], o) != []
    {
      assert evidence[..i + 1][..i] == evidence[..i];
      if evidence[i].payload.OwnerEvidence? {
        var owner := evidence[i].payload.ownerUrn;
        ownerAssets := ownerAssets[owner := Lookup(ownerAssets, owner) + [evidence[i].payload.assetUrn]];
      }
    }
    assert evidence[..|evidence|] == evidence;
  }

  /** The comparison the source makes, reviewer by reviewer. */
  ghost predicate OwnersAgree(owners: seq<(string, seq<string>)>, evidence: seq<Evidence>, keys: set<string>) {
    && |owners| == |keys|
    && forall i :: 0 <= i < |owners| ==> owners[i].1 == Sort(AssetsOf(evidence, owners[i].0))
  }

  ghost predicate DistinctOwners(owners: seq<(string, seq<string>)>) {
    forall i, j :: 0 <= i < j < |owners| ==> owners[i].0 != owners[j].0
  }

  lemma {:induction false} TaggedCount(owner: string, assets: seq<string>, o: string, a: string)
    ensures Tagged(owner, assets)[(o, a)] == if o == owner then multiset(assets)[a] else 0
    decreases |assets|
  {
    if |assets| > 0 {
      var n := |assets| - 1;
      TaggedCount(owner, assets[..n], o, a);
      assert assets == assets[..n] + [assets[n]];
    }
  }

  /** Without the owner there is no pair of his. */
  lemma {:induction false} NoPairs(owners: seq<(string, seq<string>)>, o: string, a: string)
    requires forall i :: 0 <= i < |owners| ==> owners[i].0 != o
    ensures Pairs(owners)[(o, a)] == 0
    decreases |owners|
  {
    if |owners| > 0 {
      var n := |owners| - 1;
      NoPairs(owners[..n], o, a);
      TaggedCount(owners[n].0, owners[n].1, o, a);
    }
  }

  /** Distinct owners: an owner's pairs are his one reviewer's assets. */
  lemma {:induction false} PairsOfOwner(owners: seq<(string, seq<string>)>, k: nat, a: string)
    requires DistinctOwners(owners) && k < |owners|
    ensures Pairs(owners)[(owners[k].0, a)] == multiset(owners[k].1)[a]
    decreases |owners|
  {
    var n := |owners| - 1;
    TaggedCount(owners[n].0, owners[n].1, owners[k].0, a);
    if k == n {
      NoPairs(owners[..n], owners[k].0, a);
    } else {
      PairsOfOwner(owners[..n], k, a);
    }
  }

  lemma {:induction false} EvidenceCount(evidence: seq<Evidence>, o: string, a: string)
    ensures EvidencePairs(evidence)[(o, a)] == multiset(AssetsOf(evidence, o))[a]
    decreases |evidence|
  {
    if |evidence| > 0 {
      EvidenceCount(evidence[..|evidence| - 1], o, a);
    }
  }

  function OwnerUrns(owners: seq<(string, seq<string>)>): seq<string> {
    Map((p: (string, seq<string>)) => p.0, owners)
  }

  lemma OwnerUrnSet(owners: seq<(string, seq<string>)>)
    requires DistinctOwners(owners)
    ensures |Elements(OwnerUrns(owners))| == |owners|
  {
    SetSize(OwnerUrns(owners));
  }

  lemma SubsetSameSize(a: set<string>, b: set<string>)
    requires a <= b && |a| == |b|
    ensures a == b
  {
    if x :| x in b && x !in a {
      assert a <= b - {x};
      SubsetSize(a, b - {x});
    }
  }

  lemma {:induction false} SubsetSize(a: set<string>, b: set<string>)
    requires a <= b
    ensures |a| <= |b|
    decreases a
  {
    if a != {} {
      var x :| x in a;
      SubsetSize(a - {x}, b - {x});
    }
  }

  /** Pigeonhole: distinct owners, equal counts and nonempty matching assets leave no owner out. */
  lemma AgreedOwnersAreAll(owners: seq<(string, seq<string>)>, evidence: seq<Evidence>, keys: set<string>)
    requires DistinctOwners(owners) && OwnersAgree(owners, evidence, keys)
    requires forall i :: 0 <= i < |owners| ==> |owners[i].1| > 0
    requires forall o :: o in keys <==> AssetsOf(evidence, o) != []
    ensures Elements(OwnerUrns(owners)) == keys
  {
    var urns := OwnerUrns(owners);
    forall o | o in Elements(urns) ensures o in keys {
      var i :| 0 <= i < |owners| && urns[i] == o;
      SortSorts(AssetsOf(evidence, o));
    }
    OwnerUrnSet(owners);
    SubsetSameSize(Elements(urns), keys);
  }

  lemma OwnerIndex(owners: seq<(string, seq<string>)>, o: string)
    ensures o in Elements(OwnerUrns(owners)) <==> exists i :: 0 <= i < |owners| && owners[i].0 == o
  {
    var urns := OwnerUrns(owners);
    assert forall i :: 0 <= i < |owners| ==> urns[i] == owners[i].0 && urns[i] in Elements(urns);
  }

  lemma AgreementGivesPairs(owners: seq<(string, seq<string>)>, evidence: seq<Evidence>, keys: set<string>,
                            o: string, a: string)
    requires DistinctOwners(owners) && OwnersAgree(owners, evidence, keys)
    requires Elements(OwnerUrns(owners)) == keys
    requires forall o' :: o' in keys <==> AssetsOf(evidence, o') != []
    ensures Pairs(owners)[(o, a)] == EvidencePairs(evidence)[(o, a)]
  {
    hide Pairs, EvidencePairs, AssetsOf, Elements, OwnerUrns, Sort;
    EvidenceCount(evidence, o, a);
    OwnerIndex(owners, o);
    if o in keys {
      var i :| 0 <= i < |owners| && owners[i].0 == o;
      PairsOfOwner(owners, i, a);
      SortSorts(AssetsOf(evidence, o));
    } else {
      NoPairs(owners, o, a);
    }
  }

  /** The reviewers' flattened pairs are the evidence's pairs, and each list is canonical. */
  ghost predicate OwnershipCovered(owners: seq<(string, seq<string>)>, evidence: seq<Evidence>) {
    && Pairs(owners) == EvidencePairs(evidence)
    && forall i :: 0 <= i < |owners| ==> Sorted(owners[i].1)
  }

  lemma PairsGiveAssets(owners: seq<(string, seq<string>)>, evidence: seq<Evidence>, i: nat)
    requires DistinctOwners(owners) && OwnershipCovered(owners, evidence) && i < |owners|
    ensures owners[i].1 == Sort(AssetsOf(evidence, owners[i].0))
  {
    var o := owners[i].0;
    forall a ensures multiset(owners[i].1)[a] == multiset(AssetsOf(evidence, o))[a] {
      PairsOfOwner(owners, i, a);
      EvidenceCount(evidence, o, a);
    }
    assert multiset(owners[i].1) == multiset(AssetsOf(evidence, o));
    SortSorts(AssetsOf(evidence, o));
    SortedUnique(owners[i].1, Sort(AssetsOf(evidence, o)));
  }

  /** An owner appears in the evidence exactly when some pair of his does. */
  lemma AppearsByPair(evidence: seq<Evidence>, o: string)
    ensures AssetsOf(evidence, o) != [] <==> exists a :: EvidencePairs(evidence)[(o, a)] > 0
  {
    hide AssetsOf, EvidencePairs;
    if AssetsOf(evidence, o) != [] {
      EvidenceCount(evidence, o, AssetsOf(evidence, o)[0]);
    }
    if a :| EvidencePairs(evidence)[(o, a)] > 0 {
      EvidenceCount(evidence, o, a);
    }
  }

  lemma PairsGiveOwners(owners: seq<(string, seq<string>)>, evidence: seq<Evidence>, o: string)
    requires DistinctOwners(owners) && Pairs(owners) == EvidencePairs(evidence)
    requires forall i :: 0 <= i < |owners| ==> |owners[i].1| > 0
    ensures o in Elements(OwnerUrns(owners)) <==> AssetsOf(evidence, o) != []
  {
    hide Pairs, EvidencePairs, AssetsOf, Elements, OwnerUrns;
    OwnerIndex(owners, o);
    AppearsByPair(evidence, o);
    if i :| 0 <= i < |owners| && owners[i].0 == o {
      PairsOfOwner(owners, i, owners[i].1[0]);
    } else {
      forall a ensures Pairs(owners)[(o, a)] == 0 {
        NoPairs(owners, o, a);
      }
    }
  }

  /** The reviewer-by-reviewer comparison decides exactly whether ownership is covered. */
  lemma AgreeIffCovered(owners: seq<(string, seq<string>)>, evidence: seq<Evidence>, keys: set<string>)
    requires DistinctOwners(owners)
    requires forall i :: 0 <= i < |owners| ==> |owners[i].1| > 0
    requires forall o :: o in keys <==> AssetsOf(evidence, o) != []
    ensures OwnersAgree(owners, evidence, keys) <==> OwnershipCovered(owners, evidence)
  {
    if OwnersAgree(owners, evidence, keys) {
      AgreedOwnersAreAll(owners, evidence, keys);
      forall p ensures Pairs(owners)[p] == EvidencePairs(evidence)[p] {
        AgreementGivesPairs(owners, evidence, keys, p.0, p.1);
      }
      assert Pairs(owners) == EvidencePairs(evidence);
      forall i | 0 <= i < |owners| ensures Sorted(owners[i].1) {
        SortSorts(AssetsOf(evidence, owners[i].0));
      }
    }
    if OwnershipCovered(owners, evidence) {
      forall i | 0 <= i < |owners| ensures owners[i].1 == Sort(AssetsOf(evidence, owners[i].0)) {
        PairsGiveAssets(owners, evidence, i);
      }
      forall o ensures o in Elements(OwnerUrns(owners)) <==> o in keys {
        PairsGiveOwners(owners, evidence, o);
      }
      assert Elements(OwnerUrns(owners)) == keys;
      OwnerUrnSet(owners);
    }
  }

  /** Unique reviewer keys make the OWNER reviewers' owners distinct. */
  lemma {:induction false} UniqueKeysDistinctOwners(rs: seq<Reviewer>)
    requires Distinct(ReviewerKeys(rs))
    ensures DistinctOwners(OwnersOf(rs))
    ensures forall i :: 0 <= i < |OwnersOf(rs)| ==> Owner(OwnersOf(rs)[i].0, OwnersOf(rs)[i].1) in rs
    decreases |rs|
  {
    if |rs| > 0 {
      var n := |rs| - 1;
      var front := rs[..n];
      assert forall i :: 0 <= i < n ==> ReviewerKeys(front)[i] == ReviewerKeys(rs)[i];
      UniqueKeysDistinctOwners(front);
      if rs[n].Owner? {
        forall i | 0 <= i < |OwnersOf(front)| ensures OwnersOf(front)[i].0 != rs[n].ownerUrn {
          var r := Owner(OwnersOf(front)[i].0, OwnersOf(front)[i].1);
          var k :| 0 <= k < n && rs[k] == r;
          assert ReviewerKeys(rs)[k] == ReviewerKey(r) && ReviewerKeys(rs)[n] == ReviewerKey(rs[n]);
          assert ReviewerKey(r) != ReviewerKey(rs[n]);
        }
      }
      assert rs == front + [rs[n]];
    }
  }

  method CheckOwners(reviewers: seq<Reviewer>, evidence: seq<Evidence>) returns (error: Option<BindError>)
    requires Distinct(ReviewerKeys(reviewers))
    requires forall i :: 0 <= i < |reviewers| && reviewers[i].Owner? ==> |reviewers[i].assets| > 0
    ensures error.None? <==> OwnershipCovered(OwnersOf(reviewers), evidence)
    ensures error.Some? ==> error.value == OwnerReviewers || error.value == OwnerAssets
  {
    hide AssetsOf, Pairs, EvidencePairs, Sorted, Sort;
    var ownerAssets := CollectOwnerAssets(evidence);
    var owners := OwnersOf(reviewers);
    UniqueKeysDistinctOwners(reviewers);
    AgreeIffCovered(owners, evidence, ownerAssets.Keys);
    if |owners| != |ownerAssets| {
      return Some(OwnerReviewers);
    }
    for i := 0 to |owners|
      invariant forall j :: 0 <= j < i ==> owners[j].1 == Sort(AssetsOf(evidence, owners[j].0))
    {
      if owners[i].1 != Sort(Lookup(ownerAssets, owners[i].0)) {
        return Some(OwnerAssets);
      }
    }
    return None;
  }

  // ----------------------------------------------------------------- escalations

  function FindEvidence(evidence: seq<Evidence>, id: string): Option<Evidence> {
    if |evidence| == 0 then None
    else if evidence[0].id == id then Some(evidence[0])
    else FindEvidence(evidence[1..], id)
  }

  /** The dashboard or model that a cited item is about. */
  function CriticalAsset(evidence: seq<Evidence>, id: string): Option<string> {
    match FindEvidence(evidence, id)
    case None => None
    case Some(item) =>
      match item.payload
      case DashboardEvidence(urn) => Some(urn)
      case ModelEvidence(urn) => Some(urn)
      case _ => None
  }

  function UnownedIds(reasons: seq<Reason>): seq<string> {
    if |reasons| == 0 then []
    else if reasons[0].ruleId == "LG005" then reasons[0].evidenceIds
    else UnownedIds(reasons[1..])
  }

  function EscalationText(id: string, asset: string): string {
    id + ":" + asset
  }

  /** One escalation for each asset that LG005 says has no owner, unless one is not a critical asset. */
  function ExpectedEscalations(evidence: seq<Evidence>, ids: seq<string>): Option<seq<string>> {
    if |ids| == 0 then Some([])
    else
      match (ExpectedEscalations(evidence, ids[..|ids| - 1]), CriticalAsset(evidence, ids[|ids| - 1]))
      case (Some(front), Some(asset)) => Some(front + [EscalationText(ids[|ids| - 1], asset)])
      case _ => None
  }

  function ActualEscalations(reviewers: seq<Reviewer>): seq<string> {
    if |reviewers| == 0 then []
    else
      var front := ActualEscalations(reviewers[..|reviewers| - 1]);
      match reviewers[|reviewers| - 1]
      case UnresolvedOwner(id, asset) => front + [EscalationText(id, asset)]
      case Owner(_, _) => front
  }

  ghost predicate EscalationsMatch(reviewers: seq<Reviewer>, evidence: seq<Evidence>, reasons: seq<Reason>) {
    var expected := ExpectedEscalations(evidence, UnownedIds(reasons));
    expected.Some? && multiset(ActualEscalations(reviewers)) == multiset(expected.value)
  }

  method CheckEscalations(reviewers: seq<Reviewer>, evidence: seq<Evidence>, reasons: seq<Reason>) returns (ok: bool)
    ensures ok <==> EscalationsMatch(reviewers, evidence, reasons)
  {
    var ids := UnownedIds(reasons);
    var expected: seq<string> := [];
    for i := 0 to |ids|
      invariant ExpectedEscalations(evidence, ids[..i]) == Some(expected)
    {
      assert ids[..i + 1][..i] == ids[..i];
      var asset := CriticalAsset(evidence, ids[i]);
      if asset.None? {
        NoneStays(evidence, ids, i + 1);
        return false;
      }
      expected := expected + [EscalationText(ids[i], asset.value)];
    }
    assert ids[..|ids|] == ids;
    SameSorted(ActualEscalations(reviewers), expected);
    return Sort(ActualEscalations(reviewers)) == Sort(expected);
  }

  lemma {:induction false} NoneStays(evidence: seq<Evidence>, ids: seq<string>, k: nat)
    requires k <= |ids| && ExpectedEscalations(evidence, ids[..k]).None?
    ensures ExpectedEscalations(evidence, ids).None?
    decreases |ids|
  {
    if k == |ids| {
      assert ids[..k] == ids;
    } else {
      assert ids[..|ids| - 1][..k] == ids[..k];
      NoneStays(evidence, ids[..|ids| - 1], k);
    }
  }

  // -------------------------------------------------------------------- the binding

  function CitedEvidence(reasons: seq<Reason>): seq<string> {
    if |reasons| == 0 then [] else CitedEvidence(reasons[..|reasons| - 1]) + reasons[|reasons| - 1].evidenceIds
  }

  predicate SourcesMatch(c: Candidate, change: Change, context: Context, assessment: Assessment) {
    && context.changeId == change.id && assessment.changeId == change.id && assessment.grounded
    && c.changeFingerprint == change.fingerprint && c.patchFingerprint == change.patchFingerprint
    && c.contextFingerprint == context.fingerprint && assessment.contextFingerprint == context.fingerprint
    && c.decision == assessment.decision
  }

  predicate BasesMatch(artifacts: seq<Artifact>, baseSha: string) {
    forall i :: 0 <= i < |artifacts| && artifacts[i].expectedBaseSha.Some? ==>
        artifacts[i].expectedBaseSha.value == baseSha
  }

  function EvidenceIds(evidence: seq<Evidence>): set<string> {
    set i | 0 <= i < |evidence| :: evidence[i].id
  }

  ghost predicate Bound(c: Candidate, change: Change, context: Context, assessment: Assessment) {
    && SourcesMatch(c, change, context, assessment)
    && Elements(c.evidenceIds) == Elements(CitedEvidence(assessment.reasons))
    && Elements(c.evidenceIds) <= EvidenceIds(context.evidence)
    && OwnershipCovered(OwnersOf(c.reviewers), context.evidence)
    && EscalationsMatch(c.reviewers, context.evidence, assessment.reasons)
    && BasesMatch(c.artifacts, change.baseSha)
  }

  method BindMigrationCandidate(c: Candidate, change: Change, context: Context, assessment: Assessment)
    returns (r: Result<Candidate, BindError>)
    ensures r.Ok? <==> Valid(c) && Bound(c, change, context, assessment)
    ensures r.Ok? ==> r.value == c
    ensures r == Err(InvalidCandidate) <==> !Valid(c)
  {
    hide Valid, OwnershipCovered, EscalationsMatch, Sorted, Sort, Dedup, CitedEvidence, OwnersOf;
    var valid := CheckCandidate(c);
    if !valid {
      return Err(InvalidCandidate);
    }
    if !SourcesMatch(c, change, context, assessment) {
      return Err(SourceBinding);
    }
    CandidateParts(c);
    SameEvidence(CitedEvidence(assessment.reasons), c.evidenceIds);
    if c.evidenceIds != Sort(Dedup(CitedEvidence(assessment.reasons))) {
      return Err(RiskEvidence);
    }
    if exists i :: 0 <= i < |c.evidenceIds| && c.evidenceIds[i] !in EvidenceIds(context.evidence) {
      return Err(OutsideContext);
    }
    var owners := CheckOwners(c.reviewers, context.evidence);
    if owners.Some? {
      return Err(owners.value);
    }
    var escalated := CheckEscalations(c.reviewers, context.evidence, assessment.reasons);
    if !escalated {
      return Err(Escalations);
    }
    if !BasesMatch(c.artifacts, change.baseSha) {
      return Err(BaseSha);
    }
    return Ok(c);
  }

  lemma CandidateParts(c: Candidate)
    requires Valid(c)
    ensures Distinct(c.evidenceIds) && Sort(c.evidenceIds) == c.evidenceIds
    ensures Distinct(ReviewerKeys(c.reviewers))
    ensures forall i :: 0 <= i < |c.reviewers| && c.reviewers[i].Owner? ==> |c.reviewers[i].assets| > 0
  {
    hide Sort, TargetsFit, ExactCover, RolesPresent, PhasesInOrder;
    SortedIffFixed(c.evidenceIds);
  }
}
