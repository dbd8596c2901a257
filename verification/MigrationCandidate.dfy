/** Which migration candidates are accepted (packages/domain/src/migration.ts). */
module MigrationCandidate {
  import opened Common
  import opened Text

  datatype Phase = Expand | Migrate | Contract
  datatype ArtifactKind = SqlMigration | RollbackSql | DbtModel | DbtTest | MigrationDocument

  /** `expectedBaseSha` is there for the kinds that modify a file. */
  datatype Artifact = Artifact(path: string, kind: ArtifactKind, content: string, expectedBaseSha: Option<string>)
  datatype Step = Step(id: string, phase: Phase, evidenceIds: seq<string>, targets: seq<string>)
  datatype Reviewer =
    | Owner(ownerUrn: string, assets: seq<string>)
    | UnresolvedOwner(evidenceId: string, assetUrn: string)
  datatype Candidate = Candidate(
    changeFingerprint: string, patchFingerprint: string, contextFingerprint: string, decision: string,
    evidenceIds: seq<string>, steps: seq<Step>, artifacts: seq<Artifact>, reviewers: seq<Reviewer>)

  function Map<S, T>(f: S -> T, xs: seq<S>): seq<T> {
    seq(|xs|, i requires 0 <= i < |xs| => f(xs[i]))
  }

  // -------------------------------------------------------------- what is required

  /** The list lengths the object schemas demand. */
  predicate Shape(c: Candidate) {
    && 3 <= |c.steps| <= 20 && 5 <= |c.artifacts| <= 20 && 1 <= |c.reviewers| <= 20 && 1 <= |c.evidenceIds| <= 200
    && (forall i :: 0 <= i < |c.steps| ==> 1 <= |c.steps[i].targets| <= 20 && 1 <= |c.steps[i].evidenceIds| <= 200)
    && (forall i :: 0 <= i < |c.reviewers| && c.reviewers[i].Owner? ==> 1 <= |c.reviewers[i].assets| <= 20)
  }

  /** EXPAND+ MIGRATE+ CONTRACT+ */
  ghost predicate PhasesInOrder(steps: seq<Step>) {
    exists m, k :: 0 < m < k < |steps| && SplitAt(steps, m, k)
  }

  ghost predicate SplitAt(steps: seq<Step>, m: int, k: int) {
    forall i :: 0 <= i < |steps| ==> steps[i].phase == if i < m then Expand else if i < k then Migrate else Contract
  }

  function Targets(steps: seq<Step>): seq<string> {
    if |steps| == 0 then [] else Targets(steps[..|steps| - 1]) + steps[|steps| - 1].targets
  }

  function UsedEvidence(steps: seq<Step>): seq<string> {
    if |steps| == 0 then [] else UsedEvidence(steps[..|steps| - 1]) + steps[|steps| - 1].evidenceIds
  }

  function PathsOf(artifacts: seq<Artifact>): seq<string> {
    Map((a: Artifact) => a.path, artifacts)
  }

  function ReviewerKey(r: Reviewer): string {
    match r
    case Owner(urn, _) => "OWNER:" + urn
    case UnresolvedOwner(id, asset) => "UNRESOLVED_OWNER:" + id + ":" + asset
  }

  function ReviewerKeys(rs: seq<Reviewer>): seq<string> {
    Map(ReviewerKey, rs)
  }

  /** phaseKinds */
  predicate Allowed(phase: Phase, kind: ArtifactKind) {
    match phase
    case Expand => kind == SqlMigration || kind == RollbackSql
    case Migrate => kind == DbtModel || kind == DbtTest
    case Contract => kind == MigrationDocument
  }

  function CountKind(artifacts: seq<Artifact>, kind: ArtifactKind): nat {
    if |artifacts| == 0 then 0
    else CountKind(artifacts[..|artifacts| - 1], kind) + if artifacts[|artifacts| - 1].kind == kind then 1 else 0
  }

  /** The artifact a target names, in a list of distinct paths. */
  ghost predicate Names(artifacts: seq<Artifact>, target: string, kind: ArtifactKind) {
    exists i :: 0 <= i < |artifacts| && artifacts[i].path == target && artifacts[i].kind == kind
  }

  ghost predicate TargetFits(artifacts: seq<Artifact>, phase: Phase, target: string) {
    exists kind :: Names(artifacts, target, kind) && Allowed(phase, kind)
  }

  ghost predicate TargetsFit(c: Candidate) {
    forall i, j :: 0 <= i < |c.steps| && 0 <= j < |c.steps[i].targets| ==>
      TargetFits(c.artifacts, c.steps[i].phase, c.steps[i].targets[j])
  }

  /** The flattened step targets are the artifact paths, each exactly once. */
  ghost predicate ExactCover(c: Candidate) {
    multiset(Targets(c.steps)) == multiset(PathsOf(c.artifacts))
  }

  ghost predicate RolesPresent(artifacts: seq<Artifact>) {
    && CountKind(artifacts, RollbackSql) == 1 && CountKind(artifacts, MigrationDocument) == 1
    && CountKind(artifacts, SqlMigration) >= 1 && CountKind(artifacts, DbtModel) >= 1
        && CountKind(artifacts, DbtTest) >= 1
  }

  ghost predicate Canonical(c: Candidate) {
    && StrictlySorted(c.evidenceIds)
    && (forall i :: 0 <= i < |c.steps| ==> StrictlySorted(c.steps[i].evidenceIds) && Sorted(c.steps[i].targets))
    && StrictlySorted(PathsOf(c.artifacts)) && StrictlySorted(ReviewerKeys(c.reviewers))
  }

  ghost predicate Valid(c: Candidate) {
    && Shape(c) && PhasesInOrder(c.steps) && Canonical(c)
    && Elements(UsedEvidence(c.steps)) == Elements(c.evidenceIds)
    && RolesPresent(c.artifacts) && TargetsFit(c) && ExactCover(c)
  }

  // ---------------------------------------------------------------------- phases

  /** Array.prototype.indexOf */
  method IndexOf(steps: seq<Step>, phase: Phase) returns (k: int)
    ensures -1 <= k < |steps|
    ensures k >= 0 ==> steps[k].phase == phase && forall i :: 0 <= i < k ==> steps[i].phase != phase
    ensures k < 0 ==> forall i :: 0 <= i < |steps| ==> steps[i].phase != phase
  {
    for i := 0 to |steps|
      invariant forall j :: 0 <= j < i ==> steps[j].phase != phase
    {
      if steps[i].phase == phase {
        return i;
      }
    }
    return -1;
  }

  method CheckPhases(steps: seq<Step>) returns (ok: bool)
    ensures ok <==> PhasesInOrder(steps)
  {
    var firstMigrate := IndexOf(steps, Migrate);
    var firstContract := IndexOf(steps, Contract);
    forall m, k | 0 < m < k < |steps| && SplitAt(steps, m, k)
      ensures m == firstMigrate && k == firstContract && steps[0].phase == Expand
    {
      assert steps[m].phase == Migrate && steps[k].phase == Contract;
    }
    if |steps| == 0 || steps[0].phase != Expand || firstMigrate < 1 || firstContract <= firstMigrate {
      return false;
    }
    ok := forall i :: 0 <= i < |steps| ==>
            steps[i].phase == if i < firstMigrate then Expand else if i < firstContract then Migrate else Contract;
    if ok {
      assert SplitAt(steps, firstMigrate, firstContract);
    }
  }

  // -------------------------------------------------------------------- canonical

  /** `new Set(xs).size === xs.length`, and every element at its sorted place. */
  method CheckStrictlySorted(xs: seq<string>) returns (ok: bool)
    ensures ok <==> StrictlySorted(xs)
  {
    SortedIffFixed(xs);
    SetSize(xs);
    ok := |Elements(xs)| == |xs| && Sort(xs) == xs;
  }

  method CheckCanonical(c: Candidate) returns (ok: bool)
    ensures ok <==> Canonical(c)
  {
    ok := CheckStrictlySorted(c.evidenceIds);
    for i := 0 to |c.steps|
      invariant ok <==> StrictlySorted(c.evidenceIds)
                        && forall j :: 0 <= j < i ==>
                             StrictlySorted(c.steps[j].evidenceIds) && Sorted(c.steps[j].targets)
    {
      var evidence := CheckStrictlySorted(c.steps[i].evidenceIds);
      SortedIffFixed(c.steps[i].targets);
      ok := ok && evidence && Sort(c.steps[i].targets) == c.steps[i].targets;
    }
    var paths := CheckStrictlySorted(PathsOf(c.artifacts));
    var keys := CheckStrictlySorted(ReviewerKeys(c.reviewers));
    ok := ok && paths && keys;
  }

  // --------------------------------------------------------------------- evidence

  /** [...new Set(xs)] */
  function Dedup(xs: seq<string>): seq<string> {
    if |xs| == 0 then []
    else
      var front := Dedup(xs[..|xs| - 1]);
      if xs[|xs| - 1] in front then front else front + [xs[|xs| - 1]]
  }

  lemma {:induction false} DedupMeaning(xs: seq<string>)
    ensures Distinct(Dedup(xs)) && Elements(Dedup(xs)) == Elements(xs)
    decreases |xs|
  {
    if |xs| > 0 {
      var n := |xs| - 1;
      DedupMeaning(xs[..n]);
      assert xs == xs[..n] + [xs[n]];
      var front := Dedup(xs[..n]);
      assert xs[n] in front <==> xs[n] in Elements(front);
      assert Elements(xs) == Elements(xs[..n]) + {xs[n]};
      assert Elements(front + [xs[n]]) == Elements(front) + {xs[n]};
    }
  }

  lemma {:induction false} DistinctMultiset(xs: seq<string>, x: string)
    requires Distinct(xs)
    ensures multiset(xs)[x] == if x in xs then 1 else 0
    decreases |xs|
  {
    if |xs| > 0 {
      var n := |xs| - 1;
      assert xs == xs[..n] + [xs[n]];
      DistinctMultiset(xs[..n], x);
      assert xs[n] !in xs[..n];
    }
  }

  /** Over a duplicate-free list, the serialized comparison of sorted sets is set equality. */
  lemma SameEvidence(used: seq<string>, source: seq<string>)
    requires Distinct(source)
    ensures Sort(Dedup(used)) == Sort(source) <==> Elements(used) == Elements(source)
  {
    DedupMeaning(used);
    SameSorted(Dedup(used), source);
    if Elements(used) == Elements(source) {
      forall x ensures multiset(Dedup(used))[x] == multiset(source)[x] {
        DistinctMultiset(Dedup(used), x);
        DistinctMultiset(source, x);
        assert x in Dedup(used) <==> x in Elements(Dedup(used));
        assert x in source <==> x in Elements(source);
      }
      assert multiset(Dedup(used)) == multiset(source);
    }
    if multiset(Dedup(used)) == multiset(source) {
      assert forall x :: x in Elements(Dedup(used)) <==> x in multiset(Dedup(used));
      assert forall x :: x in Elements(source) <==> x in multiset(source);
    }
  }

  // ------------------------------------------------------------------ role counts

  method CheckRoles(artifacts: seq<Artifact>) returns (ok: bool)
    ensures ok <==> RolesPresent(artifacts)
  {
    var roleCounts: map<ArtifactKind, nat> := map[];
    for i := 0 to |artifacts|
      invariant forall kind :: CountKind(artifacts[..i], kind) == if kind in roleCounts then roleCounts[kind] else 0
    {
      assert artifacts[..i + 1][..i] == artifacts[..i];
      var kind := artifacts[i].kind;
      roleCounts := roleCounts[kind := (if kind in roleCounts then roleCounts[kind] else 0) + 1];
    }
    assert artifacts[..|artifacts|] == artifacts;
    var sql, model := CountIn(roleCounts, SqlMigration), CountIn(roleCounts, DbtModel);
    var test, document := CountIn(roleCounts, DbtTest), CountIn(roleCounts, MigrationDocument);
    ok := CountIn(roleCounts, RollbackSql) == 1 && sql >= 1 && model >= 1 && test >= 1 && document == 1;
  }

  function CountIn<K>(counts: map<K, nat>, k: K): nat {
    if k in counts then counts[k] else 0
  }

  // ------------------------------------------------------------------ exact cover

  /** new Map(artifacts.map(a => [a.path, a])): a later artifact replaces an earlier one. */
  function ByPath(artifacts: seq<Artifact>): map<string, Artifact> {
    if |artifacts| == 0 then map[]
    else ByPath(artifacts[..|artifacts| - 1])[artifacts[|artifacts| - 1].path := artifacts[|artifacts| - 1]]
  }

  lemma {:induction false} ByPathFinds(artifacts: seq<Artifact>, target: string)
    ensures target in ByPath(artifacts) <==> target in PathsOf(artifacts)
    ensures target in ByPath(artifacts) ==>
              ByPath(artifacts)[target] in artifacts && ByPath(artifacts)[target].path == target
    decreases |artifacts|
  {
    if |artifacts| > 0 {
      var n := |artifacts| - 1;
      ByPathFinds(artifacts[..n], target);
      assert PathsOf(artifacts) == PathsOf(artifacts[..n]) + [artifacts[n].path];
    }
  }

  /** Over distinct paths, the map's artifact is the one the target names. */
  lemma ByPathNames(artifacts: seq<Artifact>, target: string, kind: ArtifactKind)
    requires Distinct(PathsOf(artifacts))
    ensures Names(artifacts, target, kind) <==> target in ByPath(artifacts) && ByPath(artifacts)[target].kind == kind
  {
    ByPathFinds(artifacts, target);
    assert Names(artifacts, target, kind) ==> target in PathsOf(artifacts) by {
      if Names(artifacts, target, kind) {
        var i :| 0 <= i < |artifacts| && artifacts[i].path == target;
        assert PathsOf(artifacts)[i] == target;
      }
    }
    if target in ByPath(artifacts) {
      var k :| 0 <= k < |artifacts| && artifacts[k] == ByPath(artifacts)[target];
      forall i | 0 <= i < |artifacts| && artifacts[i].path == target ensures i == k {
        assert PathsOf(artifacts)[i] == PathsOf(artifacts)[k];
      }
    }
  }

  predicate Fits(byPath: map<string, Artifact>, phase: Phase, target: string) {
    target in byPath && Allowed(phase, byPath[target].kind)
  }

  predicate StepFits(byPath: map<string, Artifact>, step: Step) {
    forall j :: 0 <= j < |step.targets| ==> Fits(byPath, step.phase, step.targets[j])
  }

  /** One step's share of the reference loops. */
  method CountStep(byPath: map<string, Artifact>, step: Step, before: map<string, nat>)
    returns (fit: bool, counts: map<string, nat>)
    ensures fit <==> StepFits(byPath, step)
    ensures forall t :: CountIn(counts, t) == CountIn(before, t) + multiset(step.targets)[t]
  {
    hide CountIn, Fits;
    fit, counts := true, before;
    for j := 0 to |step.targets|
      invariant fit <==> forall l :: 0 <= l < j ==> Fits(byPath, step.phase, step.targets[l])
      invariant forall t :: CountIn(counts, t) == CountIn(before, t) + multiset(step.targets[..j])[t]
    {
      var target := step.targets[j];
      assert step.targets[..j + 1] == step.targets[..j] + [target];
      OneMore(counts, target);
      counts := counts[target := CountIn(counts, target) + 1];
      fit := fit && Fits(byPath, step.phase, target);
    }
    assert step.targets[..|step.targets|] == step.targets;
  }

  lemma TargetsGrow(steps: seq<Step>, i: nat)
    requires i < |steps|
    ensures Targets(steps[..i + 1]) == Targets(steps[..i]) + steps[i].targets
  {
    assert steps[..i + 1][..i] == steps[..i];
  }

  /** The reference loops: what is unknown or misplaced, and how often each path is named. */
  method CountReferences(c: Candidate) returns (fit: bool, counts: map<string, nat>)
    ensures fit <==> forall i :: 0 <= i < |c.steps| ==> StepFits(ByPath(c.artifacts), c.steps[i])
    ensures forall t :: multiset(Targets(c.steps))[t] == CountIn(counts, t)
  {
    hide StepFits, CountIn, ByPath, Targets;
    var byPath := ByPath(c.artifacts);
    fit, counts := true, map[];
    NothingCounted<string>();
    NoTargets();
    assert c.steps[..0] == [];
    for i := 0 to |c.steps|
      invariant fit <==> forall k :: 0 <= k < i ==> StepFits(byPath, c.steps[k])
      invariant forall t :: multiset(Targets(c.steps[..i]))[t] == CountIn(counts, t)
    {
      TargetsGrow(c.steps, i);
      var stepFit;
      stepFit, counts := CountStep(byPath, c.steps[i], counts);
      fit := fit && stepFit;
    }
    assert c.steps[..|c.steps|] == c.steps;
  }

  lemma NoTargets()
    ensures Targets([]) == []
  {
  }

  lemma OneMore<K>(counts: map<K, nat>, k: K)
    ensures forall t :: CountIn(counts[k := CountIn(counts, k) + 1], t) == CountIn(counts, t) + multiset{k}[t]
  {
  }

  lemma NothingCounted<K>()
    ensures forall k: K :: CountIn<K>(map[], k) == 0
  {
  }

  /** Every path once and no other target: the counts make the targets a permutation of the paths. */
  lemma CoverByCounts(c: Candidate)
    requires Distinct(PathsOf(c.artifacts))
    requires forall t :: t in Targets(c.steps) ==> t in PathsOf(c.artifacts)
    ensures ExactCover(c) <==>
              forall i :: 0 <= i < |c.artifacts| ==> multiset(Targets(c.steps))[c.artifacts[i].path] == 1
  {
    var paths := PathsOf(c.artifacts);
    forall t ensures multiset(paths)[t] == if t in paths then 1 else 0 {
      DistinctMultiset(paths, t);
    }
    assert forall i :: 0 <= i < |c.artifacts| ==> c.artifacts[i].path in paths by {
      assert forall i :: 0 <= i < |c.artifacts| ==> paths[i] == c.artifacts[i].path;
    }
    if forall i :: 0 <= i < |c.artifacts| ==> multiset(Targets(c.steps))[c.artifacts[i].path] == 1 {
      forall t ensures multiset(Targets(c.steps))[t] == multiset(paths)[t] {
        if t in paths {
          var i :| 0 <= i < |paths| && paths[i] == t;
          assert c.artifacts[i].path == t;
        } else {
          assert t !in Targets(c.steps);
        }
      }
    }
  }

  lemma {:induction false} TargetsFrom(steps: seq<Step>, t: string) returns (i: nat, j: nat)
    requires t in Targets(steps)
    ensures i < |steps| && j < |steps[i].targets| && steps[i].targets[j] == t
    decreases |steps|
  {
    var n := |steps| - 1;
    if t in Targets(steps[..n]) {
      i, j := TargetsFrom(steps[..n], t);
    } else {
      i := n;
      j :| 0 <= j < |steps[n].targets| && steps[n].targets[j] == t;
    }
  }

  method CheckCover(c: Candidate) returns (ok: bool)
    requires Distinct(PathsOf(c.artifacts))
    ensures ok <==> TargetsFit(c) && ExactCover(c)
  {
    var fit, counts := CountReferences(c);
    var once := forall i :: 0 <= i < |c.artifacts| ==> CountIn(counts, c.artifacts[i].path) == 1;
    ok := fit && once;
    FitIsFit(c);
    if TargetsFit(c) {
      forall t | t in Targets(c.steps) ensures t in PathsOf(c.artifacts) {
        var i, j := TargetsFrom(c.steps, t);
        ByPathFinds(c.artifacts, t);
      }
      CoverByCounts(c);
    }
  }

  lemma FitIsFit(c: Candidate)
    requires Distinct(PathsOf(c.artifacts))
    ensures TargetsFit(c) <==> forall i :: 0 <= i < |c.steps| ==> StepFits(ByPath(c.artifacts), c.steps[i])
  {
    hide TargetFits, Fits, ByPath;
    forall i, j | 0 <= i < |c.steps| && 0 <= j < |c.steps[i].targets|
      ensures TargetFits(c.artifacts, c.steps[i].phase, c.steps[i].targets[j])
              <==> Fits(ByPath(c.artifacts), c.steps[i].phase, c.steps[i].targets[j])
    {
      TargetFitsByPath(c.artifacts, c.steps[i].phase, c.steps[i].targets[j]);
    }
  }

  lemma TargetFitsByPath(artifacts: seq<Artifact>, phase: Phase, target: string)
    requires Distinct(PathsOf(artifacts))
    ensures TargetFits(artifacts, phase, target) <==> Fits(ByPath(artifacts), phase, target)
  {
    hide Names;
    forall kind ensures Names(artifacts, target, kind) <==>
                          target in ByPath(artifacts) && ByPath(artifacts)[target].kind == kind
    {
      ByPathNames(artifacts, target, kind);
    }
    if Fits(ByPath(artifacts), phase, target) {
      assert Names(artifacts, target, ByPath(artifacts)[target].kind);
    }
  }

  /** The whole refinement: every issue it can report, and no other, makes a candidate invalid. */
  method CheckCandidate(c: Candidate) returns (valid: bool)
    ensures valid <==> Valid(c)
  {
    hide PhasesInOrder, RolesPresent, TargetsFit, ExactCover, Shape;
    valid := Shape(c);
    var phases := CheckPhases(c.steps);
    var canonical := CheckCanonical(c);
    var covered := canonical && Sort(Dedup(UsedEvidence(c.steps))) == Sort(c.evidenceIds);
    if canonical {
      SameEvidence(UsedEvidence(c.steps), c.evidenceIds);
    }
    var roles := CheckRoles(c.artifacts);
    valid := valid && phases && covered && roles;
    if canonical {
      var cover := CheckCover(c);
      valid := valid && cover;
    }
  }

  // ------------------------------------------------------------------- step order

  function Group(kind: ArtifactKind): nat {
    match kind
    case SqlMigration | RollbackSql => 0
    case DbtModel | DbtTest => 1
    case MigrationDocument => 2
  }

  function Rank(phase: Phase): nat {
    match phase
    case Expand => 0
    case Migrate => 1
    case Contract => 2
  }

  /** The step that flattened target `k` comes from. */
  function StepOf(steps: seq<Step>, k: nat): (i: nat)
    requires k < |Targets(steps)|
    ensures i < |steps| && Targets(steps)[k] in steps[i].targets
  {
    var n := |steps| - 1;
    if k < |Targets(steps[..n])| then StepOf(steps[..n], k) else n
  }

  lemma {:induction false} StepOfMonotone(steps: seq<Step>, a: nat, b: nat)
    requires a <= b < |Targets(steps)|
    ensures StepOf(steps, a) <= StepOf(steps, b)
    decreases |steps|
  {
    var n := |steps| - 1;
    if b < |Targets(steps[..n])| {
      StepOfMonotone(steps[..n], a, b);
    }
  }

  lemma KindUnique(artifacts: seq<Artifact>, target: string, a: ArtifactKind, b: ArtifactKind)
    requires Distinct(PathsOf(artifacts)) && Names(artifacts, target, a) && Names(artifacts, target, b)
    ensures a == b
  {
    ByPathNames(artifacts, target, a);
    ByPathNames(artifacts, target, b);
  }

  /** In step order, all SQL and rollback targets come before all dbt targets, which come before the document. */
  lemma StepOrder(c: Candidate, a: nat, b: nat, kindA: ArtifactKind, kindB: ArtifactKind)
    requires Valid(c) && a <= b < |Targets(c.steps)|
    requires Names(c.artifacts, Targets(c.steps)[a], kindA) && Names(c.artifacts, Targets(c.steps)[b], kindB)
    ensures Group(kindA) <= Group(kindB)
  {
    hide Names, Targets, RolesPresent, Shape;
    StepOfMonotone(c.steps, a, b);
    PhasesRise(c.steps, StepOf(c.steps, a), StepOf(c.steps, b));
    TargetGroup(c, a, kindA);
    TargetGroup(c, b, kindB);
  }

  lemma PhasesRise(steps: seq<Step>, i: nat, j: nat)
    requires PhasesInOrder(steps) && i <= j < |steps|
    ensures Rank(steps[i].phase) <= Rank(steps[j].phase)
  {
  }

  /** A target's kind is the kind its step's phase allows. */
  lemma TargetGroup(c: Candidate, k: nat, kind: ArtifactKind)
    requires Distinct(PathsOf(c.artifacts)) && TargetsFit(c) && k < |Targets(c.steps)|
    requires Names(c.artifacts, Targets(c.steps)[k], kind)
    ensures Group(kind) == Rank(c.steps[StepOf(c.steps, k)].phase)
  {
    hide Names;
    var i := StepOf(c.steps, k);
    var j :| 0 <= j < |c.steps[i].targets| && c.steps[i].targets[j] == Targets(c.steps)[k];
    var other :| Names(c.artifacts, c.steps[i].targets[j], other) && Allowed(c.steps[i].phase, other);
    KindUnique(c.artifacts, Targets(c.steps)[k], kind, other);
  }
}
