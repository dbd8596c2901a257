/** reconcileGitHubEffect: which existing branch counts as the effect having happened. */
module GitHubReconciler {
  import opened Common
  import opened TreeDelta

  datatype Commit = Commit(parents: seq<Option<string>>, tree: Option<string>)
  datatype Comparison = Comparison(status: string, ahead: int, behind: int, baseCommit: string, mergeBase: string)
  datatype PullRequest = PullRequest(
    url: string, number: nat, draft: bool, baseRef: string, baseSha: string, baseRepo: string,
    headRef: string, headSha: string, headRepo: string)
  datatype TreeResponse = TreeResponse(truncated: bool, listing: seq<RawEntry>)

  /** What the API answers while one reconciliation runs; objects never change under their hash. */
  datatype GitHub = GitHub(
    head: Option<string>,
    commits: map<string, Commit>,
    comparisons: map<(string, string), Comparison>,
    trees: map<string, TreeResponse>,
    openPulls: seq<PullRequest>)

  datatype Options = Options(
    repository: string, branch: string, baseBranch: string, targetHead: string, artifacts: seq<Artifact>)

  datatype Verdict = Missing | Exact(prUrl: string, prNumber: nat, headSha: string, baseSha: string)

  predicate IsGitSha(s: string) {
    (|s| == 40 || |s| == 64) && forall i :: 0 <= i < |s| ==> '0' <= s[i] <= '9' || 'a' <= s[i] <= 'f'
  }

  /** publicationBaseSha */
  function PublicationBase(commit: Commit): Option<string> {
    if |commit.parents| == 1 && commit.parents[0].Some? && IsGitSha(commit.parents[0].value)
    then commit.parents[0] else None
  }

  /** assertPublicationBaseReachable */
  predicate BaseReachable(gh: GitHub, base: string, target: string) {
    && IsGitSha(target) && (base, target) in gh.comparisons
    && var c := gh.comparisons[(base, target)];
    && c.ahead >= 0 && c.behind == 0 && c.baseCommit == base && c.mergeBase == base
    && ((c.status == "identical" && base == target && c.ahead == 0)
        || (c.status == "ahead" && base != target && c.ahead > 0))
  }

  /** readExactDraftPullRequest */
  predicate ExactPull(o: Options, p: PullRequest, headSha: string, base: string) {
    && p.draft && p.url != "" && p.number > 0
    && p.baseRef == o.baseBranch && p.baseSha == base && p.baseRepo == o.repository
    && p.headRef == o.branch && p.headSha == headSha && p.headRepo == o.repository
  }

  /** The commit's tree was listed completely, and this is its map. */
  ghost predicate HasEntries(gh: GitHub, commit: Commit, entries: Entries) {
    && commit.tree.Some? && commit.tree.value != "" && commit.tree.value in gh.trees
    && var response := gh.trees[commit.tree.value];
       Readable(response.truncated, response.listing) && Lists(response.listing, entries)
  }

  method EntriesOf(gh: GitHub, commit: Commit) returns (r: Result<Entries, string>)
    ensures r.Ok? ==> HasEntries(gh, commit, r.value)
    ensures r.Err? ==> forall entries :: !HasEntries(gh, commit, entries)
  {
    hide Lists, Readable;
    if commit.tree.None? || commit.tree.value == "" || commit.tree.value !in gh.trees {
      return Err("GitHub commit has no readable tree");
    }
    var response := gh.trees[commit.tree.value];
    r := ReadTree(response.truncated, response.listing);
  }

  lemma EntriesUnique(gh: GitHub, commit: Commit, a: Entries, b: Entries)
    requires HasEntries(gh, commit, a) && HasEntries(gh, commit, b)
    ensures a == b
  {
    var listing := gh.trees[commit.tree.value].listing;
    forall p | p in a ensures p in b && a[p] == b[p] {
      var i :| 0 <= i < |listing| && listing[i].path == p;
    }
    forall p | p in b ensures p in a {
      var i :| 0 <= i < |listing| && listing[i].path == p;
    }
    assert a.Keys == b.Keys;
  }

  /** One commit on top of a reachable base, the artifacts laid over it, and its one draft pull request. */
  ghost predicate EffectStands(gh: GitHub, o: Options, head: Entries, base: Entries, v: Verdict) {
    && v.Exact? && gh.head == Some(v.headSha)
    && v.headSha in gh.commits && v.baseSha in gh.commits
    && PublicationBase(gh.commits[v.headSha]) == Some(v.baseSha)
    && BaseReachable(gh, v.baseSha, o.targetHead)
    && HasEntries(gh, gh.commits[v.headSha], head) && HasEntries(gh, gh.commits[v.baseSha], base)
    && DistinctPaths(o.artifacts) && ExactDelta(base, head, Paths(o.artifacts)) && ExactBytes(head, o.artifacts)
    && |gh.openPulls| == 1 && ExactPull(o, gh.openPulls[0], v.headSha, v.baseSha)
    && v.prUrl == gh.openPulls[0].url && v.prNumber == gh.openPulls[0].number
  }

  lemma EffectStandsFor(gh: GitHub, o: Options, head: Entries, base: Entries, v: Verdict,
                        headEntries: Entries, baseEntries: Entries)
    requires EffectStands(gh, o, head, base, v)
    requires v.headSha in gh.commits && HasEntries(gh, gh.commits[v.headSha], headEntries)
    requires v.baseSha in gh.commits && HasEntries(gh, gh.commits[v.baseSha], baseEntries)
    ensures EffectStands(gh, o, headEntries, baseEntries, v)
  {
    hide HasEntries, DistinctPaths, ExactDelta, ExactBytes, BaseReachable, ExactPull, PublicationBase;
    EntriesUnique(gh, gh.commits[v.headSha], head, headEntries);
    EntriesUnique(gh, gh.commits[v.baseSha], base, baseEntries);
  }

  // ------------------------------------------------------------------------ publications

  /** Forty or sixty-four lower-case hexadecimal digits. */
  ghost predicate HexSha(s: string) {
    (|s| == 40 || |s| == 64) && forall c :: c in s ==> c in "0123456789abcdef"
  }

  lemma HexShaIff(s: string)
    ensures IsGitSha(s) <==> HexSha(s)
  {
    assert forall i :: 0 <= i < |s| ==> s[i] in s;
  }

  /** The commit and its pull request as the API shows them, field by field: one draft, on one base, for one head. */
  ghost predicate Bound(gh: GitHub, o: Options, v: Verdict) {
    && v.Exact? && gh.head == Some(v.headSha) && v.headSha in gh.commits && v.baseSha in gh.commits
    && gh.commits[v.headSha].parents == [Some(v.baseSha)] && HexSha(v.baseSha) && HexSha(o.targetHead)
    && gh.openPulls == [PullRequest(v.prUrl, v.prNumber, true, o.baseBranch, v.baseSha, o.repository,
                                    o.branch, v.headSha, o.repository)]
    && v.prUrl != "" && v.prNumber > 0
  }

  /** The target is the base, or ahead of it with nothing behind. */
  ghost predicate Reaches(gh: GitHub, base: string, target: string) {
    && (base, target) in gh.comparisons
    && var c := gh.comparisons[(base, target)];
       if base == target then c == Comparison("identical", 0, 0, base, base)
       else c == Comparison("ahead", c.ahead, 0, base, base) && c.ahead > 0
  }

  /** The whole listing of the commit's tree: every entry complete, no path twice. */
  ghost predicate Served(gh: GitHub, commit: Commit) {
    && commit.tree.Some? && commit.tree.value != "" && commit.tree.value in gh.trees
    && var response := gh.trees[commit.tree.value];
       && !response.truncated
       && (forall i :: 0 <= i < |response.listing| ==>
             && response.listing[i].path != "" && response.listing[i].mode != "" && response.listing[i].kind != ""
             && response.listing[i].sha.Some?)
       && (forall i, j :: 0 <= i < j < |response.listing| ==> response.listing[i].path != response.listing[j].path)
  }

  lemma ServedIff(gh: GitHub, commit: Commit)
    ensures Served(gh, commit) <==>
              && commit.tree.Some? && commit.tree.value != "" && commit.tree.value in gh.trees
              && Readable(gh.trees[commit.tree.value].truncated, gh.trees[commit.tree.value].listing)
  {
  }

  lemma BoundIff(gh: GitHub, o: Options, v: Verdict)
    ensures Bound(gh, o, v) && Reaches(gh, v.baseSha, o.targetHead)
            <==> && v.Exact? && gh.head == Some(v.headSha) && v.headSha in gh.commits && v.baseSha in gh.commits
                 && PublicationBase(gh.commits[v.headSha]) == Some(v.baseSha)
                 && BaseReachable(gh, v.baseSha, o.targetHead)
                 && |gh.openPulls| == 1 && ExactPull(o, gh.openPulls[0], v.headSha, v.baseSha)
                 && v.prUrl == gh.openPulls[0].url && v.prNumber == gh.openPulls[0].number
  {
    if v.Exact? {
      HexShaIff(v.baseSha);
      HexShaIff(o.targetHead);
      hide IsGitSha, HexSha;
      if v.headSha in gh.commits && |gh.commits[v.headSha].parents| == 1 {
        assert gh.commits[v.headSha].parents == [gh.commits[v.headSha].parents[0]];
      }
      if |gh.openPulls| == 1 {
        assert gh.openPulls == [gh.openPulls[0]];
      }
    }
  }

  /** An EXACT verdict says each of these things, and nothing else is needed for it. */
  lemma StandsIff(gh: GitHub, o: Options, head: Entries, base: Entries, v: Verdict)
    ensures EffectStands(gh, o, head, base, v)
            <==> && Bound(gh, o, v) && Reaches(gh, v.baseSha, o.targetHead)
                 && Served(gh, gh.commits[v.headSha]) && Served(gh, gh.commits[v.baseSha])
                 && Lists(gh.trees[gh.commits[v.headSha].tree.value].listing, head)
                 && Lists(gh.trees[gh.commits[v.baseSha].tree.value].listing, base)
                 && DistinctPaths(o.artifacts) && ExactDelta(base, head, Paths(o.artifacts))
                 && ExactBytes(head, o.artifacts)
  {
    BoundIff(gh, o, v);
    hide Reaches, Served, Lists, Readable, DistinctPaths, ExactDelta, ExactBytes, BaseReachable, ExactPull,
      PublicationBase, HexSha;
    if v.Exact? && v.headSha in gh.commits && v.baseSha in gh.commits {
      ServedIff(gh, gh.commits[v.headSha]);
      ServedIff(gh, gh.commits[v.baseSha]);
    }
  }

  /** The tree that an honest server lists. */
  ghost predicate ServesTree(response: TreeResponse, files: map<string, Leaf>) {
    && (forall i :: 0 <= i < |response.listing| ==>
          response.listing[i].sha.Some?
          && Listed(files, response.listing[i].path)
             == Some(TreeEntry(response.listing[i].mode, response.listing[i].kind, response.listing[i].sha.value)))
    && (forall p :: Listed(files, p).Some? ==>
          exists i :: 0 <= i < |response.listing| && response.listing[i].path == p)
  }

  /** The commit's tree holds these files, and an honest server lists it whole. */
  ghost predicate Holds(gh: GitHub, commit: Commit, files: map<string, Leaf>) {
    Served(gh, commit) && ServesTree(gh.trees[commit.tree.value], files) && GitFiles(files)
  }

  /** What publishing the artifacts leaves behind: their overlay on a base of the target, and one draft for it. */
  ghost predicate Published(gh: GitHub, o: Options, v: Verdict, head: map<string, Leaf>, base: map<string, Leaf>) {
    && Bound(gh, o, v) && Reaches(gh, v.baseSha, o.targetHead)
    && Holds(gh, gh.commits[v.headSha], head) && Holds(gh, gh.commits[v.baseSha], base)
    && DistinctPaths(o.artifacts) && IsOverlay(base, head, o.artifacts) && EachChanges(base, o.artifacts)
  }

  lemma ServedFlattens(response: TreeResponse, files: map<string, Leaf>, entries: Entries)
    requires ServesTree(response, files) && Lists(response.listing, entries)
    ensures Flattens(files, entries)
  {
    hide Listed;
    forall p ensures Lookup(entries, p) == Listed(files, p) {
      if Listed(files, p).Some? {
        var i :| 0 <= i < |response.listing| && response.listing[i].path == p;
      } else {
        assert p !in entries;
      }
    }
  }

  /** A whole listing has a map. */
  lemma ListingHasMap(listing: seq<RawEntry>) returns (entries: Entries)
    requires Readable(false, listing)
    ensures Lists(listing, entries)
    decreases |listing|
  {
    hide Lists;
    if |listing| == 0 {
      entries := map[];
      assert Lists(listing, entries) by { EmptyLists(); }
    } else {
      var n := |listing| - 1;
      PrefixReadable(listing, n);
      entries := ListingHasMap(listing[..n]);
      NewPath(listing, n, entries);
      var more := entries[listing[n].path := TreeEntry(listing[n].mode, listing[n].kind, listing[n].sha.value)];
      ListsOneMore(listing, n, entries, more);
      assert listing[..n + 1] == listing;
      entries := more;
    }
  }

  lemma EmptyLists()
    ensures Lists([], map[])
  {
  }

  lemma PrefixReadable(listing: seq<RawEntry>, n: nat)
    requires Readable(false, listing) && n < |listing|
    ensures Readable(false, listing[..n]) && WellFormed(listing[n])
  {
    assert forall i :: 0 <= i < n ==> listing[..n][i] == listing[i];
  }

  lemma NewPath(listing: seq<RawEntry>, n: nat, entries: Entries)
    requires Readable(false, listing) && n < |listing| && Lists(listing[..n], entries)
    ensures listing[n].path !in entries
  {
    hide HeldBy;
    assert forall i :: 0 <= i < n ==> listing[..n][i] == listing[i];
  }

  /** Every genuine publication stands, with its own url, number, head and base. */
  lemma PublishedStands(gh: GitHub, o: Options, v: Verdict, head: map<string, Leaf>, base: map<string, Leaf>)
    returns (headEntries: Entries, baseEntries: Entries)
    requires Published(gh, o, v, head, base)
    ensures EffectStands(gh, o, headEntries, baseEntries, v)
  {
    hide Bound, Reaches, Readable, Lists, ServesTree, GitFiles, DistinctPaths, IsOverlay, EachChanges, EffectStands,
      ExactDelta, ExactBytes, Flattens;
    assert v.Exact? && v.headSha in gh.commits && v.baseSha in gh.commits by { BoundNames(gh, o, v); }
    ServedIff(gh, gh.commits[v.headSha]);
    ServedIff(gh, gh.commits[v.baseSha]);
    headEntries := ListingHasMap(gh.trees[gh.commits[v.headSha].tree.value].listing);
    baseEntries := ListingHasMap(gh.trees[gh.commits[v.baseSha].tree.value].listing);
    ServedFlattens(gh.trees[gh.commits[v.headSha].tree.value], head, headEntries);
    ServedFlattens(gh.trees[gh.commits[v.baseSha].tree.value], base, baseEntries);
    OverlayAccepted(base, head, baseEntries, headEntries, o.artifacts);
    StandsIff(gh, o, headEntries, baseEntries, v);
  }

  lemma BoundNames(gh: GitHub, o: Options, v: Verdict)
    requires Bound(gh, o, v)
    ensures v.Exact? && v.headSha in gh.commits && v.baseSha in gh.commits
  {
    hide HexSha;
  }

  method ReconcileGitHubEffect(gh: GitHub, o: Options) returns (r: Result<Verdict, string>)
    ensures r == Ok(Missing) <==> gh.head.None?
    ensures forall v: Verdict :: v.Exact? ==>
              (r == Ok(v) <==> exists head: Entries, base: Entries :: EffectStands(gh, o, head, base, v))
    ensures r.Ok? && r.value.Exact? ==>
              && Bound(gh, o, r.value) && Reaches(gh, r.value.baseSha, o.targetHead)
              && Served(gh, gh.commits[r.value.headSha]) && Served(gh, gh.commits[r.value.baseSha])
    ensures forall v: Verdict, head: map<string, Leaf>, base: map<string, Leaf> | Published(gh, o, v, head, base) ::
              r == Ok(v)
  {
    hide HasEntries, ExactDelta, ExactBytes, DistinctPaths, BaseReachable, ExactPull, PublicationBase, Published,
      Bound, Reaches, Served, Lists;
    forall v: Verdict, head: map<string, Leaf>, base: map<string, Leaf> | Published(gh, o, v, head, base)
      ensures v.Exact? && exists h: Entries, b: Entries :: EffectStands(gh, o, h, b, v)
    {
      var h, b := PublishedStands(gh, o, v, head, base);
      assert EffectStands(gh, o, h, b, v);
    }
    if gh.head.None? {
      return Ok(Missing);
    }
    var headSha := gh.head.value;
    if headSha !in gh.commits {
      return Err("GitHub commit is unreadable");
    }
    var parent := PublicationBase(gh.commits[headSha]);
    if parent.None? {
      return Err("Existing GitHub commit must have exactly one valid publication base parent");
    }
    if !BaseReachable(gh, parent.value, o.targetHead) || parent.value !in gh.commits {
      return Err("GitHub publication base is not an ancestor of the current target head");
    }
    var head := EntriesOf(gh, gh.commits[headSha]);
    if head.Err? {
      return Err(head.error);
    }
    var base := EntriesOf(gh, gh.commits[parent.value]);
    if base.Err? {
      return Err(base.error);
    }
    forall v: Verdict, h: Entries, b: Entries | EffectStands(gh, o, h, b, v)
      ensures EffectStands(gh, o, head.value, base.value, v)
    {
      EffectStandsFor(gh, o, h, b, v, head.value, base.value);
    }
    var exactDelta := AssertExactTreeDelta(base.value, head.value, o.artifacts);
    if !exactDelta {
      return Err("Existing GitHub tree delta is not exact");
    }
    var exactBytes := AssertExactArtifactBytes(head.value, o.artifacts);
    if !exactBytes {
      return Err("Existing GitHub artifact bytes differ");
    }
    if |gh.openPulls| != 1 || !ExactPull(o, gh.openPulls[0], headSha, parent.value) {
      return Err("Existing GitHub pull request binding is not exact");
    }
    var verdict := Exact(gh.openPulls[0].url, gh.openPulls[0].number, headSha, parent.value);
    assert EffectStands(gh, o, head.value, base.value, verdict);
    StandsIff(gh, o, head.value, base.value, verdict);
    return Ok(verdict);
  }

  /** On an honest server EXACT means a genuine publication. */
  lemma ExactIsPublished(gh: GitHub, o: Options, headEntries: Entries, baseEntries: Entries, v: Verdict,
                         head: map<string, Leaf>, base: map<string, Leaf>)
    requires EffectStands(gh, o, headEntries, baseEntries, v)
    requires Holds(gh, gh.commits[v.headSha], head) && Holds(gh, gh.commits[v.baseSha], base)
    ensures Published(gh, o, v, head, base)
  {
    hide ServesTree, Lists, GitFiles, ExactDelta, ExactBytes, IsOverlay, EachChanges, Flattens, Bound, Reaches, Served;
    StandsIff(gh, o, headEntries, baseEntries, v);
    ServedFlattens(gh.trees[gh.commits[v.headSha].tree.value], head, headEntries);
    ServedFlattens(gh.trees[gh.commits[v.baseSha].tree.value], base, baseEntries);
    AcceptedTreesOverlay(base, head, baseEntries, headEntries, o.artifacts);
  }
}
