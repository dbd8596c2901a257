/**
 Deciding whether a GitHub branch is exactly a base tree with the approved artifacts laid
 over it (apps/worker/src/github-effect-reconciler.ts). Object hashes are the objects.
 */
module TreeDelta {
  import opened Common

  datatype Artifact = Artifact(path: string, content: string)

  /** A file or a submodule, under its full path. */
  datatype Leaf = Leaf(mode: string, kind: string, content: string)
  datatype Sha = ObjectSha(content: string) | TreeSha(files: map<string, Leaf>)
  datatype TreeEntry = TreeEntry(mode: string, kind: string, sha: Sha)

  type Entries = map<string, TreeEntry>

  // -------------------------------------------------------------------- readTree

  /** One element of a recursive tree response, before it is trusted. */
  datatype RawEntry = RawEntry(path: string, mode: string, kind: string, sha: Option<Sha>)

  predicate WellFormed(raw: RawEntry) {
    raw.path != "" && raw.mode != "" && raw.kind != "" && raw.sha.Some?
  }

  predicate Readable(truncated: bool, listing: seq<RawEntry>) {
    && !truncated
    && (forall i :: 0 <= i < |listing| ==> WellFormed(listing[i]))
    && (forall i, j :: 0 <= i < j < |listing| ==> listing[i].path != listing[j].path)
  }

  /** The map holds this entry of the listing. */
  ghost predicate HeldBy(raw: RawEntry, entries: Entries) {
    raw.path in entries && raw.sha.Some? && entries[raw.path] == TreeEntry(raw.mode, raw.kind, raw.sha.value)
  }

  /** The map a listing stands for. */
  ghost predicate Lists(listing: seq<RawEntry>, entries: Entries) {
    && (forall i :: 0 <= i < |listing| ==> HeldBy(listing[i], entries))
    && (forall p :: p in entries ==> exists i :: 0 <= i < |listing| && listing[i].path == p)
  }

  method ReadTree(truncated: bool, listing: seq<RawEntry>) returns (r: Result<Entries, string>)
    ensures r.Ok? <==> Readable(truncated, listing)
    ensures r.Ok? ==> Lists(listing, r.value)
  {
    if truncated {
      return Err("GitHub recursive tree response is truncated");
    }
    var entries: Entries := map[];
    for i := 0 to |listing|
      invariant Readable(false, listing[..i]) && Lists(listing[..i], entries)
    {
      var raw := listing[i];
      if !WellFormed(raw) || raw.path in entries {
        assert !Readable(false, listing) by {
          if WellFormed(raw) {
            var j :| 0 <= j < i && listing[..i][j].path == raw.path;
            assert listing[j].path == listing[i].path;
          }
        }
        return Err("GitHub tree payload contains a malformed or duplicate entry");
      }
      ghost var before := entries;
      entries := entries[raw.path := TreeEntry(raw.mode, raw.kind, raw.sha.value)];
      ListsOneMore(listing, i, before, entries);
    }
    assert listing[..|listing|] == listing;
    return Ok(entries);
  }

  lemma ListsOneMore(listing: seq<RawEntry>, i: nat, before: Entries, after: Entries)
    requires i < |listing| && WellFormed(listing[i]) && listing[i].path !in before
    requires Readable(false, listing[..i]) && Lists(listing[..i], before)
    requires after == before[listing[i].path := TreeEntry(listing[i].mode, listing[i].kind, listing[i].sha.value)]
    ensures Readable(false, listing[..i + 1]) && Lists(listing[..i + 1], after)
  {
    ReadableOneMore(listing, i, before);
    hide Readable, WellFormed;
    var shorter, longer := listing[..i], listing[..i + 1];
    forall j | 0 <= j < |longer| ensures HeldBy(longer[j], after) {
      if j < i {
        StillListed(shorter[j], listing[i], before, after);
      }
    }
    forall p | p in after ensures exists j :: 0 <= j < |longer| && longer[j].path == p {
      var j := NamedAt(listing, i, before, p);
      assert longer[j].path == p;
    }
  }

  lemma StillListed(earlier: RawEntry, later: RawEntry, before: Entries, after: Entries)
    requires HeldBy(earlier, before) && later.path !in before && later.sha.Some?
    requires after == before[later.path := TreeEntry(later.mode, later.kind, later.sha.value)]
    ensures HeldBy(earlier, after)
  {
  }

  lemma NamedAt(listing: seq<RawEntry>, i: nat, before: Entries, p: string) returns (j: nat)
    requires i < |listing| && Lists(listing[..i], before) && (p in before || p == listing[i].path)
    ensures j <= i && listing[j].path == p
  {
    hide HeldBy;
    if p in before {
      var k :| 0 <= k < i && listing[..i][k].path == p;
      j := k;
    } else {
      j := i;
    }
  }

  lemma ReadableOneMore(listing: seq<RawEntry>, i: nat, before: Entries)
    requires i < |listing| && WellFormed(listing[i]) && listing[i].path !in before
    requires Readable(false, listing[..i]) && Lists(listing[..i], before)
    ensures Readable(false, listing[..i + 1]) && listing[i].sha.Some?
  {
    var shorter, longer := listing[..i], listing[..i + 1];
    assert forall j :: 0 <= j < i ==> longer[j] == shorter[j];
    assert forall j :: 0 <= j < i ==> shorter[j].path in before;
  }

  // ----------------------------------------------------------- assertExactTreeDelta

  function Lookup(entries: Entries, path: string): Option<TreeEntry> {
    if path in entries then Some(entries[path]) else None
  }

  predicate IsTree(e: TreeEntry) {
    e.kind == "tree" && e.mode == "040000"
  }

  predicate Below(path: string, directory: string) {
    directory + "/" <= path
  }

  /** isAuthorizedTreeAncestor */
  predicate AuthorizedAncestor(path: string, base: Option<TreeEntry>, head: Option<TreeEntry>, expected: set<string>) {
    && (base.Some? || head.Some?)
    && (base.Some? ==> IsTree(base.value)) && (head.Some? ==> IsTree(head.value))
    && exists a :: a in expected && Below(a, path)
  }

  function Paths(artifacts: seq<Artifact>): set<string> {
    set i | 0 <= i < |artifacts| :: artifacts[i].path
  }

  ghost predicate DistinctPaths(artifacts: seq<Artifact>) {
    forall i, j :: 0 <= i < j < |artifacts| ==> artifacts[i].path != artifacts[j].path
  }

  /** A changed path is an artifact or a directory above one, and every artifact changed. */
  ghost predicate ExactDelta(base: Entries, head: Entries, expected: set<string>) {
    && (forall p :: Lookup(base, p) != Lookup(head, p) ==>
          p in expected || AuthorizedAncestor(p, Lookup(base, p), Lookup(head, p), expected))
    && (forall p :: p in expected ==> Lookup(base, p) != Lookup(head, p))
  }

  /** The size test is a duplicate test. */
  lemma DistinctBySize(artifacts: seq<Artifact>)
    ensures |Paths(artifacts)| == |artifacts| <==> DistinctPaths(artifacts)
  {
    var list := seq(|artifacts|, i requires 0 <= i < |artifacts| => artifacts[i].path);
    SetSize(list);
    assert forall i :: 0 <= i < |list| ==> list[i] == artifacts[i].path && artifacts[i].path in Paths(artifacts);
    forall p | p in Paths(artifacts) ensures p in Elements(list) {
      var i :| 0 <= i < |artifacts| && artifacts[i].path == p;
      assert list[i] == p;
    }
    assert Elements(list) == Paths(artifacts);
    if DistinctPaths(artifacts) {
      assert Distinct(list);
    }
    forall i, j | Distinct(list) && 0 <= i < j < |artifacts| ensures artifacts[i].path != artifacts[j].path {
      assert list[i] != list[j];
    }
  }

  method AssertExactTreeDelta(base: Entries, head: Entries, artifacts: seq<Artifact>) returns (exact: bool)
    ensures exact <==> DistinctPaths(artifacts) && ExactDelta(base, head, Paths(artifacts))
  {
    var expected: set<string> := {};
    for i := 0 to |artifacts|
      invariant expected == Paths(artifacts[..i])
    {
      PathsGrow(artifacts, i);
      expected := expected + {artifacts[i].path};
    }
    assert artifacts[..|artifacts|] == artifacts;
    DistinctBySize(artifacts);
    if |expected| != |artifacts| {
      return false;
    }
    var changed := ChangedPaths(base, head);
    exact := forall p :: p in changed ==>
               p in expected || AuthorizedAncestor(p, Lookup(base, p), Lookup(head, p), expected);
    exact := exact && forall p :: p in expected ==> p in changed;
  }

  lemma PathsGrow(artifacts: seq<Artifact>, i: nat)
    requires i < |artifacts|
    ensures Paths(artifacts[..i + 1]) == Paths(artifacts[..i]) + {artifacts[i].path}
  {
    var shorter, longer := artifacts[..i], artifacts[..i + 1];
    assert forall j :: 0 <= j < i ==> longer[j] == shorter[j];
    assert longer[i] == artifacts[i];
  }

  /** The two loops that collect additions and edits, then deletions. */
  method ChangedPaths(base: Entries, head: Entries) returns (changed: set<string>)
    ensures forall p :: p in changed <==> Lookup(base, p) != Lookup(head, p)
  {
    changed := {};
    var rest := head.Keys;
    while rest != {}
      invariant rest <= head.Keys
      invariant forall p :: p in changed <==> p in head && p !in rest && Lookup(base, p) != Lookup(head, p)
      decreases rest
    {
      var p :| p in rest;
      rest := rest - {p};
      if Lookup(base, p) != Some(head[p]) {
        changed := changed + {p};
      }
    }
    rest := base.Keys;
    while rest != {}
      invariant rest <= base.Keys
      invariant forall p :: p in changed <==>
                  (p in head && Lookup(base, p) != Lookup(head, p)) || (p in base && p !in rest && p !in head)
      decreases rest
    {
      var p :| p in rest;
      rest := rest - {p};
      if p !in head {
        changed := changed + {p};
      }
    }
  }

  // ------------------------------------------------------- assertExactArtifactBytes

  predicate RegularBlob(entry: Option<TreeEntry>, content: string) {
    entry.Some? && entry.value.kind == "blob" && entry.value.mode == "100644" && entry.value.sha == ObjectSha(content)
  }

  /** A blob without content reads as unreadable, so an empty artifact is never accepted. */
  ghost predicate ExactBytes(head: Entries, artifacts: seq<Artifact>) {
    forall i :: 0 <= i < |artifacts| ==>
      artifacts[i].content != "" && RegularBlob(Lookup(head, artifacts[i].path), artifacts[i].content)
  }

  method AssertExactArtifactBytes(head: Entries, artifacts: seq<Artifact>) returns (exact: bool)
    ensures exact <==> ExactBytes(head, artifacts)
  {
    for i := 0 to |artifacts|
      invariant forall j :: 0 <= j < i ==>
                  artifacts[j].content != "" && RegularBlob(Lookup(head, artifacts[j].path), artifacts[j].content)
    {
      var entry := Lookup(head, artifacts[i].path);
      if entry.None? || entry.value.kind != "blob" || entry.value.mode != "100644" {
        return false;
      }
      // Reading the blob: its content is what its hash names, and must not be empty.
      var sha := entry.value.sha;
      if !sha.ObjectSha? || sha.content == "" || sha.content != artifacts[i].content {
        return false;
      }
    }
    return true;
  }

  // ------------------------------------------------------------------ Git trees

  /** A set of files that a Git tree can hold: no path is both a file and a directory. */
  ghost predicate GitFiles(leaves: map<string, Leaf>) {
    && (forall p :: p in leaves ==> p != "" && p[0] != '/' && leaves[p].kind != "tree")
    && (forall p, q :: p in leaves && q in leaves ==> !Below(p, q))
  }

  /** The directories above a set of files. */
  ghost predicate IsDirectory(leaves: map<string, Leaf>, d: string) {
    exists p :: p in leaves && Below(p, d)
  }

  /** A directory's object is the map of the files under it, by relative path. */
  ghost function Subtree(leaves: map<string, Leaf>, d: string): map<string, Leaf> {
    map q | q in (set p | p in leaves && Below(p, d) :: p[|d| + 1..]) && d + "/" + q in leaves :: leaves[d + "/" + q]
  }

  /** What a recursive listing of a tree shows at a path. */
  ghost function Listed(leaves: map<string, Leaf>, path: string): Option<TreeEntry> {
    if path in leaves then
      Some(TreeEntry(leaves[path].mode, leaves[path].kind, ObjectSha(leaves[path].content)))
    else if IsDirectory(leaves, path) then Some(TreeEntry("040000", "tree", TreeSha(Subtree(leaves, path))))
    else None
  }

  /** `entries` is the recursive listing of the tree that holds `leaves`. */
  ghost predicate Flattens(leaves: map<string, Leaf>, entries: Entries) {
    forall p :: Lookup(entries, p) == Listed(leaves, p)
  }

  /** The base files with every artifact laid over them as a regular file. */
  ghost predicate IsOverlay(base: map<string, Leaf>, head: map<string, Leaf>, artifacts: seq<Artifact>) {
    && (forall i :: 0 <= i < |artifacts| ==>
          artifacts[i].path in head && head[artifacts[i].path] == Leaf("100644", "blob", artifacts[i].content))
    && (forall p :: p !in Paths(artifacts) ==> (p in head <==> p in base) && (p in head ==> head[p] == base[p]))
  }

  /** Every artifact differs from what the base had, and has content. */
  ghost predicate EachChanges(base: map<string, Leaf>, artifacts: seq<Artifact>) {
    forall i :: 0 <= i < |artifacts| ==>
      && artifacts[i].content != ""
      && (artifacts[i].path in base ==> base[artifacts[i].path] != Leaf("100644", "blob", artifacts[i].content))
  }

  // ------------------------------------------------------------------ soundness

  /** Over any two listings: the artifacts are there, and nothing but directories above them moved. */
  lemma AcceptedIsOverlay(base: Entries, head: Entries, artifacts: seq<Artifact>)
    requires DistinctPaths(artifacts) && ExactDelta(base, head, Paths(artifacts)) && ExactBytes(head, artifacts)
    ensures forall i :: 0 <= i < |artifacts| ==> RegularBlob(Lookup(head, artifacts[i].path), artifacts[i].content)
    ensures forall p :: p !in Paths(artifacts)
                        && (p in base ==> base[p].kind != "tree") && (p in head ==> head[p].kind != "tree")
                        ==> Lookup(base, p) == Lookup(head, p)
  {
  }

  lemma LeafUnchanged(base: map<string, Leaf>, head: map<string, Leaf>, baseEntries: Entries, headEntries: Entries,
                      expected: set<string>, p: string)
    requires GitFiles(base) && GitFiles(head) && Flattens(base, baseEntries) && Flattens(head, headEntries)
    requires ExactDelta(baseEntries, headEntries, expected) && p !in expected
    ensures (p in head <==> p in base) && (p in head ==> head[p] == base[p])
  {
    assert Lookup(baseEntries, p) == Listed(base, p) && Lookup(headEntries, p) == Listed(head, p);
    if p in base || p in head {
      assert Lookup(baseEntries, p) == Lookup(headEntries, p);
    }
  }

  /** Over the listings of two Git trees, acceptance means an exact overlay. */
  lemma AcceptedTreesOverlay(base: map<string, Leaf>, head: map<string, Leaf>, baseEntries: Entries,
                             headEntries: Entries,
                             artifacts: seq<Artifact>)
    requires GitFiles(base) && GitFiles(head) && Flattens(base, baseEntries) && Flattens(head, headEntries)
    requires ExactDelta(baseEntries, headEntries, Paths(artifacts)) && ExactBytes(headEntries, artifacts)
    ensures IsOverlay(base, head, artifacts) && EachChanges(base, artifacts)
  {
    hide IsDirectory, Subtree;
    forall p | p !in Paths(artifacts)
      ensures (p in head <==> p in base) && (p in head ==> head[p] == base[p])
    {
      LeafUnchanged(base, head, baseEntries, headEntries, Paths(artifacts), p);
    }
    forall i | 0 <= i < |artifacts|
      ensures artifacts[i].path in head && head[artifacts[i].path] == Leaf("100644", "blob", artifacts[i].content)
      ensures artifacts[i].content != ""
      ensures artifacts[i].path in base ==> base[artifacts[i].path] != Leaf("100644", "blob", artifacts[i].content)
    {
      var p := artifacts[i].path;
      assert p in Paths(artifacts);
      assert Lookup(baseEntries, p) == Listed(base, p) && Lookup(headEntries, p) == Listed(head, p);
    }
  }

  // --------------------------------------------------------------- completeness

  /** Without an artifact below it, a directory is the same in base and overlay. */
  lemma SameSubtree(base: map<string, Leaf>, head: map<string, Leaf>, artifacts: seq<Artifact>, d: string)
    requires IsOverlay(base, head, artifacts)
    requires forall a :: a in Paths(artifacts) ==> !Below(a, d)
    ensures IsDirectory(base, d) == IsDirectory(head, d) && Subtree(base, d) == Subtree(head, d)
  {
    assert forall p :: Below(p, d) ==> (p in head <==> p in base) && (p in head ==> head[p] == base[p]);
    forall q ensures d + "/" + q in base <==> d + "/" + q in head {
      assert Below(d + "/" + q, d);
    }
    assert (set p | p in base && Below(p, d) :: p[|d| + 1..]) == (set p | p in head && Below(p, d) :: p[|d| + 1..]);
  }

  /** A changed path of a genuine overlay is an artifact, or a directory above one on both sides. */
  lemma OverlayChange(base: map<string, Leaf>, head: map<string, Leaf>, artifacts: seq<Artifact>, p: string)
    requires GitFiles(base) && GitFiles(head) && IsOverlay(base, head, artifacts)
    requires Listed(base, p) != Listed(head, p) && p !in Paths(artifacts)
    ensures AuthorizedAncestor(p, Listed(base, p), Listed(head, p), Paths(artifacts))
  {
    if forall a :: a in Paths(artifacts) ==> !Below(a, p) {
      SameSubtree(base, head, artifacts, p);
      assert false;
    }
    assert p !in base && p !in head by {
      NoFileAbove(base, head, artifacts, p);
    }
  }

  lemma NoFileAbove(base: map<string, Leaf>, head: map<string, Leaf>, artifacts: seq<Artifact>, p: string)
    requires GitFiles(head) && IsOverlay(base, head, artifacts) && p !in Paths(artifacts)
    requires exists a :: a in Paths(artifacts) && Below(a, p)
    ensures p !in base && p !in head
  {
    var a :| a in Paths(artifacts) && Below(a, p);
    var i :| 0 <= i < |artifacts| && artifacts[i].path == a;
    assert a in head;
  }

  /** An artifact path that changes its file is changed in the listing. */
  lemma ArtifactChanges(base: map<string, Leaf>, head: map<string, Leaf>, artifacts: seq<Artifact>, i: nat)
    requires GitFiles(base) && GitFiles(head) && IsOverlay(base, head, artifacts) && EachChanges(base, artifacts)
    requires i < |artifacts|
    ensures Listed(base, artifacts[i].path) != Listed(head, artifacts[i].path)
  {
    hide Subtree;
  }

  lemma OverlayAccepted(base: map<string, Leaf>, head: map<string, Leaf>, baseEntries: Entries, headEntries: Entries,
                        artifacts: seq<Artifact>)
    requires GitFiles(base) && GitFiles(head) && Flattens(base, baseEntries) && Flattens(head, headEntries)
    requires IsOverlay(base, head, artifacts) && EachChanges(base, artifacts)
    ensures ExactDelta(baseEntries, headEntries, Paths(artifacts)) && ExactBytes(headEntries, artifacts)
  {
    hide GitFiles, Listed, IsOverlay, EachChanges, AuthorizedAncestor;
    forall p | Lookup(baseEntries, p) != Lookup(headEntries, p) && p !in Paths(artifacts)
      ensures AuthorizedAncestor(p, Lookup(baseEntries, p), Lookup(headEntries, p), Paths(artifacts))
    {
      OverlayChange(base, head, artifacts, p);
    }
    forall p | p in Paths(artifacts) ensures Lookup(baseEntries, p) != Lookup(headEntries, p) {
      var i :| 0 <= i < |artifacts| && artifacts[i].path == p;
      ArtifactChanges(base, head, artifacts, i);
    }
    forall i | 0 <= i < |artifacts|
      ensures artifacts[i].content != "" && RegularBlob(Lookup(headEntries, artifacts[i].path), artifacts[i].content)
    {
      ArtifactBlob(base, head, artifacts, i);
    }
  }

  lemma ArtifactBlob(base: map<string, Leaf>, head: map<string, Leaf>, artifacts: seq<Artifact>, i: nat)
    requires IsOverlay(base, head, artifacts) && EachChanges(base, artifacts) && i < |artifacts|
    ensures artifacts[i].content != "" && RegularBlob(Listed(head, artifacts[i].path), artifacts[i].content)
  {
  }

  /** Over Git trees the two checks together decide exactly the overlays in which each artifact changes. */
  lemma ExactIffOverlay(base: map<string, Leaf>, head: map<string, Leaf>, baseEntries: Entries, headEntries: Entries,
                        artifacts: seq<Artifact>)
    requires GitFiles(base) && GitFiles(head) && Flattens(base, baseEntries) && Flattens(head, headEntries)
    ensures ExactDelta(baseEntries, headEntries, Paths(artifacts)) && ExactBytes(headEntries, artifacts)
            <==> IsOverlay(base, head, artifacts) && EachChanges(base, artifacts)
  {
    hide ExactDelta, ExactBytes, GitFiles, Flattens, IsOverlay, EachChanges;
    if ExactDelta(baseEntries, headEntries, Paths(artifacts)) && ExactBytes(headEntries, artifacts) {
      AcceptedTreesOverlay(base, head, baseEntries, headEntries, artifacts);
    }
    if IsOverlay(base, head, artifacts) && EachChanges(base, artifacts) {
      OverlayAccepted(base, head, baseEntries, headEntries, artifacts);
    }
  }
}
