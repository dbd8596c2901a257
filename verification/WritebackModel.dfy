/**
 The DataHub write-back: what a request derives, what an exact read shows, and what a
 receipt claims (packages/datahub/src/writeback.ts). Fingerprints are the values they
 are taken of; a text is kept as its list of lines; sorted duplicate-free tag lists
 are sets.
 */
module WritebackModel {
  import opened Common

  type Time = int

  const CANONICAL_DATASET :=
    "urn:li:dataset:(urn:li:dataPlatform:postgres,lineageguard-canonical.lineageguard.commerce.orders,PROD)"
  const CANONICAL_SCENARIO := "canonical-customer-id-rename"
  const REVIEWED := "urn:li:tag:lineageguard-canonical.Reviewed"
  const MARKER_PREFIX := "Marker: "

  datatype Code = CONFIGURATION | CONFLICT | AUTHORITY_INVALID | AMBIGUOUS | SCHEMA_DRIFT | UNAVAILABLE
  datatype Fault = Fault(code: Code, retryable: bool)

  function Conflict(): Fault {
    Fault(CONFLICT, false)
  }

  // ---------------------------------------------------------------------- request

  datatype Decision = Allow | Review | Block

  /** stableId of the candidate and the dataset: the run is not part of the key. */
  datatype DocumentId = DocumentId(candidate: string, source: string)
  datatype DocumentArguments = DocumentArguments(id: DocumentId, title: string, content: seq<string>,
      related: seq<string>)
  datatype TagArguments = TagArguments(entities: seq<string>, tags: seq<string>)

  datatype TagDefinition = TagDefinition(name: string, description: string)

  /** The fingerprinted metadata: everything relevant, and every tag but Reviewed. */
  datatype Metadata = Metadata(properties: nat, otherTags: set<string>)

  datatype Request = Request(
    runId: string, decision: Decision, reasons: seq<string>, candidate: string, artifact: string, validation: string,
    prUrl: string, rollbackRef: string, key: string, source: string, scenario: string, targetInstance: string,
    metadata: Metadata, version: string, tagDefinition: TagDefinition,
    documentHash: DocumentArguments, tagHash: TagArguments, otherFingerprints: nat)

  function DecisionText(d: Decision): string {
    match d
    case Allow => "ALLOW"
    case Review => "REVIEW"
    case Block => "BLOCK"
  }

  function Join(parts: seq<string>, separator: string): string {
    if |parts| == 0 then "" else if |parts| == 1 then parts[0]
    else parts[0] + separator + Join(parts[1..], separator)
  }

  function Marker(q: Request): string {
    "lineageguard:decision:v1:" + q.key
  }

  function Title(q: Request): string {
    "LineageGuard migration decision \U{00B7} " + q.candidate[..if |q.candidate| < 12 then |q.candidate| else 12]
  }

  function Content(q: Request): seq<string> {
    [MARKER_PREFIX + Marker(q),
     "Decision: " + DecisionText(q.decision),
     "Latest verified run: " + q.runId,
     "Reasons: " + Join(q.reasons, ", "),
     "Candidate: " + q.candidate,
     "Artifact: " + q.artifact,
     "Validation: " + q.validation,
     "GitHub review: " + q.prUrl,
     "Rollback: " + q.rollbackRef]
  }

  function DocumentIdOf(q: Request): DocumentId {
    DocumentId(q.candidate, q.source)
  }

  function DocumentArgumentsOf(q: Request): DocumentArguments {
    DocumentArguments(DocumentIdOf(q), Title(q), Content(q), [q.source])
  }

  function TagArgumentsOf(q: Request): TagArguments {
    TagArguments([q.source], [REVIEWED])
  }

  /** validateRequest */
  function ValidateRequest(q: Request): Check<Fault> {
    if !Distinct(q.reasons) || q.source != CANONICAL_DATASET || q.scenario != CANONICAL_SCENARIO then
      Fail(Fault(CONFIGURATION, false))
    else if q.documentHash != DocumentArgumentsOf(q) || q.tagHash != TagArgumentsOf(q) then
      Fail(Conflict())
    else Pass
  }

  // --------------------------------------------------------------------- the remote

  datatype Document = Document(title: string, content: seq<string>, related: seq<string>)

  datatype Mutation = SaveDocument(document: DocumentArguments) | AddTags(tags: TagArguments)

  datatype World = World(
    docs: map<DocumentId, Document>,
    tags: seq<string>,
    properties: nat,
    version: Option<string>,
    scenario: Option<string>,
    reviewedTag: Option<TagDefinition>)

  /** What the server does with one mutation; the entity's version may move with it. */
  function Apply(w: World, m: Mutation, version: Option<string>): World {
    match m
    case SaveDocument(d) => w.(docs := w.docs[d.id := Document(d.title, d.content, d.related)], version := version)
    case AddTags(t) =>
      if CANONICAL_DATASET in t.entities && REVIEWED in t.tags && REVIEWED !in w.tags
      then w.(tags := w.tags + [REVIEWED], version := version)
      else w.(version := version)
  }

  // ---------------------------------------------------------------------- snapshots

  datatype DocumentProof = DocumentProof(id: DocumentId, marker: string, title: string, content: seq<string>)

  datatype Snapshot = Snapshot(
    urn: string, scenario: string, metadata: Metadata, knownTags: set<string>, tagDefinition: Option<TagDefinition>,
    tags: set<string>, version: string, proofs: seq<DocumentProof>)

  /** The rest of the first line that starts with "Marker: ". */
  function FindMarker(lines: seq<string>): Option<string> {
    if |lines| == 0 then None
    else if MARKER_PREFIX <= lines[0] then Some(lines[0][|MARKER_PREFIX|..])
    else FindMarker(lines[1..])
  }

  function Proofs(w: World, source: string, id: DocumentId): seq<DocumentProof> {
    if id !in w.docs then []
    else
      var document := w.docs[id];
      var marker := FindMarker(document.content);
      if marker.None? || source !in document.related then []
      else [DocumentProof(id, marker.value, document.title, document.content)]
  }

  /** parseOfficialWritebackEntities */
  function ParseEntities(w: World, urn: string, id: DocumentId): Result<Snapshot, Fault> {
    if urn != CANONICAL_DATASET || w.scenario != Some(CANONICAL_SCENARIO) || w.version.None?
       || |w.tags| > 200 || !Distinct(w.tags)
    then Err(Fault(SCHEMA_DRIFT, false))
    else
      Ok(Snapshot(urn, w.scenario.value, Metadata(w.properties, Elements(w.tags) - {REVIEWED}),
                  if w.reviewedTag.Some? then {REVIEWED} else {}, w.reviewedTag,
                  Elements(w.tags), w.version.value, Proofs(w, urn, id)))
  }

  datatype Phase = Before | After

  /** validateSnapshot */
  function ValidateSnapshot(s: Snapshot, q: Request, phase: Phase): Check<Fault> {
    if s.urn != q.source || s.scenario != q.scenario || s.metadata != q.metadata then Fail(Conflict())
    else if REVIEWED !in s.knownTags || s.tagDefinition != Some(q.tagDefinition) then Fail(Conflict())
    else if phase == Before && s.version != q.version then Fail(Conflict())
    else Pass
  }

  datatype WriteProof = WriteProof(document: bool, tag: bool)

  predicate Matches(p: DocumentProof, q: Request) {
    p.marker == Marker(q) && p.title == Title(q) && p.content == Content(q)
  }

  /** proofState: a document under the derived id must be the derived document. */
  function ProofState(s: Snapshot, q: Request): Result<WriteProof, Fault> {
    var found := exists i :: 0 <= i < |s.proofs| && s.proofs[i].id == DocumentIdOf(q);
    var exact := exists i :: 0 <= i < |s.proofs| && s.proofs[i].id == DocumentIdOf(q) && Matches(s.proofs[i], q);
    if found && !exact then Err(Conflict()) else Ok(WriteProof(exact, REVIEWED in s.tags))
  }

  /** One exact read as a call to `write` uses it: projected, validated, and compared with the payload. */
  function Observe(w: World, q: Request, phase: Phase): Result<(Snapshot, WriteProof), Fault> {
    var s :- ParseEntities(w, q.source, DocumentIdOf(q));
    :- ValidateSnapshot(s, q, phase);
    var proof :- ProofState(s, q);
    Ok((s, proof))
  }

  // ----------------------------------------------------------------------- receipts

  datatype ConsumedAuthority = ConsumedAuthority(
    fence: string, attempt: string, effect: Request, invokeBy: Time, reservation: string)

  datatype Status = SUCCEEDED | AMBIGUOUS_STATUS

  datatype Receipt = Receipt(
    request: Request, preservedTags: set<string>, preservedMetadata: Metadata, proof: WriteProof, status: Status,
    invocations: nat, completedAt: Time, authority: Option<ConsumedAuthority>)

  function MakeReceipt(q: Request, before: Snapshot, after: Snapshot, proof: WriteProof, completedAt: Time,
                       invocations: nat, authority: Option<ConsumedAuthority>): Receipt
  {
    var preserved := before.tags + {REVIEWED} == after.tags;
    Receipt(q, before.tags, after.metadata, proof,
            if proof.document && proof.tag && preserved then SUCCEEDED else AMBIGUOUS_STATUS,
            invocations, completedAt, authority)
  }

  /** validateConsumedAuthority against a clock reading, when the deadline counts. */
  predicate AuthorityValid(c: ConsumedAuthority, reading: Option<Time>) {
    |c.fence| >= 1 && |c.attempt| >= 1 && (reading.Some? ==> reading.value <= c.invokeBy)
  }

  // -------------------------------------------------------------------- properties

  /** The remote holds exactly the decision document that the request derives. */
  predicate HoldsDocument(w: World, q: Request) {
    && DocumentIdOf(q) in w.docs
    && var d := w.docs[DocumentIdOf(q)];
       d.title == Title(q) && d.content == Content(q) && q.source in d.related
  }

  lemma MarkerIsFirst(q: Request)
    ensures FindMarker(Content(q)) == Some(Marker(q))
  {
    assert (MARKER_PREFIX + Marker(q))[|MARKER_PREFIX|..] == Marker(q);
  }

  /** A read proves the document exactly when the remote holds it, and refuses any other under its id. */
  lemma ProofIsExact(w: World, q: Request)
    requires ParseEntities(w, q.source, DocumentIdOf(q)).Ok?
    ensures var s := ParseEntities(w, q.source, DocumentIdOf(q)).value;
            && (ProofState(s, q).Ok? ==> (ProofState(s, q).value.document <==> HoldsDocument(w, q)))
            && (HoldsDocument(w, q) ==> ProofState(s, q).Ok?)
            && (ProofState(s, q).Ok? ==> (ProofState(s, q).value.tag <==> REVIEWED in w.tags))
  {
    MarkerIsFirst(q);
    var s := ParseEntities(w, q.source, DocumentIdOf(q)).value;
    if HoldsDocument(w, q) {
      assert s.proofs[0].id == DocumentIdOf(q) && Matches(s.proofs[0], q);
    }
  }

  /** A document under the request's id that a read would show: marked, and related to the source. */
  ghost predicate Visible(w: World, q: Request) {
    && DocumentIdOf(q) in w.docs && q.source in w.docs[DocumentIdOf(q)].related
    && exists k :: 0 <= k < |w.docs[DocumentIdOf(q)].content|
                   && MARKER_PREFIX <= w.docs[DocumentIdOf(q)].content[k]
  }

  lemma {:induction false} MarkerIffLine(lines: seq<string>)
    ensures FindMarker(lines).Some? <==> exists k :: 0 <= k < |lines| && MARKER_PREFIX <= lines[k]
  {
    if |lines| > 0 && !(MARKER_PREFIX <= lines[0]) {
      MarkerIffLine(lines[1..]);
      assert forall k :: 0 < k < |lines| ==> lines[1..][k - 1] == lines[k];
      if FindMarker(lines[1..]).Some? {
        var k :| 0 <= k < |lines[1..]| && MARKER_PREFIX <= lines[1..][k];
        assert lines[k + 1] == lines[1..][k];
      }
    }
  }

  /**
   When a read is accepted: it shows the canonical dataset and scenario with its metadata as the request has it, the
   tag as defined, before the write also the version, and under the request's id no document but the request's own.
   */
  lemma ObserveIff(w: World, q: Request, phase: Phase)
    ensures Observe(w, q, phase).Ok?
            <==> && q.source == CANONICAL_DATASET && q.scenario == CANONICAL_SCENARIO && w.scenario == Some(q.scenario)
                 && w.version.Some? && (phase == Before ==> w.version == Some(q.version))
                 && |w.tags| <= 200 && Distinct(w.tags)
                 && q.metadata == Metadata(w.properties, (set t | t in w.tags && t != REVIEWED))
                 && w.reviewedTag == Some(q.tagDefinition)
                 && (Visible(w, q) ==> HoldsDocument(w, q))
  {
    hide HoldsDocument, ProofState, Visible, FindMarker, Title, Content, Marker;
    assert Elements(w.tags) - {REVIEWED} == set t | t in w.tags && t != REVIEWED;
    if ParseEntities(w, q.source, DocumentIdOf(q)).Ok? {
      ProofStateIff(w, q);
    }
  }

  lemma ProofStateIff(w: World, q: Request)
    requires ParseEntities(w, q.source, DocumentIdOf(q)).Ok?
    ensures ProofState(ParseEntities(w, q.source, DocumentIdOf(q)).value, q).Ok?
            <==> (Visible(w, q) ==> HoldsDocument(w, q))
  {
    hide FindMarker, Title, Content, Marker;
    var s := ParseEntities(w, q.source, DocumentIdOf(q)).value;
    ProofIsExact(w, q);
    if DocumentIdOf(q) in w.docs {
      MarkerIffLine(w.docs[DocumentIdOf(q)].content);
      if Visible(w, q) {
        assert s.proofs[0].id == DocumentIdOf(q);
      }
    }
  }

  /** The document of a request that passes validation is exactly what its save writes. */
  lemma SavedDocumentIsHeld(w: World, q: Request, version: Option<string>)
    ensures HoldsDocument(Apply(w, SaveDocument(DocumentArgumentsOf(q)), version), q)
  {
  }

  /** With unchanged metadata, the tags were preserved exactly when Reviewed is there. */
  lemma TagsPreservedIffReviewed(w0: World, w1: World, q: Request)
    requires ParseEntities(w0, q.source, DocumentIdOf(q)).Ok? && ParseEntities(w1, q.source, DocumentIdOf(q)).Ok?
    requires ValidateSnapshot(ParseEntities(w0, q.source, DocumentIdOf(q)).value, q, Before).Pass?
    requires ValidateSnapshot(ParseEntities(w1, q.source, DocumentIdOf(q)).value, q, After).Pass?
    ensures Elements(w0.tags) + {REVIEWED} == Elements(w1.tags) <==> REVIEWED in w1.tags
  {
    var s0 := ParseEntities(w0, q.source, DocumentIdOf(q)).value;
    var s1 := ParseEntities(w1, q.source, DocumentIdOf(q)).value;
    assert s0.metadata.otherTags == s1.metadata.otherTags;
    assert s0.tags + {REVIEWED} == s0.metadata.otherTags + {REVIEWED};
    if REVIEWED in w1.tags {
      assert REVIEWED in s1.tags;
      assert s1.tags == s1.metadata.otherTags + {REVIEWED};
    }
  }

  /** So the receipt's status is decided by what the last read saw. */
  lemma SucceededIffHeld(w0: World, w1: World, q: Request, phase: Phase, completedAt: Time, invocations: nat,
                         authority: Option<ConsumedAuthority>)
    requires Observe(w0, q, Before).Ok? && Observe(w1, q, phase).Ok?
    ensures ReceiptMeans(MakeReceipt(q, Observe(w0, q, Before).value.0, Observe(w1, q, phase).value.0,
                                     Observe(w1, q, phase).value.1, completedAt, invocations, authority), q, w0, w1)
  {
    hide HoldsDocument, ParseEntities, ProofState;
    ParsedTags(w0, q);
    ParsedTags(w1, q);
    TagsPreservedIffReviewed(w0, w1, q);
    ProofIsExact(w1, q);
  }

  /** A receipt for `q` whose first read saw `w0` and whose last saw `w1`. */
  ghost predicate ReceiptMeans(r: Receipt, q: Request, w0: World, w1: World) {
    && r.request == q && r.preservedTags == Elements(w0.tags) && r.preservedMetadata == q.metadata
    && w0.version == Some(q.version)
    && (r.proof.document <==> HoldsDocument(w1, q)) && (r.proof.tag <==> REVIEWED in w1.tags)
    && (r.status == SUCCEEDED <==> HoldsDocument(w1, q) && REVIEWED in w1.tags)
    && (r.status == SUCCEEDED ==> Elements(w1.tags) == Elements(w0.tags) + {REVIEWED})
    && Elements(w1.tags) - {REVIEWED} == Elements(w0.tags) - {REVIEWED}
  }

  lemma ParsedTags(w: World, q: Request)
    requires ParseEntities(w, q.source, DocumentIdOf(q)).Ok?
    ensures var s := ParseEntities(w, q.source, DocumentIdOf(q)).value;
            && s.tags == Elements(w.tags) && s.metadata.otherTags == Elements(w.tags) - {REVIEWED}
            && w.version == Some(s.version)
  {
  }

  // ---------------------------------------------------- reads after undisturbed writes

  /** A saved document shows in the next read, and nothing else changes. */
  lemma DocumentShows(w: World, q: Request, phase: Phase)
    requires Observe(w, q, phase).Ok? && w.version.Some?
    ensures var w' := Apply(w, SaveDocument(DocumentArgumentsOf(q)), w.version);
            && Observe(w', q, After).Ok?
            && Observe(w', q, After).value.1 == WriteProof(true, Observe(w, q, phase).value.1.tag)
            && w'.tags == w.tags && w'.version == w.version
  {
    hide Content, Title;
    var w' := Apply(w, SaveDocument(DocumentArgumentsOf(q)), w.version);
    assert ParseEntities(w', q.source, DocumentIdOf(q)).Ok?;
    ProofIsExact(w', q);
    SavedDocumentIsHeld(w, q, w.version);
  }

  lemma DistinctAppend(xs: seq<string>, x: string)
    requires Distinct(xs) && x !in xs
    ensures Distinct(xs + [x])
  {
  }

  /** An added tag shows in the next read, unless the entity already had its two hundred. */
  lemma TagShows(w: World, q: Request)
    requires Observe(w, q, After).Ok? && !Observe(w, q, After).value.1.tag
    ensures var w' := Apply(w, AddTags(TagArgumentsOf(q)), w.version);
            && w'.docs == w.docs
            && (Observe(w', q, After).Ok? <==> |w.tags| < 200)
            && (|w.tags| < 200 ==>
                  Observe(w', q, After).value.1 == WriteProof(Observe(w, q, After).value.1.document, true))
            && (|w.tags| == 200 ==> Observe(w', q, After) == Err(Fault(SCHEMA_DRIFT, false)))
  {
    hide ProofState, HoldsDocument;
    ParsedTags(w, q);
    ProofIsExact(w, q);
    var w' := Apply(w, AddTags(TagArgumentsOf(q)), w.version);
    assert REVIEWED !in w.tags && q.source == CANONICAL_DATASET;
    assert w' == w.(tags := w.tags + [REVIEWED]);
    DistinctAppend(w.tags, REVIEWED);
    if |w.tags| < 200 {
      assert Elements(w'.tags) == Elements(w.tags) + {REVIEWED};
      assert Elements(w'.tags) - {REVIEWED} == Elements(w.tags) - {REVIEWED};
      SameProofs(w, w', q);
    }
  }

  lemma SameProofs(w: World, w': World, q: Request)
    requires ParseEntities(w, q.source, DocumentIdOf(q)).Ok? && ParseEntities(w', q.source, DocumentIdOf(q)).Ok?
    requires w'.docs == w.docs && ProofState(ParseEntities(w, q.source, DocumentIdOf(q)).value, q).Ok?
    ensures var s' := ParseEntities(w', q.source, DocumentIdOf(q)).value;
            && ProofState(s', q).Ok?
            && ProofState(s', q).value.document
               == ProofState(ParseEntities(w, q.source, DocumentIdOf(q)).value, q).value.document
            && ProofState(s', q).value.tag == (REVIEWED in w'.tags)
  {
    hide Content, Title;
  }
}
