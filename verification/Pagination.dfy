/**
 Collecting a paged DataHub listing whole, or not at all (packages/datahub/src/pagination.ts,
 canonical-reader.ts and official-contract.ts).
 */
module Pagination {
  import opened Common

  const PAGE_SIZE := 50
  const MAX_PAGES := 4
  const MAX_ITEMS := 200
  const MAX_PAGE_ITEMS := 200

  datatype Code =
    | MALFORMED_RESPONSE | PAGINATION_LIMIT | CURSOR_CYCLE | SCHEMA_DRIFT | NOT_FOUND | AMBIGUOUS | TOOL_FAILURE

  /** An entity urn or a field path, with the columns its lineage names. */
  datatype Item = Item(key: string, columns: set<string>)

  /** One parsed response of each of the four paged tools. */
  datatype RawPage =
    | Search(start: nat, count: nat, total: nat, items: seq<Item>)
    | Queries(start: nat, count: nat, total: nat, items: seq<Item>)
    | Fields(urn: string, offset: nat, returned: nat, remaining: nat, totalFields: nat, matching: Option<nat>,
             items: seq<Item>)
    | Lineage(at: Option<nat>, startAt: Option<nat>, total: nat, hasMore: Option<bool>, declared: Option<nat>,
              truncated: bool, items: seq<Item>)
    | NoDownstreams

  datatype Tool = SearchTool | QueryTool | FieldTool | LineageTool

  function Max(a: int, b: int): int {
    if a < b then b else a
  }

  function Min(a: int, b: int): int {
    if a < b then a else b
  }

  function ItemsOf(p: RawPage): seq<Item> {
    if p.NoDownstreams? then [] else p.items
  }

  /** The refinements of the response schemas. */
  predicate Contract(tool: Tool, p: RawPage) {
    && |ItemsOf(p)| <= MAX_PAGE_ITEMS
    && match p
       case Search(start, count, total, items) => tool.SearchTool? && |items| == Min(count, Max(total - start, 0))
       case Queries(start, count, total, items) => tool.QueryTool? && |items| == Min(count, Max(total - start, 0))
       case Fields(_, offset, returned, remaining, total, _, items) =>
         && tool.FieldTool? && returned == |items| && offset <= total
         && remaining == Max(total - offset - returned, 0)
       case Lineage(at, startAt, total, _, declared, _, items) =>
         && tool.LineageTool? && (declared.None? || declared.value == |items|)
         && total >= (if at.Some? then at.value else if startAt.Some? then startAt.value else 0) + |items|
       case NoDownstreams => tool.LineageTool?
  }

  /** A server that may answer anything: by call number, requested offset and page size. */
  type Server = (nat, nat, nat) -> Result<RawPage, Code>

  datatype Page = Page(offset: nat, items: seq<Item>, next: Option<nat>)

  /** The response says that it starts at this offset. */
  predicate StartsAt(p: RawPage, offset: nat) {
    match p
    case Search(start, _, _, _) => start == offset
    case Queries(start, _, _, _) => start == offset
    case Fields(_, o, _, _, _, _, _) => o == offset
    case Lineage(at, startAt, _, _, _, _, _) =>
      (at.Some? ==> at.value == offset) && (startAt.Some? ==> startAt.value == offset)
    case NoDownstreams => false
  }

  /**
   The error that an answer at this offset ends in, if it does, after earlier pages declared this total. An answer of
   the wrong shape is malformed, one that starts elsewhere or leads on without an item is a cycle, one that contradicts
   an earlier page has drifted, and one that is cut off or larger than was asked for exceeds a limit.
   */
  function Refusal(tool: Tool, urn: string, raw: Result<RawPage, Code>, offset: nat, known: Option<nat>): Option<Code> {
    match raw
    case Err(e) => Some(e)
    case Ok(p) =>
      if !Contract(tool, p) || p.NoDownstreams? || (p.Fields? && p.urn != urn) then Some(MALFORMED_RESPONSE)
      else if p.Lineage? && p.truncated then Some(PAGINATION_LIMIT)
      else if p.Lineage? && p.at.None? && p.startAt.None? then Some(MALFORMED_RESPONSE)
      else if !StartsAt(p, offset) then Some(CURSOR_CYCLE)
      else if known.Some? && known.value != TotalOf(p) then Some(SCHEMA_DRIFT)
      else if p.Fields? && p.matching.None? then Some(MALFORMED_RESPONSE)
      else if p.Fields? && p.matching.value != 1 then
        Some(if known.Some? then SCHEMA_DRIFT else if p.matching.value == 0 then NOT_FOUND else AMBIGUOUS)
      else if p.Lineage? && p.hasMore.Some? && p.hasMore.value != (offset + |p.items| < p.total) then
        Some(MALFORMED_RESPONSE)
      else if |ItemsOf(p)| > PAGE_SIZE then Some(PAGINATION_LIMIT)
      else if NextOf(p).Some? && ItemsOf(p) == [] then Some(CURSOR_CYCLE)
      else None
  }

  /** The match count of schema fields is known as soon as their total is, and is one. */
  predicate Consistent(tool: Tool, total: Option<nat>, matching: Option<nat>) {
    tool.FieldTool? ==> matching == if total.Some? then Some(1) else None
  }

  // ---------------------------------------------------------------------- fetching

  /** The state the fetching closures keep across pages. */
  class PageSource {
    const tool: Tool
    const urn: string
    const server: Server
    var total: Option<nat>
    var matching: Option<nat>
    var pages: seq<Page>

    constructor (tool: Tool, urn: string, server: Server)
      ensures this.tool == tool && this.urn == urn && this.server == server
      ensures total == None && matching == None && pages == []
    {
      this.tool, this.urn, this.server := tool, urn, server;
      total, matching, pages := None, None, [];
    }

    /** stablePageTotal */
    method StableTotal(actual: nat) returns (ok: bool)
      modifies this`total
      ensures ok <==> old(total) == None || old(total) == Some(actual)
      ensures total == if old(total).Some? then old(total) else Some(actual)
    {
      if total.Some? && total.value != actual {
        return false;
      }
      total := Some(actual);
      return true;
    }

    method Fetch(offset: nat) returns (r: Result<Page, Code>)
      modifies this`total, this`matching, this`pages
      ensures var raw := server(|old(pages)|, offset, PAGE_SIZE);
              && (r.Ok? <==> raw.Ok? && Acceptable(tool, urn, raw.value, offset, old(total), old(matching)))
              && (r.Ok? ==> && r.value == Page(offset, ItemsOf(raw.value), NextOf(raw.value))
                            && pages == old(pages) + [r.value]
                            && total == Some(TotalOf(raw.value))
                            && matching == if raw.value.Fields? then raw.value.matching else old(matching))
              && (r.Err? && Consistent(tool, old(total), old(matching)) ==>
                    Refusal(tool, urn, raw, offset, old(total)) == Some(r.error))
    {
      var raw :- server(|pages|, offset, PAGE_SIZE);
      if !Contract(tool, raw) {
        return Err(MALFORMED_RESPONSE);
      }
      var next: Option<nat>;
      match raw {
        case Search(start, count, declared, _) => next :- FetchCounted(start, count, declared, offset);
        case Queries(start, count, declared, _) => next :- FetchCounted(start, count, declared, offset);
        case Fields(_, _, _, _, _, _, _) => next :- FetchFields(raw, offset);
        case Lineage(_, _, _, _, _, _, _) => next :- FetchLineage(raw, offset);
        case NoDownstreams => return Err(MALFORMED_RESPONSE);
      }
      var page := Page(offset, ItemsOf(raw), next);
      pages := pages + [page];
      return Ok(page);
    }

    /** Search results and queries count what they return from a start. */
    method FetchCounted(start: nat, count: nat, declared: nat, offset: nat) returns (r: Result<Option<nat>, Code>)
      modifies this`total
      ensures r.Ok? <==> start == offset && (old(total) == None || old(total) == Some(declared))
      ensures total == old(total) || (old(total).None? && total == Some(declared))
      ensures r.Err? ==> r.error == if start != offset then CURSOR_CYCLE else SCHEMA_DRIFT
      ensures r.Ok? ==> total == Some(declared)
                        && r.value == if start + count >= declared then None else Some(start + count)
    {
      if start != offset {
        return Err(CURSOR_CYCLE);
      }
      var stable := StableTotal(declared);
      if !stable {
        return Err(SCHEMA_DRIFT);
      }
      return Ok(if start + count >= declared then None else Some(start + count));
    }

    method FetchFields(p: RawPage, offset: nat) returns (r: Result<Option<nat>, Code>)
      requires p.Fields?
      modifies this`total, this`matching
      ensures r.Ok? <==> && p.urn == urn && p.offset == offset
                         && (old(total) == None || old(total) == Some(p.totalFields))
                         && p.matching == Some(1) && (old(matching) == None || old(matching) == Some(1))
      ensures total == old(total) || (old(total).None? && total == Some(p.totalFields))
      ensures r.Err? && Contract(tool, p) && Consistent(tool, old(total), old(matching)) ==>
                Refusal(tool, urn, Ok(p), offset, old(total)) == Some(r.error)
      ensures r.Ok? ==> && total == Some(p.totalFields) && matching == Some(1)
                        && r.value == if p.remaining == 0 then None else Some(p.offset + p.returned)
    {
      if p.urn != urn {
        return Err(MALFORMED_RESPONSE);
      }
      if p.offset != offset {
        return Err(CURSOR_CYCLE);
      }
      var stable := StableTotal(p.totalFields);
      if !stable {
        return Err(SCHEMA_DRIFT);
      }
      if p.matching.None? {
        return Err(MALFORMED_RESPONSE);
      }
      if matching.None? {
        matching := p.matching;
      }
      if p.matching != matching {
        return Err(SCHEMA_DRIFT);
      }
      var _ :- RequireUnique(p.matching.value);
      return Ok(if p.remaining == 0 then None else Some(p.offset + p.returned));
    }

    method FetchLineage(p: RawPage, offset: nat) returns (r: Result<Option<nat>, Code>)
      requires p.Lineage?
      modifies this`total
      ensures total == old(total) || (old(total).None? && total == Some(p.total))
      ensures r.Ok? <==>
                && !p.truncated && (p.at.Some? || p.startAt.Some?)
                && (p.at.Some? ==> p.at.value == offset) && (p.startAt.Some? ==> p.startAt.value == offset)
                && (old(total) == None || old(total) == Some(p.total))
                && (p.hasMore.Some? ==> p.hasMore.value == (offset + |p.items| < p.total))
      ensures r.Err? && Contract(tool, p) ==> Refusal(tool, urn, Ok(p), offset, old(total)) == Some(r.error)
      ensures r.Ok? ==> total == Some(p.total)
                        && r.value == if offset + |p.items| < p.total then Some(offset + |p.items|) else None
    {
      if p.truncated {
        return Err(PAGINATION_LIMIT);
      }
      if p.at.None? && p.startAt.None? {
        return Err(MALFORMED_RESPONSE);
      }
      if (p.at.Some? && p.at.value != offset) || (p.startAt.Some? && p.startAt.value != offset) {
        return Err(CURSOR_CYCLE);
      }
      var stable := StableTotal(p.total);
      if !stable {
        return Err(SCHEMA_DRIFT);
      }
      var next := offset + |p.items|;
      if p.hasMore.Some? && p.hasMore.value != (next < p.total) {
        return Err(MALFORMED_RESPONSE);
      }
      return Ok(if next < p.total then Some(next) else None);
    }
  }

  /** requireUniqueResolution */
  function RequireUnique(count: nat): Result<(), Code> {
    if count == 1 then Ok(()) else if count == 0 then Err(NOT_FOUND) else Err(AMBIGUOUS)
  }

  /** What a response says about what comes after it. */
  function NextOf(p: RawPage): Option<nat> {
    match p
    case Search(start, count, total, _) => if start + count >= total then None else Some(start + count)
    case Queries(start, count, total, _) => if start + count >= total then None else Some(start + count)
    case Fields(_, offset, returned, remaining, _, _, _) => if remaining == 0 then None else Some(offset + returned)
    case Lineage(_, _, total, _, _, _, items) => if LineageEnd(p) < total then Some(LineageEnd(p)) else None
    case NoDownstreams => None
  }

  function LineageEnd(p: RawPage): nat
    requires p.Lineage?
  {
    (if p.at.Some? then p.at.value else if p.startAt.Some? then p.startAt.value else 0) + |p.items|
  }

  function TotalOf(p: RawPage): nat {
    match p
    case Fields(_, _, _, _, total, _, _) => total
    case NoDownstreams => 0
    case _ => p.total
  }

  /** A response that a fetch at this offset takes, after what earlier pages declared. */
  predicate Acceptable(tool: Tool, urn: string, p: RawPage, offset: nat, total: Option<nat>, matching: Option<nat>) {
    && Contract(tool, p) && !p.NoDownstreams?
    && (total.None? || total.value == TotalOf(p))
    && match p
       case Search(start, _, _, _) => start == offset
       case Queries(start, _, _, _) => start == offset
       case Fields(u, o, _, _, _, m, _) => u == urn && o == offset && m == Some(1) && (matching.None? || matching == m)
       case Lineage(at, startAt, t, hasMore, _, truncated, items) =>
         && !truncated && (at.Some? || startAt.Some?)
         && (at.Some? ==> at.value == offset) && (startAt.Some? ==> startAt.value == offset)
         && (hasMore.Some? ==> hasMore.value == (offset + |items| < t))
       case NoDownstreams => false
  }

  /** An accepted response continues exactly where it ends, or ends the listing. */
  lemma AcceptedContinues(tool: Tool, urn: string, p: RawPage, offset: nat, total: Option<nat>, matching: Option<nat>)
    requires Acceptable(tool, urn, p, offset, total, matching)
    ensures Continues(tool, Page(offset, ItemsOf(p), NextOf(p)), TotalOf(p))
  {
  }

  ghost predicate Expects(known: Option<nat>, n: nat) {
    known.None? || known.value == n
  }

  /** The part of a list that one page of the requested size shows. */
  function Window(list: seq<Item>, offset: nat): seq<Item>
    requires offset <= |list|
  {
    list[offset..Min(offset + PAGE_SIZE, |list|)]
  }

  function HonestPage(list: seq<Item>, offset: nat): Page
    requires offset <= |list|
  {
    var end := Min(offset + PAGE_SIZE, |list|);
    Page(offset, Window(list, offset), if end < |list| then Some(end) else None)
  }

  /** An honest answer: the window at the offset, and the list's true length. */
  ghost predicate Serves(tool: Tool, urn: string, list: seq<Item>, raw: Result<RawPage, Code>, offset: nat)
    requires offset <= |list|
  {
    && raw.Ok?
    && var items := Window(list, offset);
    match raw.value
    case Search(start, count, total, shown) =>
      tool.SearchTool? && start == offset && total == |list| && shown == items
          && (count == |items| || count == PAGE_SIZE)
    case Queries(start, count, total, shown) =>
      tool.QueryTool? && start == offset && total == |list| && shown == items
          && (count == |items| || count == PAGE_SIZE)
    case Fields(u, o, returned, remaining, total, matching, shown) =>
      && tool.FieldTool? && u == urn && o == offset && total == |list| && shown == items && returned == |items|
      && remaining == |list| - offset - |items| && matching == Some(1)
    case Lineage(at, startAt, total, hasMore, declared, truncated, shown) =>
      && tool.LineageTool? && at == Some(offset) && startAt.None? && total == |list| && shown == items && !truncated
      && (hasMore.None? || hasMore.value == (offset + |items| < |list|))
          && (declared.None? || declared.value == |items|)
    case NoDownstreams => false
  }

  lemma ServedIsAccepted(tool: Tool, urn: string, list: seq<Item>, raw: Result<RawPage, Code>, offset: nat,
                         total: Option<nat>, matching: Option<nat>)
    requires offset <= |list| && Serves(tool, urn, list, raw, offset) && Expects(total, |list|) && Expects(matching, 1)
    ensures raw.Ok?
    ensures Acceptable(tool, urn, raw.value, offset, total, matching)
    ensures Page(offset, ItemsOf(raw.value), NextOf(raw.value)) == HonestPage(list, offset)
    ensures TotalOf(raw.value) == |list| && (raw.value.Fields? ==> raw.value.matching == Some(1))
  {
  }

  ghost predicate HonestServer(source: PageSource, list: seq<Item>) {
    forall k: nat, offset: nat :: offset <= |list| ==>
      Serves(source.tool, source.urn, list, source.server(k, offset, PAGE_SIZE), offset)
  }

  /** A page goes on exactly where it ends, below the total, or is the last and has reached the total. */
  predicate Continues(tool: Tool, page: Page, total: nat) {
    var end := page.offset + |page.items|;
    match page.next
    case Some(next) => next == end < total
    case None => if tool.FieldTool? then end >= total else end == Max(total, page.offset)
  }

  // ------------------------------------------------------- what a server's answers say

  /** The offset of call `k`, as the answers to the calls before it lead there. */
  function OffsetAt(server: Server, k: nat): Option<nat>
    decreases k, 0
  {
    if k == 0 then Some(0)
    else
      match AnswerAt(server, k - 1)
      case Ok(raw) => NextOf(raw)
      case Err(_) => None
  }

  function AnswerAt(server: Server, k: nat): Result<RawPage, Code>
    decreases k, 1
  {
    match OffsetAt(server, k)
    case Some(offset) => server(k, offset, PAGE_SIZE)
    case None => Err(TOOL_FAILURE)
  }

  /** Answer `k` meets its tool's contract, is no larger than was asked for and repeats the first total. */
  ghost predicate Taken(tool: Tool, urn: string, server: Server, k: nat) {
    && AnswerAt(server, k).Ok? && OffsetAt(server, k).Some? && AnswerAt(server, 0).Ok?
    && var raw := AnswerAt(server, k).value;
    && Acceptable(tool, urn, raw, OffsetAt(server, k).value, None, None)
    && |ItemsOf(raw)| <= PAGE_SIZE
    && TotalOf(raw) == TotalOf(AnswerAt(server, 0).value)
  }

  /** The first `n` answers were taken, and each of them leads on. */
  ghost predicate Leads(tool: Tool, urn: string, server: Server, n: nat) {
    forall k: nat :: k < n ==>
      Taken(tool, urn, server, k) && NextOf(AnswerAt(server, k).value).Some? && ItemsOf(AnswerAt(server, k).value) != []
  }

  /** The server's answers make a whole listing of `n` pages. */
  ghost predicate Complete(tool: Tool, urn: string, server: Server, n: nat) {
    && 1 <= n <= MAX_PAGES
    && Leads(tool, urn, server, n - 1)
    && Taken(tool, urn, server, n - 1) && NextOf(AnswerAt(server, n - 1).value).None?
  }

  function Listing(server: Server, n: nat): seq<Item> {
    if n == 0 then []
    else Listing(server, n - 1) + match AnswerAt(server, n - 1) case Ok(raw) => ItemsOf(raw) case Err(_) => []
  }

  function DeclaredTotal(server: Server): nat {
    match AnswerAt(server, 0) case Ok(raw) => TotalOf(raw) case Err(_) => 0
  }

  lemma TakenMeans(tool: Tool, urn: string, server: Server, k: nat)
    requires Taken(tool, urn, server, k)
    ensures AnswerAt(server, k).Ok? && OffsetAt(server, k).Some?
    ensures var raw := AnswerAt(server, k).value;
            && TotalOf(raw) == DeclaredTotal(server) && |ItemsOf(raw)| <= PAGE_SIZE
            && Continues(tool, Page(OffsetAt(server, k).value, ItemsOf(raw), NextOf(raw)), DeclaredTotal(server))
            && Listing(server, k + 1) == Listing(server, k) + ItemsOf(raw)
            && OffsetAt(server, k + 1) == NextOf(raw)
  {
    AcceptedContinues(tool, urn, AnswerAt(server, k).value, OffsetAt(server, k).value, None, None);
    hide Acceptable, Contract, NextOf, TotalOf, ItemsOf;
  }

  /** While answers lead on, each page starts exactly where the listing before it ends, below the total. */
  lemma {:induction false} LeadsContiguously(tool: Tool, urn: string, server: Server, n: nat)
    requires Leads(tool, urn, server, n)
    ensures OffsetAt(server, n) == Some(|Listing(server, n)|)
    ensures n > 0 ==> |Listing(server, n)| < DeclaredTotal(server)
    ensures |Listing(server, n)| <= PAGE_SIZE * n
    decreases n
  {
    hide Taken, AnswerAt, NextOf, ItemsOf, TotalOf;
    if n > 0 {
      LeadsContiguously(tool, urn, server, n - 1);
      TakenMeans(tool, urn, server, n - 1);
    }
  }

  /** A whole listing reaches its declared total; only schema fields can run past it. */
  lemma CompleteReachesTotal(tool: Tool, urn: string, server: Server, n: nat)
    requires Complete(tool, urn, server, n)
    ensures OffsetAt(server, n - 1) == Some(|Listing(server, n - 1)|)
    ensures DeclaredTotal(server) <= |Listing(server, n)| <= MAX_ITEMS
    ensures !tool.FieldTool? ==> |Listing(server, n)| == DeclaredTotal(server)
  {
    hide Taken, AnswerAt, NextOf, ItemsOf, TotalOf, Leads;
    LeadsContiguously(tool, urn, server, n - 1);
    TakenMeans(tool, urn, server, n - 1);
  }

  /** There is at most one such number of pages. */
  lemma CompleteOnce(tool: Tool, urn: string, server: Server, m: nat, n: nat)
    requires Complete(tool, urn, server, m) && Complete(tool, urn, server, n)
    ensures m == n
  {
    hide Taken, NextOf;
  }

  // ------------------------------------------------------------------ schema field totals

  /** The refinement that the schema field page leaves out: what is returned stays inside the total. */
  predicate InsideTotal(p: RawPage) {
    p.Fields? ==> p.offset + p.returned <= p.totalFields
  }

  lemma InsideMeans(tool: Tool, urn: string, p: RawPage, offset: nat)
    requires Acceptable(tool, urn, p, offset, None, None)
    ensures tool.FieldTool? ==> (InsideTotal(p) <==> offset + |ItemsOf(p)| <= TotalOf(p))
    ensures !tool.FieldTool? ==> InsideTotal(p)
  {
  }

  /** A whole listing has exactly its declared length if and only if its last answer stays inside the total. */
  lemma ExactIffInside(tool: Tool, urn: string, server: Server, n: nat)
    requires Complete(tool, urn, server, n)
    ensures |Listing(server, n)| == DeclaredTotal(server) <==> InsideTotal(AnswerAt(server, n - 1).value)
  {
    hide AnswerAt, NextOf, ItemsOf, TotalOf, Leads, Acceptable, InsideTotal;
    CompleteReachesTotal(tool, urn, server, n);
    TakenMeans(tool, urn, server, n - 1);
    InsideMeans(tool, urn, AnswerAt(server, n - 1).value, OffsetAt(server, n - 1).value);
  }

  lemma LeadsInside(tool: Tool, urn: string, server: Server, n: nat, k: nat)
    requires Leads(tool, urn, server, n) && k < n
    ensures AnswerAt(server, k).Ok? && InsideTotal(AnswerAt(server, k).value)
  {
    hide AnswerAt, NextOf, ItemsOf, TotalOf, Acceptable, InsideTotal;
    TakenMeans(tool, urn, server, k);
    InsideMeans(tool, urn, AnswerAt(server, k).value, OffsetAt(server, k).value);
  }

  /** The same server behind a client whose schema has that refinement. */
  function Refined(server: Server): Server {
    (k: nat, offset: nat, size: nat) =>
      match server(k, offset, size)
      case Ok(raw) => if InsideTotal(raw) then Ok(raw) else Err(MALFORMED_RESPONSE)
      case Err(e) => Err(e)
  }

  lemma {:induction false} RefinedAgrees(server: Server, n: nat)
    requires forall k: nat :: k < n ==> AnswerAt(server, k).Ok? ==> InsideTotal(AnswerAt(server, k).value)
    ensures OffsetAt(Refined(server), n) == OffsetAt(server, n)
    ensures Listing(Refined(server), n) == Listing(server, n)
    ensures forall k: nat :: k < n ==> AnswerAt(Refined(server), k) == AnswerAt(server, k)
    decreases n
  {
    hide InsideTotal, NextOf, ItemsOf;
    if n > 0 {
      RefinedAgrees(server, n - 1);
    }
  }

  /** Answers that pass the refinement were the server's own. */
  lemma {:induction false} RefinedAnswers(server: Server, n: nat)
    requires forall k: nat :: k < n ==> AnswerAt(Refined(server), k).Ok?
    ensures OffsetAt(Refined(server), n) == OffsetAt(server, n)
    ensures forall k: nat :: k < n ==> AnswerAt(server, k).Ok? && InsideTotal(AnswerAt(server, k).value)
    decreases n
  {
    hide InsideTotal, NextOf;
    if n > 0 {
      RefinedAnswers(server, n - 1);
    }
  }

  /** With the refinement exactly the listings of the declared length are collected, and no others are lost. */
  lemma RefinementIsExact(tool: Tool, urn: string, server: Server, n: nat)
    ensures Complete(tool, urn, Refined(server), n)
            <==> Complete(tool, urn, server, n) && |Listing(server, n)| == DeclaredTotal(server)
  {
    hide AnswerAt, OffsetAt, Acceptable, NextOf, ItemsOf, TotalOf, InsideTotal, Listing, Refined, DeclaredTotal;
    if Complete(tool, urn, Refined(server), n) {
      RefinedAnswers(server, n);
      RefinedAgrees(server, n);
      SameAnswers(tool, urn, Refined(server), server, n);
      ExactIffInside(tool, urn, server, n);
    }
    if Complete(tool, urn, server, n) && |Listing(server, n)| == DeclaredTotal(server) {
      ExactIffInside(tool, urn, server, n);
      forall k: nat | k < n ensures AnswerAt(server, k).Ok? ==> InsideTotal(AnswerAt(server, k).value) {
        if k < n - 1 {
          LeadsInside(tool, urn, server, n - 1, k);
        }
      }
      RefinedAgrees(server, n);
      SameAnswers(tool, urn, server, Refined(server), n);
    }
  }

  lemma SameAnswers(tool: Tool, urn: string, a: Server, b: Server, n: nat)
    requires Complete(tool, urn, a, n)
    requires forall k: nat :: k < n ==> AnswerAt(a, k) == AnswerAt(b, k)
    ensures Complete(tool, urn, b, n)
  {
    hide Acceptable, NextOf, ItemsOf, TotalOf, AnswerAt;
    forall k: nat | k < n ensures OffsetAt(a, k) == OffsetAt(b, k) {
      if k > 0 {
        assert AnswerAt(a, k - 1) == AnswerAt(b, k - 1);
      }
    }
  }

  // -------------------------------------------------------------- collectBoundedPages

  function Concat(pages: seq<Page>): seq<Item> {
    if |pages| == 0 then [] else Concat(pages[..|pages| - 1]) + pages[|pages| - 1].items
  }

  /** What was read, in terms of the server's answers. */
  ghost predicate Collected(source: PageSource, items: seq<Item>)
    reads source
  {
    var n := |source.pages|;
    && Complete(source.tool, source.urn, source.server, n)
    && items == Listing(source.server, n) == Concat(source.pages)
    && source.total == Some(DeclaredTotal(source.server))
    && ShowsAnswers(source.server, source.pages)
  }

  /** Page `k` shows answer `k`. */
  ghost predicate ShowsAnswers(server: Server, pages: seq<Page>) {
    forall k: nat :: k < |pages| ==>
      && AnswerAt(server, k).Ok? && OffsetAt(server, k).Some?
      && pages[k] == Page(OffsetAt(server, k).value, ItemsOf(AnswerAt(server, k).value),
                          NextOf(AnswerAt(server, k).value))
  }

  method CollectBoundedPages(source: PageSource, ghost list: seq<Item>) returns (r: Result<seq<Item>, Code>)
    requires source.pages == [] && source.total.None? && source.matching.None?
    modifies source
    ensures r.Ok? <==> exists n :: Complete(source.tool, source.urn, source.server, n)
    ensures r.Ok? ==> Collected(source, r.value)
    ensures forall k: nat | Leads(source.tool, source.urn, source.server, k) && k < MAX_PAGES ::
              RefusalAt(source.tool, source.urn, source.server, k).Some? ==>
                r == Err(RefusalAt(source.tool, source.urn, source.server, k).value)
    ensures Leads(source.tool, source.urn, source.server, MAX_PAGES) ==> r == Err(PAGINATION_LIMIT)
    ensures HonestServer(source, list) ==>
              r == if |list| <= MAX_ITEMS then Ok(list) else Err(PAGINATION_LIMIT)
  {
    hide Serves, Contract, Acceptable, NextOf, HonestServer, ItemsOf, TotalOf, Concat, Window, HonestPage,
      Complete, Leads, Taken, Listing, OffsetAt, AnswerAt, DeclaredTotal, ShowsAnswers, RefusalAt, Refusal;
    var collected: seq<Item> := [];
    var visited: set<nat> := {0};
    var offset: nat := 0;
    ghost var tool, urn, server := source.tool, source.urn, source.server;
    NothingYet(tool, urn, server);
    for pageNumber := 0 to MAX_PAGES
      invariant |source.pages| == pageNumber && Leads(tool, urn, server, pageNumber)
      invariant ShowsAnswers(server, source.pages)
      invariant collected == Concat(source.pages) == Listing(server, pageNumber)
      invariant offset == |collected| <= PAGE_SIZE * pageNumber && OffsetAt(server, pageNumber) == Some(offset)
      invariant forall o :: o in visited ==> o <= offset
      invariant if pageNumber == 0 then source.total.None? && source.matching.None?
                else source.total == Some(DeclaredTotal(server)) && Expects(source.matching, 1)
      invariant Consistent(tool, source.total, source.matching)
      invariant HonestServer(source, list) ==>
          OnTrack(list, pageNumber, offset, collected, source.total, source.matching)
    {
      ghost var raw := server(pageNumber, offset, PAGE_SIZE);
      assert AnswerAt(server, pageNumber) == raw by { Answered(server, pageNumber, offset); }
      if HonestServer(source, list) {
        HonestStep(source, list, pageNumber, offset, collected);
      }
      LedHere(tool, urn, server, pageNumber);
      TakenIfFetched(tool, urn, server, pageNumber, offset, source.total, source.matching);
      ghost var before := source.pages;
      RefusalHere(tool, urn, server, pageNumber, offset, source.total);
      if RefusalAt(tool, urn, server, pageNumber).Some? {
        RefusedHere(tool, urn, server, pageNumber);
      }
      var page :- source.Fetch(offset);
      if |page.items| > PAGE_SIZE || |collected| + |page.items| > MAX_ITEMS {
        return Err(PAGINATION_LIMIT);
      }
      assert Taken(tool, urn, server, pageNumber);
      TakenMeans(tool, urn, server, pageNumber);
      collected := collected + page.items;
      ShowsOneMore(server, before, page);
      if page.next.None? {
        EndsHere(tool, urn, server, pageNumber);
        CompleteIsNotRefused(tool, urn, server, pageNumber + 1);
        return Ok(collected);
      }
      var next := page.next.value;
      if |page.items| == 0 || next <= offset || next in visited {
        return Err(CURSOR_CYCLE);
      }
      LeadsMore(tool, urn, server, pageNumber);
      LedHere(tool, urn, server, pageNumber + 1);
      LedIsNotRefused(tool, urn, server, pageNumber + 1);
      if pageNumber + 1 >= MAX_PAGES {
        return Err(PAGINATION_LIMIT);
      }
      offset := next;
      visited := visited + {offset};
    }
    LedHere(tool, urn, server, MAX_PAGES);
    LedIsNotRefused(tool, urn, server, MAX_PAGES);
    return Err(PAGINATION_LIMIT);
  }

  /** The error that answer `k` ends in, if it does. */
  function RefusalAt(tool: Tool, urn: string, server: Server, k: nat): Option<Code> {
    match OffsetAt(server, k)
    case None => None
    case Some(offset) =>
      Refusal(tool, urn, AnswerAt(server, k), offset, if k == 0 then None else Some(DeclaredTotal(server)))
  }

  lemma NothingYet(tool: Tool, urn: string, server: Server)
    ensures Concat([]) == [] == Listing(server, 0) && Leads(tool, urn, server, 0) && ShowsAnswers(server, [])
    ensures OffsetAt(server, 0) == Some(0)
  {
  }

  lemma Answered(server: Server, k: nat, offset: nat)
    requires OffsetAt(server, k) == Some(offset)
    ensures AnswerAt(server, k) == server(k, offset, PAGE_SIZE)
  {
  }

  /** What the loop learns about the answer it is about to fetch. */
  lemma RefusalHere(tool: Tool, urn: string, server: Server, k: nat, offset: nat, total: Option<nat>)
    requires OffsetAt(server, k) == Some(offset)
    requires if k == 0 then total.None? else total == Some(DeclaredTotal(server))
    ensures RefusalAt(tool, urn, server, k) == Refusal(tool, urn, AnswerAt(server, k), offset, total)
    ensures forall matching | AnswerAt(server, k).Ok?
                              && Acceptable(tool, urn, AnswerAt(server, k).value, offset, total, matching) ::
              var p := AnswerAt(server, k).value;
              Refusal(tool, urn, AnswerAt(server, k), offset, total)
              == if |ItemsOf(p)| > PAGE_SIZE then Some(PAGINATION_LIMIT)
                 else if NextOf(p).Some? && ItemsOf(p) == [] then Some(CURSOR_CYCLE)
                 else None
  {
    hide AnswerAt, OffsetAt;
  }

  /** Fetching takes exactly the answers that meet the contract and repeat the total. */
  lemma TakenIfFetched(tool: Tool, urn: string, server: Server, k: nat, offset: nat, total: Option<nat>,
                       matching: Option<nat>)
    requires OffsetAt(server, k) == Some(offset) && Expects(matching, 1)
    requires if k == 0 then total.None? else total == Some(DeclaredTotal(server)) && AnswerAt(server, 0).Ok?
    ensures var raw := AnswerAt(server, k);
            Taken(tool, urn, server, k)
            <==> raw.Ok? && Acceptable(tool, urn, raw.value, offset, total, matching)
                 && |ItemsOf(raw.value)| <= PAGE_SIZE
    ensures Taken(tool, urn, server, k) ==>
              var raw := AnswerAt(server, k).value;
              && TotalOf(raw) == DeclaredTotal(server) && (raw.Fields? ==> raw.matching == Some(1))
              && (tool.FieldTool? ==> raw.Fields?)
  {
  }

  /** An answer that is taken, and ends the listing or leads on with an item, is not refused. */
  lemma TakenIsNotRefused(tool: Tool, urn: string, server: Server, k: nat)
    requires Taken(tool, urn, server, k)
    requires NextOf(AnswerAt(server, k).value).None? || ItemsOf(AnswerAt(server, k).value) != []
    ensures RefusalAt(tool, urn, server, k).None?
  {
  }

  /** So what leads on was not refused, and a refused answer neither leads on nor ends a listing. */
  lemma LedIsNotRefused(tool: Tool, urn: string, server: Server, n: nat)
    requires Leads(tool, urn, server, n)
    ensures forall k: nat :: k < n ==> RefusalAt(tool, urn, server, k).None?
  {
    hide Taken, NextOf, ItemsOf, AnswerAt, RefusalAt;
    forall k: nat | k < n ensures RefusalAt(tool, urn, server, k).None? {
      TakenIsNotRefused(tool, urn, server, k);
    }
  }

  /** The only answer that was refused decides. */
  lemma RefusedHere(tool: Tool, urn: string, server: Server, j: nat)
    requires Leads(tool, urn, server, j) && RefusalAt(tool, urn, server, j).Some?
    ensures forall k: nat | Leads(tool, urn, server, k) && RefusalAt(tool, urn, server, k).Some? :: k == j
    ensures forall k: nat | Leads(tool, urn, server, k) :: k <= j
  {
    hide Leads, RefusalAt;
    forall k: nat | Leads(tool, urn, server, k)
      ensures k <= j && (RefusalAt(tool, urn, server, k).Some? ==> k == j)
    {
      LedIsNotRefused(tool, urn, server, k);
      LedIsNotRefused(tool, urn, server, j);
    }
  }

  /** After a whole listing nothing is refused, and nothing leads on. */
  lemma CompleteIsNotRefused(tool: Tool, urn: string, server: Server, n: nat)
    requires Complete(tool, urn, server, n)
    ensures forall k: nat | Leads(tool, urn, server, k) :: k < n && RefusalAt(tool, urn, server, k).None?
  {
    hide Taken, NextOf, ItemsOf, AnswerAt, RefusalAt;
    TakenIsNotRefused(tool, urn, server, n - 1);
    LedIsNotRefused(tool, urn, server, n - 1);
  }

  /** A listing is not complete before answer `k` if the answers before it lead on, nor at all without it. */
  lemma LedHere(tool: Tool, urn: string, server: Server, k: nat)
    requires Leads(tool, urn, server, k)
    ensures k > 0 ==> AnswerAt(server, 0).Ok?
    ensures forall n: nat | Complete(tool, urn, server, n) ::
              && k < n <= MAX_PAGES && Taken(tool, urn, server, k)
              && if n == k + 1 then NextOf(AnswerAt(server, k).value).None?
                 else ItemsOf(AnswerAt(server, k).value) != []
  {
  }

  lemma LeadsMore(tool: Tool, urn: string, server: Server, k: nat)
    requires Leads(tool, urn, server, k) && Taken(tool, urn, server, k)
    requires NextOf(AnswerAt(server, k).value).Some? && ItemsOf(AnswerAt(server, k).value) != []
    ensures Leads(tool, urn, server, k + 1)
  {
  }

  lemma EndsHere(tool: Tool, urn: string, server: Server, k: nat)
    requires Leads(tool, urn, server, k) && Taken(tool, urn, server, k) && k < MAX_PAGES
    requires NextOf(AnswerAt(server, k).value).None?
    ensures Complete(tool, urn, server, k + 1)
  {
  }

  lemma ShowsOneMore(server: Server, pages: seq<Page>, page: Page)
    requires ShowsAnswers(server, pages) && AnswerAt(server, |pages|).Ok? && OffsetAt(server, |pages|).Some?
    requires page == Page(OffsetAt(server, |pages|).value, ItemsOf(AnswerAt(server, |pages|).value),
                          NextOf(AnswerAt(server, |pages|).value))
    ensures ShowsAnswers(server, pages + [page]) && Concat(pages + [page]) == Concat(pages) + page.items
  {
    hide AnswerAt, OffsetAt, NextOf, ItemsOf;
    assert (pages + [page])[..|pages|] == pages;
  }

  /** How far an honest listing has been collected before call `k`. */
  ghost predicate OnTrack(list: seq<Item>, k: nat, offset: nat, collected: seq<Item>, total: Option<nat>,
                          matching: Option<nat>)
  {
    && offset == PAGE_SIZE * k && offset <= |list| && (k == 0 || offset < |list|) && collected == list[..offset]
    && Expects(total, |list|) && Expects(matching, 1)
  }

  /** One more honest page: accepted, within bounds, and either the end or still on track. */
  lemma HonestStep(source: PageSource, list: seq<Item>, k: nat, offset: nat, collected: seq<Item>)
    requires HonestServer(source, list) && OnTrack(list, k, offset, collected, source.total, source.matching)
    ensures var raw := source.server(k, offset, PAGE_SIZE);
            && raw.Ok? && Acceptable(source.tool, source.urn, raw.value, offset, source.total, source.matching)
            && |ItemsOf(raw.value)| <= PAGE_SIZE && |collected| + |ItemsOf(raw.value)| <= |list|
            && (raw.value.Fields? ==> raw.value.matching == Some(1))
            && if NextOf(raw.value).None? then collected + ItemsOf(raw.value) == list
               else && |ItemsOf(raw.value)| > 0 && NextOf(raw.value).value == offset + PAGE_SIZE < |list|
                    && forall matching | Expects(matching, 1) ::
                         OnTrack(list, k + 1, offset + PAGE_SIZE, collected + ItemsOf(raw.value),
                                 Some(TotalOf(raw.value)), matching)
  {
    hide Serves, Acceptable, NextOf, ItemsOf, TotalOf, HonestServer;
    HonestAnswer(source, list, k, offset);
    ServedIsAccepted(source.tool, source.urn, list, source.server(k, offset, PAGE_SIZE), offset, source.total,
        source.matching);
  }

  lemma HonestAnswer(source: PageSource, list: seq<Item>, k: nat, offset: nat)
    requires HonestServer(source, list) && offset <= |list|
    ensures Serves(source.tool, source.urn, list, source.server(k, offset, PAGE_SIZE), offset)
  {
  }

  // ------------------------------------------------------------------- resolution

  /** The item wanted: its key, and for lineage the column it must name. */
  datatype Target = Target(key: string, column: Option<string>)

  predicate Matches(item: Item, t: Target) {
    item.key == t.key && (t.column.Some? ==> t.column.value in item.columns)
  }

  function CountMatches(items: seq<Item>, t: Target): nat {
    if |items| == 0 then 0
    else CountMatches(items[..|items| - 1], t) + if Matches(items[|items| - 1], t) then 1 else 0
  }

  lemma {:induction false} CountAppend(xs: seq<Item>, ys: seq<Item>, t: Target)
    ensures CountMatches(xs + ys, t) == CountMatches(xs, t) + CountMatches(ys, t)
    decreases |ys|
  {
    if |ys| == 0 {
      assert xs + ys == xs;
    } else {
      var n := |ys| - 1;
      assert (xs + ys)[..|xs + ys| - 1] == xs + ys[..n];
      CountAppend(xs, ys[..n], t);
    }
  }

  /** The filter over all pages: how many matches, and the page of the first one. */
  method FindMatches(pages: seq<Page>, t: Target) returns (count: nat, proof: Option<nat>)
    ensures count == CountMatches(Concat(pages), t)
    ensures proof.Some? <==> count > 0
    ensures proof.Some? ==> proof.value < |pages| && CountMatches(pages[proof.value].items, t) > 0
                            && CountMatches(Concat(pages[..proof.value]), t) == 0
  {
    count, proof := 0, None;
    for i := 0 to |pages|
      invariant count == CountMatches(Concat(pages[..i]), t)
      invariant proof.Some? <==> count > 0
      invariant proof.Some? ==> proof.value < i && CountMatches(pages[proof.value].items, t) > 0
                                && CountMatches(Concat(pages[..proof.value]), t) == 0
    {
      assert pages[..i + 1][..i] == pages[..i];
      CountAppend(Concat(pages[..i]), pages[i].items, t);
      var here := CountMatches(pages[i].items, t);
      if here > 0 && proof.None? {
        proof := Some(i);
      }
      count := count + here;
    }
    assert pages[..|pages|] == pages;
  }

  /**
   collectResolutionSearch and its siblings: the whole listing, in which every target stands exactly once, and
   for each target the page that shows it. One target is asked for everywhere but in lineage, which asks for three.
   */
  method CollectUnique(source: PageSource, targets: seq<Target>, ghost list: seq<Item>)
    returns (r: Result<seq<nat>, Code>, ghost items: seq<Item>)
    requires source.pages == [] && source.total.None? && source.matching.None?
    modifies source
    ensures r.Ok? <==> exists n :: Complete(source.tool, source.urn, source.server, n)
                                && forall t :: t in targets ==> CountMatches(Listing(source.server, n), t) == 1
    ensures forall n, i | Complete(source.tool, source.urn, source.server, n)
                       && FirstMiss(Listing(source.server, n), targets, i) ::
              r == Err(if CountMatches(Listing(source.server, n), targets[i]) == 0 then NOT_FOUND else AMBIGUOUS)
    ensures forall k: nat | Leads(source.tool, source.urn, source.server, k) && k < MAX_PAGES ::
              RefusalAt(source.tool, source.urn, source.server, k).Some? ==>
                r == Err(RefusalAt(source.tool, source.urn, source.server, k).value)
    ensures r.Ok? ==> && Collected(source, items) && |r.value| == |targets|
                      && forall i :: 0 <= i < |targets| ==>
                           r.value[i] < |source.pages|
                           && CountMatches(source.pages[r.value[i]].items, targets[i]) == 1
    ensures HonestServer(source, list) && |list| <= MAX_ITEMS ==>
              && (r.Ok? <==> forall t :: t in targets ==> CountMatches(list, t) == 1)
              && (r.Ok? ==> items == list)
  {
    hide Complete, Listing, HonestServer, DeclaredTotal, ShowsAnswers, CountMatches, Leads, RefusalAt;
    items := [];
    var collected := CollectBoundedPages(source, list);
    if collected.Err? {
      return Err(collected.error), items;
    }
    items := collected.value;
    ghost var n := |source.pages|;
    CompleteIsNotRefused(source.tool, source.urn, source.server, n);
    forall m | Complete(source.tool, source.urn, source.server, m) ensures m == n {
      CompleteOnce(source.tool, source.urn, source.server, m, n);
    }
    var proofs: seq<nat> := [];
    for i := 0 to |targets|
      invariant |proofs| == i && Collected(source, items) && n == |source.pages|
      invariant forall j :: 0 <= j < i ==>
          CountMatches(items, targets[j]) == 1 && proofs[j] < |source.pages|
          && CountMatches(source.pages[proofs[j]].items, targets[j]) == 1
    {
      var count, proof := FindMatches(source.pages, targets[i]);
      var unique := RequireUnique(count);
      if unique.Err? {
        assert FirstMiss(items, targets, i);
        assert targets[i] in targets;
        return Err(unique.error), items;
      }
      OnProofPage(source.pages, proof.value, targets[i]);
      proofs := proofs + [proof.value];
    }
    return Ok(proofs), items;
  }

  /** The first target that does not stand exactly once in a listing. */
  ghost predicate FirstMiss(items: seq<Item>, targets: seq<Target>, i: int) {
    0 <= i < |targets| && CountMatches(items, targets[i]) != 1
    && forall j :: 0 <= j < i ==> CountMatches(items, targets[j]) == 1
  }

  lemma {:induction false} OnProofPage(pages: seq<Page>, k: nat, t: Target)
    requires k < |pages| && CountMatches(pages[k].items, t) > 0
    ensures CountMatches(pages[k].items, t) <= CountMatches(Concat(pages), t)
    decreases |pages|
  {
    var n := |pages| - 1;
    CountAppend(Concat(pages[..n]), pages[n].items, t);
    if k < n {
      OnProofPage(pages[..n], k, t);
    }
  }

  // -------------------------------------------------------- a listing past its total

  /** Three fields declared, five returned, nothing remaining, and the wanted field once among them. */
  const OVERRUN := Fields("urn", 0, 5, 0, 3, Some(1),
                          [Item("customer_id", {}), Item("order_id", {}), Item("amount", {}), Item("status", {}),
                           Item("created_at", {})])

  lemma OnePage(tool: Tool, urn: string, server: Server, p: RawPage)
    requires server(0, 0, PAGE_SIZE) == Ok(p) && Acceptable(tool, urn, p, 0, None, None)
    requires NextOf(p).None? && |ItemsOf(p)| <= PAGE_SIZE
    ensures Complete(tool, urn, server, 1)
    ensures Listing(server, 1) == ItemsOf(p) && DeclaredTotal(server) == TotalOf(p)
  {
    hide Acceptable, NextOf, ItemsOf, TotalOf;
    assert AnswerAt(server, 0) == Ok(p);
    assert Listing(server, 1) == Listing(server, 0) + ItemsOf(p) == ItemsOf(p);
  }

  lemma OverrunAccepted()
    ensures Acceptable(FieldTool, "urn", OVERRUN, 0, None, None) && NextOf(OVERRUN).None?
    ensures ItemsOf(OVERRUN) == OVERRUN.items && |OVERRUN.items| == 5 && TotalOf(OVERRUN) == 3
  {
  }

  lemma OverrunHasTarget(t: Target)
    requires t == Target("customer_id", None)
    ensures CountMatches(OVERRUN.items, t) == 1
  {
    assert forall i :: 1 <= i < 5 ==> |OVERRUN.items[i].key| < |t.key|;
    CountOne(OVERRUN.items, t);
  }

  lemma {:induction false} CountOne(xs: seq<Item>, t: Target)
    requires |xs| > 0 && Matches(xs[0], t) && forall i :: 1 <= i < |xs| ==> !Matches(xs[i], t)
    ensures CountMatches(xs, t) == 1
    decreases |xs|
  {
    if |xs| > 1 {
      CountOne(xs[..|xs| - 1], t);
    }
  }

  /** collectSchemaFields succeeds on it: the wanted field is unique in a listing of five for a total of three. */
  method CollectOverrun() returns (r: Result<seq<nat>, Code>, ghost items: seq<Item>, total: Option<nat>)
    ensures r == Ok([0]) && |items| == 5 && total == Some(3)
  {
    var source := new PageSource(FieldTool, "urn", (k: nat, offset: nat, size: nat) => Ok(OVERRUN));
    hide Complete, Listing, DeclaredTotal, CountMatches, ShowsAnswers, Concat, Acceptable, NextOf, ItemsOf, TotalOf;
    var target := Target("customer_id", None);
    OverrunAccepted();
    OnePage(FieldTool, "urn", source.server, OVERRUN);
    OverrunHasTarget(target);
    r, items := CollectUnique(source, [target], []);
    CompleteOnce(FieldTool, "urn", source.server, |source.pages|, 1);
    total := source.total;
    assert r.value == [0];
  }
}
