/** Backward paging over the context records of a session, and the branch those records are taken from. */
module HistoryPaging {
  import opened Prelude
  import opened Selections

  const MIB: nat := 1024 * 1024
  /** `SESSION_HISTORY_MAX_CHUNK_BYTES`: the server frame ceiling less its headroom. */
  const MAX_CHUNK_BYTES: nat := 65 * MIB - 256 * 1024
  const MAX_CHUNK_MESSAGES: nat := 256
  /** `SESSION_PI_SNAPSHOT_JSONL_MAX_BYTES`, the most the line scan accepts for a line. */
  const MAX_LINE_BYTES: nat := 64 * MIB

  datatype Record = Record(id: string, parentId: Option<string>, messageCount: nat, byteLength: nat, startsTurn: bool,
                           compaction: bool, firstKept: Option<string>)

  datatype PageError = InvalidCursor | OversizedEntry

  datatype Page = Page(start: nat, end: nat, sourceBytes: nat)

  function Bytes(records: seq<Record>, start: nat, end: nat): nat
    requires start <= end <= |records|
    decreases end - start
  {
    if start == end then 0 else records[start].byteLength + Bytes(records, start + 1, end)
  }

  function Messages(records: seq<Record>, start: nat, end: nat): nat
    requires start <= end <= |records|
    decreases end - start
  {
    if start == end then 0 else records[start].messageCount + Messages(records, start + 1, end)
  }

  /** One more record in front would not fit. */
  predicate Overflows(records: seq<Record>, start: nat, end: nat, budget: nat)
    requires start <= end <= |records|
  {
    start > 0 && Bytes(records, start - 1, end) > budget
  }

  /** Enough messages, nothing left, or no room. */
  predicate Full(records: seq<Record>, start: nat, end: nat, limit: nat, budget: nat)
    requires start <= end <= |records|
  {
    start == 0 || Messages(records, start, end) >= limit || Overflows(records, start, end, budget)
  }

  /** A place where a page may begin: the beginning, a turn, or where there is no room for more. */
  predicate Boundary(records: seq<Record>, start: nat, end: nat, budget: nat)
    requires start < end <= |records|
  {
    start == 0 || records[start].startsTurn || Overflows(records, start, end, budget)
  }

  /** The page that ends at `end`: go back until it is full, then on to the nearest boundary. */
  ghost predicate IsPage(records: seq<Record>, p: Page, limit: nat, budget: nat) {
    && p.start < p.end <= |records|
    && p.sourceBytes == Bytes(records, p.start, p.end) <= budget
    && exists full: nat :: p.start <= full < p.end
         && Full(records, full, p.end, limit, budget)
         && (forall k :: full < k < p.end ==> !Full(records, k, p.end, limit, budget))
         && Boundary(records, p.start, p.end, budget)
         && (forall k :: p.start < k <= full ==> !Boundary(records, k, p.end, budget))
  }

  /** The page is determined by what it must satisfy. */
  lemma PageIsUnique(records: seq<Record>, p: Page, q: Page, limit: nat, budget: nat)
    requires IsPage(records, p, limit, budget) && IsPage(records, q, limit, budget) && p.end == q.end
    ensures p == q
  {
  }

  /** `pageRange`, and with other limits the initial window: both are two loops that move `start` back. */
  method Window(records: seq<Record>, end: nat, limit: nat, budget: nat) returns (page: Result<Page, PageError>)
    requires 0 < end <= |records| && 0 < limit
    requires forall k :: 0 <= k < end ==> 0 < records[k].byteLength
    ensures page.Err? <==> records[end - 1].byteLength > budget
    ensures page.Err? ==> page.error == OversizedEntry
    ensures page.Ok? ==> page.value.end == end && IsPage(records, page.value, limit, budget)
  {
    var start, remaining, sourceBytes := end, limit as int, 0;
    while start > 0 && remaining > 0
      invariant start <= end && remaining == limit - Messages(records, start, end)
      invariant sourceBytes == Bytes(records, start, end) <= budget
      invariant forall k :: start < k < end ==> !Full(records, k, end, limit, budget)
      invariant sourceBytes == 0 <==> start == end
      invariant start < end ==> records[end - 1].byteLength <= budget
    {
      var record := records[start - 1];
      assert Bytes(records, start - 1, end) == sourceBytes + record.byteLength;
      if sourceBytes + record.byteLength > budget {
        if sourceBytes == 0 { return Err(OversizedEntry); }
        break;
      }
      start := start - 1;
      remaining := remaining - record.messageCount;
      sourceBytes := sourceBytes + record.byteLength;
    }
    ghost var full := start;
    assert full < end && Full(records, full, end, limit, budget);
    while start > 0 && !records[start].startsTurn
      invariant start <= full && sourceBytes == Bytes(records, start, end) <= budget
      invariant forall k :: start < k <= full ==> !Boundary(records, k, end, budget)
    {
      var record := records[start - 1];
      assert Bytes(records, start - 1, end) == sourceBytes + record.byteLength;
      if sourceBytes + record.byteLength > budget { break; }
      start := start - 1;
      sourceBytes := sourceBytes + record.byteLength;
    }
    page := Ok(Page(start, end, sourceBytes));
  }

  /** What the scan guarantees about records: no line is empty or longer than the line limit. */
  predicate Scanned(records: seq<Record>) {
    forall k :: 0 <= k < |records| ==> 0 < records[k].byteLength <= MAX_LINE_BYTES
  }

  /** A cursor names where the previous page started; `None` is the null cursor. */
  method ReadPage(records: seq<Record>, cursor: Option<nat>, limit: int)
    returns (page: Result<Page, PageError>, next: Option<nat>)
    requires Scanned(records)
    ensures page.Err? <==> cursor.None? || !(0 < cursor.value <= |records|) || !(0 < limit <= MAX_CHUNK_MESSAGES)
    ensures page.Err? ==> page.error == InvalidCursor
    ensures page.Ok? ==> page.value.end == cursor.value && IsPage(records, page.value, limit, MAX_CHUNK_BYTES)
    ensures page.Ok? ==> next == if page.value.start == 0 then None else Some(page.value.start)
  {
    next := None;
    if limit <= 0 || limit > MAX_CHUNK_MESSAGES { return Err(InvalidCursor), None; }
    if cursor.None? || cursor.value <= 0 || cursor.value > |records| { return Err(InvalidCursor), None; }
    page := Window(records, cursor.value, limit, MAX_CHUNK_BYTES);
    if page.Ok? && page.value.start > 0 { next := Some(page.value.start); }
  }

  // ---------------------------------------------------------------- whole sequences of pages

  /** Pages read one after the other, each with a limit of its own, from cursor `cursor` on. */
  ghost predicate IsPaging(records: seq<Record>, cursor: nat, limits: seq<nat>, pages: seq<Page>) {
    && |pages| == |limits|
    && (|pages| > 0 ==> pages[0].end == cursor)
    && (forall i :: 0 < i < |pages| ==> pages[i].end == pages[i - 1].start)
    && (forall i :: 0 <= i < |pages| ==> IsPage(records, pages[i], limits[i], MAX_CHUNK_BYTES))
  }

  /** The records of the pages, put back in order: the page read last comes first. */
  function Reassembled(records: seq<Record>, pages: seq<Page>): seq<Record>
    requires forall i :: 0 <= i < |pages| ==> pages[i].start <= pages[i].end <= |records|
  {
    if pages == [] then [] else Reassembled(records, pages[1..]) + records[pages[0].start..pages[0].end]
  }

  lemma FirstPage(records: seq<Record>, cursor: nat, limits: seq<nat>, pages: seq<Page>)
    requires IsPaging(records, cursor, limits, pages) && |pages| > 0
    ensures pages[0].start < pages[0].end == cursor && |limits| == |pages|
  {
    assert IsPage(records, pages[0], limits[0], MAX_CHUNK_BYTES);
  }

  lemma RestIsPaging(records: seq<Record>, cursor: nat, limits: seq<nat>, pages: seq<Page>)
    requires IsPaging(records, cursor, limits, pages) && |pages| > 0
    ensures IsPaging(records, pages[0].start, limits[1..], pages[1..])
  {
    hide IsPage;
    forall i | 0 <= i < |pages| - 1 ensures IsPage(records, pages[1..][i], limits[1..][i], MAX_CHUNK_BYTES) {
      assert pages[1..][i] == pages[i + 1] && limits[1..][i] == limits[i + 1];
    }
  }

  /** Paging is a partition: whatever the limits, the pages read so far concatenate to exactly the records
      between where paging has come to and the cursor; nothing is skipped, repeated or reordered. */
  lemma {:induction false} PagingIsPartition(records: seq<Record>, cursor: nat, limits: seq<nat>, pages: seq<Page>)
    requires cursor <= |records| && IsPaging(records, cursor, limits, pages)
    ensures forall i :: 0 <= i < |pages| ==> pages[i].start < pages[i].end <= |records|
    ensures var start := if pages == [] then cursor else pages[|pages| - 1].start;
      start <= cursor && Reassembled(records, pages) == records[start..cursor]
    decreases |pages|
  {
    hide IsPaging, IsPage;
    if |pages| > 0 {
      FirstPage(records, cursor, limits, pages);
      RestIsPaging(records, cursor, limits, pages);
      PagingIsPartition(records, pages[0].start, limits[1..], pages[1..]);
      var start := if |pages| == 1 then pages[0].start else pages[1..][|pages| - 2].start;
      assert start == pages[|pages| - 1].start;
      forall i | 0 <= i < |pages| ensures pages[i].start < pages[i].end <= |records| {
        if i > 0 { assert pages[1..][i - 1] == pages[i]; }
      }
      assert records[start..pages[0].start] + records[pages[0].start..cursor] == records[start..cursor];
    }
  }

  /** Read to the end, the initial window and all pages together are the whole list of records. */
  lemma PagesAndInitialWindowAreEverything(records: seq<Record>, initialStart: nat, limits: seq<nat>, pages: seq<Page>)
    requires initialStart <= |records| && IsPaging(records, initialStart, limits, pages)
    requires if pages == [] then initialStart == 0 else pages[|pages| - 1].start == 0
    ensures forall i :: 0 <= i < |pages| ==> pages[i].start <= pages[i].end <= |records|
    ensures Reassembled(records, pages) + records[initialStart..] == records
  {
    hide IsPage;
    PagingIsPartition(records, initialStart, limits, pages);
  }

  lemma OneMorePage(records: seq<Record>, cursor: nat, limit: nat, pages: seq<Page>, page: Page)
    requires IsPaging(records, cursor, seq(|pages|, _ => limit), pages) && IsPage(records, page, limit, MAX_CHUNK_BYTES)
    requires page.end == if pages == [] then cursor else pages[|pages| - 1].start
    ensures IsPaging(records, cursor, seq(|pages| + 1, _ => limit), pages + [page])
  {
    hide IsPage;
  }

  /** Paging never gets stuck: as long as the cursor is not null and the limits are valid, there is a page. */
  method ReadAll(records: seq<Record>, cursor: nat, limit: nat) returns (pages: seq<Page>)
    requires Scanned(records) && cursor <= |records| && 0 < limit <= MAX_CHUNK_MESSAGES
    ensures IsPaging(records, cursor, seq(|pages|, _ => limit), pages)
    ensures if pages == [] then cursor == 0 else pages[|pages| - 1].start == 0
    ensures |pages| <= cursor
  {
    pages := [];
    var at := cursor;
    while at > 0
      invariant at <= cursor && |pages| <= cursor - at
      invariant at == (if pages == [] then cursor else pages[|pages| - 1].start)
      invariant IsPaging(records, cursor, seq(|pages|, _ => limit), pages)
    {
      var page, next := ReadPage(records, Some(at), limit);
      OneMorePage(records, cursor, limit, pages, page.value);
      pages := pages + [page.value];
      at := page.value.start;
    }
  }

  // ---------------------------------------------------------------- the active branch

  /** `byId` as the scan built it. */
  predicate Indexed(byId: map<string, Record>) { forall id :: id in byId ==> byId[id].id == id }

  function Parent(byId: map<string, Record>, r: Record): Option<Record> {
    if r.parentId.None? || r.parentId.value !in byId then None else Some(byId[r.parentId.value])
  }

  /** The record `n` generations up, if there is one. */
  function Ancestor(byId: map<string, Record>, leaf: Record, n: nat): Option<Record> {
    if n == 0 then Some(leaf)
    else
      match Ancestor(byId, leaf, n - 1)
      case None => None
      case Some(r) => Parent(byId, r)
  }

  lemma AncestorNext(byId: map<string, Record>, leaf: Record, n: nat)
    ensures Ancestor(byId, leaf, 0) == Some(leaf)
    ensures Ancestor(byId, leaf, n).Some? ==> Ancestor(byId, leaf, n + 1) == Parent(byId, Ancestor(byId, leaf, n).value)
  {
  }

  /** If two generations are the same record, then so are all later ones the same distance apart. */
  lemma {:induction false} Repeats(byId: map<string, Record>, leaf: Record, a: nat, b: nat, n: nat)
    requires a < b && Ancestor(byId, leaf, a) == Ancestor(byId, leaf, b)
    ensures Ancestor(byId, leaf, a + n) == Ancestor(byId, leaf, b + n)
  {
    if n > 0 {
      Repeats(byId, leaf, a, b, n - 1);
      var x, y := a + n - 1, b + n - 1;
      assert Ancestor(byId, leaf, x + 1) == Ancestor(byId, leaf, y + 1);
    }
  }

  /** A line of ancestors that meets itself never ends. */
  lemma {:induction false} CircleNeverEnds(byId: map<string, Record>, leaf: Record, a: nat, b: nat, n: nat)
    requires a < b && Ancestor(byId, leaf, a) == Ancestor(byId, leaf, b)
    requires forall k :: 0 <= k <= b ==> Ancestor(byId, leaf, k).Some?
    ensures Ancestor(byId, leaf, n).Some?
  {
    if n > b {
      Repeats(byId, leaf, a, b, n - b);
      CircleNeverEnds(byId, leaf, a, b, a + (n - b));
    }
  }

  /** `r` is the record that `byId` has under its id. */
  predicate Own(byId: map<string, Record>, r: Record) { r.id in byId && byId[r.id] == r }

  lemma OwnId(byId: map<string, Record>, r: Record)
    ensures Own(byId, r) <==> r.id in byId && byId[r.id] == r
  {
  }

  lemma ParentIndexed(byId: map<string, Record>, r: Record)
    requires Indexed(byId)
    ensures Parent(byId, r).Some? ==> Own(byId, Parent(byId, r).value)
  {
  }

  lemma FewerLeft(all: set<string>, seen: set<string>, id: string)
    requires id in all && id !in seen
    ensures |all - (seen + {id})| < |all - seen|
  {
    CardinalityWithout(all - seen, id);
    assert all - (seen + {id}) == all - seen - {id};
  }

  /** The way walked up so far: each generation in turn, the identifiers seen on it, and where it goes on. */
  ghost predicate Trail(byId: map<string, Record>, leaf: Record, walked: seq<Record>, seen: set<string>,
      current: Option<Record>) {
    && current == Ancestor(byId, leaf, |walked|)
    && (current.Some? ==> Own(byId, current.value))
    && (|walked| == 0 ==> current.Some?)
    && (forall k :: 0 <= k < |walked| ==> Ancestor(byId, leaf, k) == Some(walked[k]) && Own(byId, walked[k]))
    && AllSeen(walked, seen)
    && seen <= byId.Keys
  }

  predicate AllSeen(walked: seq<Record>, seen: set<string>) {
    forall id :: id in seen ==> exists k :: 0 <= k < |walked| && walked[k].id == id
  }

  lemma SeenGrows(walked: seq<Record>, seen: set<string>, record: Record)
    requires AllSeen(walked, seen)
    ensures AllSeen(walked + [record], seen + {record.id})
  {
    var longer := walked + [record];
    forall id | id in seen + {record.id} ensures exists k :: 0 <= k < |longer| && longer[k].id == id {
      if id in seen {
        var k :| 0 <= k < |walked| && walked[k].id == id;
        assert longer[k].id == id;
      } else {
        assert longer[|walked|].id == id;
      }
    }
  }

  lemma TrailStarts(byId: map<string, Record>, leaf: Record)
    requires leaf.id in byId && byId[leaf.id] == leaf
    ensures Trail(byId, leaf, [], {}, Some(leaf))
  {
    hide Ancestor, Own;
    AncestorNext(byId, leaf, 0);
    OwnId(byId, leaf);
  }

  lemma TrailGrows(byId: map<string, Record>, leaf: Record, walked: seq<Record>, seen: set<string>, record: Record)
    requires Indexed(byId) && Trail(byId, leaf, walked, seen, Some(record)) && record.id !in seen
    ensures Trail(byId, leaf, walked + [record], seen + {record.id}, Parent(byId, record))
    ensures |byId.Keys - (seen + {record.id})| < |byId.Keys - seen|
  {
    hide Ancestor, Own, Indexed, Parent, AllSeen;
    OwnId(byId, record);
    FewerLeft(byId.Keys, seen, record.id);
    ParentIndexed(byId, record);
    AncestorNext(byId, leaf, |walked|);
    SeenGrows(walked, seen, record);
    assert |walked + [record]| == |walked| + 1;
  }

  lemma TrailCloses(byId: map<string, Record>, leaf: Record, walked: seq<Record>, seen: set<string>, record: Record)
    requires Trail(byId, leaf, walked, seen, Some(record)) && record.id in seen
    ensures forall n: nat :: Ancestor(byId, leaf, n).Some?
  {
    hide Ancestor, Own;
    var k :| 0 <= k < |walked| && walked[k].id == record.id;
    OwnId(byId, record);
    OwnId(byId, walked[k]);
    Circle(byId, leaf, k, |walked|);
  }

  lemma TrailEnds(byId: map<string, Record>, leaf: Record, walked: seq<Record>, seen: set<string>)
    requires Trail(byId, leaf, walked, seen, None)
    ensures 0 < |walked| && Ancestor(byId, leaf, |walked|).None?
    ensures forall k :: 0 <= k < |walked| ==> Ancestor(byId, leaf, k) == Some(walked[k])
  {
  }

  lemma Circle(byId: map<string, Record>, leaf: Record, a: nat, b: nat)
    requires a < b && Ancestor(byId, leaf, a) == Ancestor(byId, leaf, b)
    requires forall k :: 0 <= k <= b ==> Ancestor(byId, leaf, k).Some?
    ensures forall n: nat :: Ancestor(byId, leaf, n).Some?
  {
    hide Ancestor;
    forall n: nat ensures Ancestor(byId, leaf, n).Some? { CircleNeverEnds(byId, leaf, a, b, n); }
  }

  predicate IsParent(byId: map<string, Record>, r: Record, parent: Record) {
    r.parentId == Some(parent.id) && parent.id in byId && byId[parent.id] == parent
  }

  /** Each record is the parent of the next; the first has none among the records, and the last is the leaf. */
  ghost predicate IsChain(byId: map<string, Record>, leaf: Record, path: seq<Record>) {
    && path != [] && path[|path| - 1] == leaf
    && (path[0].parentId.None? || path[0].parentId.value !in byId)
    && (forall k :: 0 < k < |path| ==> IsParent(byId, path[k], path[k - 1]))
  }

  lemma TrailIsChain(byId: map<string, Record>, leaf: Record, path: seq<Record>)
    requires Indexed(byId) && leaf.id in byId && byId[leaf.id] == leaf
    requires 0 < |path| && Ancestor(byId, leaf, |path|).None?
    requires forall n :: 0 <= n < |path| ==> Ancestor(byId, leaf, n) == Some(path[|path| - 1 - n])
    ensures IsChain(byId, leaf, path)
  {
    hide Ancestor, Parent, Indexed;
    AncestorNext(byId, leaf, 0);
    AncestorNext(byId, leaf, |path| - 1);
    Linked(byId, path[0], None);
    forall k | 0 < k < |path| ensures IsParent(byId, path[k], path[k - 1]) { LinkAt(byId, leaf, path, k); }
  }

  lemma LinkAt(byId: map<string, Record>, leaf: Record, path: seq<Record>, k: nat)
    requires Indexed(byId) && 0 < k < |path|
    requires forall n :: 0 <= n < |path| ==> Ancestor(byId, leaf, n) == Some(path[|path| - 1 - n])
    ensures IsParent(byId, path[k], path[k - 1])
  {
    hide Ancestor, Parent, Indexed;
    assert Ancestor(byId, leaf, |path| - 1 - k) == Some(path[|path| - 1 - (|path| - 1 - k)]);
    assert Ancestor(byId, leaf, |path| - k) == Some(path[|path| - 1 - (|path| - k)]);
    AncestorNext(byId, leaf, |path| - 1 - k);
    Linked(byId, path[k], Some(path[k - 1]));
  }

  lemma Linked(byId: map<string, Record>, r: Record, parent: Option<Record>)
    requires Indexed(byId) && Parent(byId, r) == parent
    ensures parent.None? ==> r.parentId.None? || r.parentId.value !in byId
    ensures parent.Some? ==> IsParent(byId, r, parent.value)
  {
  }

  /** The walk from the last record up to its root, root first. It fails exactly when the parents run in a
      circle. */
  method ActivePath(leaf: Record, byId: map<string, Record>) returns (path: Option<seq<Record>>)
    requires Indexed(byId) && leaf.id in byId && byId[leaf.id] == leaf
    ensures path.Some? ==> IsChain(byId, leaf, path.value)
    ensures path.Some? ==> 0 < |path.value| && Ancestor(byId, leaf, |path.value|).None?
    ensures path.Some? ==>
      forall k :: 0 <= k < |path.value| ==> Ancestor(byId, leaf, k) == Some(path.value[|path.value| - 1 - k])
    ensures path.None? ==> forall n: nat :: Ancestor(byId, leaf, n).Some?
  {
    hide *;
    var walked: seq<Record> := [];
    var seen: set<string> := {};
    var current := Some(leaf);
    TrailStarts(byId, leaf);
    while current.Some?
      invariant Trail(byId, leaf, walked, seen, current)
      decreases |byId.Keys - seen|, current.Some?
    {
      var record := current.value;
      if record.id in seen {
        TrailCloses(byId, leaf, walked, seen, record);
        return None;
      }
      TrailGrows(byId, leaf, walked, seen, record);
      seen := seen + {record.id};
      walked := walked + [record];
      current := Parent(byId, record);
    }
    TrailEnds(byId, leaf, walked, seen);
    var reversed := Reverse(walked);
    TrailIsChain(byId, leaf, reversed);
    path := Some(reversed);
  }

  method Reverse(walked: seq<Record>) returns (reversed: seq<Record>)
    ensures |reversed| == |walked| && forall k :: 0 <= k < |walked| ==> reversed[|walked| - 1 - k] == walked[k]
  {
    reversed := [];
    var i := 0;
    while i < |walked|
      invariant 0 <= i == |reversed| <= |walked|
      invariant forall k :: 0 <= k < i ==> reversed[k] == walked[i - 1 - k]
    {
      reversed := [walked[i]] + reversed;
      i := i + 1;
    }
  }

  predicate CarriesMessages(r: Record) { r.messageCount > 0 }

  function WithMessages(records: seq<Record>): (r: seq<Record>) {
    if records == [] then []
    else (if CarriesMessages(records[0]) then [records[0]] else []) + WithMessages(records[1..])
  }

  lemma {:induction false} WithMessagesPicks(records: seq<Record>)
    ensures Picks(records, CarriesMessages, WithMessages(records))
    decreases |records|
  {
    hide Picks;
    if records == [] {
      PicksNothing(CarriesMessages);
    } else {
      WithMessagesPicks(records[1..]);
      PicksMore(records, CarriesMessages, WithMessages(records[1..]));
    }
  }

  /** `c` is the last compaction of the path. */
  predicate LastCompaction(path: seq<Record>, c: nat) {
    c < |path| && path[c].compaction && forall k :: c < k < |path| ==> !path[k].compaction
  }

  /** `kept` is the first record before `c` with the id the compaction keeps from, or `c` when there is none. */
  predicate FirstKept(path: seq<Record>, c: nat, kept: nat) {
    && kept <= c < |path|
    && (kept < c ==> path[c].firstKept == Some(path[kept].id))
    && forall k :: 0 <= k < kept ==> path[c].firstKept != Some(path[k].id)
  }

  /** What stays in the context: with a compaction, itself, what it kept, and what came after it; of these
      exactly the records that carry messages, in their order. */
  method ContextRecords(path: seq<Record>) returns (context: seq<Record>)
    requires forall k :: 0 <= k < |path| ==> path[k].id != ""
    ensures (forall k :: 0 <= k < |path| ==> !path[k].compaction) ==> Picks(path, CarriesMessages, context)
    ensures forall c: nat, kept: nat :: LastCompaction(path, c) && FirstKept(path, c, kept) ==>
      Picks([path[c]] + path[kept..c] + path[c + 1..], CarriesMessages, context)
  {
    hide WithMessages, Picks;
    var compactionIndex := -1;
    for i := 0 to |path|
      invariant -1 <= compactionIndex < i
      invariant if compactionIndex == -1 then forall k :: 0 <= k < i ==> !path[k].compaction
        else path[compactionIndex].compaction && forall k :: compactionIndex < k < i ==> !path[k].compaction
    {
      if path[i].compaction { compactionIndex := i; }
    }
    if compactionIndex < 0 {
      WithMessagesPicks(path);
      return WithMessages(path);
    }
    var compaction := path[compactionIndex];
    if compaction.firstKept.None? || compaction.firstKept.value == "" {
      assert path[compactionIndex..compactionIndex] == [];
      assert [compaction] + [] + path[compactionIndex + 1..] == [compaction] + path[compactionIndex + 1..];
      WithMessagesPicks([compaction] + path[compactionIndex + 1..]);
      return WithMessages([compaction] + path[compactionIndex + 1..]);
    }
    var firstKeptIndex := 0;
    while firstKeptIndex < compactionIndex && path[firstKeptIndex].id != compaction.firstKept.value
      invariant 0 <= firstKeptIndex <= compactionIndex
      invariant forall k :: 0 <= k < firstKeptIndex ==> path[k].id != compaction.firstKept.value
    {
      firstKeptIndex := firstKeptIndex + 1;
    }
    WithMessagesPicks([compaction] + path[firstKeptIndex..compactionIndex] + path[compactionIndex + 1..]);
    context := WithMessages([compaction] + path[firstKeptIndex..compactionIndex] + path[compactionIndex + 1..]);
  }
}
