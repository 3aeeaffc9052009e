/** The scope scan and its exact counts (scripts/backfill_bm25_v2.py:801-922), and why together they
    pin the collection down to the authority's rows. */
module Scans {
  import opened Prelude
  import opened Sorting
  import opened Strings
  import opened Digests
  import opened Points
  import opened Stores

  datatype ScopeScan = ScopeScan(pointCount: nat, idsDigest: string, textDigest: string,
                                 completePoints: nat, pendingPoints: nat)

  /** The identifiers name stored in-scope points that pass the client check. */
  ghost predicate ReadableAll(cfg: Config, scope: Scope, ids: seq<PointId>, st: Store) {
    forall i :: 0 <= i < |ids| ==> ids[i] in st && Readable(scope, cfg, st[ids[i]])
  }

  ghost predicate Enumerates(scope: Scope, ids: seq<PointId>, st: Store) {
    Distinct(ids) && forall id :: id in ids <==> id in Selected(st, LexicalScope(scope))
  }

  /** What the first n pages of a fixed listing name. */
  function Listed(next: Cursor -> Cursor, shows: Cursor -> seq<PointId>, n: nat): seq<PointId> {
    if n == 0 then [] else Listed(next, shows, n - 1) + shows(Offset(next, n - 1))
  }

  /** A fixed listing that ends with page `last` and names every in-scope point once, no more on a page than asked for
      and something on every page but the last. */
  ghost predicate ListsScope(next: Cursor -> Cursor, shows: Cursor -> seq<PointId>, limit: nat, scope: Scope, st: Store,
                             last: nat)
  {
    && (forall k: nat :: k < last ==> !StopsAt(next, k) && shows(Offset(next, k)) != [])
    && next(Offset(next, last)).None?
    && (forall k: nat :: k <= last ==> |shows(Offset(next, k))| <= limit)
    && Enumerates(scope, Listed(next, shows, last + 1), st)
  }

  ghost predicate Listable(paging: Option<Cursor -> Cursor>, listing: Option<Cursor -> seq<PointId>>, limit: nat,
                           scope: Scope, st: Store)
  {
    paging.Some? && listing.Some? && exists last: nat :: ListsScope(paging.value, listing.value, limit, scope, st, last)
  }

  ghost predicate AllReadable(cfg: Config, scope: Scope, st: Store) {
    forall id :: id in st && InScope(scope, st[id]) ==> Readable(scope, cfg, st[id])
  }

  /** A reader of such a listing stands before page n and has seen what the pages before it name. */
  ghost predicate OnListing(next: Cursor -> Cursor, shows: Cursor -> seq<PointId>, limit: nat, scope: Scope, st: Store,
                            last: nat, n: nat, offset: Cursor, visited: seq<PointId>)
  {
    && ListsScope(next, shows, limit, scope, st, last)
    && n <= last && offset == Offset(next, n) && visited == Listed(next, shows, n)
  }

  lemma {:induction false} ListedPrefix(next: Cursor -> Cursor, shows: Cursor -> seq<PointId>, n: nat, m: nat)
    requires n <= m
    ensures Listed(next, shows, n) <= Listed(next, shows, m)
  {
    if n < m { ListedPrefix(next, shows, n, m - 1); }
  }

  /** The page at hand: it can be shown whole, holds nothing seen before, and the listing goes on unless it is the
      last. */
  lemma PageAtHand(next: Cursor -> Cursor, shows: Cursor -> seq<PointId>, limit: nat, scope: Scope, st: Store,
                   last: nat, n: nat, offset: Cursor, visited: seq<PointId>)
    requires OnListing(next, shows, limit, scope, st, last, n, offset, visited)
    ensures var ids := shows(offset);
            && AllInScope(ids, st, scope) && |ids| <= limit
            && Distinct(visited + ids)
            && forall k :: 0 <= k < |ids| ==> ids[k] !in visited + ids[..k]
    ensures n == last ==> next(offset).None? && Enumerates(scope, visited + shows(offset), st)
    ensures n < last ==> shows(offset) != [] && next(offset).Some? && next(offset) != offset
    ensures n < last ==>
              OnListing(next, shows, limit, scope, st, last, n + 1, next(offset), visited + shows(offset))
  {
    var ids, all := shows(offset), Listed(next, shows, last + 1);
    ListedPrefix(next, shows, n + 1, last + 1);
    assert Listed(next, shows, n + 1) == visited + ids;
    forall k | 0 <= k < |visited + ids| ensures (visited + ids)[k] == all[k] {}
    forall k | 0 <= k < |ids| ensures ids[k] in st && InScope(scope, st[ids[k]]) && ids[k] !in visited + ids[..k] {
      var p := |visited| + k;
      assert ids[k] == all[p] && all[p] in all && all[p] in Selected(st, LexicalScope(scope));
      assert visited + ids[..k] == all[..p];
    }
    if n < last { assert !StopsAt(next, n); }
  }

  // ---- A server that cuts its list of points into pages -------------------------------------------

  function Start(o: Cursor): nat { if o.None? then 0 else o.value }

  function ChunkEnd(total: nat, limit: nat, o: Cursor): nat {
    if Start(o) + limit < total then Start(o) + limit else total
  }

  function ChunkNext(total: nat, limit: nat, o: Cursor): Cursor {
    if Start(o) + limit < total then Some(Start(o) + limit) else None
  }

  function Chunk(ids: seq<PointId>, limit: nat, o: Cursor): seq<PointId> {
    if Start(o) <= |ids| then ids[Start(o)..ChunkEnd(|ids|, limit, o)] else []
  }

  ghost predicate Chunks(next: Cursor -> Cursor, shows: Cursor -> seq<PointId>, ids: seq<PointId>, limit: nat) {
    forall o: Cursor :: next(o) == ChunkNext(|ids|, limit, o) && shows(o) == Chunk(ids, limit, o)
  }

  /** A page with another after it is full. */
  lemma FullChunk(next: Cursor -> Cursor, shows: Cursor -> seq<PointId>, ids: seq<PointId>, limit: nat, o: Cursor)
    requires limit >= 1 && Chunks(next, shows, ids, limit) && next(o).Some?
    ensures Start(next(o)) == Start(o) + limit < |ids| && next(o) != o
    ensures shows(o) == ids[Start(o)..Start(next(o))] && |shows(o)| == limit
    ensures ids[..Start(next(o))] == ids[..Start(o)] + shows(o)
  {
    assert next(o) == ChunkNext(|ids|, limit, o) && shows(o) == Chunk(ids, limit, o);
  }

  /** The first n pages are full and hold the beginning of the list. */
  lemma {:induction false} ChunksSoFar(next: Cursor -> Cursor, shows: Cursor -> seq<PointId>, ids: seq<PointId>,
                                       limit: nat, n: nat)
    requires limit >= 1 && Chunks(next, shows, ids, limit)
    requires forall k: nat :: k < n ==> next(Offset(next, k)).Some?
    ensures n <= Start(Offset(next, n)) <= |ids|
    ensures Listed(next, shows, n) == ids[..Start(Offset(next, n))]
  {
    if n > 0 {
      ChunksSoFar(next, shows, ids, limit, n - 1);
      FullChunk(next, shows, ids, limit, Offset(next, n - 1));
    }
  }

  /** Any enumeration of a scope, cut into pages of any size, is such a listing. */
  lemma ChunkedListing(next: Cursor -> Cursor, shows: Cursor -> seq<PointId>, scope: Scope, st: Store,
                       ids: seq<PointId>, limit: nat)
    requires limit >= 1 && Enumerates(scope, ids, st) && Chunks(next, shows, ids, limit)
    ensures Listable(Some(next), Some(shows), limit, scope, st)
  {
    var last := 0;
    while next(Offset(next, last)).Some?
      invariant forall k: nat :: k < last ==> next(Offset(next, k)).Some?
      decreases |ids| - last
    {
      ChunksSoFar(next, shows, ids, limit, last);
      FullChunk(next, shows, ids, limit, Offset(next, last));
      last := last + 1;
    }
    LastChunk(next, shows, ids, limit, last);
    assert ListsScope(next, shows, limit, scope, st, last);
  }

  lemma LastChunk(next: Cursor -> Cursor, shows: Cursor -> seq<PointId>, ids: seq<PointId>, limit: nat, last: nat)
    requires limit >= 1 && Chunks(next, shows, ids, limit)
    requires forall k: nat :: k < last ==> next(Offset(next, k)).Some?
    requires next(Offset(next, last)).None?
    ensures Listed(next, shows, last + 1) == ids
    ensures forall k: nat :: k <= last ==> |shows(Offset(next, k))| <= limit
    ensures forall k: nat :: k < last ==> !StopsAt(next, k) && shows(Offset(next, k)) != []
  {
    var o := Offset(next, last);
    ChunksSoFar(next, shows, ids, limit, last);
    assert next(o) == ChunkNext(|ids|, limit, o) && shows(o) == Chunk(ids, limit, o);
    assert ids == ids[..Start(o)] + ids[Start(o)..];
    forall k: nat | k < last
      ensures !StopsAt(next, k) && shows(Offset(next, k)) != [] && |shows(Offset(next, k))| == limit
    {
      FullChunk(next, shows, ids, limit, Offset(next, k));
    }
  }

  function RowAt(id: PointId, p: Point): Row
    requires HasText(p)
  {
    Row(IdText(id), TextOf(p))
  }

  ghost function RowsOf(ids: seq<PointId>, st: Store): (rows: seq<Row>)
    requires forall i :: 0 <= i < |ids| ==> ids[i] in st && HasText(st[ids[i]])
    ensures |rows| == |ids| && forall i :: 0 <= i < |ids| ==> rows[i] == RowAt(ids[i], st[ids[i]])
  {
    seq(|ids|, i requires 0 <= i < |ids| => RowAt(ids[i], st[ids[i]]))
  }

  ghost function CompleteCount(sha: string -> string, cfg: Config, ids: seq<PointId>, st: Store): (n: nat)
    requires forall i :: 0 <= i < |ids| ==> ids[i] in st
    ensures n <= |ids|
  {
    if ids == [] then 0
    else
      var last := ids[|ids| - 1];
      CompleteCount(sha, cfg, ids[..|ids| - 1], st) + if IsComplete(sha, cfg, st[last]) then 1 else 0
  }

  /** What a scan of these points must report. */
  ghost function ScanOf(sha: string -> string, cfg: Config, scope: Scope, ids: seq<PointId>, st: Store): ScopeScan
    requires ReadableAll(cfg, scope, ids, st)
  {
    var rows := RowsOf(ids, st);
    var complete := CompleteCount(sha, cfg, ids, st);
    ScopeScan(|ids|, PointIdsDigest(sha, Ids(rows)), SourceTextDigest(sha, rows), complete, |ids| - complete)
  }

  lemma {:induction false} CompleteCountFull(sha: string -> string, cfg: Config, ids: seq<PointId>, st: Store)
    requires forall i :: 0 <= i < |ids| ==> ids[i] in st
    ensures CompleteCount(sha, cfg, ids, st) == |ids| <==>
              forall i :: 0 <= i < |ids| ==> IsComplete(sha, cfg, st[ids[i]])
  {
    if ids != [] {
      var init := ids[..|ids| - 1];
      CompleteCountFull(sha, cfg, init, st);
      assert forall i :: 0 <= i < |init| ==> init[i] == ids[i];
    }
  }

  // ---- Coverage by counting ---------------------------------------------------------------------

  lemma {:induction false} DistinctSetSize(ids: seq<PointId>, s: set<PointId>)
    requires Distinct(ids)
    requires forall id :: id in s <==> id in ids
    ensures |s| == |ids|
  {
    if ids == [] {
      assert s == {};
    } else {
      var last := ids[|ids| - 1];
      var init := ids[..|ids| - 1];
      assert ids == init + [last];
      assert last !in init;
      DistinctSetSize(init, s - {last});
    }
  }

  lemma SubsetOfEqualSize(s: set<PointId>, t: set<PointId>)
    requires s <= t && |s| == |t|
    ensures s == t
  {
    assert |t - s| == |t| - |s|;
    assert t - s == {};
  }

  /** A scan of true, distinct, in-scope points whose number is the exact count has seen them all,
      however the server paged. */
  lemma CoverageByCounting(cfg: Config, scope: Scope, ids: seq<PointId>, st: Store)
    requires Distinct(ids) && ReadableAll(cfg, scope, ids, st)
    requires |ids| == |Selected(st, LexicalScope(scope))|
    ensures Enumerates(scope, ids, st)
  {
    var seen := set id | id in ids;
    DistinctSetSize(ids, seen);
    assert seen <= Selected(st, LexicalScope(scope));
    SubsetOfEqualSize(seen, Selected(st, LexicalScope(scope)));
    assert forall id :: id in ids <==> id in seen;
  }

  /** Equal counts along the chain of filters: every stored point belongs to the scope's owner. */
  lemma OwnershipByCounting(scope: Scope, st: Store)
    requires |Selected(st, Everything)| == |Selected(st, OfDataset(scope.datasetId))|
    requires |Selected(st, OfDataset(scope.datasetId))| == |Selected(st, OfScope(scope))|
    ensures forall id :: id in st ==> Matches(OfScope(scope), st[id])
  {
    var all, dataset, owned :=
      Selected(st, Everything), Selected(st, OfDataset(scope.datasetId)), Selected(st, OfScope(scope));
    SubsetOfEqualSize(dataset, all);
    SubsetOfEqualSize(owned, dataset);
    forall id | id in st ensures Matches(OfScope(scope), st[id]) {
      assert id in all;
    }
  }

  /** The in-scope points are the rows: every point is a row, every row is a point, and no two
      points share a printed identifier. */
  ghost predicate ScopeEquals(scope: Scope, st: Store, rows: seq<Row>) {
    && (forall id :: id in st && InScope(scope, st[id]) ==> HasText(st[id]) && RowAt(id, st[id]) in rows)
    && (forall r :: r in rows ==>
         exists id :: id in st && InScope(scope, st[id]) && HasText(st[id]) && RowAt(id, st[id]) == r)
    && (forall a, b :: a in st && b in st && InScope(scope, st[a]) && InScope(scope, st[b]) && IdText(a) == IdText(b)
          ==> a == b)
  }

  ghost predicate CleanPoints(ids: seq<PointId>) {
    forall id :: id in ids ==> Clean(IdText(id))
  }

  /** Equal source digests over a full enumeration make the collection's scope the authority's rows. */
  lemma DigestsPinScope(sha: string -> string, cfg: Config, scope: Scope, ids: seq<PointId>, st: Store, rows: seq<Row>)
    requires IdealHash(sha)
    requires Enumerates(scope, ids, st) && ReadableAll(cfg, scope, ids, st)
    requires CleanPoints(ids) && CleanRows(rows) && DistinctIds(rows)
    requires SourceTextDigest(sha, RowsOf(ids, st)) == SourceTextDigest(sha, rows)
    ensures ScopeEquals(scope, st, rows)
  {
    var mine := RowsOf(ids, st);
    SourceTextDigestInjective(sha, mine, rows);
    SameElements(mine, rows);
    forall id | id in st && InScope(scope, st[id]) ensures HasText(st[id]) && RowAt(id, st[id]) in rows {
      assert id in Selected(st, LexicalScope(scope));
      var i :| 0 <= i < |ids| && ids[i] == id;
      assert mine[i] in mine;
    }
    forall r | r in rows
      ensures exists id :: id in st && InScope(scope, st[id]) && HasText(st[id]) && RowAt(id, st[id]) == r
    {
      var i :| 0 <= i < |mine| && mine[i] == r;
      assert ids[i] in st;
    }
    forall a, b | a in st && b in st && InScope(scope, st[a]) && InScope(scope, st[b]) && IdText(a) == IdText(b)
      ensures a == b
    {
      assert a in Selected(st, LexicalScope(scope)) && b in Selected(st, LexicalScope(scope));
      var i :| 0 <= i < |ids| && ids[i] == a;
      var j :| 0 <= j < |ids| && ids[j] == b;
      NoRepeatedId(mine, rows, i, j);
    }
  }

  /** Rows with the multiset of distinct-identifier rows have distinct identifiers themselves. */
  lemma NoRepeatedId(mine: seq<Row>, rows: seq<Row>, i: nat, j: nat)
    requires DistinctIds(rows) && multiset(mine) == multiset(rows)
    requires i < |mine| && j < |mine| && mine[i].id == mine[j].id
    ensures i == j
  {
    SameElements(mine, rows);
    if i != j {
      assert mine[i] in rows && mine[j] in rows;
      var p :| 0 <= p < |rows| && rows[p] == mine[i];
      var q :| 0 <= q < |rows| && rows[q] == mine[j];
      assert p == q;
      if i < j { OccursTwice(mine, i, j); } else { OccursTwice(mine, j, i); }
      OccursOnce(rows, p);
    }
  }

  // ---- The loop ---------------------------------------------------------------------------------

  /** What the scan has accumulated: the visited identifiers are those seen, and as long as nobody else wrote the
      entries are their rows. */
  ghost predicate Progress(silent: bool, sha: string -> string, cfg: Config, scope: Scope, st: Store,
                           visited: seq<PointId>, seen: set<PointId>, entries: seq<Row>, complete: nat)
  {
    && |entries| == |visited|
    && complete <= |entries|
    && Distinct(visited)
    && (forall id :: id in visited <==> id in seen)
    && (silent ==>
          && ReadableAll(cfg, scope, visited, st)
          && entries == RowsOf(visited, st)
          && complete == CompleteCount(sha, cfg, visited, st))
  }

  lemma ProgressStep(silent: bool, sha: string -> string, cfg: Config, scope: Scope, st: Store, visited: seq<PointId>,
                     seen: set<PointId>, entries: seq<Row>, complete: nat, record: Record)
    requires Progress(silent, sha, cfg, scope, st, visited, seen, entries, complete)
    requires record.id !in seen && Readable(scope, cfg, record.point)
    requires silent ==> record.id in st && st[record.id] == record.point
    ensures Progress(silent, sha, cfg, scope, st, visited + [record.id], seen + {record.id},
                     entries + [RowAt(record.id, record.point)],
                     complete + if IsComplete(sha, cfg, record.point) then 1 else 0)
  {
    var longer := visited + [record.id];
    assert longer[..|longer| - 1] == visited;
    if silent { assert entries + [RowAt(record.id, record.point)] == RowsOf(longer, st); }
  }

  /** The records of one page, taken in one by one. A page is refused only for an identifier seen before or a point the
      client check refuses. */
  method ScanPage(sha: string -> string, scope: Scope, cfg: Config, records: seq<Record>, seenBefore: set<PointId>,
                  entriesBefore: seq<Row>, completeBefore: nat, ghost silent: bool, ghost st: Store,
                  ghost before: seq<PointId>)
    returns (ok: bool, seen: set<PointId>, entries: seq<Row>, complete: nat, ghost visited: seq<PointId>)
    requires Progress(silent, sha, cfg, scope, st, before, seenBefore, entriesBefore, completeBefore)
    requires silent ==> Truthful(records, st, scope)
    ensures Progress(silent, sha, cfg, scope, st, visited, seen, entries, complete)
    ensures ok ==> visited == before + IdsShown(records)
    ensures Distinct(before + IdsShown(records))
              && (forall k :: 0 <= k < |records| ==> Readable(scope, cfg, records[k].point)) ==>
              ok
  {
    seen, entries, complete, visited := seenBefore, entriesBefore, completeBefore, before;
    ghost var ids := IdsShown(records);
    var k := 0;
    while k < |records|
      invariant 0 <= k <= |records| && visited == before + ids[..k]
      invariant Progress(silent, sha, cfg, scope, st, visited, seen, entries, complete)
    {
      var record := records[k];
      assert ids[..k + 1] == ids[..k] + [record.id];
      assert visited == (before + ids)[..|before| + k] && (before + ids)[|before| + k] == record.id;
      if record.id in seen { return false, seen, entries, complete, visited; }
      PointStateExact(sha, scope, cfg, record.point);
      var state := PointState(sha, scope, cfg, record.point);
      if state.Err? { return false, seen, entries, complete, visited; }
      ProgressStep(silent, sha, cfg, scope, st, visited, seen, entries, complete, record);
      seen := seen + {record.id};
      entries := entries + [Row(IdText(record.id), state.value.text)];
      visited := visited + [record.id];
      complete := complete + if state.value.complete then 1 else 0;
      k := k + 1;
    }
    assert ids[..k] == ids;
    ok := true;
  }

  /** The listing of a collection, whatever it is. */
  ghost predicate Follows(q: Collection, limit: nat, scope: Scope, st: Store, last: nat, n: nat, offset: Cursor,
                          visited: seq<PointId>)
  {
    && q.paging.Some? && q.listing.Some?
    && OnListing(q.paging.value, q.listing.value, limit, scope, st, last, n, offset, visited)
  }

  lemma FollowsFromStart(q: Collection, limit: nat, scope: Scope, st: Store) returns (last: nat)
    ensures Listable(q.paging, q.listing, limit, scope, st) ==> Follows(q, limit, scope, st, last, 0, None, [])
  {
    last := 0;
    if Listable(q.paging, q.listing, limit, scope, st) {
      last :| ListsScope(q.paging.value, q.listing.value, limit, scope, st, last);
    }
  }

  lemma SubsetSize(s: set<PointId>, t: set<PointId>)
    requires s <= t
    ensures |s| <= |t|
  {
    assert |t - s| == |t| - |s|;
  }

  /** A page that brings something brings an identifier not seen before. */
  lemma SeenGrows(ids: seq<PointId>, visited: seq<PointId>, seenBefore: set<PointId>, seen: set<PointId>)
    requires Distinct(visited + ids) && ids != []
    requires (forall id :: id in visited <==> id in seenBefore) && forall id :: id in visited + ids <==> id in seen
    ensures |seenBefore| < |seen|
  {
    var all := visited + ids;
    assert all[|visited|] == ids[0] && ids[0] in seen;
    forall k | 0 <= k < |visited| ensures visited[k] != ids[0] { assert all[k] == visited[k]; }
    assert seenBefore + {ids[0]} <= seen;
    SubsetSize(seenBefore + {ids[0]}, seen);
  }

  lemma WithinUniverse(records: seq<Record>, st: Store, scope: Scope, universe: set<PointId>, visited: seq<PointId>,
                       seenBefore: set<PointId>, seen: set<PointId>)
    requires Truthful(records, st, scope) && st.Keys <= universe && seenBefore <= universe
    requires (forall id :: id in visited <==> id in seenBefore)
    requires forall id :: id in visited + IdsShown(records) <==> id in seen
    ensures seen <= universe
  {
    forall id | id in seen ensures id in universe {
      if id !in visited {
        var k :| 0 <= k < |records| && IdsShown(records)[k] == id;
        assert records[k].id in st;
      }
    }
  }

  /** One page of the scan: read, taken in, and followed by another one if the listing goes on. Nothing ended the scan
      of a plain listing before. */
  method NextPage(q: Collection, sha: string -> string, scope: Scope, cfg: Config, batchSize: nat, offset: Cursor,
                  seenBefore: set<PointId>, entriesBefore: seq<Row>, completeBefore: nat, ghost alone: bool,
                  ghost plain: bool, ghost st: Store, ghost before: seq<PointId>, ghost last: nat, ghost n: nat)
    returns (r: Reply<Cursor>, seen: set<PointId>, entries: seq<Row>, complete: nat, ghost visited: seq<PointId>)
    requires q.Valid() && seenBefore <= q.universe && (alone ==> q.points == st) && (plain ==> alone)
    requires Progress(alone, sha, cfg, scope, st, before, seenBefore, entriesBefore, completeBefore)
    requires plain ==> AllReadable(cfg, scope, st) && Follows(q, batchSize, scope, st, last, n, offset, before)
    modifies q
    ensures q.Valid() && q.OthersOnly()
    ensures r.Ok? ==> seen <= q.universe && (r.value.Some? ==> |seenBefore| < |seen| <= |q.universe|)
    ensures r.Ok? ==>
              Progress(alone && q.writerSteps == old(q.writerSteps), sha, cfg, scope, st, visited, seen, entries,
                       complete)
    ensures plain && q.disturbances == old(q.disturbances) ==>
              && r.Ok?
              && if r.value.None? then Enumerates(scope, visited, st)
                 else Follows(q, batchSize, scope, st, last, n + 1, r.value, visited)
  {
    seen, entries, complete, visited := seenBefore, entriesBefore, completeBefore, before;
    var page := q.Scroll(scope, batchSize, offset);
    if page.Err? { return Err(page.error), seen, entries, complete, visited; }
    var records := page.value.records;
    if plain {
      PageAtHand(q.paging.value, q.listing.value, batchSize, scope, st, last, n, offset, before);
    }
    var ok;
    ok, seen, entries, complete, visited :=
      ScanPage(sha, scope, cfg, records, seen, entries, complete, alone && q.writerSteps == old(q.writerSteps), st,
               before);
    if !ok { return Err(Raised), seen, entries, complete, visited; }
    WithinUniverse(records, q.points, scope, q.universe, before, seenBefore, seen);
    if records != [] { SeenGrows(IdsShown(records), before, seenBefore, seen); }
    SubsetSize(seen, q.universe);
    var next := page.value.next;
    if next.Some? && (records == [] || next == offset) { return Err(Raised), seen, entries, complete, visited; }
    r := Ok(next);
  }

  lemma ReportExact(sha: string -> string, cfg: Config, scope: Scope, st: Store, visited: seq<PointId>,
                    seen: set<PointId>, entries: seq<Row>, complete: nat)
    requires Progress(true, sha, cfg, scope, st, visited, seen, entries, complete)
    ensures ScanOf(sha, cfg, scope, visited, st)
         == ScopeScan(|entries|, PointIdsDigest(sha, Ids(entries)), SourceTextDigest(sha, entries), complete,
                      |entries| - complete)
  {
  }

  /** `_scan_scope`. It terminates on any finite identifier space because every page that continues
      brings an identifier not seen before. `visited` names the points it read. Undisturbed, over a listing of readable
      points, it succeeds. */
  method ScanScope(q: Collection, sha: string -> string, scope: Scope, cfg: Config, batchSize: nat)
    returns (r: Reply<ScopeScan>, ghost visited: seq<PointId>)
    requires q.Valid()
    modifies q
    ensures q.Valid() && q.OthersOnly()
    ensures r.Ok? && q.writerSteps == old(q.writerSteps) ==>
              && Distinct(visited)
              && ReadableAll(cfg, scope, visited, q.points)
              && r.value == ScanOf(sha, cfg, scope, visited, q.points)
    ensures q.disturbances == old(q.disturbances) && AllReadable(cfg, scope, old(q.points))
              && Listable(q.paging, q.listing, batchSize, scope, old(q.points)) ==>
              r.Ok? && Enumerates(scope, visited, q.points)
  {
    ghost var st := q.points;
    ghost var last := FollowsFromStart(q, batchSize, scope, st);
    ghost var n := 0;
    ghost var plain := AllReadable(cfg, scope, st) && Listable(q.paging, q.listing, batchSize, scope, st);
    var offset: Cursor := None;
    var entries: seq<Row> := [];
    var seen: set<PointId> := {};
    var complete: nat := 0;
    visited := [];
    while true
      invariant q.Valid() && q.OthersOnly()
      invariant seen <= q.universe
      invariant Progress(q.writerSteps == old(q.writerSteps), sha, cfg, scope, st, visited, seen, entries, complete)
      invariant q.disturbances == old(q.disturbances) && plain ==>
                  Follows(q, batchSize, scope, st, last, n, offset, visited)
      decreases |q.universe| - |seen|
    {
      var next;
      next, seen, entries, complete, visited :=
        NextPage(q, sha, scope, cfg, batchSize, offset, seen, entries, complete, q.writerSteps == old(q.writerSteps),
                 plain && q.disturbances == old(q.disturbances), st, visited, last, n);
      if next.Err? { return Err(next.error), visited; }
      if next.value.None? { break; }
      offset := next.value;
      n := n + 1;
    }
    var count := |entries|;
    var pending: nat := count - complete;
    if q.writerSteps == old(q.writerSteps) { ReportExact(sha, cfg, scope, st, visited, seen, entries, complete); }
    r := Ok(ScopeScan(count, PointIdsDigest(sha, Ids(entries)), SourceTextDigest(sha, entries), complete, pending));
  }

  /** Where every point is the owner's the counts along the filters agree. */
  lemma OwnedCounts(scope: Scope, st: Store)
    requires forall id :: id in st ==> Matches(OfScope(scope), st[id])
    ensures |Selected(st, Everything)| == |Selected(st, OfDataset(scope.datasetId))| == |Selected(st, OfScope(scope))|
  {
    assert Selected(st, Everything) == Selected(st, OfDataset(scope.datasetId)) == Selected(st, OfScope(scope));
  }

  /** `_validate_exact_scope_counts`. */
  method ValidateExactScopeCounts(q: Collection, scope: Scope, scannedCount: nat) returns (r: Reply<()>)
    requires q.Valid()
    modifies q
    ensures q.Valid() && q.OthersOnly()
    ensures r.Ok? && q.writerSteps == old(q.writerSteps) ==>
              && |Selected(q.points, LexicalScope(scope))| == scannedCount
              && forall id :: id in q.points ==> Matches(OfScope(scope), q.points[id])
    ensures q.disturbances == old(q.disturbances)
              && (forall id :: id in q.points ==> Matches(OfScope(scope), q.points[id]))
              && |Selected(q.points, LexicalScope(scope))| == scannedCount ==>
              r.Ok?
  {
    var dataset :- q.Count(OfDataset(scope.datasetId));
    var scoped :- q.Count(OfScope(scope));
    var lexical :- q.Count(LexicalScope(scope));
    var all :- q.Count(Everything);
    if forall id :: id in q.points ==> Matches(OfScope(scope), q.points[id]) { OwnedCounts(scope, q.points); }
    if all != dataset || dataset != scoped || lexical != scannedCount { return Err(Raised); }
    if q.writerSteps == old(q.writerSteps) {
      OwnershipByCounting(scope, q.points);
    }
    r := Ok(());
  }
}
