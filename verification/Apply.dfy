/** The write pass (scripts/backfill_bm25_v2.py:1019-1122): page by page, vectors of the pending points
    first, then one marker write each. */
module Applying {
  import opened Prelude
  import opened Sorting
  import opened Points
  import opened Stores
  import opened Scans

  datatype Pending = Pending(id: PointId, text: string, existing: Lexical)

  /** Between pages every in-scope point is as the run found it or finished. */
  ghost predicate Boundary(sha: string -> string, cfg: Config, scope: Scope, st: Store, now: Store) {
    && now.Keys == st.Keys
    && (forall id :: id in st && InScope(scope, st[id]) ==> now[id] in {st[id], FinalPoint(sha, cfg, st[id])})
    && (forall id :: id in st && !InScope(scope, st[id]) ==> now[id] == st[id])
  }

  /** The pending list of a page read in store `now`: untouched, unfinished points. */
  ghost predicate PendingPage(sha: string -> string, cfg: Config, scope: Scope, st: Store, now: Store,
                              pending: seq<Pending>)
  {
    forall k :: 0 <= k < |pending| ==>
      var p := pending[k];
      && p.id in st && p.id in now
      && now[p.id] == st[p.id]
      && InScope(scope, st[p.id]) && HasText(st[p.id]) && !IsComplete(sha, cfg, st[p.id])
      && p.text == TextOf(st[p.id]) && p.existing == LexicalOf(st[p.id])
  }

  ghost function IdsOf(pending: seq<Pending>): set<PointId> {
    set k | 0 <= k < |pending| :: pending[k].id
  }

  /** After a page: its pending points are finished, the others as the page found them. */
  ghost predicate AfterPage(sha: string -> string, cfg: Config, st: Store, page: Store, now: Store,
                            pending: seq<Pending>)
  {
    && now.Keys == st.Keys == page.Keys
    && forall id :: id in st ==> now[id] == if id in IdsOf(pending) then FinalPoint(sha, cfg, st[id]) else page[id]
  }

  /** Inside a page: the points in `done` are finished, the other pending ones have their vector. */
  ghost predicate MidPage(sha: string -> string, cfg: Config, scope: Scope, st: Store, page: Store, now: Store,
                          pending: seq<Pending>, done: set<PointId>)
  {
    && Boundary(sha, cfg, scope, st, page)
    && PendingPage(sha, cfg, scope, st, page, pending)
    && done <= IdsOf(pending)
    && now.Keys == st.Keys
    && (forall id :: id in done ==> id in st && now[id] == FinalPoint(sha, cfg, st[id]))
    && (forall id :: id in IdsOf(pending) - done ==>
         id in st && HasText(st[id]) && now[id] == Vectored(st[id], TextOf(st[id])))
    && (forall id :: id in st && id !in IdsOf(pending) ==> now[id] == page[id])
  }

  function Batch(pending: seq<Pending>): (r: seq<(PointId, string)>)
    ensures |r| == |pending| && forall i :: 0 <= i < |r| ==> r[i] == (pending[i].id, pending[i].text)
  {
    seq(|pending|, i requires 0 <= i < |pending| => (pending[i].id, pending[i].text))
  }

  lemma BoundaryIsRunState(sha: string -> string, cfg: Config, scope: Scope, st: Store, now: Store)
    requires Boundary(sha, cfg, scope, st, now)
    ensures RunState(sha, cfg, scope, st, now)
  {
  }

  lemma MidPageIsRunState(sha: string -> string, cfg: Config, scope: Scope, st: Store, page: Store, now: Store,
                          pending: seq<Pending>, done: set<PointId>)
    requires MidPage(sha, cfg, scope, st, page, now, pending, done)
    ensures RunState(sha, cfg, scope, st, now)
    ensures done == IdsOf(pending) ==> Boundary(sha, cfg, scope, st, now) && AfterPage(sha, cfg, st, page, now, pending)
  {
    forall id | id in st
      ensures InScope(scope, st[id]) ==> Reachable(sha, cfg, st[id], now[id])
      ensures !InScope(scope, st[id]) ==> now[id] == st[id]
      ensures done == IdsOf(pending) && InScope(scope, st[id]) ==> now[id] in {st[id], FinalPoint(sha, cfg, st[id])}
    {
      if id in IdsOf(pending) {
        var k :| 0 <= k < |pending| && pending[k].id == id;
      }
    }
  }

  lemma VectorsStartPage(sha: string -> string, cfg: Config, scope: Scope, st: Store, page: Store,
                         pending: seq<Pending>)
    requires Boundary(sha, cfg, scope, st, page) && PendingPage(sha, cfg, scope, st, page, pending)
    ensures MidPage(sha, cfg, scope, st, page, VectorUpdate(page, Batch(pending)), pending, {})
  {
    var now := VectorUpdate(page, Batch(pending));
    VectorUpdateKeys(page, Batch(pending));
    forall id | id in st
      ensures id in IdsOf(pending) ==> HasText(st[id]) && now[id] == Vectored(st[id], TextOf(st[id]))
      ensures id !in IdsOf(pending) ==> now[id] == page[id]
    {
      var text := if HasText(st[id]) then TextOf(st[id]) else "";
      VectorUpdateAt(page, Batch(pending), id, text);
      if id in IdsOf(pending) {
        var k :| 0 <= k < |pending| && pending[k].id == id;
        assert Batch(pending)[k].0 == id;
      } else {
        assert forall k :: 0 <= k < |pending| ==> pending[k].id in IdsOf(pending);
      }
    }
    assert forall id :: id in IdsOf(pending) ==> id in st;
  }

  /** The store the k-th marker write aims for. */
  function MarkerWrite(sha: string -> string, cfg: Config, now: Store, p: Pending): Store {
    PayloadUpdate(now, p.id, MarkerFor(sha, cfg, p.existing, p.text))
  }

  lemma MarkerStep(sha: string -> string, cfg: Config, scope: Scope, st: Store, page: Store, now: Store,
                   pending: seq<Pending>, done: set<PointId>, k: nat)
    requires MidPage(sha, cfg, scope, st, page, now, pending, done) && k < |pending|
    ensures MidPage(sha, cfg, scope, st, page, MarkerWrite(sha, cfg, now, pending[k]), pending, done + {pending[k].id})
    ensures RunState(sha, cfg, scope, st, now)
    ensures RunState(sha, cfg, scope, st, MarkerWrite(sha, cfg, now, pending[k]))
  {
    MarkerWritten(sha, cfg, scope, st, page, now, pending, done, k);
    MidPageIsRunState(sha, cfg, scope, st, page, now, pending, done);
    MidPageIsRunState(sha, cfg, scope, st, page, MarkerWrite(sha, cfg, now, pending[k]), pending, done
        + {pending[k].id});
  }

  lemma MarkerWritten(sha: string -> string, cfg: Config, scope: Scope, st: Store, page: Store, now: Store,
                      pending: seq<Pending>, done: set<PointId>, k: nat)
    requires MidPage(sha, cfg, scope, st, page, now, pending, done) && k < |pending|
    ensures MidPage(sha, cfg, scope, st, page, MarkerWrite(sha, cfg, now, pending[k]), pending, done + {pending[k].id})
  {
    var id := pending[k].id;
    assert id in IdsOf(pending);
    assert MarkerWrite(sha, cfg, now, pending[k])[id] == FinalPoint(sha, cfg, st[id]);
  }

  /** One `set_payload` call per pending point. */
  method WriteMarkers(q: Collection, sha: string -> string, scope: Scope, cfg: Config, pending: seq<Pending>,
                      ghost st: Store, ghost page: Store)
    returns (r: Reply<()>)
    requires q.Valid() && pending != []
    modifies q
    ensures q.Valid() && q.OwnReceiptOnly()
    ensures q.writerSteps == old(q.writerSteps) && MidPage(sha, cfg, scope, st, page, old(q.points), pending, {}) ==>
              && RunState(sha, cfg, scope, st, q.points)
              && (r.Ok? ==> AfterPage(sha, cfg, st, page, q.points, pending))
    ensures r.Err? ==> q.disturbances > old(q.disturbances)
  {
    ghost var sound := MidPage(sha, cfg, scope, st, page, q.points, pending, {});
    ghost var done: set<PointId> := {};
    var k := 0;
    while k < |pending|
      invariant 0 <= k <= |pending|
      invariant q.Valid() && q.OwnReceiptOnly()
      invariant forall i :: 0 <= i < k ==> pending[i].id in done
      invariant q.writerSteps == old(q.writerSteps) && sound ==>
                  MidPage(sha, cfg, scope, st, page, q.points, pending, done)
    {
      if q.writerSteps == old(q.writerSteps) && sound {
        MarkerStep(sha, cfg, scope, st, page, q.points, pending, done, k);
      }
      var marked :- q.SetPayload(pending[k].id, MarkerFor(sha, cfg, pending[k].existing, pending[k].text));
      if !marked { return Err(Raised); }
      done := done + {pending[k].id};
      k := k + 1;
    }
    if sound && q.writerSteps == old(q.writerSteps) {
      assert done == IdsOf(pending);
      MidPageIsRunState(sha, cfg, scope, st, page, q.points, pending, done);
    }
    r := Ok(());
  }

  /** The first `n` vectors of a page have been written and nothing more. */
  lemma PartOfPage(sha: string -> string, cfg: Config, scope: Scope, st: Store, page: Store, pending: seq<Pending>,
                   n: nat)
    requires Boundary(sha, cfg, scope, st, page) && PendingPage(sha, cfg, scope, st, page, pending) && n <= |pending|
    ensures RunState(sha, cfg, scope, st, VectorUpdate(page, Batch(pending)[..n]))
  {
    assert Batch(pending)[..n] == Batch(pending[..n]);
    VectorsStartPage(sha, cfg, scope, st, page, pending[..n]);
    MidPageIsRunState(sha, cfg, scope, st, page, VectorUpdate(page, Batch(pending[..n])), pending[..n], {});
  }

  /** Write one page's pending points, if it has any. Alone in the store, it leaves a state of the run wherever it
      stops and a page boundary when it completes. */
  method WritePage(q: Collection, sha: string -> string, scope: Scope, cfg: Config, pending: seq<Pending>,
                   ghost st: Store, ghost sound: bool)
    returns (r: Reply<()>)
    requires q.Valid()
    requires sound ==>
               Boundary(sha, cfg, scope, st, q.points) && PendingPage(sha, cfg, scope, st, q.points, pending)
    modifies q
    ensures q.Valid() && q.OwnReceiptOnly()
    ensures q.writerSteps == old(q.writerSteps) && sound ==>
              && RunState(sha, cfg, scope, st, q.points)
              && (r.Ok? ==> AfterPage(sha, cfg, st, old(q.points), q.points, pending))
    ensures r.Err? ==> q.disturbances > old(q.disturbances)
  {
    if sound { BoundaryIsRunState(sha, cfg, scope, st, q.points); }
    if pending == [] { return Ok(()); }
    ghost var page := q.points;
    var reply: Reply<bool>;
    ghost var count: nat;
    reply, count := q.UpdateVectors(Batch(pending));
    if q.writerSteps == old(q.writerSteps) && sound {
      PartOfPage(sha, cfg, scope, st, page, pending, count);
      VectorsStartPage(sha, cfg, scope, st, page, pending);
      assert Batch(pending)[..|pending|] == Batch(pending);
    }
    if reply.Err? { return Err(reply.error); }
    if !reply.value { return Err(Raised); }
    r := WriteMarkers(q, sha, scope, cfg, pending, st, page);
  }

  // ---- When the pass stops ----------------------------------------------------------------------

  /** Two pages are asked for under one offset, with no reason to stop up to the second. */
  ghost predicate ComesBack(next: Cursor -> Cursor, i: nat, j: nat) {
    i < j && Offset(next, i) == Offset(next, j) && forall k: nat :: k <= j ==> !StopsAt(next, k)
  }

  lemma {:induction false} SamePages(next: Cursor -> Cursor, i: nat, j: nat, t: nat)
    requires Offset(next, i) == Offset(next, j)
    ensures Offset(next, i + t) == Offset(next, j + t)
  {
    if t != 0 { SamePages(next, i, j, t - 1); }
  }

  /** A pass that came back to an offset never stops. */
  lemma {:induction false} NeverStops(next: Cursor -> Cursor, i: nat, j: nat, k: nat)
    requires ComesBack(next, i, j)
    ensures !StopsAt(next, k)
    decreases k
  {
    if k > j {
      SamePages(next, i, j, k - j);
      NeverStops(next, i, j, i + (k - j));
    }
  }

  /** The offsets of the first n pages. */
  ghost function Visited(next: Cursor -> Cursor, n: nat): set<Cursor> {
    if n == 0 then {} else Visited(next, n - 1) + {Offset(next, n - 1)}
  }

  /** Page i, among the first n, was asked for under this offset. */
  ghost predicate AskedAt(next: Cursor -> Cursor, n: nat, o: Cursor, i: nat) { i < n && Offset(next, i) == o }

  lemma {:induction false} VisitedAt(next: Cursor -> Cursor, n: nat, o: Cursor) returns (i: nat)
    requires o in Visited(next, n)
    ensures AskedAt(next, n, o, i)
  {
    if o == Offset(next, n - 1) { i := n - 1; } else { i := VisitedAt(next, n - 1, o); }
  }

  lemma {:induction false} VisitedSize(next: Cursor -> Cursor, n: nat)
    requires forall i: nat, j: nat :: i < j < n ==> Offset(next, i) != Offset(next, j)
    ensures |Visited(next, n)| == n
  {
    if n != 0 {
      VisitedSize(next, n - 1);
      if Offset(next, n - 1) in Visited(next, n - 1) {
        var i := VisitedAt(next, n - 1, Offset(next, n - 1));
      }
    }
  }

  /** Over a finite set of offsets a pass that does not stop comes back to one. */
  lemma LongPassComesBack(next: Cursor -> Cursor, offsets: set<Cursor>) returns (i: nat, j: nat)
    requires forall k: nat :: Offset(next, k) in offsets
    requires forall k: nat :: k <= |offsets| ==> !StopsAt(next, k)
    ensures ComesBack(next, i, j)
  {
    var n := |offsets| + 1;
    if forall i: nat, j: nat :: i < j < n ==> Offset(next, i) != Offset(next, j) {
      VisitedSize(next, n);
      forall o | o in Visited(next, n) ensures o in offsets { var k := VisitedAt(next, n, o); }
      SmallerSubset(Visited(next, n), offsets);
    }
    i, j :| i < j < n && Offset(next, i) == Offset(next, j);
  }

  lemma SmallerSubset(a: set<Cursor>, b: set<Cursor>)
    requires forall o :: o in a ==> o in b
    ensures |a| <= |b|
  {
    assert a <= b;
    assert |b - a| == |b| - |a|;
  }

  /** Exactly when the pass ends, for a server with fixed paging over finitely many offsets: within as many pages as
      there are offsets, or never; and never exactly if it comes back to an offset that it did not just ask for. */
  lemma PassEndsExact(next: Cursor -> Cursor, offsets: set<Cursor>)
    requires forall k: nat :: Offset(next, k) in offsets
    ensures (exists k: nat :: StopsAt(next, k)) <==> (exists k: nat :: k <= |offsets| && StopsAt(next, k))
    ensures (exists k: nat :: StopsAt(next, k)) <==> !exists i: nat, j: nat :: ComesBack(next, i, j)
  {
    if exists k: nat :: StopsAt(next, k) {
      var k: nat :| StopsAt(next, k);
      forall i: nat, j: nat ensures !ComesBack(next, i, j) {
        if ComesBack(next, i, j) { NeverStops(next, i, j, k); }
      }
    }
    if forall k: nat :: k <= |offsets| ==> !StopsAt(next, k) {
      var i, j := LongPassComesBack(next, offsets);
    }
  }

  /** Offsets that advance below a bound are enough, but not needed. */
  lemma AdvancingPassEnds(next: Cursor -> Cursor, horizon: nat, k: nat)
    requires forall o: Cursor :: next(o).Some? ==> next(o).value < horizon && (o.Some? ==> o.value < next(o).value)
    requires forall j: nat :: j < k ==> !StopsAt(next, j)
    ensures k <= horizon
    ensures k > 0 ==> Offset(next, k).Some? && k - 1 <= Offset(next, k).value < horizon
  {
    if k > 0 {
      AdvancingPassEnds(next, horizon, k - 1);
      assert !StopsAt(next, k - 1);
    }
  }

  /** A server whose two offsets lead to each other keeps the pass going for ever. */
  function Cycling(o: Cursor): Cursor {
    if o == Some(1) then Some(2) else Some(1)
  }

  lemma CyclingNeverEnds(k: nat)
    ensures !StopsAt(Cycling, k)
  {
  }

  /** A server that steps back once and then ends the listing. */
  function SteppingBack(o: Cursor): Cursor {
    match o
    case None => Some(5)
    case Some(n) => if n == 5 then Some(3) else None
  }

  lemma SteppingBackEnds()
    ensures StopsAt(SteppingBack, 2) && Offset(SteppingBack, 2).value < Offset(SteppingBack, 1).value
  {
    assert Offset(SteppingBack, 1) == Some(5);
    assert Offset(SteppingBack, 2) == Some(3);
  }

  // ---- What a page asks for ---------------------------------------------------------------------

  /** What a record asks for: an entry if it is not complete. */
  function EntryOf(sha: string -> string, cfg: Config, record: Record): seq<Pending> {
    if HasText(record.point) && !IsComplete(sha, cfg, record.point)
    then [Pending(record.id, TextOf(record.point), LexicalOf(record.point))] else []
  }

  /** The entries of a page, in order. */
  function PendingOf(sha: string -> string, cfg: Config, records: seq<Record>): seq<Pending> {
    if records == [] then []
    else PendingOf(sha, cfg, records[..|records| - 1]) + EntryOf(sha, cfg, records[|records| - 1])
  }

  /** A record of the page asks for this entry. */
  ghost predicate AskedFor(sha: string -> string, cfg: Config, records: seq<Record>, p: Pending) {
    exists k :: 0 <= k < |records| && EntryOf(sha, cfg, records[k]) == [p]
  }

  lemma {:induction false} PendingAskedFor(sha: string -> string, cfg: Config, records: seq<Record>, p: Pending)
    requires p in PendingOf(sha, cfg, records)
    ensures AskedFor(sha, cfg, records, p)
  {
    if records != [] {
      var init := records[..|records| - 1];
      if p in PendingOf(sha, cfg, init) {
        PendingAskedFor(sha, cfg, init, p);
        var k :| 0 <= k < |init| && EntryOf(sha, cfg, init[k]) == [p];
        assert records[k] == init[k];
      } else {
        assert EntryOf(sha, cfg, records[|init|]) == [p];
      }
    }
  }

  lemma {:induction false} AllAskedFor(sha: string -> string, cfg: Config, records: seq<Record>, k: nat)
    requires k < |records| && EntryOf(sha, cfg, records[k]) != []
    ensures records[k].id in IdsOf(PendingOf(sha, cfg, records))
  {
    var init := records[..|records| - 1];
    IdsJoin(PendingOf(sha, cfg, init), EntryOf(sha, cfg, records[|init|]));
    if k < |init| { AllAskedFor(sha, cfg, init, k); }
  }

  /** No more identifiers than entries, and as many if no identifier is shown twice. */
  lemma {:induction false} PendingCount(sha: string -> string, cfg: Config, records: seq<Record>)
    ensures |IdsOf(PendingOf(sha, cfg, records))| <= |PendingOf(sha, cfg, records)|
    ensures IdsOf(PendingOf(sha, cfg, records)) <= set id | id in IdsShown(records)
    ensures Distinct(IdsShown(records)) ==>
              |IdsOf(PendingOf(sha, cfg, records))| == |PendingOf(sha, cfg, records)|
  {
    if records == [] {
      assert IdsOf(PendingOf(sha, cfg, records)) == {};
    } else {
      var init, last := records[..|records| - 1], records[|records| - 1];
      var ids := IdsShown(init);
      PendingCount(sha, cfg, init);
      assert IdsShown(records) == ids + [last.id];
      assert Distinct(ids + [last.id]) ==> Distinct(ids) && last.id !in ids by { LastIsNew(ids, last.id); }
      IdsJoin(PendingOf(sha, cfg, init), EntryOf(sha, cfg, last));
    }
  }

  lemma LastIsNew(ids: seq<PointId>, id: PointId)
    ensures Distinct(ids + [id]) ==> Distinct(ids) && id !in ids
  {
    assert forall k :: 0 <= k < |ids| ==> (ids + [id])[k] == ids[k];
    assert (ids + [id])[|ids|] == id;
  }

  lemma IdsJoin(pending: seq<Pending>, more: seq<Pending>)
    requires |more| <= 1
    ensures IdsOf(pending + more) == IdsOf(pending) + IdsOf(more)
    ensures more != [] ==> IdsOf(more) == {more[0].id}
    ensures more == [] ==> IdsOf(pending + more) == IdsOf(pending)
  {
    var all := pending + more;
    forall k | 0 <= k < |pending| ensures pending[k].id in IdsOf(all) { assert all[k] == pending[k]; }
    if more != [] { assert all[|pending|] == more[0]; }
  }

  // ---- The pass ---------------------------------------------------------------------------------

  /** Of the points visited so far all are finished, the others untouched. */
  ghost predicate Passed(sha: string -> string, cfg: Config, scope: Scope, st: Store, now: Store, visited: seq<PointId>)
  {
    && now.Keys == st.Keys
    && (forall id :: id in visited ==> id in st && InScope(scope, st[id]) && HasText(st[id]))
    && forall id :: id in st ==> now[id] == if id in visited then FinalPoint(sha, cfg, st[id]) else st[id]
  }

  /** The visited points that were not complete at the start. */
  ghost function UnfinishedOf(sha: string -> string, cfg: Config, st: Store, visited: seq<PointId>): set<PointId> {
    set id | id in visited && id in st && !IsComplete(sha, cfg, st[id])
  }

  /** So many more were unfinished: no more than were written, and as many if no point was shown twice. */
  ghost predicate Counted(count: nat, was: nat, now: nat, visited: seq<PointId>) {
    now <= was + count && (Distinct(visited) ==> now == was + count)
  }

  lemma PassedIsBoundary(sha: string -> string, cfg: Config, scope: Scope, st: Store, now: Store,
                         visited: seq<PointId>)
    requires Passed(sha, cfg, scope, st, now, visited)
    ensures Boundary(sha, cfg, scope, st, now) && RunState(sha, cfg, scope, st, now)
    ensures forall id :: id in st ==> InScope(scope, now[id]) == InScope(scope, st[id])
    ensures AllReadable(cfg, scope, st) ==> AllReadable(cfg, scope, now)
  {
    forall id | id in st
      ensures InScope(scope, now[id]) == InScope(scope, st[id])
      ensures Readable(scope, cfg, st[id]) ==> Readable(scope, cfg, now[id])
    {
      ReachableKeepsSource(sha, cfg, scope, st[id], now[id]);
    }
  }

  /** What one more page of such a pass is. */
  ghost predicate PageRead(sha: string -> string, cfg: Config, scope: Scope, st: Store, page: Store,
                           before: seq<PointId>, records: seq<Record>)
  {
    && Passed(sha, cfg, scope, st, page, before)
    && Truthful(records, page, scope)
    && forall k :: 0 <= k < |records| ==> Readable(scope, cfg, records[k].point)
  }

  /** A record of such a page: seen before it is finished, and otherwise as it was at the start. */
  lemma RecordRead(sha: string -> string, cfg: Config, scope: Scope, st: Store, page: Store, before: seq<PointId>,
                   records: seq<Record>, k: nat)
    requires PageRead(sha, cfg, scope, st, page, before, records) && k < |records|
    ensures var id := records[k].id;
            && id in st && page[id] == records[k].point
            && InScope(scope, st[id]) && HasText(st[id])
            && (if id in before then IsComplete(sha, cfg, page[id]) else page[id] == st[id])
  {
    var id := records[k].id;
    assert Readable(scope, cfg, records[k].point);
    ReachableKeepsSource(sha, cfg, scope, st[id], page[id]);
    if id in before { FinalPointComplete(sha, cfg, st[id]); }
  }

  lemma PagePending(sha: string -> string, cfg: Config, scope: Scope, st: Store, page: Store, before: seq<PointId>,
                    records: seq<Record>)
    requires PageRead(sha, cfg, scope, st, page, before, records)
    ensures PendingPage(sha, cfg, scope, st, page, PendingOf(sha, cfg, records))
    ensures forall id :: id in IdsOf(PendingOf(sha, cfg, records)) ==>
              id !in before && id in st && !IsComplete(sha, cfg, st[id])
  {
    var pending := PendingOf(sha, cfg, records);
    forall i | 0 <= i < |pending|
      ensures PendingPage(sha, cfg, scope, st, page, [pending[i]]) && [pending[i]][0] == pending[i]
      ensures pending[i].id !in before && !IsComplete(sha, cfg, st[pending[i].id])
    {
      PendingAskedFor(sha, cfg, records, pending[i]);
      var k :| 0 <= k < |records| && EntryOf(sha, cfg, records[k]) == [pending[i]];
      RecordRead(sha, cfg, scope, st, page, before, records, k);
    }
    PendingPages(sha, cfg, scope, st, page, pending);
  }

  lemma PendingPages(sha: string -> string, cfg: Config, scope: Scope, st: Store, page: Store, pending: seq<Pending>)
    requires forall i :: 0 <= i < |pending| ==> PendingPage(sha, cfg, scope, st, page, [pending[i]])
    ensures PendingPage(sha, cfg, scope, st, page, pending)
  {
    forall i | 0 <= i < |pending|
      ensures PendingPage(sha, cfg, scope, st, page, [pending[i]]) && [pending[i]][0] == pending[i]
    {
    }
  }

  /** A page that was written passes over its records. */
  lemma PagePassed(sha: string -> string, cfg: Config, scope: Scope, st: Store, page: Store, now: Store,
                   before: seq<PointId>, records: seq<Record>)
    requires PageRead(sha, cfg, scope, st, page, before, records)
    requires AfterPage(sha, cfg, st, page, now, PendingOf(sha, cfg, records))
    ensures Passed(sha, cfg, scope, st, now, before + IdsShown(records))
  {
    var visited, ids := before + IdsShown(records), IdsOf(PendingOf(sha, cfg, records));
    PagePending(sha, cfg, scope, st, page, before, records);
    PendingCount(sha, cfg, records);
    forall id | id in visited
      ensures id in st && InScope(scope, st[id]) && HasText(st[id]) && now[id] == FinalPoint(sha, cfg, st[id])
    {
      if id !in before {
        var k :| 0 <= k < |records| && IdsShown(records)[k] == id;
        RecordRead(sha, cfg, scope, st, page, before, records, k);
        if id !in ids { EntryMissing(sha, cfg, records, k); }
      }
    }
    forall id | id in st && id !in visited ensures now[id] == st[id] {
      assert id !in ids;
    }
  }

  lemma EntryMissing(sha: string -> string, cfg: Config, records: seq<Record>, k: nat)
    requires k < |records| && HasText(records[k].point)
    requires records[k].id !in IdsOf(PendingOf(sha, cfg, records))
    ensures IsComplete(sha, cfg, records[k].point)
  {
    if !IsComplete(sha, cfg, records[k].point) { AllAskedFor(sha, cfg, records, k); }
  }

  /** The unfinished points among the visited ones grow by those the page asks for. */
  lemma PageCounts(sha: string -> string, cfg: Config, scope: Scope, st: Store, page: Store, before: seq<PointId>,
                   records: seq<Record>)
    requires PageRead(sha, cfg, scope, st, page, before, records)
    ensures var was, now, n := UnfinishedOf(sha, cfg, st, before),
                               UnfinishedOf(sha, cfg, st, before + IdsShown(records)),
                               |PendingOf(sha, cfg, records)|;
            |now| <= |was| + n && (Distinct(before + IdsShown(records)) ==> |now| == |was| + n)
  {
    var pending, visited := PendingOf(sha, cfg, records), before + IdsShown(records);
    var was, now := UnfinishedOf(sha, cfg, st, before), UnfinishedOf(sha, cfg, st, visited);
    PagePending(sha, cfg, scope, st, page, before, records);
    PendingCount(sha, cfg, records);
    forall id ensures id in now <==> id in was + IdsOf(pending) {
      if id in now && id !in was {
        var k :| 0 <= k < |records| && IdsShown(records)[k] == id;
        RecordRead(sha, cfg, scope, st, page, before, records, k);
        if id !in IdsOf(pending) { EntryMissing(sha, cfg, records, k); }
      }
    }
    assert now == was + IdsOf(pending) && was !! IdsOf(pending);
    DistinctTail(before, IdsShown(records));
  }

  lemma DistinctTail(a: seq<PointId>, b: seq<PointId>)
    ensures Distinct(a + b) ==> Distinct(b)
  {
    assert forall k :: 0 <= k < |b| ==> (a + b)[|a| + k] == b[k];
  }

  /** A page that was written: what the pass has done so far, and how many more it counts. */
  lemma PageDone(sha: string -> string, cfg: Config, scope: Scope, st: Store, page: Store, now: Store,
                 before: seq<PointId>, records: seq<Record>)
    requires PageRead(sha, cfg, scope, st, page, before, records)
    requires AfterPage(sha, cfg, st, page, now, PendingOf(sha, cfg, records))
    ensures Passed(sha, cfg, scope, st, now, before + IdsShown(records))
    ensures Counted(|PendingOf(sha, cfg, records)|, |UnfinishedOf(sha, cfg, st, before)|,
                    |UnfinishedOf(sha, cfg, st, before + IdsShown(records))|, before + IdsShown(records))
  {
    PagePassed(sha, cfg, scope, st, page, now, before, records);
    PageCounts(sha, cfg, scope, st, page, before, records);
  }

  /** The page at hand, in the store the pass has made by then. */
  lemma PageInPass(q: Collection, sha: string -> string, scope: Scope, cfg: Config, batchSize: nat, offset: Cursor,
                   st: Store, now: Store, before: seq<PointId>, last: nat, n: nat)
    requires Passed(sha, cfg, scope, st, now, before) && Follows(q, batchSize, scope, st, last, n, offset, before)
    ensures AllInScope(q.listing.value(offset), now, scope) && |q.listing.value(offset)| <= batchSize
    ensures AllReadable(cfg, scope, st) ==> AllReadable(cfg, scope, now)
    ensures n == last ==>
              q.paging.value(offset).None? && Enumerates(scope, before + q.listing.value(offset), st)
    ensures n < last ==>
              && q.listing.value(offset) != [] && q.paging.value(offset).Some? && q.paging.value(offset) != offset
              && Follows(q, batchSize, scope, st, last, n + 1, q.paging.value(offset),
                         before + q.listing.value(offset))
  {
    PageAtHand(q.paging.value, q.listing.value, batchSize, scope, st, last, n, offset, before);
    PassedIsBoundary(sha, cfg, scope, st, now, before);
  }

  /** The unfinished points of a page, unless the client check refuses one of its points. */
  method ListPending(sha: string -> string, scope: Scope, cfg: Config, records: seq<Record>)
    returns (ok: bool, pending: seq<Pending>)
    ensures ok <==> forall k :: 0 <= k < |records| ==> Readable(scope, cfg, records[k].point)
    ensures ok ==> pending == PendingOf(sha, cfg, records)
  {
    pending := [];
    var k := 0;
    while k < |records|
      invariant 0 <= k <= |records|
      invariant forall j :: 0 <= j < k ==> Readable(scope, cfg, records[j].point)
      invariant pending == PendingOf(sha, cfg, records[..k])
    {
      var record := records[k];
      PointStateExact(sha, scope, cfg, record.point);
      var state := PointState(sha, scope, cfg, record.point);
      if state.Err? { return false, pending; }
      assert records[..k + 1][..k] == records[..k];
      if !state.value.complete {
        pending := pending + [Pending(record.id, state.value.text, LexicalOf(record.point))];
      }
      k := k + 1;
    }
    assert records[..k] == records;
    ok := true;
  }

  /** Scroll one page and list its unfinished points. */
  method ReadPage(q: Collection, sha: string -> string, scope: Scope, cfg: Config, batchSize: nat, offset: Cursor)
    returns (r: Reply<Page>, pending: seq<Pending>)
    requires q.Valid()
    modifies q
    ensures q.Valid() && q.OthersOnly()
    ensures r.Ok? ==>
              && Truthful(r.value.records, q.points, scope)
              && (forall k :: 0 <= k < |r.value.records| ==> Readable(scope, cfg, r.value.records[k].point))
              && pending == PendingOf(sha, cfg, r.value.records)
              && q.lifetime < old(q.lifetime)
    ensures r.Ok? && q.paging.Some? ==> r.value.next == q.paging.value(offset)
    ensures r.Ok? && q.listing.Some? && AllInScope(q.listing.value(offset), q.points, scope)
              && |q.listing.value(offset)| <= batchSize ==>
              IdsShown(r.value.records) == q.listing.value(offset)
    ensures q.disturbances == old(q.disturbances) && AllReadable(cfg, scope, q.points) ==> r.Ok?
  {
    pending := [];
    r := q.Scroll(scope, batchSize, offset);
    if r.Err? { return; }
    var ok;
    ok, pending := ListPending(sha, scope, cfg, r.value.records);
    if !ok { r := Err(Raised); }
  }

  /** One page of the pass: read, its pending points written, and followed by another one if the listing goes on.
      Nothing ends the pass over a plain listing before. */
  method ApplyPage(q: Collection, sha: string -> string, scope: Scope, cfg: Config, batchSize: nat, offset: Cursor,
                   ghost alone: bool, ghost plain: bool, ghost st: Store, ghost before: seq<PointId>,
                   ghost last: nat, ghost n: nat)
    returns (r: Reply<Cursor>, count: nat, ghost visited: seq<PointId>)
    requires q.Valid() && (plain ==> alone) && (alone ==> Passed(sha, cfg, scope, st, q.points, before))
    requires plain ==> AllReadable(cfg, scope, st) && Follows(q, batchSize, scope, st, last, n, offset, before)
    modifies q
    ensures q.Valid() && q.OwnReceiptOnly()
    ensures r.Ok? ==> q.lifetime < old(q.lifetime)
    ensures r.Ok? && q.paging.Some? ==> r.value == q.paging.value(offset) && (r.value.Some? ==> r.value != offset)
    ensures alone && q.writerSteps == old(q.writerSteps) ==>
              && RunState(sha, cfg, scope, st, q.points)
              && (r.Ok? ==> Passed(sha, cfg, scope, st, q.points, visited))
    ensures alone && q.writerSteps == old(q.writerSteps) && r.Ok? ==>
              Counted(count, |UnfinishedOf(sha, cfg, st, before)|, |UnfinishedOf(sha, cfg, st, visited)|, visited)
    ensures r.Ok? ==> before <= visited
    ensures plain && q.disturbances == old(q.disturbances) ==>
              && r.Ok?
              && if r.value.None? then Enumerates(scope, visited, st)
                 else Follows(q, batchSize, scope, st, last, n + 1, r.value, visited)
  {
    count, visited := 0, before;
    if alone { PassedIsBoundary(sha, cfg, scope, st, q.points, before); }
    if plain { PageInPass(q, sha, scope, cfg, batchSize, offset, st, q.points, before, last, n); }
    var page, pending := ReadPage(q, sha, scope, cfg, batchSize, offset);
    if page.Err? { return Err(page.error), count, visited; }
    var records := page.value.records;
    ghost var sound := alone && q.writerSteps == old(q.writerSteps);
    ghost var found := q.points;
    if sound { PagePending(sha, cfg, scope, st, found, before, records); }
    var done := WritePage(q, sha, scope, cfg, pending, st, sound);
    if done.Err? { return Err(done.error), count, visited; }
    count, visited := |pending|, before + IdsShown(records);
    if alone && q.writerSteps == old(q.writerSteps) {
      PageDone(sha, cfg, scope, st, found, q.points, before, records);
    }
    var next := page.value.next;
    if next.Some? && (records == [] || next == offset) { return Err(Raised), count, visited; }
    r := Ok(next);
  }

  /** `_apply_missing_points`. The pass does not track what it has seen, so nothing bounds it but the life of its
      process, which is any number of pages; that covers every finite part of a pass against any paging.
      - Alone in the store, it leaves a state of the run wherever it stops. When it completes, every point it was shown
        is finished, every other one untouched, and it counts the shown points that were not complete, each once if
        none was shown twice.
      - Undisturbed, over a listing of readable points, it completes and was shown every point of the scope.
      - Against fixed paging, `pages` pages were followed by another, and a completed pass saw the listing end. */
  method ApplyMissingPoints(q: Collection, sha: string -> string, scope: Scope, cfg: Config, batchSize: nat)
    returns (r: Reply<nat>, ghost pages: nat, ghost visited: seq<PointId>)
    requires q.Valid()
    modifies q
    ensures q.Valid() && q.OwnReceiptOnly()
    ensures q.writerSteps == old(q.writerSteps) ==>
              && RunState(sha, cfg, scope, old(q.points), q.points)
              && (r.Ok? ==> Passed(sha, cfg, scope, old(q.points), q.points, visited))
    ensures q.writerSteps == old(q.writerSteps) && r.Ok? ==>
              Counted(r.value, 0, |UnfinishedOf(sha, cfg, old(q.points), visited)|, visited)
    ensures q.disturbances == old(q.disturbances) && AllReadable(cfg, scope, old(q.points))
              && Listable(q.paging, q.listing, batchSize, scope, old(q.points)) ==>
              r.Ok? && Enumerates(scope, visited, old(q.points))
    ensures q.paging.Some? ==> forall k: nat :: k < pages ==> !StopsAt(q.paging.value, k)
    ensures q.paging.Some? && r.Ok? ==> q.paging.value(Offset(q.paging.value, pages)).None?
  {
    ghost var st := q.points;
    ghost var last := FollowsFromStart(q, batchSize, scope, st);
    ghost var plain := AllReadable(cfg, scope, st) && Listable(q.paging, q.listing, batchSize, scope, st);
    var offset: Cursor := None;
    var written: nat := 0;
    pages, visited := 0, [];
    assert UnfinishedOf(sha, cfg, st, []) == {};
    while true
      invariant q.Valid() && q.OwnReceiptOnly()
      invariant q.writerSteps == old(q.writerSteps) ==>
                  && Passed(sha, cfg, scope, st, q.points, visited)
                  && Counted(written, 0, |UnfinishedOf(sha, cfg, st, visited)|, visited)
      invariant q.disturbances == old(q.disturbances) && plain ==>
                  Follows(q, batchSize, scope, st, last, pages, offset, visited)
      invariant q.paging.Some? ==> offset == Offset(q.paging.value, pages)
      invariant q.paging.Some? ==> forall k: nat :: k < pages ==> !StopsAt(q.paging.value, k)
      decreases q.lifetime
    {
      ghost var before := visited;
      var next, count;
      next, count, visited :=
        ApplyPage(q, sha, scope, cfg, batchSize, offset, q.writerSteps == old(q.writerSteps),
                  plain && q.disturbances == old(q.disturbances), st, before, last, pages);
      if next.Err? { return Err(next.error), pages, visited; }
      written := written + count;
      DistinctHead(before, visited);
      if next.value.None? { break; }
      offset := next.value;
      pages := pages + 1;
    }
    r := Ok(written);
  }

  lemma DistinctHead(a: seq<PointId>, b: seq<PointId>)
    requires a <= b
    ensures Distinct(b) ==> Distinct(a)
  {
    assert forall k :: 0 <= k < |a| ==> a[k] == b[k];
  }
}
