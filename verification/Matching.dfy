/** When a run has nothing to object to (scripts/backfill_bm25_v2.py:801-922, 1211-1388): the collection holds the rows
    that the manifest and the authority describe, and every stop of a run leaves it so. */
module Matching {
  import opened Prelude
  import opened Sorting
  import opened Strings
  import opened Digests
  import opened Points
  import opened Stores
  import opened Scans

  ghost function RowOrBlank(st: Store, id: PointId): Row {
    if id in st && HasText(st[id]) then RowAt(id, st[id]) else Row("", "")
  }

  /** Two enumerations of one store read the same rows, in some order. */
  lemma EnumerationsAgree(cfg: Config, scope: Scope, st: Store, ids: seq<PointId>, ids': seq<PointId>)
    requires Enumerates(scope, ids, st) && ReadableAll(cfg, scope, ids, st)
    requires Enumerates(scope, ids', st) && ReadableAll(cfg, scope, ids', st)
    ensures multiset(RowsOf(ids, st)) == multiset(RowsOf(ids', st)) && |ids| == |ids'|
  {
    DistinctPermutes(ids, ids');
    SameElements(ids, ids');
    var f := id => RowOrBlank(st, id);
    MapPermutes(f, ids, ids');
    assert RowsOf(ids, st) == Map(f, ids) && RowsOf(ids', st) == Map(f, ids');
  }

  /** Scope and text of every point are as before. */
  ghost predicate SameSource(cfg: Config, scope: Scope, st: Store, st': Store) {
    && st'.Keys == st.Keys
    && forall id :: id in st ==>
         && InScope(scope, st'[id]) == InScope(scope, st[id])
         && HasText(st'[id]) == HasText(st[id])
         && (HasText(st[id]) ==> TextOf(st'[id]) == TextOf(st[id]))
         && (Readable(scope, cfg, st[id]) ==> Readable(scope, cfg, st'[id]))
  }

  lemma RunKeepsSource(sha: string -> string, cfg: Config, scope: Scope, st: Store, st': Store)
    requires RunState(sha, cfg, scope, st, st')
    ensures SameSource(cfg, scope, st, st')
  {
    forall id | id in st
      ensures && InScope(scope, st'[id]) == InScope(scope, st[id])
              && HasText(st'[id]) == HasText(st[id])
              && (HasText(st[id]) ==> TextOf(st'[id]) == TextOf(st[id]))
              && (Readable(scope, cfg, st[id]) ==> Readable(scope, cfg, st'[id]))
    {
      if InScope(scope, st[id]) {
        ReachableKeepsSource(sha, cfg, scope, st[id], st'[id]);
      }
    }
  }

  /** An enumeration of the old store enumerates the new one and reads the same rows from it. */
  lemma SameSourceRows(cfg: Config, scope: Scope, st: Store, st': Store, ids: seq<PointId>)
    requires SameSource(cfg, scope, st, st')
    requires Enumerates(scope, ids, st) && ReadableAll(cfg, scope, ids, st)
    ensures Enumerates(scope, ids, st') && ReadableAll(cfg, scope, ids, st')
    ensures RowsOf(ids, st') == RowsOf(ids, st)
  {
    assert Selected(st', LexicalScope(scope)) == Selected(st, LexicalScope(scope));
  }

  lemma DigestsOfPermutation(sha: string -> string, a: seq<Row>, b: seq<Row>)
    requires multiset(a) == multiset(b) && DistinctIds(a)
    ensures SourceTextDigest(sha, a) == SourceTextDigest(sha, b)
    ensures PointIdsDigest(sha, Ids(a)) == PointIdsDigest(sha, Ids(b))
  {
    SourceTextDigestOrderFree(sha, a, b);
    MapPermutes((r: Row) => r.id, a, b);
    assert Ids(a) == Map((r: Row) => r.id, a) && Ids(b) == Map((r: Row) => r.id, b);
    StringOrder(Ids(a));
    SortCanonical(Leq, Ids(a), Ids(b));
  }

  lemma RunKeepsOwner(sha: string -> string, cfg: Config, scope: Scope, st: Store, st': Store)
    requires RunState(sha, cfg, scope, st, st')
    requires forall id :: id in st ==> Matches(OfScope(scope), st[id])
    ensures forall id :: id in st' ==> Matches(OfScope(scope), st'[id])
  {
  }

  /** The collection, the authority and the manifest say the same: the in-scope points are the authority's rows, all of
      them readable, nothing else is stored, and the manifest has their number, digests and revision. */
  ghost predicate Corresponds(sha: string -> string, m: Manifest, st: Store, rows: seq<Row>, revision: nat) {
    && DistinctIds(rows) && ScopeEquals(m.scope, st, rows)
    && SnapshotOf(sha, revision, rows) == AuthoritySnapshot(m.revision, m.pointCount, m.idsDigest, m.textDigest)
    && AllReadable(m.config, m.scope, st)
    && forall id :: id in st ==> Matches(OfScope(m.scope), st[id])
  }

  /** A run keeps it so wherever it stops. */
  lemma RunCorresponds(sha: string -> string, m: Manifest, st: Store, st': Store, rows: seq<Row>, revision: nat)
    requires Corresponds(sha, m, st, rows, revision) && RunState(sha, m.config, m.scope, st, st')
    ensures Corresponds(sha, m, st', rows, revision)
  {
    RunKeepsSource(sha, m.config, m.scope, st, st');
    RunKeepsOwner(sha, m.config, m.scope, st, st');
    forall r | r in rows
      ensures exists id :: id in st' && InScope(m.scope, st'[id]) && HasText(st'[id]) && RowAt(id, st'[id]) == r
    {
      var id :| id in st && InScope(m.scope, st[id]) && HasText(st[id]) && RowAt(id, st[id]) == r;
      assert RowAt(id, st'[id]) == r;
    }
  }

  lemma RunListable(sha: string -> string, cfg: Config, scope: Scope, st: Store, st': Store,
                    paging: Option<Cursor -> Cursor>, listing: Option<Cursor -> seq<PointId>>, limit: nat)
    requires RunState(sha, cfg, scope, st, st') && Listable(paging, listing, limit, scope, st)
    ensures Listable(paging, listing, limit, scope, st')
  {
    RunKeepsSource(sha, cfg, scope, st, st');
    assert Selected(st', LexicalScope(scope)) == Selected(st, LexicalScope(scope));
    var last: nat :| ListsScope(paging.value, listing.value, limit, scope, st, last);
    assert ListsScope(paging.value, listing.value, limit, scope, st', last);
  }

  lemma EnumeratedReadable(cfg: Config, scope: Scope, st: Store, ids: seq<PointId>)
    requires AllReadable(cfg, scope, st) && Enumerates(scope, ids, st)
    ensures ReadableAll(cfg, scope, ids, st)
  {
    forall i | 0 <= i < |ids| ensures ids[i] in st && Readable(scope, cfg, st[ids[i]]) {
      assert ids[i] in ids;
    }
  }

  /** Every enumeration of such a collection reads the authority's rows, in some order. */
  lemma EnumerationIsRows(cfg: Config, scope: Scope, st: Store, ids: seq<PointId>, rows: seq<Row>)
    requires Enumerates(scope, ids, st) && ReadableAll(cfg, scope, ids, st)
    requires DistinctIds(rows) && ScopeEquals(scope, st, rows)
    ensures multiset(RowsOf(ids, st)) == multiset(rows) && |ids| == |rows|
  {
    var mine := RowsOf(ids, st);
    forall i, j | 0 <= i < j < |mine| ensures mine[i] != mine[j] {
      assert ids[i] in ids && ids[j] in ids;
      assert ids[i] in Selected(st, LexicalScope(scope)) && ids[j] in Selected(st, LexicalScope(scope));
    }
    forall r ensures r in mine <==> r in rows {
      if r in mine {
        var i :| 0 <= i < |mine| && mine[i] == r;
        assert ids[i] in ids && ids[i] in Selected(st, LexicalScope(scope));
      }
      if r in rows {
        var id :| id in st && InScope(scope, st[id]) && HasText(st[id]) && RowAt(id, st[id]) == r;
        assert id in Selected(st, LexicalScope(scope));
        var i :| 0 <= i < |ids| && ids[i] == id;
        assert mine[i] == r;
      }
    }
    DistinctRows(rows);
    DistinctPermutes(mine, rows);
    SameElements(mine, rows);
  }

  lemma DistinctRows(rows: seq<Row>)
    requires DistinctIds(rows)
    ensures Distinct(rows)
  {
  }

  /** Every scan of such a collection reports the manifest's count and digests, however the pages fell. */
  lemma ScanCorresponds(sha: string -> string, m: Manifest, st: Store, rows: seq<Row>, revision: nat, ids: seq<PointId>)
    requires Corresponds(sha, m, st, rows, revision) && Enumerates(m.scope, ids, st)
    ensures ReadableAll(m.config, m.scope, ids, st)
    ensures var scan := ScanOf(sha, m.config, m.scope, ids, st);
            && scan.pointCount == m.pointCount == |Selected(st, LexicalScope(m.scope))|
            && scan.idsDigest == m.idsDigest && scan.textDigest == m.textDigest
  {
    EnumeratedReadable(m.config, m.scope, st, ids);
    EnumerationIsRows(m.config, m.scope, st, ids, rows);
    DigestsOfPermutation(sha, rows, RowsOf(ids, st));
    DistinctSetSize(ids, Selected(st, LexicalScope(m.scope)));
  }

  /** The in-scope points that are not complete. */
  ghost function Unfinished(sha: string -> string, cfg: Config, scope: Scope, st: Store): set<PointId> {
    set id | id in st && InScope(scope, st[id]) && !IsComplete(sha, cfg, st[id])
  }

  /** A scan of a finished collection finds every point complete. */
  lemma FinishedCounts(sha: string -> string, cfg: Config, scope: Scope, st: Store, ids: seq<PointId>)
    requires Enumerates(scope, ids, st) && ReadableAll(cfg, scope, ids, st) && Unfinished(sha, cfg, scope, st) == {}
    ensures var scan := ScanOf(sha, cfg, scope, ids, st);
            scan.completePoints == scan.pointCount && scan.pendingPoints == 0
  {
    forall i | 0 <= i < |ids| ensures IsComplete(sha, cfg, st[ids[i]]) {
      assert ids[i] in ids && ids[i] in Selected(st, LexicalScope(scope));
      assert ids[i] !in Unfinished(sha, cfg, scope, st);
    }
    CompleteCountFull(sha, cfg, ids, st);
  }
}
