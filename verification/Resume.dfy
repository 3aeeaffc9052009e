/** Running again after a stop (scripts/backfill_bm25_v2.py:1289-1336): every check passes, however the
    rerun's pages fall. */
module Resuming {
  import opened Sorting
  import opened Strings
  import opened Digests
  import opened Points
  import opened Stores
  import opened Scans
  import opened Matching
  import opened Backfill

  lemma ReadableEverywhere(cfg: Config, scope: Scope, st: Store, ids: seq<PointId>, ids': seq<PointId>)
    requires Enumerates(scope, ids, st) && ReadableAll(cfg, scope, ids, st) && Enumerates(scope, ids', st)
    ensures ReadableAll(cfg, scope, ids', st)
  {
    forall i | 0 <= i < |ids'| ensures ids'[i] in st && Readable(scope, cfg, st[ids'[i]]) {
      assert ids'[i] in ids;
      var j :| 0 <= j < |ids| && ids[j] == ids'[i];
    }
  }

  lemma VerifiedRowsDistinct(sha: string -> string, m: Manifest, st: Store, rows: seq<Row>, ids: seq<PointId>,
                             scan: ScopeScan)
    requires IdealHash(sha) && CleanStore(st) && CleanRows(rows)
    requires Verified(sha, m, st, rows, ids, scan)
    ensures DistinctIds(RowsOf(ids, st))
  {
    var mine := RowsOf(ids, st);
    SourceTextDigestInjective(sha, mine, rows);
    forall i, j | 0 <= i < j < |mine| ensures mine[i].id != mine[j].id {
      if mine[i].id == mine[j].id { NoRepeatedId(mine, rows, i, j); }
    }
  }

  /** Rerunning after a stop passes every check: in any state of a run from a verified store, every full
      scan, paged in any way, again matches the manifest and the authority. */
  lemma RerunPassesChecks(sha: string -> string, m: Manifest, st: Store, rows: seq<Row>, ids: seq<PointId>,
                          scan: ScopeScan,
                          st': Store, ids': seq<PointId>)
    requires IdealHash(sha) && CleanStore(st) && CleanRows(rows)
    requires Verified(sha, m, st, rows, ids, scan)
    requires RunState(sha, m.config, m.scope, st, st') && Enumerates(m.scope, ids', st')
    ensures ReadableAll(m.config, m.scope, ids', st')
    ensures Verified(sha, m, st', rows, ids', ScanOf(sha, m.config, m.scope, ids', st'))
  {
    RunKeepsSource(sha, m.config, m.scope, st, st');
    SameSourceRows(m.config, m.scope, st, st', ids);
    ReadableEverywhere(m.config, m.scope, st', ids, ids');
    EnumerationsAgree(m.config, m.scope, st', ids, ids');
    VerifiedRowsDistinct(sha, m, st, rows, ids, scan);
    DigestsOfPermutation(sha, RowsOf(ids, st), RowsOf(ids', st'));
    RunKeepsOwner(sha, m.config, m.scope, st, st');
  }

  /** At the uninterrupted end the completion count is the manifest's point count, so the last check
      before publication passes too. */
  lemma FinishedRunCounts(sha: string -> string, m: Manifest, st: Store, rows: seq<Row>, ids: seq<PointId>,
                          scan: ScopeScan,
                          ids': seq<PointId>)
    requires IdealHash(sha) && CleanStore(st) && CleanRows(rows)
    requires Verified(sha, m, st, rows, ids, scan)
    requires Enumerates(m.scope, ids', FinalStore(sha, m.config, m.scope, st))
    ensures var end := FinalStore(sha, m.config, m.scope, st);
            && ReadableAll(m.config, m.scope, ids', end)
            && ScanOf(sha, m.config, m.scope, ids', end).completePoints == m.pointCount
            && ScanOf(sha, m.config, m.scope, ids', end).pendingPoints == 0
  {
    var end := FinalStore(sha, m.config, m.scope, st);
    FinalStoreReached(sha, m.config, m.scope, st);
    RerunPassesChecks(sha, m, st, rows, ids, scan, end, ids');
    RunKeepsSource(sha, m.config, m.scope, st, end);
    forall i | 0 <= i < |ids'| ensures IsComplete(sha, m.config, end[ids'[i]]) {
      assert ids'[i] in st && InScope(m.scope, st[ids'[i]]) && HasText(st[ids'[i]]);
    }
    CompleteCountFull(sha, m.config, ids', end);
  }

  /** Stop any number of times, then run to the end: every store on the way is a
      state of the first run, so its checks pass, and on a settled store the end is the one the first run would have
      reached. */
  lemma ResumedEndsSame(sha: string -> string, m: Manifest, stores: seq<Store>)
    requires StoppedRuns(sha, m.config, m.scope, stores)
    ensures var first, last := stores[0], stores[|stores| - 1];
            && RunState(sha, m.config, m.scope, first, last)
            && RunState(sha, m.config, m.scope, last, FinalStore(sha, m.config, m.scope, last))
            && (AllSettled(sha, m.config, m.scope, first) ==>
                  FinalStore(sha, m.config, m.scope, last) == FinalStore(sha, m.config, m.scope, first))
  {
    StoppedRunsAreOne(sha, m.config, m.scope, stores);
    FinalStoreReached(sha, m.config, m.scope, stores[|stores| - 1]);
    if AllSettled(sha, m.config, m.scope, stores[0]) {
      ResumeStore(sha, m.config, m.scope, stores[0], stores[|stores| - 1]);
    }
  }
}
