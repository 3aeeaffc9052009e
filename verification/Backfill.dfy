/** `run_backfill` (scripts/backfill_bm25_v2.py:1125-1388): verify, clear the old receipt, write, verify,
    publish, verify again, and clear on any failure after publication. */
module Backfill {
  import opened Prelude
  import opened Sorting
  import opened Strings
  import opened Digests
  import opened Points
  import opened Stores
  import opened Scans
  import opened Matching
  import opened Applying

  datatype Outcome =
    | DryRun(scan: ScopeScan)
    | Published(body: ReceiptBody, written: nat)
    | Failed(fault: Fault)
    | ClearFailed(fault: Fault)

  /** How far a run got. */
  datatype Stage = Checking | Clearing | Writing | Publishing

  // ---- One verification -------------------------------------------------------------------------

  predicate MatchesManifest(scan: ScopeScan, m: Manifest) {
    scan.pointCount == m.pointCount && scan.idsDigest == m.idsDigest && scan.textDigest == m.textDigest
  }

  predicate MatchesAuthority(scan: ScopeScan, a: AuthoritySnapshot) {
    scan.pointCount == a.pointCount && scan.idsDigest == a.idsDigest && scan.textDigest == a.textDigest
  }

  predicate AuthorityMatchesManifest(a: AuthoritySnapshot, m: Manifest) {
    a.revision == m.revision && a.pointCount == m.pointCount && a.idsDigest == m.idsDigest
        && a.textDigest == m.textDigest
  }

  /** What a verification establishes about a store nobody else touched meanwhile. */
  ghost predicate Verified(sha: string -> string, m: Manifest, st: Store, rows: seq<Row>, ids: seq<PointId>,
                           scan: ScopeScan)
  {
    && Enumerates(m.scope, ids, st)
    && ReadableAll(m.config, m.scope, ids, st)
    && scan == ScanOf(sha, m.config, m.scope, ids, st)
    && MatchesManifest(scan, m)
    && DistinctIds(rows)
    && scan.pointCount == |rows|
    && scan.idsDigest == PointIdsDigest(sha, Ids(rows))
    && scan.textDigest == SourceTextDigest(sha, rows)
    && (forall id :: id in st ==> Matches(OfScope(m.scope), st[id]))
  }

  /** Nothing to object to: a proper batch size, a usable collection that corresponds to manifest and authority, and a
      listing that names its scope. */
  ghost predicate Favourable(q: Collection, authority: Authority, sha: string -> string, m: Manifest, batchSize: int)
    reads q, authority
  {
    && 1 <= batchSize <= 1000
    && Usable(q.profile, m.scope, Some(m))
    && Corresponds(sha, m, q.points, authority.rows, authority.revision)
    && Listable(q.paging, q.listing, batchSize, m.scope, q.points)
  }

  /** Nobody else wrote or changed anything, and every call was answered and acknowledged. */
  twostate predicate Quiet(q: Collection, authority: Authority)
    reads q, authority
  {
    q.disturbances == old(q.disturbances) && authority.disturbances == old(authority.disturbances)
  }

  /** Scan, exact counts, the two comparisons, and a second authority snapshot equal to the first. */
  method VerifyScope(q: Collection, authority: Authority, sha: string -> string, m: Manifest, first: AuthoritySnapshot,
                     batchSize: nat)
    returns (r: Reply<ScopeScan>, ghost ids: seq<PointId>)
    requires q.Valid()
    modifies q, authority
    ensures q.Valid() && q.OthersOnly()
    ensures r.Ok? && q.writerSteps == old(q.writerSteps) ==> Verified(sha, m, q.points, authority.rows, ids, r.value)
    ensures r.Ok? ==> SnapshotOf(sha, authority.revision, authority.rows) == first && MatchesManifest(r.value, m)
    ensures authority.Onward()
    ensures Quiet(q, authority) && old(Favourable(q, authority, sha, m, batchSize))
              && first == SnapshotOf(sha, old(authority.revision), old(authority.rows)) ==>
              && r.Ok?
              && (Unfinished(sha, m.config, m.scope, q.points) == {} ==>
                    r.value.completePoints == m.pointCount && r.value.pendingPoints == 0)
  {
    ghost var plain := Favourable(q, authority, sha, m, batchSize);
    ids := [];
    var scan: Reply<ScopeScan>;
    scan, ids := ScanScope(q, sha, m.scope, m.config, batchSize);
    if scan.Err? { return scan, ids; }
    if plain && q.disturbances == old(q.disturbances) {
      ScanCorresponds(sha, m, q.points, authority.rows, authority.revision, ids);
      if Unfinished(sha, m.config, m.scope, q.points) == {} {
        FinishedCounts(sha, m.config, m.scope, q.points, ids);
      }
    }
    var counts := ValidateExactScopeCounts(q, m.scope, scan.value.pointCount);
    if counts.Err? { return Err(counts.error), ids; }
    if !MatchesManifest(scan.value, m) || !MatchesAuthority(scan.value, first) { return Err(Raised), ids; }
    var second := authority.Snapshot(sha);
    if second.Err? { return Err(second.error), ids; }
    if second.value != first { return Err(Raised), ids; }
    if q.writerSteps == old(q.writerSteps) {
      CoverageByCounting(m.config, m.scope, ids, q.points);
    }
    r := scan;
  }

  /** The store passes every check of the manifest against some state of the authority. */
  ghost predicate Approved(sha: string -> string, m: Manifest, st: Store) {
    exists rows, ids, scan :: Verified(sha, m, st, rows, ids, scan)
  }

  /** The manifest's own promise, spelled out on a store and the authority's rows. */
  ghost predicate CoveredBy(sha: string -> string, m: Manifest, st: Store, rows: seq<Row>) {
    && ScopeEquals(m.scope, st, rows)
    && (forall id :: id in st && InScope(m.scope, st[id]) ==> IsComplete(sha, m.config, st[id]))
    && (forall id :: id in st ==> Matches(OfScope(m.scope), st[id]))
  }

  ghost predicate CleanStore(st: Store) {
    forall id :: id in st ==> Clean(IdText(id))
  }

  /** A verification with full completion counts makes the store exactly the authority, complete. */
  lemma VerifiedCovers(sha: string -> string, m: Manifest, st: Store, rows: seq<Row>, ids: seq<PointId>,
                       scan: ScopeScan)
    requires IdealHash(sha) && CleanStore(st) && CleanRows(rows)
    requires Verified(sha, m, st, rows, ids, scan) && scan.completePoints == m.pointCount
    ensures CoveredBy(sha, m, st, rows)
  {
    DigestsPinScope(sha, m.config, m.scope, ids, st, rows);
    VerifiedAllComplete(sha, m, st, rows, ids, scan);
  }

  /** Completion counts need no hash assumption. */
  lemma VerifiedAllComplete(sha: string -> string, m: Manifest, st: Store, rows: seq<Row>, ids: seq<PointId>,
                            scan: ScopeScan)
    requires Verified(sha, m, st, rows, ids, scan) && scan.completePoints == m.pointCount
    ensures forall id :: id in st && InScope(m.scope, st[id]) ==> IsComplete(sha, m.config, st[id])
  {
    CompleteCountFull(sha, m.config, ids, st);
    forall id | id in st && InScope(m.scope, st[id]) ensures IsComplete(sha, m.config, st[id]) {
      assert id in Selected(st, LexicalScope(m.scope));
      var i :| 0 <= i < |ids| && ids[i] == id;
    }
  }

  /** What a verification found is all that a run needs of the collection: a dry run that nobody disturbed leaves
      nothing to object to. */
  lemma VerifiedCorresponds(sha: string -> string, m: Manifest, st: Store, rows: seq<Row>, revision: nat,
                            ids: seq<PointId>, scan: ScopeScan)
    requires IdealHash(sha) && CleanStore(st) && CleanRows(rows)
    requires Verified(sha, m, st, rows, ids, scan) && revision == m.revision
    ensures Corresponds(sha, m, st, rows, revision)
  {
    DigestsPinScope(sha, m.config, m.scope, ids, st, rows);
    forall id | id in st && InScope(m.scope, st[id]) ensures Readable(m.scope, m.config, st[id]) {
      assert id in Selected(st, LexicalScope(m.scope));
      var i :| 0 <= i < |ids| && ids[i] == id;
    }
  }

  // ---- The receipt ------------------------------------------------------------------------------

  /** `_clear_completion_receipt`. When it returns normally no complete receipt is left. */
  method ClearCompletionReceipt(q: Collection, scope: Scope) returns (r: Reply<()>)
    requires q.Valid()
    modifies q
    ensures q.Valid() && old(q.writerSteps) <= q.writerSteps
    ensures q.writerSteps == old(q.writerSteps) ==> q.points == old(q.points)
    ensures r.Ok? ==> !q.receipt.Complete?
    ensures q.receipt.Complete? ==> q.receipt == old(q.receipt)
    ensures q.publishedAt == old(q.publishedAt)
    ensures q.Onward()
    ensures q.disturbances == old(q.disturbances) && Usable(old(q.profile), scope, None) ==> r.Ok?
  {
    var info :- q.GetCollection();
    var _ :- ValidateProfile(info.profile, scope, None);
    if !info.receipt.Complete? { return Ok(()); }
    var invalidated := Invalidated("backfill_apply");
    var updated :- q.UpdateReceipt(invalidated);
    if !updated { return Err(Raised); }
    var observed :- q.GetCollection();
    if observed.receipt != invalidated { return Err(Raised); }
    r := Ok(());
  }

  /** `_publish_completion_receipt`. */
  method PublishCompletionReceipt(q: Collection, m: Manifest) returns (r: Reply<ReceiptBody>)
    requires q.Valid()
    modifies q
    ensures q.Valid() && old(q.writerSteps) <= q.writerSteps
    ensures q.writerSteps == old(q.writerSteps) ==> q.points == old(q.points)
    ensures r.Ok? ==>
              && r.value == CompletionReceipt(m)
              && q.receipt == Complete(r.value)
              && q.publishedAt == q.writerSteps
    ensures q.receipt.Complete? ==> q.receipt in {old(q.receipt), Complete(CompletionReceipt(m))}
    ensures q.Onward()
    ensures q.disturbances == old(q.disturbances) && Usable(old(q.profile), m.scope, Some(m)) ==> r.Ok?
  {
    var info :- q.GetCollection();
    var _ :- ValidateProfile(info.profile, m.scope, Some(m));
    var receipt := CompletionReceipt(m);
    var updated :- q.UpdateReceipt(Complete(receipt));
    if !updated { return Err(Raised); }
    var refreshed :- q.GetCollection();
    var _ :- ValidateProfile(refreshed.profile, m.scope, Some(m));
    if refreshed.receipt != Complete(receipt) { return Err(Raised); }
    r := Ok(receipt);
  }

  /** The guarded block: publish, verify once more, and read the receipt again. The final read is the
      last call, so success speaks about the store as that read saw it. */
  method PublishAndVerify(q: Collection, authority: Authority, sha: string -> string, m: Manifest,
                          first: AuthoritySnapshot,
                          batchSize: nat)
    returns (r: Reply<ReceiptBody>, ghost ids: seq<PointId>, ghost scan: ScopeScan)
    requires q.Valid()
    modifies q, authority
    ensures q.Valid() && old(q.writerSteps) <= q.writerSteps
    ensures q.writerSteps == old(q.writerSteps) ==> q.points == old(q.points)
    ensures r.Ok? ==>
              && r.value == CompletionReceipt(m)
              && q.receipt == Complete(r.value)
              && q.writerSteps == q.publishedAt
              && SnapshotOf(sha, authority.revision, authority.rows) == first
              && Verified(sha, m, q.points, authority.rows, ids, scan)
              && scan.completePoints == m.pointCount
    ensures q.receipt.Complete? ==> q.receipt in {old(q.receipt), Complete(CompletionReceipt(m))}
    ensures q.Onward() && authority.Onward()
    ensures Quiet(q, authority) && old(Favourable(q, authority, sha, m, batchSize))
              && first == SnapshotOf(sha, old(authority.revision), old(authority.rows))
              && Unfinished(sha, m.config, m.scope, old(q.points)) == {} ==>
              r.Ok?
  {
    ids := [];
    scan := ScopeScan(0, "", "", 0, 0);
    var receipt := PublishCompletionReceipt(q, m);
    if receipt.Err? { return Err(receipt.error), ids, scan; }
    var verified: Reply<ScopeScan>;
    verified, ids := VerifyScope(q, authority, sha, m, first, batchSize);
    if verified.Err? { return Err(verified.error), ids, scan; }
    scan := verified.value;
    if verified.value.completePoints != m.pointCount { return Err(Raised), ids, scan; }
    var current := q.GetCollection();
    if current.Err? { return Err(current.error), ids, scan; }
    if current.value.receipt != Complete(receipt.value) { return Err(Raised), ids, scan; }
    r := receipt;
  }

  /** Everything before the first mutation: authority, profile, probe, scan and counts. */
  method Preflight(q: Collection, authority: Authority, sha: string -> string, m: Manifest, batchSize: int)
    returns (r: Reply<(AuthoritySnapshot, ScopeScan)>, ghost ids: seq<PointId>)
    requires q.Valid()
    modifies q, authority
    ensures q.Valid() && q.OthersOnly()
    ensures r.Ok? ==>
              && 1 <= batchSize <= 1000
              && AuthorityMatchesManifest(r.value.0, m)
              && SnapshotOf(sha, authority.revision, authority.rows) == r.value.0
    ensures r.Ok? && q.writerSteps == old(q.writerSteps) ==> Verified(sha, m, q.points, authority.rows, ids, r.value.1)
    ensures authority.Onward()
    ensures Quiet(q, authority) && old(Favourable(q, authority, sha, m, batchSize)) ==> r.Ok?
  {
    ids := [];
    if !(1 <= batchSize <= 1000) { return Err(Raised), ids; }
    var first := authority.Snapshot(sha);
    if first.Err? { return Err(first.error), ids; }
    if !AuthorityMatchesManifest(first.value, m) { return Err(Raised), ids; }
    var info := q.GetCollection();
    if info.Err? { return Err(info.error), ids; }
    var config := ValidateProfile(info.value.profile, m.scope, Some(m));
    if config.Err? { return Err(config.error), ids; }
    var probe := q.QueryPoints();
    if probe.Err? { return Err(probe.error), ids; }
    var before: Reply<ScopeScan>;
    before, ids := VerifyScope(q, authority, sha, m, first.value, batchSize);
    if before.Err? { return Err(before.error), ids; }
    r := Ok((first.value, before.value));
  }

  // ---- The write pass and its verification --------------------------------------------------------

  /** A pass after which everything is complete has visited every point that was not. */
  lemma PassMissedNothing(sha: string -> string, cfg: Config, scope: Scope, st: Store, now: Store,
                          visited: seq<PointId>)
    requires Passed(sha, cfg, scope, st, now, visited) && Unfinished(sha, cfg, scope, now) == {}
    ensures UnfinishedOf(sha, cfg, st, visited) == Unfinished(sha, cfg, scope, st)
  {
    PassedIsBoundary(sha, cfg, scope, st, now, visited);
    forall id | id in Unfinished(sha, cfg, scope, st) ensures id in visited {
      assert id !in Unfinished(sha, cfg, scope, now);
    }
  }

  /** A pass that was shown the whole scope leaves nothing unfinished. */
  lemma PassFinishes(sha: string -> string, cfg: Config, scope: Scope, st: Store, now: Store, visited: seq<PointId>)
    requires Passed(sha, cfg, scope, st, now, visited) && Enumerates(scope, visited, st)
    ensures Unfinished(sha, cfg, scope, now) == {}
  {
    PassedIsBoundary(sha, cfg, scope, st, now, visited);
    forall id | id in now && InScope(scope, now[id]) ensures IsComplete(sha, cfg, now[id]) {
      assert id in Selected(st, LexicalScope(scope));
      FinalPointComplete(sha, cfg, st[id]);
    }
  }

  /** The store such a pass leaves is as favourable as the one it found. */
  lemma PassFavours(sha: string -> string, m: Manifest, st: Store, now: Store, visited: seq<PointId>, rows: seq<Row>,
                    revision: nat, paging: Option<Cursor -> Cursor>, listing: Option<Cursor -> seq<PointId>>,
                    limit: nat)
    requires Passed(sha, m.config, m.scope, st, now, visited)
    requires Corresponds(sha, m, st, rows, revision) && Listable(paging, listing, limit, m.scope, st)
    ensures Corresponds(sha, m, now, rows, revision) && Listable(paging, listing, limit, m.scope, now)
  {
    PassedIsBoundary(sha, m.config, m.scope, st, now, visited);
    RunCorresponds(sha, m, st, now, rows, revision);
    RunListable(sha, m.config, m.scope, st, now, paging, listing, limit);
  }

  /** What the end of an undisturbed write pass with its verification says. */
  ghost predicate WrittenWell(sha: string -> string, m: Manifest, st: Store, now: Store) {
    && now == FinalStore(sha, m.config, m.scope, st)
    && Approved(sha, m, now)
    && Unfinished(sha, m.config, m.scope, now) == {}
    && (HonestStore(sha, m.config, m.scope, st) ==> VectorsOfTexts(m.scope, now))
  }

  /** The write pass, the verification after it and its completion counts. */
  method WriteAndVerify(q: Collection, authority: Authority, sha: string -> string, m: Manifest,
                        first: AuthoritySnapshot, batchSize: nat)
    returns (r: Reply<nat>)
    requires q.Valid()
    modifies q, authority
    ensures q.Valid() && q.OwnReceiptOnly() && authority.Onward()
    ensures q.writerSteps == old(q.writerSteps) ==>
              && RunState(sha, m.config, m.scope, old(q.points), q.points)
              && (r.Ok? ==> WrittenWell(sha, m, old(q.points), q.points)
                            && r.value >= |Unfinished(sha, m.config, m.scope, old(q.points))|)
    ensures Quiet(q, authority) && old(Favourable(q, authority, sha, m, batchSize))
              && first == SnapshotOf(sha, old(authority.revision), old(authority.rows)) ==>
              && r == Ok(|Unfinished(sha, m.config, m.scope, old(q.points))|)
              && Favourable(q, authority, sha, m, batchSize)
  {
    ghost var st, plain := q.points, Favourable(q, authority, sha, m, batchSize);
    var written: Reply<nat>;
    ghost var pages: nat, visited: seq<PointId>;
    written, pages, visited := ApplyMissingPoints(q, sha, m.scope, m.config, batchSize);
    if written.Err? { return written; }
    ghost var now := q.points;
    if plain && q.disturbances == old(q.disturbances) {
      PassFavours(sha, m, st, now, visited, authority.rows, authority.revision, q.paging, q.listing, batchSize);
      PassFinishes(sha, m.config, m.scope, st, now, visited);
    }
    var after: Reply<ScopeScan>;
    ghost var ids: seq<PointId>;
    after, ids := VerifyScope(q, authority, sha, m, first, batchSize);
    if after.Err? { return Err(after.error); }
    if after.value.completePoints != m.pointCount || after.value.pendingPoints != 0 { return Err(Raised); }
    if q.writerSteps == old(q.writerSteps) {
      assert Approved(sha, m, q.points);
      PassedIsBoundary(sha, m.config, m.scope, st, now, visited);
      WrittenTruth(sha, m, st, q.points, authority.rows, ids, after.value);
      PassMissedNothing(sha, m.config, m.scope, st, now, visited);
    }
    r := written;
  }

  /** The receipt names the scope and configuration of the manifest and describes the rows of the authority. */
  ghost predicate Describes(sha: string -> string, m: Manifest, body: ReceiptBody, revision: nat, rows: seq<Row>) {
    && body.scope == m.scope && body.config == m.config && body.revision == revision && body.pointCount == |rows|
    && body.idsDigest == PointIdsDigest(sha, Ids(rows)) && body.textDigest == SourceTextDigest(sha, rows)
  }

  /** What a published run says of the store and the authority as the last read saw them. */
  ghost predicate PublishedWell(sha: string -> string, m: Manifest, st: Store, receipt: Receipt, revision: nat,
                                rows: seq<Row>)
  {
    && receipt == Complete(CompletionReceipt(m))
    && Describes(sha, m, receipt.body, revision, rows)
    && AuthorityMatchesManifest(SnapshotOf(sha, revision, rows), m)
    && Unfinished(sha, m.config, m.scope, st) == {}
    && (IdealHash(sha) && CleanStore(st) && CleanRows(rows) ==> CoveredBy(sha, m, st, rows))
  }

  /** The last part of a run: publish and verify, and clear the receipt again after a failure that can be handled. */
  method PublishOrClear(q: Collection, authority: Authority, sha: string -> string, m: Manifest,
                        first: AuthoritySnapshot, batchSize: nat, written: nat)
    returns (r: Outcome)
    requires q.Valid() && !q.receipt.Complete? && AuthorityMatchesManifest(first, m)
    modifies q, authority
    ensures q.Valid() && q.Onward() && authority.Onward()
    ensures !r.DryRun? && (q.writerSteps == old(q.writerSteps) ==> q.points == old(q.points))
    ensures r.Published? ==>
              && r == Published(CompletionReceipt(m), written)
              && q.writerSteps == q.publishedAt
              && PublishedWell(sha, m, q.points, q.receipt, authority.revision, authority.rows)
    ensures r == Failed(Raised) ==> !q.receipt.Complete?
    ensures q.receipt.Complete? ==> q.receipt == Complete(CompletionReceipt(m))
    ensures Quiet(q, authority) && old(Favourable(q, authority, sha, m, batchSize))
              && first == SnapshotOf(sha, old(authority.revision), old(authority.rows))
              && Unfinished(sha, m.config, m.scope, old(q.points)) == {} ==>
              r.Published?
  {
    ghost var ids: seq<PointId>, scan: ScopeScan;
    var receipt: Reply<ReceiptBody>;
    receipt, ids, scan := PublishAndVerify(q, authority, sha, m, first, batchSize);
    if receipt.Err? {
      if receipt.error.Killed? { return Failed(Killed); }
      var undone := ClearCompletionReceipt(q, m.scope);
      if undone.Err? { return ClearFailed(undone.error); }
      return Failed(Raised);
    }
    PublishedTruth(sha, m, q.points, authority.rows, ids, scan);
    r := Published(receipt.value, written);
  }

  // ---- The run ----------------------------------------------------------------------------------

  /** One run, with other writers moving between any two calls and a fault possible at every call.
      - A dry run, or a run refused by its checks, sends no write, and a dry run reports what a verification found.
      - Success means no writer moved between publication and the final receipt read; at that read the
        receipt is the manifest's, and every in-scope point is complete and equal to the authority.
      - Once the old receipt is cleared no complete receipt exists until publication, even if the run
        is killed; a failure after publication that could be handled leaves none either, and one that could
        not leaves at most the manifest's own receipt.
      - If no writer moved at all, every stop leaves a state of the run; nothing is written to a collection
        that does not match the manifest; and from the moment of publication, whatever happens next, the
        store is the uninterrupted end of the run, complete and approved, and every vector is one of the
        point's present text if those that called themselves complete at the start were.
      - If there is nothing to object to and nothing disturbs it, a run succeeds, and reports as many written points as
        were not complete at the start. */
  method RunBackfill(q: Collection, authority: Authority, sha: string -> string, m: Manifest, apply: bool,
                     batchSize: int)
    returns (r: Outcome, ghost stage: Stage)
    requires q.Valid()
    modifies q, authority
    ensures q.Valid() && old(q.writerSteps) <= q.writerSteps
    ensures r.DryRun? <==> !apply && !r.Failed?
    ensures r.DryRun? && q.writerSteps == old(q.writerSteps) ==>
              exists ids :: Verified(sha, m, old(q.points), authority.rows, ids, r.scan)
    ensures stage.Checking? ==> q.mutations == old(q.mutations) && (r.DryRun? || r.Failed?)
    ensures !apply ==> stage.Checking?
    ensures q.writerSteps == old(q.writerSteps) && (r.DryRun? || !stage.Checking?) ==> Approved(sha, m, old(q.points))
    ensures r.Published? ==>
              && stage.Publishing?
              && r.body == CompletionReceipt(m)
              && q.writerSteps == q.publishedAt
              && PublishedWell(sha, m, q.points, q.receipt, authority.revision, authority.rows)
    ensures stage.Writing? ==> !q.receipt.Complete?
    ensures stage.Publishing? && r == Failed(Raised) ==> !q.receipt.Complete?
    ensures stage.Publishing? && q.receipt.Complete? ==> q.receipt == Complete(CompletionReceipt(m))
    ensures q.writerSteps == old(q.writerSteps) ==> RunState(sha, m.config, m.scope, old(q.points), q.points)
    ensures stage.Publishing? && q.writerSteps == old(q.writerSteps) ==>
              WrittenWell(sha, m, old(q.points), q.points)
    ensures r.Published? && q.writerSteps == old(q.writerSteps) ==>
              r.written >= |Unfinished(sha, m.config, m.scope, old(q.points))|
    ensures Quiet(q, authority) && old(Favourable(q, authority, sha, m, batchSize)) ==>
              if apply
              then r == Published(CompletionReceipt(m), |Unfinished(sha, m.config, m.scope, old(q.points))|)
              else r.DryRun?
  {
    stage := Checking;
    ghost var st := q.points;
    var checked: Reply<(AuthoritySnapshot, ScopeScan)>;
    ghost var ids: seq<PointId>;
    checked, ids := Preflight(q, authority, sha, m, batchSize);
    if checked.Err? { return Failed(checked.error), stage; }
    var (first, before) := checked.value;
    assert q.writerSteps == old(q.writerSteps) ==> Verified(sha, m, st, authority.rows, ids, before);
    assert q.writerSteps == old(q.writerSteps) ==> Approved(sha, m, st);
    if !apply { return DryRun(before), stage; }

    stage := Clearing;
    var cleared := ClearCompletionReceipt(q, m.scope);
    if cleared.Err? { return Failed(cleared.error), stage; }

    stage := Writing;
    var written := WriteAndVerify(q, authority, sha, m, first, batchSize);
    if written.Err? { return Failed(written.error), stage; }

    stage := Publishing;
    r := PublishOrClear(q, authority, sha, m, first, batchSize, written.value);
  }

  /** A page boundary at which everything is complete is the uninterrupted end. */
  lemma CompleteBoundaryIsFinal(sha: string -> string, cfg: Config, scope: Scope, st: Store, now: Store)
    requires Boundary(sha, cfg, scope, st, now)
    requires forall id :: id in now && InScope(scope, now[id]) ==> IsComplete(sha, cfg, now[id])
    ensures now == FinalStore(sha, cfg, scope, st)
  {
    forall id | id in st ensures now[id] == FinalStore(sha, cfg, scope, st)[id] {
      if InScope(scope, st[id]) {
        BoundaryIsRunState(sha, cfg, scope, st, now);
        ReachableKeepsSource(sha, cfg, scope, st[id], now[id]);
      }
    }
  }

  /** What a verification with every point complete says after an undisturbed write pass. */
  lemma WrittenTruth(sha: string -> string, m: Manifest, st: Store, now: Store, rows: seq<Row>, ids: seq<PointId>,
                     scan: ScopeScan)
    requires Boundary(sha, m.config, m.scope, st, now)
    requires Verified(sha, m, now, rows, ids, scan) && scan.completePoints == m.pointCount
    ensures now == FinalStore(sha, m.config, m.scope, st)
    ensures forall id :: id in now && InScope(m.scope, now[id]) ==> IsComplete(sha, m.config, now[id])
    ensures HonestStore(sha, m.config, m.scope, st) ==> VectorsOfTexts(m.scope, now)
  {
    VerifiedAllComplete(sha, m, now, rows, ids, scan);
    CompleteBoundaryIsFinal(sha, m.config, m.scope, st, now);
    BoundaryIsRunState(sha, m.config, m.scope, st, now);
    HonestAtEnd(sha, m.config, m.scope, st, now);
  }

  /** What the verification after the publication says, with the hash assumption only for the last part. */
  lemma PublishedTruth(sha: string -> string, m: Manifest, st: Store, rows: seq<Row>, ids: seq<PointId>,
                       scan: ScopeScan)
    requires Verified(sha, m, st, rows, ids, scan) && scan.completePoints == m.pointCount
    ensures forall id :: id in st && InScope(m.scope, st[id]) ==> IsComplete(sha, m.config, st[id])
    ensures IdealHash(sha) && CleanStore(st) && CleanRows(rows) ==> CoveredBy(sha, m, st, rows)
  {
    VerifiedAllComplete(sha, m, st, rows, ids, scan);
    if IdealHash(sha) && CleanStore(st) && CleanRows(rows) { VerifiedCovers(sha, m, st, rows, ids, scan); }
  }

  /** With everything complete, honest vectors at the start mean a vector of the present text on every point. */
  lemma HonestAtEnd(sha: string -> string, cfg: Config, scope: Scope, st: Store, now: Store)
    requires RunState(sha, cfg, scope, st, now)
    requires forall id :: id in now && InScope(scope, now[id]) ==> IsComplete(sha, cfg, now[id])
    ensures HonestStore(sha, cfg, scope, st) ==> VectorsOfTexts(scope, now)
  {
    if HonestStore(sha, cfg, scope, st) {
      RunKeepsHonest(sha, cfg, scope, st, now);
      forall id | id in now && InScope(scope, now[id])
        ensures HasText(now[id]) && now[id].vector == Some(TextOf(now[id]))
      {
        assert Honest(sha, cfg, now[id]);
      }
    }
  }
}
