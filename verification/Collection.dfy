/** The two stores the backfill talks to. Every client call is one step: first the other parties may
    move, then the call may fail, be cut off, or take effect (scripts/backfill_bm25_v2.py:61-75,
    125-260, 547-600, 1144-1208). */
module Stores {
  import opened Prelude
  import opened Strings
  import opened Digests
  import opened Points

  /** A call raised, or the whole process was killed. Only the first can be caught. */
  datatype Fault = Raised | Killed

  type Reply<+T> = Result<T, Fault>

  datatype Manifest = Manifest(scope: Scope, config: Config, lexicalSha: string, revision: nat,
                               pointCount: nat, idsDigest: string, textDigest: string)

  /** The `knowledge_bm25_v2_backfill` metadata entry, by its `status`. */
  datatype Receipt = Missing | Invalidated(reason: string) | Complete(body: ReceiptBody)

  datatype ReceiptBody = ReceiptBody(scope: Scope, config: Config, pointCount: nat, idsDigest: string,
                                     textDigest: string, revision: nat)

  function CompletionReceipt(m: Manifest): ReceiptBody {
    ReceiptBody(m.scope, m.config, m.pointCount, m.idsDigest, m.textDigest, m.revision)
  }

  datatype LexicalProfile = LexicalProfile(config: Config, activeVersion: string, shadowWrites: bool, sha: string)

  datatype Profile = Profile(owner: Option<Scope>, lexical: Option<LexicalProfile>, sparseIdf: bool, indexesReady: bool)

  /** A collection the backfill may work on: owned by the scope, on the first lexical version with shadow writes,
      with sparse IDF and its indexes, and with the manifest's configuration if there is a manifest. */
  predicate Usable(profile: Profile, scope: Scope, expected: Option<Manifest>) {
    && !Blank(scope.tenantId) && !Blank(scope.datasetId)
    && profile.owner == Some(scope) && profile.lexical.Some? && profile.sparseIdf && profile.indexesReady
    && profile.lexical.value.activeVersion == LEXICAL_V1 && profile.lexical.value.shadowWrites
    && (expected.Some? ==>
          profile.lexical.value.config == expected.value.config
              && profile.lexical.value.sha == expected.value.lexicalSha)
  }

  /** `_validate_collection_profile`: the configuration, or a refusal. */
  function ValidateProfile(profile: Profile, scope: Scope, expected: Option<Manifest>): (r: Reply<Config>)
    ensures r.Ok? <==> Usable(profile, scope, expected)
    ensures r.Ok? ==> r.value == profile.lexical.value.config && (expected.Some? ==> r.value == expected.value.config)
  {
    if Blank(scope.tenantId) || Blank(scope.datasetId) then Err(Raised)
    else if profile.owner != Some(scope) || profile.lexical.None? then Err(Raised)
    else
      var lexical := profile.lexical.value;
      if lexical.activeVersion != LEXICAL_V1 || !lexical.shadowWrites then Err(Raised)
      else if !profile.sparseIdf || !profile.indexesReady then Err(Raised)
      else if expected.Some? && (expected.value.config != lexical.config || expected.value.lexicalSha != lexical.sha)
      then Err(Raised)
      else Ok(lexical.config)
  }

  datatype Filter = Everything | OfDataset(datasetId: string) | OfScope(scope: Scope) | LexicalScope(scope: Scope)

  predicate Matches(f: Filter, p: Point) {
    match f
    case Everything => true
    case OfDataset(d) => p.payload.Some? && p.payload.value.datasetId == Str(d)
    case OfScope(s) =>
      p.payload.Some? && p.payload.value.tenantId == Str(s.tenantId) && p.payload.value.datasetId == Str(s.datasetId)
    case LexicalScope(s) => InScope(s, p)
  }

  function Selected(st: Store, f: Filter): set<PointId> {
    set id | id in st && Matches(f, st[id])
  }

  /** A scroll offset: none asks for the first page, and none in a reply ends the listing. */
  type Cursor = Option<nat>

  datatype Record = Record(id: PointId, point: Point)
  datatype Page = Page(records: seq<Record>, next: Cursor)
  datatype Info = Info(profile: Profile, receipt: Receipt)

  /** A scrolled page tells the truth about the points it shows; it promises nothing about which. */
  predicate Truthful(records: seq<Record>, st: Store, scope: Scope) {
    forall k :: 0 <= k < |records| ==>
      records[k].id in st && st[records[k].id] == records[k].point && InScope(scope, records[k].point)
  }

  function IdsShown(records: seq<Record>): (r: seq<PointId>)
    ensures |r| == |records| && forall k :: 0 <= k < |r| ==> r[k] == records[k].id
  {
    seq(|records|, k requires 0 <= k < |records| => records[k].id)
  }

  function VectorUpdate(st: Store, batch: seq<(PointId, string)>): Store {
    if batch == [] then st
    else
      var (id, text) := batch[0];
      VectorUpdate(if id in st then st[id := Vectored(st[id], text)] else st, batch[1..])
  }

  function PayloadUpdate(st: Store, id: PointId, lexical: Lexical): Store {
    if id in st then st[id := WithLexical(st[id], lexical)] else st
  }

  /** The offset of the k-th page against a server with fixed paging. */
  function Offset(next: Cursor -> Cursor, k: nat): Cursor {
    if k == 0 then None else next(Offset(next, k - 1))
  }

  /** A listing goes no further than page k: it ends there, or the offset repeats and the reader raises. */
  predicate StopsAt(next: Cursor -> Cursor, k: nat) {
    next(Offset(next, k)).None? || next(Offset(next, k)) == Offset(next, k)
  }

  /** These are identifiers of in-scope points. */
  ghost predicate AllInScope(ids: seq<PointId>, st: Store, scope: Scope) {
    forall k :: 0 <= k < |ids| ==> ids[k] in st && InScope(scope, st[ids[k]])
  }

  /** The Qdrant collection. Identifiers come from a finite space. With `paging` the next offset is a fixed
      function of the offset asked for, and with `listing` a page shows the in-scope ones of fixed identifiers; without
      them paging and pages are arbitrary. */
  class Collection {
    var points: Store
    var receipt: Receipt
    var profile: Profile
    const universe: set<PointId>
    const paging: Option<Cursor -> Cursor>
    const listing: Option<Cursor -> seq<PointId>>
    /** How many more pages the process lives to see. */
    var lifetime: nat
    /** Steps taken by runtime writers, and the value of that clock when the backfill last stored
        a complete receipt. */
    ghost var writerSteps: nat
    ghost var publishedAt: nat
    /** Writes the backfill has sent. */
    ghost var mutations: nat
    /** Writer steps, changes of the profile, and calls that raised, were cut off or were not acknowledged. */
    ghost var disturbances: nat

    ghost predicate Valid()
      reads this
    {
      points.Keys <= universe
    }

    /** Clocks do not run backwards, and without a disturbance no writer moved and the profile is as before. */
    twostate predicate Onward()
      reads this
    {
      && old(disturbances) <= disturbances && old(writerSteps) <= writerSteps && lifetime <= old(lifetime)
      && (disturbances == old(disturbances) ==> writerSteps == old(writerSteps) && profile == old(profile))
    }

    /** Only others moved. A writer that moves puts the sentinel in the receipt in the same step. */
    twostate predicate OthersOnly()
      reads this
    {
      && OwnReceiptOnly()
      && mutations == old(mutations)
      && (writerSteps == old(writerSteps) ==> points == old(points))
    }

    /** The receipt is as before, unless a writer moved: then it is not complete. */
    twostate predicate OwnReceiptOnly()
      reads this
    {
      && Onward()
      && publishedAt == old(publishedAt)
      && (writerSteps == old(writerSteps) ==> receipt == old(receipt))
      && (writerSteps > old(writerSteps) ==> !receipt.Complete?)
    }

    /** Any number of writer steps, and any change of the collection profile. */
    method Interleave()
      requires Valid()
      modifies this
      ensures Valid() && OthersOnly() && lifetime == old(lifetime)
    {
      var reconfigured: bool := *;
      if reconfigured {
        profile := *;
        disturbances := disturbances + 1;
      }
      var writes: nat := *;
      if writes > 0 {
        disturbances := disturbances + 1;
        var replacement: Store := *;
        points := map id | id in replacement && id in universe :: replacement[id];
        receipt := Invalidated("runtime writer");
        writerSteps := writerSteps + writes;
      }
    }

    /** A call may raise or be cut off. */
    method Attempt() returns (fault: Option<Fault>)
      modifies this`disturbances
      ensures disturbances == old(disturbances) + if fault.Some? then 1 else 0
    {
      fault := *;
      if fault.Some? { disturbances := disturbances + 1; }
    }

    method GetCollection() returns (r: Reply<Info>)
      requires Valid()
      modifies this
      ensures Valid() && OthersOnly()
      ensures r.Ok? ==> r.value == Info(profile, receipt)
      ensures r.Err? ==> disturbances > old(disturbances)
    {
      Interleave();
      var fault := Attempt();
      r := if fault.Some? then Err(fault.value) else Ok(Info(profile, receipt));
    }

    /** The read-only inference probe. */
    method QueryPoints() returns (r: Reply<()>)
      requires Valid()
      modifies this
      ensures Valid() && OthersOnly()
      ensures r.Err? ==> disturbances > old(disturbances)
    {
      Interleave();
      var fault := Attempt();
      r := if fault.Some? then Err(fault.value) else Ok(());
    }

    method Count(f: Filter) returns (r: Reply<nat>)
      requires Valid()
      modifies this
      ensures Valid() && OthersOnly()
      ensures r.Ok? ==> r.value == |Selected(points, f)|
      ensures r.Err? ==> disturbances > old(disturbances)
    {
      Interleave();
      var fault := Attempt();
      if fault.Some? { return Err(fault.value); }
      var count: nat := |Selected(points, f)|;
      r := Ok(count);
    }

    /** One page: any in-scope points, in any order, possibly repeated or skipped. A process whose time is up is cut
        off. */
    method Scroll(scope: Scope, limit: nat, offset: Cursor) returns (r: Reply<Page>)
      requires Valid()
      modifies this
      ensures Valid() && OthersOnly()
      ensures r.Ok? ==> Truthful(r.value.records, points, scope) && |r.value.records| <= limit
      ensures r.Ok? && paging.Some? ==> r.value.next == paging.value(offset)
      ensures r.Ok? && listing.Some? && AllInScope(listing.value(offset), points, scope)
                && |listing.value(offset)| <= limit ==>
                IdsShown(r.value.records) == listing.value(offset)
      ensures r.Err? ==> disturbances > old(disturbances)
      ensures r.Ok? ==> lifetime < old(lifetime)
    {
      Interleave();
      var fault := Attempt();
      if fault.Some? { return Err(fault.value); }
      if lifetime == 0 {
        disturbances := disturbances + 1;
        return Err(Killed);
      }
      lifetime := lifetime - 1;
      var ids: seq<PointId> := *;
      if listing.Some? { ids := listing.value(offset); }
      var records: seq<Record> := [];
      for i := 0 to |ids|
        invariant Truthful(records, points, scope) && |records| <= limit
        invariant AllInScope(ids, points, scope) && |ids| <= limit ==> IdsShown(records) == ids[..i]
      {
        if |records| < limit && ids[i] in points && InScope(scope, points[ids[i]]) {
          records := records + [Record(ids[i], points[ids[i]])];
        }
      }
      var next: Cursor := *;
      if paging.Some? { next := paging.value(offset); }
      r := Ok(Page(records, next));
    }

    /** A failed or unacknowledged vector update may have taken effect for any first part of its batch. */
    method UpdateVectors(batch: seq<(PointId, string)>) returns (r: Reply<bool>, ghost written: nat)
      requires Valid()
      modifies this
      ensures Valid() && OwnReceiptOnly() && mutations == old(mutations) + 1
      ensures written <= |batch| && (r == Ok(true) ==> written == |batch|)
      ensures writerSteps == old(writerSteps) ==> points == VectorUpdate(old(points), batch[..written])
      ensures r != Ok(true) ==> disturbances > old(disturbances)
    {
      Interleave();
      mutations := mutations + 1;
      var fault := Attempt();
      var length: nat :| length <= |batch|;
      written := length;
      VectorUpdateKeys(points, batch[..length]);
      points := VectorUpdate(points, batch[..length]);
      r := if fault.Some? then Err(fault.value) else Ok(length == |batch|);
      if r == Ok(false) { disturbances := disturbances + 1; }
    }

    method SetPayload(id: PointId, lexical: Lexical) returns (r: Reply<bool>)
      requires Valid()
      modifies this
      ensures Valid() && OwnReceiptOnly() && mutations == old(mutations) + 1
      ensures writerSteps == old(writerSteps) ==>
                || points == PayloadUpdate(old(points), id, lexical)
                || (points == old(points) && r != Ok(true))
      ensures r != Ok(true) ==> disturbances > old(disturbances)
    {
      Interleave();
      mutations := mutations + 1;
      var fault := Attempt();
      var effective: bool := *;
      if effective { points := PayloadUpdate(points, id, lexical); }
      r := if fault.Some? then Err(fault.value) else Ok(effective);
      if r == Ok(false) { disturbances := disturbances + 1; }
    }

    /** Store a receipt. Storing a complete one sets `publishedAt`. */
    method UpdateReceipt(stored: Receipt) returns (r: Reply<bool>)
      requires Valid()
      modifies this
      ensures Valid() && Onward()
      ensures r != Ok(true) ==> disturbances > old(disturbances)
      ensures mutations == old(mutations) + 1
      ensures writerSteps == old(writerSteps) ==> points == old(points)
      ensures receipt == stored || (writerSteps == old(writerSteps) && receipt == old(receipt)) || !receipt.Complete?
      ensures r == Ok(true) ==> receipt == stored
      ensures publishedAt == if r == Ok(true) && stored.Complete? then writerSteps else old(publishedAt)
    {
      Interleave();
      mutations := mutations + 1;
      var fault := Attempt();
      var effective: bool := *;
      if effective { receipt := stored; }
      r := if fault.Some? then Err(fault.value) else Ok(effective);
      if r == Ok(false) { disturbances := disturbances + 1; }
      if r == Ok(true) && stored.Complete? { publishedAt := writerSteps; }
    }
  }

  lemma {:induction false} VectorUpdateKeys(st: Store, batch: seq<(PointId, string)>)
    ensures VectorUpdate(st, batch).Keys == st.Keys
  {
    if batch != [] {
      var (id, text) := batch[0];
      VectorUpdateKeys(if id in st then st[id := Vectored(st[id], text)] else st, batch[1..]);
    }
  }

  /** What one update writes at one identifier when the batch agrees on the text. */
  lemma {:induction false} VectorUpdateAt(st: Store, batch: seq<(PointId, string)>, id: PointId, text: string)
    requires id in st
    requires forall k :: 0 <= k < |batch| && batch[k].0 == id ==> batch[k].1 == text
    ensures VectorUpdate(st, batch).Keys == st.Keys
    ensures VectorUpdate(st, batch)[id] ==
              if exists k :: 0 <= k < |batch| && batch[k].0 == id then Vectored(st[id], text) else st[id]
  {
    VectorUpdateKeys(st, batch);
    if batch != [] {
      var st' := if batch[0].0 in st then st[batch[0].0 := Vectored(st[batch[0].0], batch[0].1)] else st;
      VectorUpdateAt(st', batch[1..], id, text);
      if exists k :: 0 <= k < |batch[1..]| && batch[1..][k].0 == id {
        var k :| 0 <= k < |batch[1..]| && batch[1..][k].0 == id;
        assert batch[k + 1].0 == id;
      }
      if k :| 0 <= k < |batch| && batch[k].0 == id && k != 0 {
        assert batch[1..][k - 1].0 == id;
      }
    }
  }

  // ---- The authority ----------------------------------------------------------------------------

  datatype AuthoritySnapshot = AuthoritySnapshot(revision: nat, pointCount: nat, idsDigest: string, textDigest: string)

  function SnapshotOf(sha: string -> string, revision: nat, rows: seq<Row>): AuthoritySnapshot {
    AuthoritySnapshot(revision, |rows|, PointIdsDigest(sha, Ids(rows)), SourceTextDigest(sha, rows))
  }

  /** PostgreSQL: the active base-text rows of the dataset. They may change between snapshots. */
  class Authority {
    var rows: seq<Row>
    var revision: nat
    /** Changes of rows or revision, and snapshots that raised or were cut off. */
    ghost var disturbances: nat

    /** Without a disturbance rows and revision are as before. */
    twostate predicate Onward()
      reads this
    {
      && old(disturbances) <= disturbances
      && (disturbances == old(disturbances) ==> rows == old(rows) && revision == old(revision))
    }

    /** A snapshot is refused only for a repeated identifier. */
    method Snapshot(sha: string -> string) returns (r: Reply<AuthoritySnapshot>)
      modifies this
      ensures Onward()
      ensures r.Ok? ==> DistinctIds(rows) && r.value == SnapshotOf(sha, revision, rows)
      ensures r.Err? ==> disturbances > old(disturbances) || !DistinctIds(rows)
    {
      var moved: bool, fault: Option<Fault> := *, *;
      if moved { rows, revision := *, *; }
      if moved || fault.Some? { disturbances := disturbances + 1; }
      if fault.Some? { return Err(fault.value); }
      var i := 0;
      var seen: set<string> := {};
      while i < |rows|
        invariant 0 <= i <= |rows|
        invariant seen == set k | 0 <= k < i :: rows[k].id
        invariant forall j, k :: 0 <= j < k < i ==> rows[j].id != rows[k].id
      {
        if rows[i].id in seen { return Err(Raised); }
        seen := seen + {rows[i].id};
        i := i + 1;
      }
      r := Ok(SnapshotOf(sha, revision, rows));
    }
  }
}
