/** Points of the base-text collection: the client-side scope check, the completeness test and the
    two writes of the backfill (scripts/backfill_bm25_v2.py:650-700, 1050-1122), with the theory of
    stopping between those writes and running again. */
module Points {
  import opened Prelude
  import opened Sorting
  import opened Strings
  import opened Digests

  /** A scalar payload value. A missing key and an explicit null read the same. */
  datatype Value = Null | Bool(b: bool) | Int(n: int) | Str(s: string) | Other

  /** An entry of the stored `versions` list with its printed form: a string, another scalar, or an object or list,
      which cannot be put into a set. */
  datatype Tag = Text(s: string) | Printed(s: string) | Unhashable(s: string)

  /** The reserved `_lexical` object. `extra` holds the keys the backfill never looks at. */
  datatype Lexical = Lexical(versions: Option<seq<Tag>>, schema: Value, filtering: Value,
                             sourceText: Value, extra: map<string, Value>)

  datatype Payload = Payload(tenantId: Value, datasetId: Value, contentType: Value, level: Value,
                             enabled: Value, text: Value, lexical: Option<Lexical>)

  /** A stored point; `vector` is the text its bm25_v2 vector was encoded from. */
  datatype Point = Point(payload: Option<Payload>, vector: Option<string>)

  datatype PointId = IntId(n: nat) | StrId(s: string)

  datatype Scope = Scope(tenantId: string, datasetId: string)
  datatype Config = Config(schema: string, filtering: string)

  type Store = map<PointId, Point>

  const NO_LEXICAL := Lexical(None, Null, Null, Null, map[])
  const LEXICAL_V1 := "lexical_v1"
  const BM25_V2 := "bm25_v2"

  datatype PointError =
    | NoPayload | EscapedScope | InvalidLevel | EmptyText | ConflictingSchema | ConflictingFiltering
    | UnhashableVersion

  datatype PointView = PointView(text: string, complete: bool)

  function IdText(id: PointId): string {
    match id
    case IntId(n) => Decimal(n)
    case StrId(s) => s
  }

  /** Printed identifiers can be read back. */
  lemma IdTextExact(id: PointId)
    ensures match id
            case IntId(n) => Digits(IdText(id)) && ParseDecimal(IdText(id)) == n
            case StrId(s) => IdText(id) == s
  {
    if id.IntId? { DecimalRoundTrip(id.n); }
  }

  /** The server-side filter: tenant, dataset, and text/L3/enabled with absence as the default. */
  predicate InScope(scope: Scope, p: Point) {
    && p.payload.Some?
    && var d := p.payload.value;
    && d.tenantId == Str(scope.tenantId)
    && d.datasetId == Str(scope.datasetId)
    && d.contentType in {Null, Str("text")}
    && d.level in {Null, Int(3)}
    && d.enabled in {Null, Bool(true)}
  }

  predicate HasText(p: Point) {
    p.payload.Some? && p.payload.value.text.Str? && !Blank(p.payload.value.text.s)
  }

  function TextOf(p: Point): string
    requires HasText(p)
  {
    p.payload.value.text.s
  }

  function LexicalOf(p: Point): Lexical {
    if p.payload.Some? && p.payload.value.lexical.Some? then p.payload.value.lexical.value
    else NO_LEXICAL
  }

  predicate Hashable(versions: Option<seq<Tag>>) {
    versions.Some? ==> forall t :: t in versions.value ==> !t.Unhashable?
  }

  /** Fingerprints are either absent or the expected ones, and the version list can be read as a set. */
  predicate Compatible(cfg: Config, p: Point) {
    && LexicalOf(p).schema in {Null, Str(cfg.schema)}
    && LexicalOf(p).filtering in {Null, Str(cfg.filtering)}
    && Hashable(LexicalOf(p).versions)
  }

  predicate Versioned(versions: Option<seq<Tag>>) {
    versions.Some? && Text(LEXICAL_V1) in versions.value && Text(BM25_V2) in versions.value
  }

  /** The receipt part of a complete point. */
  predicate MarkerComplete(sha: string -> string, cfg: Config, p: Point) {
    && HasText(p)
    && LexicalOf(p).schema == Str(cfg.schema)
    && LexicalOf(p).filtering == Str(cfg.filtering)
    && LexicalOf(p).sourceText == Str(sha(TextOf(p)))
    && Versioned(LexicalOf(p).versions)
  }

  predicate IsComplete(sha: string -> string, cfg: Config, p: Point) {
    p.vector.Some? && MarkerComplete(sha, cfg, p)
  }

  /** `_point_state`, test by test in the order of the script. */
  function PointState(sha: string -> string, scope: Scope, cfg: Config, p: Point): Result<PointView, PointError> {
    if p.payload.None? then Err(NoPayload)
    else
      var d := p.payload.value;
      if d.tenantId != Str(scope.tenantId) || d.datasetId != Str(scope.datasetId) then Err(EscapedScope)
      else
        var contentType := if d.contentType.Null? then Str("text") else d.contentType;
        if contentType != Str("text") then Err(EscapedScope)
        else
          var level := if d.level.Null? then Int(3) else d.level;
          if !level.Int? then Err(InvalidLevel)
          else
            var enabled := if d.enabled.Null? then Bool(true) else d.enabled;
            if level.n != 3 || !enabled.Bool? || !enabled.b then Err(EscapedScope)
            else if !d.text.Str? || Blank(d.text.s) then Err(EmptyText)
            else
              var lexical := if d.lexical.Some? then d.lexical.value else NO_LEXICAL;
              if !lexical.schema.Null? && lexical.schema != Str(cfg.schema) then Err(ConflictingSchema)
              else if !lexical.filtering.Null? && lexical.filtering != Str(cfg.filtering) then Err(ConflictingFiltering)
              else if !Hashable(lexical.versions) then Err(UnhashableVersion)
              else
                var complete :=
                  && p.vector.Some?
                  && lexical.schema == Str(cfg.schema)
                  && lexical.filtering == Str(cfg.filtering)
                  && lexical.sourceText == Str(sha(d.text.s))
                  && Versioned(lexical.versions);
                Ok(PointView(d.text.s, complete))
  }

  /** What the client check accepts: exactly the server's scope, with text and nothing to object to. */
  predicate Readable(scope: Scope, cfg: Config, p: Point) {
    InScope(scope, p) && HasText(p) && Compatible(cfg, p)
  }

  /** The client check accepts the points of the server filter that have text, no conflict and a version list that can
      be read as a set; the two answers are the two notions above. */
  lemma PointStateExact(sha: string -> string, scope: Scope, cfg: Config, p: Point)
    ensures PointState(sha, scope, cfg, p).Ok? <==> Readable(scope, cfg, p)
    ensures Readable(scope, cfg, p) ==>
              PointState(sha, scope, cfg, p).value == PointView(TextOf(p), IsComplete(sha, cfg, p))
  {
    if p.payload.Some? {
      var d := p.payload.value;
      assert d.level in {Null, Int(3)} <==> d.level.Null? || d.level == Int(3);
      assert d.enabled in {Null, Bool(true)} <==> d.enabled.Null? || d.enabled == Bool(true);
      assert d.contentType in {Null, Str("text")} <==> d.contentType.Null? || d.contentType == Str("text");
    }
  }

  // ---- The version list -------------------------------------------------------------------------

  function PrintedForms(tags: seq<Tag>): (r: seq<string>)
    ensures |r| == |tags| && forall i :: 0 <= i < |tags| ==> r[i] == tags[i].s
  {
    seq(|tags|, i requires 0 <= i < |tags| => tags[i].s)
  }

  function AsTags(names: seq<string>): (r: seq<Tag>)
    ensures |r| == |names| && forall i :: 0 <= i < |names| ==> r[i] == Text(names[i])
  {
    seq(|names|, i requires 0 <= i < |names| => Text(names[i]))
  }

  /** `list(dict.fromkeys(s))`: first occurrences, in order. */
  function Dedup(s: seq<string>): (r: seq<string>)
    ensures forall x :: x in r <==> x in s
    ensures forall i, j :: 0 <= i < j < |r| ==> r[i] != r[j]
  {
    if s == [] then []
    else
      var last := s[|s| - 1];
      var init := Dedup(s[..|s| - 1]);
      assert s == s[..|s| - 1] + [last];
      if last in s[..|s| - 1] then init else init + [last]
  }

  lemma {:induction false} DedupFixed(s: seq<string>)
    requires Distinct(s)
    ensures Dedup(s) == s
  {
    if s != [] {
      var init := s[..|s| - 1];
      DedupFixed(init);
      assert s[|s| - 1] !in init;
      assert s == init + [s[|s| - 1]];
    }
  }

  lemma DedupAppendKnown(s: seq<string>, x: string)
    requires x in s
    ensures Dedup(s + [x]) == Dedup(s)
  {
    assert (s + [x])[..|s|] == s;
  }

  /** The first occurrences of a beginning are a beginning of the first occurrences. */
  lemma {:induction false} DedupPrefix(s: seq<string>, t: seq<string>)
    ensures Dedup(s) <= Dedup(s + t)
  {
    if t == [] {
      assert s + t == s;
    } else {
      DedupPrefix(s, t[..|t| - 1]);
      assert (s + t)[..|s + t| - 1] == s + t[..|t| - 1];
    }
  }

  /** The list the marker write stores. */
  function MarkedVersions(versions: Option<seq<Tag>>): seq<Tag> {
    var kept := if versions.Some? then PrintedForms(versions.value) else [];
    AsTags(Dedup(kept + [LEXICAL_V1, BM25_V2]))
  }

  /** A list the marker write would store unchanged: strings only, no repetition, both names. */
  ghost predicate Normalised(versions: Option<seq<Tag>>) {
    && Versioned(versions)
    && (forall t :: t in versions.value ==> t.Text?)
    && Distinct(PrintedForms(versions.value))
  }

  /** Both names are already there: appending them again changes nothing. */
  lemma MarkedVersionsOfVersioned(vs: seq<Tag>)
    requires Versioned(Some(vs))
    ensures MarkedVersions(Some(vs)) == AsTags(Dedup(PrintedForms(vs)))
  {
    var kept := PrintedForms(vs);
    var i :| 0 <= i < |vs| && vs[i] == Text(LEXICAL_V1);
    var j :| 0 <= j < |vs| && vs[j] == Text(BM25_V2);
    assert kept[i] == LEXICAL_V1 && kept[j] == BM25_V2;
    assert kept + [LEXICAL_V1, BM25_V2] == (kept + [LEXICAL_V1]) + [BM25_V2];
    DedupAppendKnown(kept, LEXICAL_V1);
    DedupAppendKnown(kept + [LEXICAL_V1], BM25_V2);
  }

  lemma AsTagsOfPrinted(vs: seq<Tag>)
    ensures (forall t :: t in vs ==> t.Text?) <==> AsTags(PrintedForms(vs)) == vs
  {
    var r := AsTags(PrintedForms(vs));
    if r == vs {
      forall t | t in vs ensures t.Text? {
        var k :| 0 <= k < |vs| && vs[k] == t;
        assert r[k] == Text(PrintedForms(vs)[k]);
      }
    }
    if forall t :: t in vs ==> t.Text? {
      forall k | 0 <= k < |vs| ensures r[k] == vs[k] {
        assert vs[k] in vs && PrintedForms(vs)[k] == vs[k].s;
      }
    }
  }

  /** Normalised lists are exactly the fixed points of the marker write among versioned lists. */
  lemma MarkedVersionsFixed(versions: Option<seq<Tag>>)
    requires Versioned(versions)
    ensures Normalised(versions) <==> MarkedVersions(versions) == versions.value
  {
    var vs := versions.value;
    var kept := PrintedForms(vs);
    MarkedVersionsOfVersioned(vs);
    AsTagsOfPrinted(vs);
    if Normalised(versions) {
      DedupFixed(kept);
    }
    if AsTags(Dedup(kept)) == vs {
      assert PrintedForms(AsTags(Dedup(kept))) == Dedup(kept);
    }
  }

  /** Whatever was stored, the marker write stores a normalised list. */
  lemma MarkedVersionsNormalised(versions: Option<seq<Tag>>)
    ensures Normalised(Some(MarkedVersions(versions)))
  {
    var kept := if versions.Some? then PrintedForms(versions.value) else [];
    var all := kept + [LEXICAL_V1, BM25_V2];
    var names := Dedup(all);
    assert all[|kept|] == LEXICAL_V1 && all[|kept| + 1] == BM25_V2;
    assert LEXICAL_V1 in names && BM25_V2 in names;
    var i :| 0 <= i < |names| && names[i] == LEXICAL_V1;
    var j :| 0 <= j < |names| && names[j] == BM25_V2;
    assert AsTags(names)[i] == Text(LEXICAL_V1) && AsTags(names)[j] == Text(BM25_V2);
    assert PrintedForms(AsTags(names)) == names;
  }

  // ---- The two writes ---------------------------------------------------------------------------

  /** The vector update of one point. */
  function Vectored(p: Point, text: string): Point {
    p.(vector := Some(text))
  }

  /** The `_lexical` object the marker update stores over the one read from the page. */
  function MarkerFor(sha: string -> string, cfg: Config, existing: Lexical, text: string): Lexical {
    existing.(versions := Some(MarkedVersions(existing.versions)), schema := Str(cfg.schema),
              filtering := Str(cfg.filtering), sourceText := Str(sha(text)))
  }

  function WithLexical(p: Point, lexical: Lexical): Point {
    if p.payload.Some? then p.(payload := Some(p.payload.value.(lexical := Some(lexical)))) else p
  }

  function Marked(sha: string -> string, cfg: Config, p: Point): Point
    requires HasText(p)
  {
    WithLexical(p, MarkerFor(sha, cfg, LexicalOf(p), TextOf(p)))
  }

  /** What an uninterrupted run makes of one point. */
  function FinalPoint(sha: string -> string, cfg: Config, p: Point): Point {
    if !HasText(p) || IsComplete(sha, cfg, p) then p else Marked(sha, cfg, Vectored(p, TextOf(p)))
  }

  /** Every state a run can leave a point in, wherever it stops. */
  ghost predicate Reachable(sha: string -> string, cfg: Config, p: Point, q: Point) {
    || q == p
    || (HasText(p) && !IsComplete(sha, cfg, p) && q == Vectored(p, TextOf(p)))
    || q == FinalPoint(sha, cfg, p)
  }

  /** No write touches anything but the vector and `_lexical`: scope and text stay. */
  lemma ReachableKeepsSource(sha: string -> string, cfg: Config, scope: Scope, p: Point, q: Point)
    requires Reachable(sha, cfg, p, q)
    ensures InScope(scope, q) == InScope(scope, p)
    ensures HasText(q) == HasText(p)
    ensures HasText(p) ==> TextOf(q) == TextOf(p)
    ensures Readable(scope, cfg, p) ==> Readable(scope, cfg, q)
    ensures IsComplete(sha, cfg, p) ==> q == p
  {
  }

  /** A finished point passes the completeness test, whatever it looked like before. */
  lemma FinalPointComplete(sha: string -> string, cfg: Config, p: Point)
    requires HasText(p)
    ensures IsComplete(sha, cfg, FinalPoint(sha, cfg, p))
    ensures Reachable(sha, cfg, p, FinalPoint(sha, cfg, p))
  {
    MarkedVersionsNormalised(LexicalOf(p).versions);
  }

  /** What a finished point is made of: a vector of its text, the names of the old version list in their order with the
      two names of the scheme, the old extra keys, and a payload otherwise untouched. */
  lemma FinalPointKeeps(sha: string -> string, cfg: Config, p: Point)
    requires HasText(p) && !IsComplete(sha, cfg, p)
    ensures var q := FinalPoint(sha, cfg, p);
            && q.vector == Some(TextOf(p))
            && q.payload.Some? && q.payload.value.(lexical := p.payload.value.lexical) == p.payload.value
            && LexicalOf(q).extra == LexicalOf(p).extra && LexicalOf(q).versions.Some?
            && var names := if LexicalOf(p).versions.Some? then PrintedForms(LexicalOf(p).versions.value) else [];
            && Dedup(names) <= PrintedForms(LexicalOf(q).versions.value)
            && forall name :: name in PrintedForms(LexicalOf(q).versions.value) <==>
                 name in names || name in {LEXICAL_V1, BM25_V2}
  {
    var versions := LexicalOf(p).versions;
    var kept := if versions.Some? then PrintedForms(versions.value) else [];
    var names := Dedup(kept + [LEXICAL_V1, BM25_V2]);
    DedupPrefix(kept, [LEXICAL_V1, BM25_V2]);
    assert PrintedForms(AsTags(names)) == names;
    assert LexicalOf(FinalPoint(sha, cfg, p)).versions == Some(AsTags(names));
  }

  /** A point that only lacks its vector keeps its marker if the run stops before rewriting it.
      It is settled when rewriting would store the same list. */
  ghost predicate Settled(sha: string -> string, cfg: Config, p: Point) {
    MarkerComplete(sha, cfg, p) && p.vector.None? ==> Normalised(LexicalOf(p).versions)
  }

  /** Stopping anywhere and running again ends where an uninterrupted run ends, exactly on the
      settled points. */
  lemma ResumePointExact(sha: string -> string, cfg: Config, p: Point)
    ensures (forall q :: Reachable(sha, cfg, p, q) ==> FinalPoint(sha, cfg, q) == FinalPoint(sha, cfg, p))
       <==> Settled(sha, cfg, p)
  {
    if HasText(p) && !IsComplete(sha, cfg, p) {
      var v := Vectored(p, TextOf(p));
      FinalPointComplete(sha, cfg, p);
      assert Reachable(sha, cfg, p, v);
      assert LexicalOf(v) == LexicalOf(p) && IsComplete(sha, cfg, v) == MarkerComplete(sha, cfg, p);
      if MarkerComplete(sha, cfg, p) {
        MarkedVersionsFixed(LexicalOf(p).versions);
        assert p.vector.None?;
        assert FinalPoint(sha, cfg, p) == v <==> Normalised(LexicalOf(p).versions);
        assert FinalPoint(sha, cfg, v) == v;
      } else {
        assert FinalPoint(sha, cfg, v) == FinalPoint(sha, cfg, p);
      }
    }
  }

  /** Even on an unsettled point only the spelling of the version list can differ. */
  lemma ResumePointUpToVersions(sha: string -> string, cfg: Config, p: Point, q: Point)
    requires HasText(p) && Reachable(sha, cfg, p, q)
    ensures IsComplete(sha, cfg, FinalPoint(sha, cfg, q))
    ensures var a, b := LexicalOf(FinalPoint(sha, cfg, q)), LexicalOf(FinalPoint(sha, cfg, p));
            a.(versions := b.versions) == b
    ensures FinalPoint(sha, cfg, q).vector == FinalPoint(sha, cfg, p).vector
  {
    FinalPointComplete(sha, cfg, p);
    FinalPointComplete(sha, cfg, q);
  }

  /** The window is real: a repeated name behind a missing vector survives a stop and a rerun. */
  lemma UnsettledPointExample(sha: string -> string)
    ensures var cfg := Config("s", "f");
            var marker := Lexical(Some([Text(LEXICAL_V1), Text(BM25_V2), Text(BM25_V2)]), Str("s"), Str("f"),
                                  Str(sha("t")), map[]);
            var p := Point(Some(Payload(Str("a"), Str("b"), Null, Null, Null, Str("t"), Some(marker))), None);
            var v := Vectored(p, "t");
            && Reachable(sha, cfg, p, v)
            && FinalPoint(sha, cfg, v) != FinalPoint(sha, cfg, p)
  {
    var cfg := Config("s", "f");
    var tags := [Text(LEXICAL_V1), Text(BM25_V2), Text(BM25_V2)];
    var marker := Lexical(Some(tags), Str("s"), Str("f"), Str(sha("t")), map[]);
    var p := Point(Some(Payload(Str("a"), Str("b"), Null, Null, Null, Str("t"), Some(marker))), None);
    assert !Blank("t") by { assert !IsSpace("t"[0]); }
    assert PrintedForms(tags)[1] == PrintedForms(tags)[2];
    assert tags[0] == Text(LEXICAL_V1) && tags[1] == Text(BM25_V2);
    assert !Settled(sha, cfg, p);
    ResumePointExact(sha, cfg, p);
    MarkedVersionsFixed(Some(tags));
    assert FinalPoint(sha, cfg, p) != Vectored(p, "t");
  }

  /** Stopping twice leaves nothing that stopping once could not leave. */
  lemma ReachableComposes(sha: string -> string, cfg: Config, p: Point, q: Point, r: Point)
    requires Reachable(sha, cfg, p, q) && Reachable(sha, cfg, q, r)
    ensures Reachable(sha, cfg, p, r)
  {
    if HasText(p) { FinalPointComplete(sha, cfg, p); }
    if q != p && q != FinalPoint(sha, cfg, p) && !IsComplete(sha, cfg, q) {
      assert LexicalOf(q) == LexicalOf(p) && Vectored(q, TextOf(q)) == q;
    }
  }

  // ---- Vectors stay honest ----------------------------------------------------------------------

  /** A point that passes the completeness test carries a vector of its present text. */
  ghost predicate Honest(sha: string -> string, cfg: Config, p: Point) {
    IsComplete(sha, cfg, p) ==> p.vector == Some(TextOf(p))
  }

  /** Neither write can make a point complete with a vector of some other text. */
  lemma ReachableHonest(sha: string -> string, cfg: Config, p: Point, q: Point)
    requires Honest(sha, cfg, p) && Reachable(sha, cfg, p, q)
    ensures Honest(sha, cfg, q)
  {
  }

  // ---- Whole stores -----------------------------------------------------------------------------

  /** A store a run can leave behind when nobody else writes. */
  ghost predicate RunState(sha: string -> string, cfg: Config, scope: Scope, st: Store, st': Store) {
    && st'.Keys == st.Keys
    && (forall id :: id in st && InScope(scope, st[id]) ==> Reachable(sha, cfg, st[id], st'[id]))
    && (forall id :: id in st && !InScope(scope, st[id]) ==> st'[id] == st[id])
  }

  /** The store an uninterrupted run ends in. */
  function FinalStore(sha: string -> string, cfg: Config, scope: Scope, st: Store): Store {
    map id | id in st :: if InScope(scope, st[id]) then FinalPoint(sha, cfg, st[id]) else st[id]
  }

  ghost predicate AllSettled(sha: string -> string, cfg: Config, scope: Scope, st: Store) {
    forall id :: id in st && InScope(scope, st[id]) ==> Settled(sha, cfg, st[id])
  }

  lemma ResumeStore(sha: string -> string, cfg: Config, scope: Scope, st: Store, st': Store)
    requires AllSettled(sha, cfg, scope, st) && RunState(sha, cfg, scope, st, st')
    ensures FinalStore(sha, cfg, scope, st') == FinalStore(sha, cfg, scope, st)
  {
    forall id | id in st
      ensures FinalStore(sha, cfg, scope, st')[id] == FinalStore(sha, cfg, scope, st)[id]
    {
      if InScope(scope, st[id]) {
        ResumePointExact(sha, cfg, st[id]);
        ReachableKeepsSource(sha, cfg, scope, st[id], st'[id]);
      }
    }
  }

  /** Crash and resume, exactly: every stopped run followed by a full one ends in the store of one
      uninterrupted run if and only if every in-scope point is settled. */
  lemma CrashResumeExact(sha: string -> string, cfg: Config, scope: Scope, st: Store)
    ensures (forall st' :: RunState(sha, cfg, scope, st, st') ==>
               FinalStore(sha, cfg, scope, st') == FinalStore(sha, cfg, scope, st))
       <==> AllSettled(sha, cfg, scope, st)
  {
    if AllSettled(sha, cfg, scope, st) {
      forall st' | RunState(sha, cfg, scope, st, st')
        ensures FinalStore(sha, cfg, scope, st') == FinalStore(sha, cfg, scope, st)
      {
        ResumeStore(sha, cfg, scope, st, st');
      }
    } else {
      var id :| id in st && InScope(scope, st[id]) && !Settled(sha, cfg, st[id]);
      ResumePointExact(sha, cfg, st[id]);
      var q :| Reachable(sha, cfg, st[id], q) && FinalPoint(sha, cfg, q) != FinalPoint(sha, cfg, st[id]);
      var st' := st[id := q];
      ReachableKeepsSource(sha, cfg, scope, st[id], q);
      assert RunState(sha, cfg, scope, st, st');
      assert FinalStore(sha, cfg, scope, st')[id] != FinalStore(sha, cfg, scope, st)[id];
    }
  }

  /** The uninterrupted end is itself a state of the run, with every in-scope point complete. */
  lemma FinalStoreReached(sha: string -> string, cfg: Config, scope: Scope, st: Store)
    ensures RunState(sha, cfg, scope, st, FinalStore(sha, cfg, scope, st))
    ensures forall id :: id in st && InScope(scope, st[id]) && HasText(st[id]) ==>
              IsComplete(sha, cfg, FinalStore(sha, cfg, scope, st)[id])
  {
    forall id | id in st && InScope(scope, st[id]) && HasText(st[id])
      ensures IsComplete(sha, cfg, FinalStore(sha, cfg, scope, st)[id])
    {
      FinalPointComplete(sha, cfg, st[id]);
    }
  }

  /** A run only ever adds complete points. */
  lemma CompleteNeverShrinks(sha: string -> string, cfg: Config, scope: Scope, st: Store, st': Store, id: PointId)
    requires RunState(sha, cfg, scope, st, st') && id in st && IsComplete(sha, cfg, st[id])
    ensures st'[id] == st[id]
  {
    if InScope(scope, st[id]) {
      ReachableKeepsSource(sha, cfg, scope, st[id], st'[id]);
    }
  }

  // ---- Honest vectors ---------------------------------------------------------------------------

  /** Every in-scope point that calls itself complete carries a vector of its present text. */
  ghost predicate HonestStore(sha: string -> string, cfg: Config, scope: Scope, st: Store) {
    forall id :: id in st && InScope(scope, st[id]) ==> Honest(sha, cfg, st[id])
  }

  /** Every in-scope point carries a vector of its present text. */
  ghost predicate VectorsOfTexts(scope: Scope, st: Store) {
    forall id :: id in st && InScope(scope, st[id]) ==> HasText(st[id]) && st[id].vector == Some(TextOf(st[id]))
  }

  /** A run keeps a store honest wherever it stops. */
  lemma RunKeepsHonest(sha: string -> string, cfg: Config, scope: Scope, st: Store, st': Store)
    requires HonestStore(sha, cfg, scope, st) && RunState(sha, cfg, scope, st, st')
    ensures HonestStore(sha, cfg, scope, st')
  {
    forall id | id in st' && InScope(scope, st'[id]) ensures Honest(sha, cfg, st'[id]) {
      if InScope(scope, st[id]) { ReachableHonest(sha, cfg, st[id], st'[id]); }
    }
  }

  // ---- Any number of stops ----------------------------------------------------------------------

  /** Each store is one that a run from the one before it can leave behind. */
  ghost predicate StoppedRuns(sha: string -> string, cfg: Config, scope: Scope, stores: seq<Store>) {
    stores != [] && forall k :: 0 <= k < |stores| - 1 ==> RunState(sha, cfg, scope, stores[k], stores[k + 1])
  }

  lemma RunStatesCompose(sha: string -> string, cfg: Config, scope: Scope, st: Store, st': Store, st'': Store)
    requires RunState(sha, cfg, scope, st, st') && RunState(sha, cfg, scope, st', st'')
    ensures RunState(sha, cfg, scope, st, st'')
  {
    forall id | id in st && InScope(scope, st[id]) ensures Reachable(sha, cfg, st[id], st''[id]) {
      ReachableKeepsSource(sha, cfg, scope, st[id], st'[id]);
      ReachableComposes(sha, cfg, st[id], st'[id], st''[id]);
    }
  }

  /** Any number of stopped runs leaves nothing that one could not leave. */
  lemma {:induction false} StoppedRunsAreOne(sha: string -> string, cfg: Config, scope: Scope, stores: seq<Store>)
    requires StoppedRuns(sha, cfg, scope, stores)
    ensures RunState(sha, cfg, scope, stores[0], stores[|stores| - 1])
  {
    if |stores| > 1 {
      var earlier := stores[..|stores| - 1];
      StoppedRunsAreOne(sha, cfg, scope, earlier);
      RunStatesCompose(sha, cfg, scope, stores[0], earlier[|earlier| - 1], stores[|stores| - 1]);
    }
  }
}
