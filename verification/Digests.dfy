/** The two manifest digests of the backfill (scripts/backfill_bm25_v2.py:703-713): the exact
    characters that are hashed, and what equality of two digests tells. */
module Digests {
  import opened Sorting
  import opened Strings

  /** One base-text point: its printed identifier and its text. */
  datatype Row = Row(id: string, text: string)

  const NUL: char := '\0'

  /** SHA-256 followed by `hexdigest`, idealised: no collisions, and neither of the two separators. */
  ghost predicate IdealHash(sha: string -> string) {
    && (forall x, y :: sha(x) == sha(y) ==> x == y)
    && (forall x :: '\n' !in sha(x) && NUL !in sha(x))
  }

  /** An identifier without a NUL. It may contain line breaks. */
  predicate Clean(id: string) {
    NUL !in id
  }

  ghost predicate CleanRows(rows: seq<Row>) {
    forall r :: r in rows ==> Clean(r.id)
  }

  ghost predicate DistinctIds(rows: seq<Row>) {
    forall i, j :: 0 <= i < j < |rows| ==> rows[i].id != rows[j].id
  }

  predicate RowLeq(a: Row, b: Row) {
    Leq(a.id, b.id)
  }

  function Ids(rows: seq<Row>): (ids: seq<string>)
    ensures |ids| == |rows| && forall i :: 0 <= i < |rows| ==> ids[i] == rows[i].id
  {
    seq(|rows|, i requires 0 <= i < |rows| => rows[i].id)
  }

  function PointIdsDocument(ids: seq<string>): string {
    JoinLines(Sort(Leq, ids))
  }

  function SourceLines(sha: string -> string, rows: seq<Row>): (lines: seq<string>) {
    if rows == [] then [] else [rows[0].id + [NUL] + sha(rows[0].text)] + SourceLines(sha, rows[1..])
  }

  function SourceDocument(sha: string -> string, rows: seq<Row>): string {
    JoinLines(SourceLines(sha, Sort(RowLeq, rows)))
  }

  function PointIdsDigest(sha: string -> string, ids: seq<string>): string {
    sha(PointIdsDocument(ids))
  }

  function SourceTextDigest(sha: string -> string, rows: seq<Row>): string {
    sha(SourceDocument(sha, rows))
  }

  lemma StringOrder(s: seq<string>)
    ensures TotalPreorder(Leq)
    ensures TieFree(Leq, s)
  {
    forall x, y ensures Leq(x, y) || Leq(y, x) { LeqTotal(x, y); }
    forall x, y, z | Leq(x, y) && Leq(y, z) ensures Leq(x, z) { LeqTransitive(x, y, z); }
    forall x, y | x in s && y in s && Leq(x, y) && Leq(y, x) ensures x == y { LeqAntisymmetric(x, y); }
  }

  lemma RowOrder()
    ensures TotalPreorder(RowLeq)
  {
    forall x: Row, y: Row, z: Row | RowLeq(x, y) && RowLeq(y, z) ensures RowLeq(x, z) {
      LeqTransitive(x.id, y.id, z.id);
    }
    forall x: Row, y: Row ensures RowLeq(x, y) || RowLeq(y, x) { LeqTotal(x.id, y.id); }
  }

  lemma DistinctIdsTieFree(rows: seq<Row>)
    requires DistinctIds(rows)
    ensures TieFree(RowLeq, rows)
  {
    forall x, y | x in rows && y in rows && RowLeq(x, y) && RowLeq(y, x) ensures x == y {
      LeqAntisymmetric(x.id, y.id);
      var i :| 0 <= i < |rows| && rows[i] == x;
      var j :| 0 <= j < |rows| && rows[j] == y;
      assert i == j;
    }
  }

  ghost predicate LineSafe(ids: seq<string>) {
    forall x :: x in ids ==> '\n' !in x
  }

  lemma PointIdsDocumentInjective(a: seq<string>, b: seq<string>)
    requires LineSafe(a) && LineSafe(b)
    requires PointIdsDocument(a) == PointIdsDocument(b)
    ensures multiset(a) == multiset(b)
  {
    SortPermutes(Leq, a);
    SortPermutes(Leq, b);
    SameElements(a, Sort(Leq, a));
    SameElements(b, Sort(Leq, b));
    JoinLinesInjective(Sort(Leq, a), Sort(Leq, b));
  }

  /** The identifier digest is a digest of the multiset of identifiers, no less and no more. */
  lemma PointIdsDigestExact(sha: string -> string, a: seq<string>, b: seq<string>)
    requires IdealHash(sha)
    requires LineSafe(a) && LineSafe(b)
    ensures PointIdsDigest(sha, a) == PointIdsDigest(sha, b) <==> multiset(a) == multiset(b)
  {
    if multiset(a) == multiset(b) {
      StringOrder(a);
      SortCanonical(Leq, a, b);
    }
    if PointIdsDigest(sha, a) == PointIdsDigest(sha, b) {
      PointIdsDocumentInjective(a, b);
    }
  }

  /** The document of the rows as they stand: identifier, NUL, digest, line break. */
  lemma {:induction false} RowsDocumentInjective(sha: string -> string, a: seq<Row>, b: seq<Row>)
    requires IdealHash(sha) && CleanRows(a) && CleanRows(b)
    requires JoinLines(SourceLines(sha, a)) == JoinLines(SourceLines(sha, b))
    ensures a == b
  {
    if a != [] && b != [] {
      var x, y := sha(a[0].text), sha(b[0].text);
      var p, q := JoinLines(SourceLines(sha, a[1..])), JoinLines(SourceLines(sha, b[1..]));
      FirstLine(sha, a);
      FirstLine(sha, b);
      assert Clean(a[0].id) && Clean(b[0].id);
      SplitAtSeparator(NUL, a[0].id, x + ['\n'] + p, b[0].id, y + ['\n'] + q);
      SplitAtSeparator('\n', x, p, y, q);
      RowsDocumentInjective(sha, a[1..], b[1..]);
      assert a == [a[0]] + a[1..] && b == [b[0]] + b[1..];
    } else if a != [] {
      FirstLine(sha, a);
    } else if b != [] {
      FirstLine(sha, b);
    }
  }

  lemma FirstLine(sha: string -> string, rows: seq<Row>)
    requires rows != []
    ensures JoinLines(SourceLines(sha, rows)) ==
              rows[0].id + [NUL] + (sha(rows[0].text) + ['\n'] + JoinLines(SourceLines(sha, rows[1..])))
  {
    var line, rest := rows[0].id + [NUL] + sha(rows[0].text), SourceLines(sha, rows[1..]);
    assert SourceLines(sha, rows) == [line] + rest;
    assert ([line] + rest)[1..] == rest;
    Regrouped(rows[0].id, sha(rows[0].text), JoinLines(rest));
  }

  lemma Regrouped(id: string, digest: string, rest: string)
    ensures id + [NUL] + digest + ['\n'] + rest == id + [NUL] + (digest + ['\n'] + rest)
  {
  }

  /** Equal source digests mean equal rows, with multiplicity: the map from identifier to text is the same on
      both sides. Line breaks in identifiers do no harm; only a NUL does. */
  lemma SourceTextDigestInjective(sha: string -> string, a: seq<Row>, b: seq<Row>)
    requires IdealHash(sha) && CleanRows(a) && CleanRows(b)
    requires SourceTextDigest(sha, a) == SourceTextDigest(sha, b)
    ensures multiset(a) == multiset(b)
  {
    SortPermutes(RowLeq, a);
    SortPermutes(RowLeq, b);
    var x, y := Sort(RowLeq, a), Sort(RowLeq, b);
    SameElements(a, x);
    SameElements(b, y);
    RowsDocumentInjective(sha, x, y);
  }

  /** With distinct identifiers the order the rows arrive in does not matter. */
  lemma SourceTextDigestOrderFree(sha: string -> string, a: seq<Row>, b: seq<Row>)
    requires DistinctIds(a) && multiset(a) == multiset(b)
    ensures SourceTextDigest(sha, a) == SourceTextDigest(sha, b)
  {
    RowOrder();
    DistinctIdsTieFree(a);
    SortCanonical(RowLeq, a, b);
  }

  /** Distinctness is needed: two rows under one identifier are hashed in arrival order. */
  lemma SourceTextDigestOrderMatters(sha: string -> string)
    requires IdealHash(sha)
    ensures SourceTextDigest(sha, [Row("a", "x"), Row("a", "y")])
         != SourceTextDigest(sha, [Row("a", "y"), Row("a", "x")])
  {
    var p, q := [Row("a", "x"), Row("a", "y")], [Row("a", "y"), Row("a", "x")];
    assert Sort(RowLeq, p[1..]) == p[1..] by { assert Sort(RowLeq, p[1..][1..]) == []; }
    assert Sort(RowLeq, q[1..]) == q[1..] by { assert Sort(RowLeq, q[1..][1..]) == []; }
    LeqTotal("a", "a");
    assert Sort(RowLeq, p) == p && Sort(RowLeq, q) == q;
    if SourceTextDigest(sha, p) == SourceTextDigest(sha, q) {
      RowsDocumentInjective(sha, p, q);
    }
  }

  // ---- Which identifiers collide ----------------------------------------------------------------

  /** Two lists with one digest, one of them holding the identifier, that are not the same list. */
  ghost predicate Collide(sha: string -> string, id: string, a: seq<string>, b: seq<string>) {
    id in a && multiset(a) != multiset(b) && PointIdsDigest(sha, a) == PointIdsDigest(sha, b)
  }

  /** A list other than the one that holds just `id` has its digest. */
  ghost predicate CollidesAlone(sha: string -> string, id: string) {
    exists b: seq<string> :: Collide(sha, id, [id], b)
  }

  /** At some line break, what comes before is not above what comes after. */
  predicate BreaksInOrder(id: string) {
    exists i :: 0 <= i < |id| && id[i] == '\n' && Leq(id[..i], id[i + 1..])
  }

  lemma SortOne(id: string)
    ensures Sort(Leq, [id]) == [id] && PointIdsDocument([id]) == id + ['\n']
  {
    assert [id][1..] == [];
    assert JoinLines([id]) == id + ['\n'] + JoinLines([]);
  }

  lemma TwoLines(a: string, b: string)
    requires Leq(a, b)
    ensures PointIdsDocument([a, b]) == a + ['\n'] + b + ['\n']
  {
    assert [a, b][1..] == [b];
    SortOne(b);
    assert Sort(Leq, [a, b]) == [a, b];
    assert JoinLines([a, b]) == a + ['\n'] + JoinLines([b]);
    assert a + ['\n'] + (b + ['\n']) == a + ['\n'] + b + ['\n'];
  }

  lemma ThreeLines(a: string, b: string, c: string)
    requires Leq(a, b) && Leq(b, c)
    ensures PointIdsDocument([a, b, c]) == a + ['\n'] + b + ['\n'] + c + ['\n']
  {
    assert [a, b, c][1..] == [b, c] && [b, c][1..] == [c];
    SortOne(c);
    assert Sort(Leq, [b, c]) == [b, c];
    assert Sort(Leq, [a, b, c]) == [a, b, c];
    TwoLines(b, c);
    assert JoinLines([a, b, c]) == a + ['\n'] + JoinLines([b, c]);
    assert a + ['\n'] + (b + ['\n'] + c + ['\n']) == a + ['\n'] + b + ['\n'] + c + ['\n'];
  }

  lemma TailOfSum(a: string, b: string)
    requires a != ""
    ensures a + b != "" && (a + b)[0] == a[0] && (a + b)[1..] == a[1..] + b
  {
  }

  lemma {:induction false} PrefixLeq(a: string, b: string)
    ensures Leq(a, a + b)
  {
    if a != "" {
      PrefixLeq(a[1..], b);
      TailOfSum(a, b);
    }
  }

  /** A joined list of two or more lines is its first line, then something that starts with the second. */
  lemma SecondLine(lines: seq<string>) returns (rest: string)
    requires |lines| >= 2
    ensures JoinLines(lines) == lines[0] + ['\n'] + rest + ['\n'] && Leq(lines[1], rest)
  {
    var tail := JoinLines(lines[1..]);
    EndsWithBreak(lines[1..]);
    rest := tail[..|tail| - 1];
    assert tail == rest + ['\n'];
    var more := JoinLines(lines[1..][1..]);
    assert tail == lines[1] + ['\n'] + more;
    assert lines[1] == rest[..|lines[1]|];
    PrefixLeq(lines[1], rest[|lines[1]|..]);
    assert rest == lines[1] + rest[|lines[1]|..];
    assert lines[0] + ['\n'] + (rest + ['\n']) == lines[0] + ['\n'] + rest + ['\n'];
  }

  lemma {:induction false} EndsWithBreak(lines: seq<string>)
    requires lines != []
    ensures var s := JoinLines(lines); s != "" && s[|s| - 1] == '\n'
  {
    if |lines| > 1 { EndsWithBreak(lines[1..]); }
  }

  /** Exactly the identifiers with a line break between two ordered parts share their digest with another list. */
  lemma CollidesAloneExact(sha: string -> string, id: string)
    requires IdealHash(sha)
    ensures CollidesAlone(sha, id) <==> BreaksInOrder(id)
  {
    SortOne(id);
    if BreaksInOrder(id) {
      var i :| 0 <= i < |id| && id[i] == '\n' && Leq(id[..i], id[i + 1..]);
      assert id == id[..i] + ['\n'] + id[i + 1..];
      CollideAsTwo(sha, id[..i], id[i + 1..], id);
    }
    if CollidesAlone(sha, id) {
      var b: seq<string> :| Collide(sha, id, [id], b);
      SplitsInOrder(id, b);
    }
  }

  /** The document of fewer than two lines that ends a single identifier is that identifier's. */
  lemma OneLine(id: string, s: seq<string>)
    requires |s| < 2 && JoinLines(s) == id + ['\n']
    ensures s == [id]
  {
    if s != [] {
      assert s == [s[0]] && s[1..] == [];
      assert JoinLines(s) == s[0] + ['\n'] + "";
      assert |s[0]| == |id|;
      forall i | 0 <= i < |id| ensures s[0][i] == id[i] { assert JoinLines(s)[i] == s[0][i]; }
      assert s[0] == id;
    }
  }

  lemma SplitsInOrder(id: string, b: seq<string>)
    requires PointIdsDocument(b) == id + ['\n'] && multiset(b) != multiset([id])
    ensures BreaksInOrder(id)
  {
    var s := Sort(Leq, b);
    SortPermutes(Leq, b);
    StringOrder(b);
    SortOrders(Leq, b);
    if |s| < 2 { OneLine(id, s); }
    var rest := SecondLine(s);
    LeqTransitive(s[0], s[1], rest);
    var whole := s[0] + ['\n'] + rest;
    assert id == (id + ['\n'])[..|id|] && whole == (whole + ['\n'])[..|whole|];
    assert id[|s[0]|] == '\n' && id[..|s[0]|] == s[0] && id[|s[0]| + 1..] == rest;
  }

  /** In company every identifier with a line break is part of a collision, in order or not. */
  lemma NewlineIdentifiersCollide(sha: string -> string, id: string)
    requires '\n' in id
    ensures exists a: seq<string>, b: seq<string> :: Collide(sha, id, a, b)
  {
    var i :| 0 <= i < |id| && id[i] == '\n';
    assert id == id[..i] + ['\n'] + id[i + 1..];
    var a, b := BrokenCollides(sha, id[..i], id[i + 1..], id);
  }

  lemma BrokenCollides(sha: string -> string, u: string, v: string, id: string) returns (a: seq<string>, b: seq<string>)
    requires id == u + ['\n'] + v
    ensures Collide(sha, id, a, b)
  {
    BrokenLeq(u, v);
    if Leq(v, id) {
      a, b := [v, id, id], [v + ['\n'] + u, v + ['\n'] + id];
      CollideInCompany(sha, u, v, id);
    } else {
      a, b := [id], [u, v];
      LeqTotal(v, id);
      LeqTransitive(u, id, v);
      CollideAsTwo(sha, u, v, id);
    }
  }

  lemma BrokenLeq(u: string, v: string)
    ensures Leq(u, u + ['\n'] + v)
  {
    PrefixLeq(u, ['\n'] + v);
    assert u + (['\n'] + v) == u + ['\n'] + v;
  }

  lemma CollideAsTwo(sha: string -> string, u: string, v: string, id: string)
    requires id == u + ['\n'] + v && Leq(u, v)
    ensures Collide(sha, id, [id], [u, v])
  {
    SortOne(id);
    TwoLines(u, v);
    DifferentSizes([id], [u, v]);
  }

  lemma CollideInCompany(sha: string -> string, u: string, v: string, id: string)
    requires id == u + ['\n'] + v && Leq(v, id) && Leq(u, id)
    ensures Collide(sha, id, [v, id, id], [v + ['\n'] + u, v + ['\n'] + id])
  {
    LeqTotal(id, id);
    ThreeLines(v, id, id);
    CommonPrefixLeq(v + ['\n'], u, id);
    TwoLines(v + ['\n'] + u, v + ['\n'] + id);
    SameThreeLines(u, v, id);
    DifferentSizes([v, id, id], [v + ['\n'] + u, v + ['\n'] + id]);
    assert [v, id, id][1] == id;
  }

  lemma DifferentSizes(a: seq<string>, b: seq<string>)
    requires |a| != |b|
    ensures multiset(a) != multiset(b)
  {
    assert |multiset(a)| == |a| && |multiset(b)| == |b|;
  }

  lemma SameThreeLines(u: string, v: string, id: string)
    requires id == u + ['\n'] + v
    ensures v + ['\n'] + id + ['\n'] + id + ['\n'] ==
              v + ['\n'] + u + ['\n'] + (v + ['\n'] + id) + ['\n']
  {
  }

  lemma {:induction false} CommonPrefixLeq(p: string, a: string, b: string)
    requires Leq(a, b)
    ensures Leq(p + a, p + b)
  {
    if p == "" {
      assert p + a == a && p + b == b;
    } else {
      CommonPrefixLeq(p[1..], a, b);
      TailOfSum(p, a);
      TailOfSum(p, b);
    }
  }

  /** An identifier that spells out a whole line, NUL, digest and line break included, stands for two rows. */
  lemma NulIdentifiersCollide(sha: string -> string, a: string, x: string, b: string, t: string)
    requires Leq(a, b)
    ensures var id := a + [NUL] + sha(x) + ['\n'] + b;
            && SourceTextDigest(sha, [Row(id, t)]) == SourceTextDigest(sha, [Row(a, x), Row(b, t)])
            && multiset([Row(id, t)]) != multiset([Row(a, x), Row(b, t)])
  {
    var id := a + [NUL] + sha(x) + ['\n'] + b;
    OneRowDocument(sha, id, t);
    TwoRowsDocument(sha, a, x, b, t);
    SameRowDocument(a, sha(x), b, sha(t));
    var one, two := [Row(id, t)], [Row(a, x), Row(b, t)];
    assert |multiset(one)| == 1 && |multiset(two)| == 2;
  }

  lemma OneRowDocument(sha: string -> string, id: string, t: string)
    ensures Sort(RowLeq, [Row(id, t)]) == [Row(id, t)]
    ensures SourceDocument(sha, [Row(id, t)]) == id + [NUL] + (sha(t) + ['\n'] + "")
  {
    var one := [Row(id, t)];
    assert one[1..] == [];
    assert Sort(RowLeq, one) == one;
    FirstLine(sha, one);
  }

  lemma TwoRowsDocument(sha: string -> string, a: string, x: string, b: string, t: string)
    requires Leq(a, b)
    ensures SourceDocument(sha, [Row(a, x), Row(b, t)]) ==
              a + [NUL] + (sha(x) + ['\n'] + (b + [NUL] + (sha(t) + ['\n'] + "")))
  {
    var two := [Row(a, x), Row(b, t)];
    assert two[1..] == [Row(b, t)];
    OneRowDocument(sha, b, t);
    assert Sort(RowLeq, two) == two;
    FirstLine(sha, two);
  }

  lemma SameRowDocument(a: string, h: string, b: string, d: string)
    ensures (a + [NUL] + h + ['\n'] + b) + [NUL] + (d + ['\n'] + "") ==
              a + [NUL] + (h + ['\n'] + (b + [NUL] + (d + ['\n'] + "")))
  {
  }

  /** A collision-free hash without separators: line breaks, NULs and backslashes are escaped. */
  function Escape(s: string): (r: string)
    ensures '\n' !in r && NUL !in r
  {
    if s == "" then ""
    else (if s[0] in "\n\0\\" then ['\\', Letter(s[0])] else [s[0]]) + Escape(s[1..])
  }

  function Letter(c: char): char {
    if c == '\n' then 'n' else if c == NUL then '0' else c
  }

  lemma {:induction false} EscapeInjective(s: string, t: string)
    requires Escape(s) == Escape(t)
    ensures s == t
  {
    if s != "" && t != "" {
      var k := if s[0] in "\n\0\\" then 2 else 1;
      var e := Escape(s);
      assert e[0] == (if k == 2 then '\\' else s[0]);
      assert k == 2 ==> e[1] == Letter(s[0]);
      assert s[0] == t[0];
      assert Escape(s[1..]) == e[k..] && Escape(t[1..]) == e[k..];
      EscapeInjective(s[1..], t[1..]);
      assert s == [s[0]] + s[1..] && t == [t[0]] + t[1..];
    }
  }

  /** The idealisation is not empty. */
  lemma IdealHashExists()
    ensures IdealHash(Escape)
  {
    forall x, y | Escape(x) == Escape(y) ensures x == y { EscapeInjective(x, y); }
  }
}
