/** The BM25 index (scripts/chinese_lexical_shadow_eval.py:125-157) over exact reals, with the logarithm a parameter,
    against the formula recomputed from the raw token lists. */
module Bm25 {

  type Doc = seq<string>

  const K1: real := 1.2
  const B: real := 0.75

  /** All that is needed of the natural logarithm. */
  ghost predicate LogLike(ln: real -> real) {
    forall x :: x > 1.0 ==> ln(x) > 0.0
  }

  // ---- The formula ------------------------------------------------------------------------------

  function Occurrences(doc: Doc, token: string): nat {
    if doc == [] then 0 else Occurrences(doc[..|doc| - 1], token) + if doc[|doc| - 1] == token then 1 else 0
  }

  /** The number of documents that contain the token. */
  function DocFrequency(docs: seq<Doc>, token: string): nat {
    if docs == [] then 0 else DocFrequency(docs[..|docs| - 1], token) + if token in docs[|docs| - 1] then 1 else 0
  }

  function TotalLength(docs: seq<Doc>): nat {
    if docs == [] then 0 else TotalLength(docs[..|docs| - 1]) + |docs[|docs| - 1]|
  }

  function AverageLength(docs: seq<Doc>): (r: real)
    ensures r >= 0.0
  {
    if docs == [] then 0.0
    else
      assert TotalLength(docs) as real / |docs| as real >= 0.0 by { PositiveQuotient(TotalLength(docs) as real,
               |docs| as real); }
      TotalLength(docs) as real / |docs| as real
  }

  function IdfOf(ln: real -> real, n: nat, d: nat): real {
    ln(1.0 + (n as real - d as real + 0.5) / (d as real + 0.5))
  }

  /** `avg_len or 1`. */
  function Divisor(average: real): real { if average == 0.0 then 1.0 else average }

  /** Term frequency against document length. */
  function Denominator(f: nat, length: nat, average: real): (r: real)
    requires f > 0 && average >= 0.0
    ensures r > 0.0
  {
    assert length as real / Divisor(average) >= 0.0 by { PositiveQuotient(length as real, Divisor(average)); }
    f as real + K1 * (1.0 - B + B * (length as real / Divisor(average)))
  }

  function Gain(idf: real, f: nat, length: nat, average: real): real
    requires f > 0 && average >= 0.0
  {
    idf * f as real * (K1 + 1.0) / Denominator(f, length, average)
  }

  /** What one query token adds to the score of one document. */
  function Term(ln: real -> real, docs: seq<Doc>, token: string, i: nat): real
    requires i < |docs|
  {
    var f := Occurrences(docs[i], token);
    if f == 0 then 0.0 else Gain(IdfOf(ln, |docs|, DocFrequency(docs, token)), f, |docs[i]|, AverageLength(docs))
  }

  /** The sum of the terms of the query tokens that lie in `among`, each taken once. */
  function SumOver(ln: real -> real, docs: seq<Doc>, query: Doc, among: set<string>, i: nat): real
    requires i < |docs|
  {
    if query == [] then 0.0
    else
      var init, last := query[..|query| - 1], query[|query| - 1];
      SumOver(ln, docs, init, among, i) + if last in among && last !in init then Term(ln, docs, last, i) else 0.0
  }

  function TokensOf(query: Doc): (r: set<string>)
    ensures forall t :: t in r <==> t in query
  {
    set t | t in query
  }

  /** The naive score: over the distinct query tokens. */
  function Score(ln: real -> real, docs: seq<Doc>, query: Doc, i: nat): real
    requires i < |docs|
  {
    SumOver(ln, docs, query, TokensOf(query), i)
  }

  // ---- Facts about the formula ------------------------------------------------------------------

  lemma {:induction false} OccursPositive(doc: Doc, token: string)
    ensures Occurrences(doc, token) > 0 <==> token in doc
  {
    if doc != [] {
      OccursPositive(doc[..|doc| - 1], token);
      assert doc == doc[..|doc| - 1] + [doc[|doc| - 1]];
    }
  }

  lemma {:induction false} FrequencyBounds(docs: seq<Doc>, token: string)
    ensures DocFrequency(docs, token) <= |docs|
    ensures DocFrequency(docs, token) > 0 <==> exists i :: 0 <= i < |docs| && token in docs[i]
  {
    if docs != [] { FrequencyBounds(docs[..|docs| - 1], token); }
  }

  lemma PositiveQuotient(a: real, b: real)
    requires a >= 0.0 && b > 0.0
    ensures a / b >= 0.0 && (a > 0.0 ==> a / b > 0.0)
  {
  }

  lemma PositiveProduct(a: real, b: real)
    requires a > 0.0 && b > 0.0
    ensures a * b > 0.0
  {
  }

  /** The smoothed idf is positive, however common the token. */
  lemma IdfPositive(ln: real -> real, n: nat, d: nat)
    requires LogLike(ln) && d <= n
    ensures IdfOf(ln, n, d) > 0.0
  {
    PositiveQuotient(n as real - d as real + 0.5, d as real + 0.5);
  }

  lemma GainPositive(idf: real, f: nat, length: nat, average: real)
    requires idf > 0.0 && f > 0 && average >= 0.0
    ensures Gain(idf, f, length, average) > 0.0
  {
    PositiveProduct(idf, f as real);
    PositiveProduct(idf * f as real, K1 + 1.0);
    PositiveQuotient(idf * f as real * (K1 + 1.0), Denominator(f, length, average));
  }

  /** With an increasing logarithm, the rarer of two tokens has the larger idf. */
  lemma RarerWeighsMore(ln: real -> real, n: nat, d: nat, e: nat)
    requires d < e <= n && forall x: real, y: real :: 0.0 < x < y ==> ln(x) < ln(y)
    ensures IdfOf(ln, n, d) > IdfOf(ln, n, e)
  {
    var x, y := (n as real - d as real + 0.5) / (d as real + 0.5), (n as real - e as real + 0.5) / (e as real + 0.5);
    Crossed(n as real - e as real + 0.5, e as real + 0.5, n as real - d as real + 0.5, d as real + 0.5);
    PositiveQuotient(n as real - e as real + 0.5, e as real + 0.5);
    assert 0.0 < 1.0 + y < 1.0 + x;
  }

  /** A smaller numerator over a larger denominator. */
  lemma Crossed(a: real, b: real, c: real, d: real)
    requires 0.0 < a < c && 0.0 < d < b
    ensures a / b < c / d
  {
    var p, q, m := a / b, c / d, b * d;
    assert p * m == a * d && q * m == c * b;
    assert a * d < c * d && c * d < c * b;
    Cancelled(p, q, m);
  }

  lemma Cancelled(p: real, q: real, m: real)
    requires m > 0.0 && p * m < q * m
    ensures p < q
  {
  }

  /** The idf in closed form. */
  lemma IdfClosedForm(ln: real -> real, n: nat, d: nat)
    requires d <= n
    ensures IdfOf(ln, n, d) == ln((n as real + 1.0) / (d as real + 0.5))
  {
    var a, b := n as real - d as real + 0.5, d as real + 0.5;
    SameQuotient(a / b + 1.0, a + b, b);
  }

  lemma SameQuotient(q: real, a: real, b: real)
    requires b > 0.0 && q * b == a
    ensures q == a / b
  {
  }

  lemma QuotientGrows(a: real, c: real, b: real)
    requires a < c && b > 0.0
    ensures a / b < c / b
  {
    var p, q := a / b, c / b;
    assert p * b == a && q * b == c;
    Cancelled(p, q, b);
  }

  /** How the denominator moves: it grows with the length by less than the length does, from a quarter of the saturation
      constant for an empty document through the whole of it for one of average length. */
  lemma DenominatorMoves(f: nat, length: nat, longer: nat, average: real)
    requires f > 0 && length < longer && average > 0.0
    ensures Denominator(f, length, average) < Denominator(f, longer, average)
    ensures Denominator(f, 0, average) == f as real + 0.3
    ensures longer as real == average ==> Denominator(f, longer, average) == f as real + 1.2
  {
    QuotientGrows(length as real, longer as real, average);
    SameQuotient(0.0, 0.0, average);
    if longer as real == average { SameQuotient(1.0, longer as real, average); }
  }

  /** Of two documents with a token as often, the shorter one gains more from it. */
  lemma ShorterGainsMore(ln: real -> real, docs: seq<Doc>, token: string, i: nat, j: nat)
    requires LogLike(ln) && i < |docs| && j < |docs| && token in docs[i]
    requires Occurrences(docs[i], token) == Occurrences(docs[j], token) && |docs[i]| < |docs[j]|
    ensures Term(ln, docs, token, i) > Term(ln, docs, token, j)
  {
    OccursPositive(docs[i], token);
    FrequencyBounds(docs, token);
    IdfPositive(ln, |docs|, DocFrequency(docs, token));
    AveragePositive(docs, j);
    ShorterGain(IdfOf(ln, |docs|, DocFrequency(docs, token)), Occurrences(docs[i], token), |docs[i]|, |docs[j]|,
                AverageLength(docs));
  }

  lemma ShorterGain(idf: real, f: nat, length: nat, longer: nat, average: real)
    requires idf > 0.0 && f > 0 && length < longer && average > 0.0
    ensures Gain(idf, f, length, average) > Gain(idf, f, longer, average)
  {
    DenominatorMoves(f, length, longer, average);
    PositiveProduct(idf, f as real);
    PositiveProduct(idf * f as real, K1 + 1.0);
    Halved(idf * f as real * (K1 + 1.0), Denominator(f, length, average), Denominator(f, longer, average));
  }

  lemma Halved(a: real, b: real, c: real)
    requires a > 0.0 && 0.0 < b < c
    ensures a / b > a / c
  {
    var p, q := a / b, a / c;
    assert p * b == a && q * c == a;
    PositiveQuotient(a, c);
    Smaller(p, q, b, c);
  }

  lemma Smaller(p: real, q: real, b: real, c: real)
    requires q > 0.0 && 0.0 < b < c && p * b == q * c
    ensures p > q
  {
    assert q * b < q * c;
    Cancelled(q, p, b);
  }

  lemma {:induction false} AveragePositive(docs: seq<Doc>, i: nat)
    requires i < |docs| && docs[i] != []
    ensures AverageLength(docs) > 0.0
  {
    LengthPositive(docs, i);
    PositiveQuotient(TotalLength(docs) as real, |docs| as real);
  }

  lemma {:induction false} LengthPositive(docs: seq<Doc>, i: nat)
    requires i < |docs|
    ensures TotalLength(docs) >= |docs[i]|
  {
    if i < |docs| - 1 { LengthPositive(docs[..|docs| - 1], i); }
  }

  /** Of two documents of one length, the one with more occurrences gains more, but only up to a point: an occurrence in
      a document of average length gains the idf, and no number of them gains 2.2 times that. */
  lemma OftenerGainsMore(idf: real, f: nat, more: nat, length: nat, average: real)
    requires idf > 0.0 && 0 < f < more && average > 0.0
    ensures Gain(idf, f, length, average) < Gain(idf, more, length, average) < 2.2 * idf
    ensures length as real == average ==> Gain(idf, 1, length, average) == idf
  {
    var rest := K1 * (1.0 - B + B * (length as real / average));
    PositiveQuotient(length as real, average);
    assert rest > 0.0;
    GainShare(idf, f, length, average, rest);
    GainShare(idf, more, length, average, rest);
    ShareGrows(f as real, more as real, rest);
    var p, q := f as real / (f as real + rest), more as real / (more as real + rest);
    ScaledLess(2.2 * idf, p, q);
    ScaledLess(2.2 * idf, q, 1.0);
    if length as real == average {
      SameQuotient(1.0, length as real, average);
      SameQuotient(idf, idf * 1.0 * 2.2, 2.2);
    }
  }

  lemma ScaledLess(a: real, p: real, q: real)
    requires a > 0.0 && p < q
    ensures a * p < a * q
  {
  }

  lemma GainShare(idf: real, f: nat, length: nat, average: real, rest: real)
    requires f > 0 && average > 0.0 && rest > 0.0 && rest == K1 * (1.0 - B + B * (length as real / average))
    ensures Gain(idf, f, length, average) == 2.2 * idf * (f as real / (f as real + rest))
  {
    var d := f as real + rest;
    assert Denominator(f, length, average) == d;
    var share := f as real / d;
    assert share * d == f as real;
    Reordered(idf, share, d, f as real);
    SameQuotient(2.2 * idf * share, idf * f as real * 2.2, d);
  }

  lemma Reordered(idf: real, share: real, d: real, f: real)
    requires share * d == f
    ensures 2.2 * idf * share * d == idf * f * 2.2
  {
    assert idf * (share * d) == idf * f;
    assert 2.2 * idf * share * d == 2.2 * (idf * (share * d));
  }

  lemma ShareGrows(f: real, g: real, rest: real)
    requires 0.0 < f < g && rest > 0.0
    ensures f / (f + rest) < g / (g + rest) < 1.0
  {
    OneMinus(f, rest);
    OneMinus(g, rest);
    Halved(rest, f + rest, g + rest);
    PositiveQuotient(rest, g + rest);
  }

  lemma OneMinus(f: real, rest: real)
    requires f > 0.0 && rest > 0.0
    ensures f / (f + rest) == 1.0 - rest / (f + rest)
  {
    var a, b := f / (f + rest), rest / (f + rest);
    assert (a + b) * (f + rest) == f + rest;
    SameQuotient(a + b, f + rest, f + rest);
    SameQuotient(1.0, f + rest, f + rest);
  }

  /** A token adds to a document exactly if the document contains it. */
  lemma TermSign(ln: real -> real, docs: seq<Doc>, token: string, i: nat)
    requires LogLike(ln) && i < |docs|
    ensures Term(ln, docs, token, i) >= 0.0
    ensures Term(ln, docs, token, i) > 0.0 <==> token in docs[i]
  {
    OccursPositive(docs[i], token);
    if Occurrences(docs[i], token) > 0 {
      FrequencyBounds(docs, token);
      IdfPositive(ln, |docs|, DocFrequency(docs, token));
      GainPositive(IdfOf(ln, |docs|, DocFrequency(docs, token)), Occurrences(docs[i], token), |docs[i]|,
          AverageLength(docs));
    }
  }

  ghost predicate Shares(query: Doc, doc: Doc, among: set<string>) {
    exists t :: t in query && t in among && t in doc
  }

  lemma {:induction false} SumSign(ln: real -> real, docs: seq<Doc>, query: Doc, among: set<string>, i: nat)
    requires LogLike(ln) && i < |docs|
    ensures SumOver(ln, docs, query, among, i) >= 0.0
    ensures SumOver(ln, docs, query, among, i) > 0.0 <==> Shares(query, docs[i], among)
  {
    if query != [] {
      var init, last := query[..|query| - 1], query[|query| - 1];
      SumSign(ln, docs, init, among, i);
      TermSign(ln, docs, last, i);
      assert query == init + [last];
    }
  }

  /** Scores are never negative, and positive exactly when query and document share a token. */
  lemma ScoreSign(ln: real -> real, docs: seq<Doc>, query: Doc, i: nat)
    requires LogLike(ln) && i < |docs|
    ensures Score(ln, docs, query, i) >= 0.0
    ensures Score(ln, docs, query, i) > 0.0 <==> exists t :: t in query && t in docs[i]
  {
    SumSign(ln, docs, query, TokensOf(query), i);
    assert Shares(query, docs[i], TokensOf(query)) <==> exists t :: t in query && t in docs[i];
  }

  /** One more token of the query taken in adds its term once. */
  lemma {:induction false} SumGrows(ln: real -> real, docs: seq<Doc>, query: Doc, among: set<string>, token: string,
                                    i: nat)
    requires i < |docs| && token !in among
    ensures SumOver(ln, docs, query, among + {token}, i)
         == SumOver(ln, docs, query, among, i) + if token in query then Term(ln, docs, token, i) else 0.0
  {
    if query != [] {
      var init, last := query[..|query| - 1], query[|query| - 1];
      SumGrows(ln, docs, init, among, token, i);
      assert query == init + [last];
    }
  }

  lemma {:induction false} EmptySum(ln: real -> real, docs: seq<Doc>, query: Doc, i: nat)
    requires i < |docs|
    ensures SumOver(ln, docs, query, {}, i) == 0.0
  {
    if query != [] { EmptySum(ln, docs, query[..|query| - 1], i); }
  }

  /** The sum does not depend on the order of the query or on repetitions in it. */
  lemma {:induction false} SumDependsOnTokens(ln: real -> real, docs: seq<Doc>, q: Doc, r: Doc, among: set<string>,
                                              i: nat)
    requires i < |docs| && TokensOf(q) == TokensOf(r) && among <= TokensOf(q)
    ensures SumOver(ln, docs, q, among, i) == SumOver(ln, docs, r, among, i)
    decreases |among|
  {
    if among == {} {
      EmptySum(ln, docs, q, i);
      EmptySum(ln, docs, r, i);
    } else {
      var t :| t in among;
      SumDependsOnTokens(ln, docs, q, r, among - {t}, i);
      SumGrows(ln, docs, q, among - {t}, t, i);
      SumGrows(ln, docs, r, among - {t}, t, i);
      assert among - {t} + {t} == among;
      assert t in TokensOf(q) && t in TokensOf(r);
    }
  }

  lemma QueryIsABag(ln: real -> real, docs: seq<Doc>, q: Doc, r: Doc, i: nat)
    requires i < |docs| && TokensOf(q) == TokensOf(r)
    ensures Score(ln, docs, q, i) == Score(ln, docs, r, i)
  {
    SumDependsOnTokens(ln, docs, q, r, TokensOf(q), i);
  }

  // ---- The index --------------------------------------------------------------------------------

  ghost predicate CountsOf(counts: map<string, nat>, doc: Doc) {
    forall t :: Occurrences(doc, t) == if t in counts then counts[t] else 0
  }

  ghost predicate AllPositive(counts: map<string, nat>) {
    forall t :: t in counts ==> counts[t] > 0
  }

  ghost predicate FrequenciesOf(df: map<string, nat>, docs: seq<Doc>) {
    forall t :: DocFrequency(docs, t) == if t in df then df[t] else 0
  }

  /** The token counts of one document. */
  method CountTokens(doc: Doc) returns (counts: map<string, nat>)
    ensures CountsOf(counts, doc) && AllPositive(counts)
  {
    counts := map[];
    var i := 0;
    while i < |doc|
      invariant 0 <= i <= |doc|
      invariant CountsOf(counts, doc[..i]) && AllPositive(counts)
    {
      assert doc[..i + 1][..i] == doc[..i];
      counts := counts[doc[i] := (if doc[i] in counts then counts[doc[i]] else 0) + 1];
      i := i + 1;
    }
    assert doc[..i] == doc;
  }

  /** `for tok in counts: df[tok] = df.get(tok, 0) + 1`. */
  method AddDocument(df: map<string, nat>, counts: map<string, nat>) returns (r: map<string, nat>)
    requires AllPositive(df)
    ensures AllPositive(r)
    ensures forall t :: (if t in r then r[t] else 0) == (if t in df then df[t] else 0) + (if t in counts then 1 else 0)
  {
    r := df;
    var left := counts.Keys;
    while left != {}
      invariant left <= counts.Keys && AllPositive(r)
      invariant forall t :: (if t in r then r[t] else 0) == (if t in df then df[t] else 0)
                  + (if t in counts && t !in left then 1 else 0)
      decreases |left|
    {
      var t :| t in left;
      r := r[t := (if t in r then r[t] else 0) + 1];
      left := left - {t};
    }
  }

  class Index {
    const ln: real -> real
    ghost const docs: seq<Doc>
    var n: nat
    var docLen: seq<nat>
    var avgLen: real
    var tf: seq<map<string, nat>>
    var idf: map<string, real>

    /** The stored tables are those of the documents. */
    ghost predicate Valid()
      reads this
    {
      && n == |docs| == |docLen| == |tf|
      && (forall i :: 0 <= i < n ==> docLen[i] == |docs[i]| && CountsOf(tf[i], docs[i]))
      && avgLen == AverageLength(docs)
      && (forall t :: t in idf <==> DocFrequency(docs, t) > 0)
      && (forall t :: t in idf ==> idf[t] == IdfOf(ln, n, DocFrequency(docs, t)))
    }

    constructor (documents: seq<Doc>, ln: real -> real)
      ensures Valid() && docs == documents && this.ln == ln
    {
      var lengths: seq<nat>, total, tables: seq<map<string, nat>>, df: map<string, nat>, i := [], 0, [], map[], 0;
      while i < |documents|
        invariant 0 <= i <= |documents| && |lengths| == |tables| == i
        invariant forall j :: 0 <= j < i ==> lengths[j] == |documents[j]| && CountsOf(tables[j], documents[j])
        invariant total == TotalLength(documents[..i])
        invariant FrequenciesOf(df, documents[..i]) && AllPositive(df)
      {
        assert documents[..i + 1][..i] == documents[..i];
        var counts := CountTokens(documents[i]);
        var extended := AddDocument(df, counts);
        FrequencyStep(documents[..i], documents[i], df, counts, extended);
        assert documents[..i] + [documents[i]] == documents[..i + 1];
        lengths, total, tables, df := lengths + [|documents[i]|], total + |documents[i]|, tables + [counts], extended;
        i := i + 1;
      }
      assert documents[..i] == documents;
      this.ln, docs, n, docLen, tf := ln, documents, |documents|, lengths, tables;
      avgLen := if |documents| == 0 then 0.0 else total as real / |documents| as real;
      idf := map t | t in df :: IdfOf(ln, |documents|, df[t]);
    }

    /** `scores`: the sum over the set of query tokens, document by document. */
    method Scores(query: Doc) returns (out: seq<real>)
      requires Valid()
      ensures |out| == |docs| && forall i :: 0 <= i < |out| ==> out[i] == Score(ln, docs, query, i)
    {
      out := seq(n, _ => 0.0);
      forall i | 0 <= i < n ensures out[i] == SumOver(ln, docs, query, {}, i) { EmptySum(ln, docs, query, i); }
      var left := TokensOf(query);
      ghost var done: set<string> := {};
      while left != {}
        invariant |out| == n && left !! done && left + done == TokensOf(query)
        invariant forall i :: 0 <= i < n ==> out[i] == SumOver(ln, docs, query, done, i)
        decreases |left|
      {
        var t :| t in left;
        forall i | 0 <= i < n
          ensures SumOver(ln, docs, query, done + {t}, i) == SumOver(ln, docs, query, done, i) + Term(ln, docs, t, i)
        {
          assert t in TokensOf(query);
          SumGrows(ln, docs, query, done, t, i);
        }
        if t in idf {
          out := AddToken(t, out);
        } else {
          forall i | 0 <= i < n ensures Term(ln, docs, t, i) == 0.0 { UnknownToken(ln, docs, t, i); }
        }
        left, done := left - {t}, done + {t};
      }
      assert done == TokensOf(query);
    }

    /** The inner loop: one token over all documents. */
    method AddToken(token: string, before: seq<real>) returns (out: seq<real>)
      requires Valid() && token in idf && |before| == n
      ensures |out| == n && forall i :: 0 <= i < n ==> out[i] == before[i] + Term(ln, docs, token, i)
    {
      out := before;
      var i := 0;
      while i < n
        invariant 0 <= i <= n && |out| == n
        invariant forall j :: 0 <= j < i ==> out[j] == before[j] + Term(ln, docs, token, j)
        invariant forall j :: i <= j < n ==> out[j] == before[j]
      {
        var f := if token in tf[i] then tf[i][token] else 0;
        assert f == Occurrences(docs[i], token);
        if f != 0 { out := out[i := out[i] + Gain(idf[token], f, docLen[i], avgLen)]; }
        i := i + 1;
      }
    }
  }

  lemma FrequencyStep(docs: seq<Doc>, doc: Doc, df: map<string, nat>, counts: map<string, nat>,
                      extended: map<string, nat>)
    requires FrequenciesOf(df, docs) && CountsOf(counts, doc) && AllPositive(counts)
    requires forall t :: (if t in extended then extended[t] else 0) == (if t in df then df[t] else 0)
               + (if t in counts then 1 else 0)
    ensures FrequenciesOf(extended, docs + [doc])
  {
    forall t ensures DocFrequency(docs + [doc], t) == if t in extended then extended[t] else 0 {
      OccursPositive(doc, t);
      assert (docs + [doc])[..|docs|] == docs;
    }
  }

  lemma UnknownToken(ln: real -> real, docs: seq<Doc>, token: string, i: nat)
    requires i < |docs| && DocFrequency(docs, token) == 0
    ensures Term(ln, docs, token, i) == 0.0
  {
    FrequencyBounds(docs, token);
    OccursPositive(docs[i], token);
  }
}
