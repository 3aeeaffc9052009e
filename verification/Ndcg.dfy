/** The ranking of a leg and its nDCG (scripts/chinese_lexical_shadow_eval.py:160-202) over exact reals. The discount
    `log2(i + 2)` is any positive, non-decreasing function of the position. */
module Ndcg {
  import opened Sorting
  import opened Strings

  // ---- Discounted gain --------------------------------------------------------------------------

  /** All that is needed of `log2(i + 2)`. */
  ghost predicate DiscountLike(log: nat -> real) {
    && (forall i: nat :: log(i) > 0.0)
    && (forall i: nat, j: nat :: i <= j ==> log(i) <= log(j))
  }

  function Power(g: nat): (r: nat)
    ensures r >= 1
  {
    if g == 0 then 1 else 2 * Power(g - 1)
  }

  /** `2**g - 1`. */
  function Gain(g: nat): (r: real)
    ensures r >= 0.0
  {
    (Power(g) - 1) as real
  }

  function Dcg(log: nat -> real, grades: seq<nat>): real
    requires DiscountLike(log)
  {
    if grades == [] then 0.0
    else Dcg(log, grades[..|grades| - 1]) + Gain(grades[|grades| - 1]) / log(|grades| - 1)
  }

  function Cut<T>(s: seq<T>, k: nat): (r: seq<T>)
    ensures |r| <= k && |r| <= |s|
  {
    if k <= |s| then s[..k] else s
  }

  predicate Above(a: nat, b: nat) { a >= b }

  /** `sorted(grades, reverse=True)`. */
  function Descending(grades: seq<nat>): seq<nat> { Sort(Above, grades) }

  function NdcgAtK(log: nat -> real, ranked: seq<nat>, ideal: seq<nat>, k: nat): real
    requires DiscountLike(log)
  {
    var best := Dcg(log, Cut(Descending(ideal), k));
    if best == 0.0 then 0.0 else Dcg(log, Cut(ranked, k)) / best
  }

  // ---- Gains of any selection against the largest ones ------------------------------------------

  function TotalGain(grades: seq<nat>): real {
    if grades == [] then 0.0 else TotalGain(grades[..|grades| - 1]) + Gain(grades[|grades| - 1])
  }

  /** Every positive grade occurs in `ideal` at least as often. */
  ghost predicate DrawnFrom(grades: seq<nat>, ideal: seq<nat>) {
    forall g: nat :: g > 0 ==> Times(grades, g) <= Times(ideal, g)
  }

  ghost function Times(grades: seq<nat>, g: nat): nat { multiset(grades)[g] }

  lemma {:induction false} PowerMonotone(a: nat, b: nat)
    requires a <= b
    ensures Power(a) <= Power(b)
  {
    if a < b { PowerMonotone(a, b - 1); }
  }

  lemma {:induction false} TotalGainSplits(a: seq<nat>, b: seq<nat>)
    ensures TotalGain(a + b) == TotalGain(a) + TotalGain(b)
  {
    if b == [] {
      assert a + b == a;
    } else {
      var init, last := b[..|b| - 1], b[|b| - 1];
      assert (a + b)[..|a + b| - 1] == a + init;
      TotalGainSplits(a, init);
    }
  }

  lemma GainOfMiddle(a: seq<nat>, x: nat, b: seq<nat>)
    ensures TotalGain((a + [x]) + b) == TotalGain(a + b) + Gain(x)
  {
    TotalGainSplits(a + [x], b);
    TotalGainSplits(a, b);
    assert (a + [x])[..|a|] == a;
  }

  /** Take one element out. */
  lemma RemovedGain(s: seq<nat>, p: nat)
    requires p < |s|
    ensures TotalGain(s) == TotalGain(s[..p] + s[p + 1..]) + Gain(s[p])
  {
    GainOfMiddle(s[..p], s[p], s[p + 1..]);
    AroundElement(s, p);
  }

  lemma AroundElement(s: seq<nat>, p: nat)
    requires p < |s|
    ensures (s[..p] + [s[p]]) + s[p + 1..] == s
  {
    var t := (s[..p] + [s[p]]) + s[p + 1..];
    assert |t| == |s|;
    forall i | 0 <= i < |s| ensures t[i] == s[i] {}
  }

  /** Prefix of the head plus prefix of the tail. */
  lemma HeadAndTail(best: seq<nat>, n: nat)
    requires best != [] && n > 0
    ensures TotalGain(Cut(best, n)) == Gain(best[0]) + TotalGain(Cut(best[1..], n - 1))
  {
    assert Cut(best, n) == [best[0]] + Cut(best[1..], n - 1);
    TotalGainSplits([best[0]], Cut(best[1..], n - 1));
    assert [best[0]][..0] == [];
  }

  lemma {:induction false} AllZero(s: seq<nat>)
    requires forall i :: 0 <= i < |s| ==> s[i] == 0
    ensures TotalGain(s) == 0.0
  {
    if s != [] { AllZero(s[..|s| - 1]); }
  }

  /** Which element to pair with the largest of `best`: that grade if it was drawn, else any. */
  lemma PickOne(s: seq<nat>, best: seq<nat>) returns (p: nat)
    requires s != [] && best != [] && Ordered(Above, best) && DrawnFrom(s, best)
    ensures p < |s| && s[p] <= best[0]
    ensures DrawnFrom(s[..p] + s[p + 1..], best[1..])
  {
    var h := best[0];
    p := 0;
    if h in s { p :| 0 <= p < |s| && s[p] == h; }
    RemoveAt(s, p);
    TailMultiset(best);
    assert s[p] <= h by {
      if s[p] > 0 {
        assert Times(s, s[p]) > 0 && Times(best, s[p]) > 0;
        assert s[p] in best;
        var j :| 0 <= j < |best| && best[j] == s[p];
        assert j == 0 || Above(best[0], best[j]);
      }
    }
    var rest := s[..p] + s[p + 1..];
    forall g: nat | g > 0 ensures Times(rest, g) <= Times(best[1..], g) {
      assert Times(rest, g) == Times(s, g) - (if g == s[p] then 1 else 0);
      assert Times(best[1..], g) == Times(best, g) - (if g == h then 1 else 0);
      assert h !in s ==> Times(s, h) == 0;
    }
  }

  /** No selection of n grades gains more than the n largest. */
  lemma {:induction false} LargestGainMost(s: seq<nat>, best: seq<nat>)
    requires Ordered(Above, best) && DrawnFrom(s, best)
    ensures TotalGain(s) <= TotalGain(Cut(best, |s|))
    decreases |s|
  {
    if s == [] {
    } else if best == [] {
      forall i | 0 <= i < |s| ensures s[i] == 0 {
        assert s[i] in multiset(s) && Times(best, s[i]) == 0;
      }
      AllZero(s);
    } else {
      var p := PickOne(s, best);
      var rest := s[..p] + s[p + 1..];
      OrderedTail(best);
      LargestGainMost(rest, best[1..]);
      RemovedGain(s, p);
      HeadAndTail(best, |s|);
      PowerMonotone(s[p], best[0]);
      assert |rest| == |s| - 1;
    }
  }

  lemma OrderedTail(best: seq<nat>)
    requires best != [] && Ordered(Above, best)
    ensures Ordered(Above, best[1..])
  {
  }

  // ---- Weights that never rise ------------------------------------------------------------------

  /** The gain at position i, nothing past the end. */
  function GainAt(grades: seq<nat>, i: nat): real {
    if i < |grades| then Gain(grades[i]) else 0.0
  }

  function GainBefore(grades: seq<nat>, n: nat): real {
    if n == 0 then 0.0 else GainBefore(grades, n - 1) + GainAt(grades, n - 1)
  }

  function DcgBefore(log: nat -> real, grades: seq<nat>, n: nat): real
    requires DiscountLike(log)
  {
    if n == 0 then 0.0 else DcgBefore(log, grades, n - 1) + GainAt(grades, n - 1) / log(n - 1)
  }

  lemma {:induction false} PaddedGain(grades: seq<nat>, n: nat)
    ensures GainBefore(grades, n) == TotalGain(Cut(grades, n))
  {
    if n != 0 {
      PaddedGain(grades, n - 1);
      assert grades[..|grades|] == grades;
      if n <= |grades| { assert grades[..n][..n - 1] == grades[..n - 1]; }
    }
  }

  lemma {:induction false} PaddedDcg(log: nat -> real, grades: seq<nat>, n: nat)
    requires DiscountLike(log)
    ensures DcgBefore(log, grades, n) == Dcg(log, Cut(grades, n))
  {
    if n != 0 {
      PaddedDcg(log, grades, n - 1);
      assert grades[..|grades|] == grades;
      if n <= |grades| { assert grades[..n][..n - 1] == grades[..n - 1]; }
    }
  }

  lemma Drawing(s: seq<nat>, best: seq<nat>, n: nat)
    requires Ordered(Above, best) && DrawnFrom(s, best)
    ensures GainBefore(s, n) <= GainBefore(best, n)
  {
    var top := Cut(s, n);
    assert DrawnFrom(top, best) by {
      assert s == top + s[|top|..];
      forall g: nat | g > 0 ensures Times(top, g) <= Times(best, g) {
        assert multiset(s) == multiset(top) + multiset(s[|top|..]);
      }
    }
    LargestGainMost(top, best);
    PaddedGain(s, n);
    PaddedGain(best, n);
    CutFurther(best, |top|, n);
  }

  lemma {:induction false} GainGrows(s: seq<nat>, a: nat, b: nat)
    requires a <= b
    ensures GainBefore(s, a) <= GainBefore(s, b)
  {
    if a < b { GainGrows(s, a, b - 1); }
  }

  lemma CutFurther(best: seq<nat>, a: nat, b: nat)
    requires a <= b
    ensures TotalGain(Cut(best, a)) <= TotalGain(Cut(best, b))
  {
    GainGrows(best, a, b);
    PaddedGain(best, a);
    PaddedGain(best, b);
  }

  lemma QuotientOrder(a: real, c: real, d: real)
    requires a >= 0.0 && 0.0 < c <= d
    ensures a / d <= a / c && a / d >= 0.0
  {
    var p, q := a / c, a / d;
    assert p * c == a && q * d == a;
    SmallerFactor(p, q, c, d);
  }

  lemma SmallerFactor(p: real, q: real, c: real, d: real)
    requires p * c == q * d && q * d >= 0.0 && 0.0 < c <= d
    ensures 0.0 <= q <= p
  {
    assert q >= 0.0;
    assert q * c <= q * d;
    Cancel(q, p, c);
  }

  lemma Cancel(q: real, p: real, c: real)
    requires c > 0.0 && q * c <= p * c
    ensures q <= p
  {
  }

  lemma QuotientSum(a: real, b: real, c: real)
    requires c != 0.0
    ensures (a + b) / c == a / c + b / c
  {
  }

  /** Abel summation: if no prefix of s gains more than the same prefix of best, the discounted sums keep at
      least the last discount's share of the lead. */
  lemma {:induction false} LeadKept(log: nat -> real, s: seq<nat>, best: seq<nat>, n: nat)
    requires DiscountLike(log) && n > 0
    requires forall j: nat :: GainBefore(s, j) <= GainBefore(best, j)
    ensures DcgBefore(log, best, n) - DcgBefore(log, s, n) >= (GainBefore(best, n) - GainBefore(s, n)) / log(n - 1)
  {
    var d := GainAt(best, n - 1) - GainAt(s, n - 1);
    QuotientSum(GainAt(best, n - 1), -GainAt(s, n - 1), log(n - 1));
    assert GainAt(best, n - 1) / log(n - 1) + (-GainAt(s, n - 1)) / log(n - 1) == d / log(n - 1);
    assert (-GainAt(s, n - 1)) / log(n - 1) == -(GainAt(s, n - 1) / log(n - 1));
    if n > 1 {
      LeadKept(log, s, best, n - 1);
      var lead := GainBefore(best, n - 1) - GainBefore(s, n - 1);
      QuotientOrder(lead, log(n - 2), log(n - 1));
      QuotientSum(lead, d, log(n - 1));
    } else {
      assert DcgBefore(log, best, 0) == 0.0 == DcgBefore(log, s, 0) && GainBefore(best, 0) == 0.0 == GainBefore(s, 0);
    }
  }

  /** The rearrangement bound: cut anywhere, no ranking of grades drawn from the ideal ones beats their
      descending order. */
  lemma NoRankingBeatsIdeal(log: nat -> real, ranked: seq<nat>, ideal: seq<nat>, k: nat)
    requires DiscountLike(log) && DrawnFrom(ranked, ideal)
    ensures Dcg(log, Cut(ranked, k)) <= Dcg(log, Cut(Descending(ideal), k))
  {
    var best := Descending(ideal);
    SortPermutes(Above, ideal);
    SortOrders(Above, ideal);
    forall j: nat ensures GainBefore(ranked, j) <= GainBefore(best, j) { Drawing(ranked, best, j); }
    PaddedDcg(log, ranked, k);
    PaddedDcg(log, best, k);
    if k > 0 {
      LeadKept(log, ranked, best, k);
      QuotientOrder(GainBefore(best, k) - GainBefore(ranked, k), log(k - 1), log(k - 1));
    }
  }

  lemma {:induction false} DcgSign(log: nat -> real, grades: seq<nat>)
    requires DiscountLike(log)
    ensures Dcg(log, grades) >= 0.0
    ensures Dcg(log, grades) == 0.0 <==> forall i :: 0 <= i < |grades| ==> grades[i] == 0
  {
    if grades != [] {
      var last := grades[|grades| - 1];
      DcgSign(log, grades[..|grades| - 1]);
      if last > 0 { PowerMonotone(1, last); }
      PositiveShare(Gain(last), log(|grades| - 1));
    }
  }

  lemma PositiveShare(a: real, b: real)
    requires a >= 0.0 && b > 0.0
    ensures a / b >= 0.0 && (a > 0.0 ==> a / b > 0.0) && (a == 0.0 ==> a / b == 0.0)
  {
  }

  lemma Ratio(a: real, b: real)
    requires 0.0 <= a <= b && b > 0.0
    ensures 0.0 <= a / b <= 1.0 && (a / b == 0.0 <==> a == 0.0) && (a / b == 1.0 <==> a == b)
  {
    var q := a / b;
    assert q * b == a;
  }

  /** nDCG lies between 0 and 1, and is 0 exactly when no relevant item made the cut. */
  lemma NdcgInUnitInterval(log: nat -> real, ranked: seq<nat>, ideal: seq<nat>, k: nat)
    requires DiscountLike(log) && DrawnFrom(ranked, ideal)
    ensures 0.0 <= NdcgAtK(log, ranked, ideal, k) <= 1.0
    ensures NdcgAtK(log, ranked, ideal, k) == 0.0 <==> forall i :: 0 <= i < |Cut(ranked, k)| ==> Cut(ranked, k)[i] == 0
  {
    NoRankingBeatsIdeal(log, ranked, ideal, k);
    DcgSign(log, Cut(ranked, k));
    DcgSign(log, Cut(Descending(ideal), k));
    var best := Dcg(log, Cut(Descending(ideal), k));
    if best != 0.0 { Ratio(Dcg(log, Cut(ranked, k)), best); }
  }

  // ---- The ranking of a leg ---------------------------------------------------------------------

  datatype Entry = Entry(score: real, id: string)

  /** The sort key `(-score, id)`. */
  predicate Before(a: Entry, b: Entry) {
    a.score > b.score || (a.score == b.score && Leq(a.id, b.id))
  }

  function Entries(ids: seq<string>, scores: seq<real>): (r: seq<Entry>)
    requires |ids| == |scores|
    ensures |r| == |ids| && forall i :: 0 <= i < |r| ==> r[i] == Entry(scores[i], ids[i])
  {
    seq(|ids|, i requires 0 <= i < |ids| => Entry(scores[i], ids[i]))
  }

  function RankedEntries(ids: seq<string>, scores: seq<real>): seq<Entry>
    requires |ids| == |scores|
  {
    Sort(Before, Entries(ids, scores))
  }

  function Ids(entries: seq<Entry>): (r: seq<string>)
    ensures |r| == |entries| && forall i :: 0 <= i < |r| ==> r[i] == entries[i].id
  {
    Map((e: Entry) => e.id, entries)
  }

  function Ranked(ids: seq<string>, scores: seq<real>): seq<string>
    requires |ids| == |scores|
  {
    Ids(RankedEntries(ids, scores))
  }

  lemma BeforeOrder()
    ensures TotalPreorder(Before)
  {
    forall a, b ensures Before(a, b) || Before(b, a) { LeqTotal(a.id, b.id); }
    forall a, b, c | Before(a, b) && Before(b, c) ensures Before(a, c) {
      if a.score == b.score == c.score { LeqTransitive(a.id, b.id, c.id); }
    }
  }

  lemma EntriesTieFree(entries: seq<Entry>)
    ensures TieFree(Before, entries)
  {
    forall a, b | Before(a, b) && Before(b, a) ensures a == b { LeqAntisymmetric(a.id, b.id); }
  }

  /** The ranking holds every id once, the best score first and equal scores by id, and depends only on which score
      goes with which id: whatever the corpus order, ties fall the same way. */
  lemma RankingCanonical(ids: seq<string>, scores: seq<real>, ids': seq<string>, scores': seq<real>)
    requires |ids| == |scores| && |ids'| == |scores'|
    requires multiset(Entries(ids, scores)) == multiset(Entries(ids', scores'))
    ensures Ranked(ids, scores) == Ranked(ids', scores')
    ensures multiset(Ranked(ids, scores)) == multiset(ids)
    ensures multiset(RankedEntries(ids, scores)) == multiset(Entries(ids, scores))
    ensures var ranked := RankedEntries(ids, scores);
            forall i, j :: 0 <= i < j < |ranked| ==>
              && ranked[i].score >= ranked[j].score
              && (ranked[i].score == ranked[j].score ==> Leq(ranked[i].id, ranked[j].id))
  {
    BeforeOrder();
    SortPermutes(Before, Entries(ids, scores));
    EntriesTieFree(Entries(ids, scores));
    SortCanonical(Before, Entries(ids, scores), Entries(ids', scores'));
    SortOrders(Before, Entries(ids, scores));
    RankingPermutes(ids, scores);
  }

  /** The score that goes with each place of the ranking is at least that of every later place, and of two ids with
      equal scores the smaller one comes first. */
  lemma BestFirst(ids: seq<string>, scores: seq<real>, i: nat, j: nat, p: nat, q: nat)
    requires |ids| == |scores| && Distinct(ids)
    requires i < |ids| && j < |ids| && p < |ids| && q < |ids| && |Ranked(ids, scores)| == |ids|
    requires Ranked(ids, scores)[i] == ids[p] && Ranked(ids, scores)[j] == ids[q]
    ensures i < j ==> scores[p] >= scores[q] && (scores[p] == scores[q] ==> Leq(ids[p], ids[q]))
    ensures i == j <==> p == q
    ensures scores[p] > scores[q] ==> i < j
  {
    RankingCanonical(ids, scores, ids, scores);
    ScoreAtPlace(ids, scores, i, p);
    ScoreAtPlace(ids, scores, j, q);
    DistinctPreserved(ids, Ranked(ids, scores));
  }

  lemma ScoreAtPlace(ids: seq<string>, scores: seq<real>, i: nat, p: nat)
    requires |ids| == |scores| && Distinct(ids) && i < |ids| && p < |ids| && |Ranked(ids, scores)| == |ids|
    requires Ranked(ids, scores)[i] == ids[p]
    ensures RankedEntries(ids, scores)[i] == Entries(ids, scores)[p]
  {
    var ranked, entries := RankedEntries(ids, scores), Entries(ids, scores);
    SortPermutes(Before, entries);
    SameElements(ranked, entries);
    assert ranked[i] in entries;
    var k :| 0 <= k < |entries| && entries[k] == ranked[i];
    assert ids[k] == ids[p];
  }

  lemma RankingPermutes(ids: seq<string>, scores: seq<real>)
    requires |ids| == |scores|
    ensures multiset(Ranked(ids, scores)) == multiset(ids)
  {
    SortPermutes(Before, Entries(ids, scores));
    MapPermutes((e: Entry) => e.id, RankedEntries(ids, scores), Entries(ids, scores));
    assert Map((e: Entry) => e.id, Entries(ids, scores)) == ids;
  }

  // ---- Grades of a ranking ----------------------------------------------------------------------

  datatype Judgement = Judgement(id: string, grade: nat)

  /** `relevance.get(id, 0)`. */
  function GradeOf(relevance: seq<Judgement>, id: string): nat {
    if relevance == [] then 0
    else
      var last := relevance[|relevance| - 1];
      if last.id == id then last.grade else GradeOf(relevance[..|relevance| - 1], id)
  }

  function Grades(relevance: seq<Judgement>, ids: seq<string>): (r: seq<nat>)
    ensures |r| == |ids| && forall i :: 0 <= i < |ids| ==> r[i] == GradeOf(relevance, ids[i])
  {
    seq(|ids|, i requires 0 <= i < |ids| => GradeOf(relevance, ids[i]))
  }

  /** `list(relevance.values())`. */
  function Values(relevance: seq<Judgement>): (r: seq<nat>)
    ensures |r| == |relevance| && forall i :: 0 <= i < |r| ==> r[i] == relevance[i].grade
  {
    seq(|relevance|, i requires 0 <= i < |relevance| => relevance[i].grade)
  }

  lemma GradesWithout(relevance: seq<Judgement>, ids: seq<string>)
    requires relevance != [] && relevance[|relevance| - 1].id !in ids
    ensures Grades(relevance, ids) == Grades(relevance[..|relevance| - 1], ids)
  {
    assert forall i :: 0 <= i < |ids| ==> ids[i] != relevance[|relevance| - 1].id;
  }

  /** Putting back the id of the last judgement adds that grade on both sides. */
  lemma OneMoreGrade(relevance: seq<Judgement>, ids: seq<string>, p: nat)
    requires relevance != [] && p < |ids| && ids[p] == relevance[|relevance| - 1].id
    requires DrawnFrom(Grades(relevance, ids[..p] + ids[p + 1..]), Values(relevance[..|relevance| - 1]))
    ensures DrawnFrom(Grades(relevance, ids), Values(relevance))
  {
    var last := relevance[|relevance| - 1];
    var all, fewer := Grades(relevance, ids), Grades(relevance, ids[..p] + ids[p + 1..]);
    assert Values(relevance) == Values(relevance[..|relevance| - 1]) + [last.grade];
    assert fewer == all[..p] + all[p + 1..];
    RemoveAt(all, p);
    forall g: nat | g > 0 ensures Times(all, g) <= Times(Values(relevance), g) {
      assert Times(all, g) == Times(fewer, g) + if g == last.grade then 1 else 0;
    }
  }

  /** Ranking distinct ids draws each judgement at most once. */
  lemma {:induction false} GradesDrawn(relevance: seq<Judgement>, ids: seq<string>)
    requires Distinct(ids)
    ensures DrawnFrom(Grades(relevance, ids), Values(relevance))
    decreases |relevance|
  {
    if relevance == [] {
      forall g: nat | g > 0 ensures Times(Grades(relevance, ids), g) == 0 {
        assert g !in Grades(relevance, ids);
      }
    } else {
      var init, last := relevance[..|relevance| - 1], relevance[|relevance| - 1];
      assert Values(relevance) == Values(init) + [last.grade];
      if p :| 0 <= p < |ids| && ids[p] == last.id {
        var rest := ids[..p] + ids[p + 1..];
        assert Distinct(rest) && last.id !in rest;
        GradesDrawn(init, rest);
        GradesWithout(relevance, rest);
        OneMoreGrade(relevance, ids, p);
      } else {
        GradesDrawn(init, ids);
        GradesWithout(relevance, ids);
      }
    }
  }

  /** For every query, corpus and tie-break, the nDCG of a leg's ranking lies between 0 and 1. */
  lemma LegNdcgBounded(log: nat -> real, ids: seq<string>, scores: seq<real>, relevance: seq<Judgement>, k: nat)
    requires DiscountLike(log) && |ids| == |scores| && Distinct(ids)
    ensures 0.0 <= NdcgAtK(log, Grades(relevance, Ranked(ids, scores)), Values(relevance), k) <= 1.0
  {
    RankingPermutes(ids, scores);
    DistinctPreserved(ids, Ranked(ids, scores));
    GradesDrawn(relevance, Ranked(ids, scores));
    NdcgInUnitInterval(log, Grades(relevance, Ranked(ids, scores)), Values(relevance), k);
  }
}
