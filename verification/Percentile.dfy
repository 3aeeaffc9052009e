/** Nearest-rank percentiles (scripts/assistant_ttft_benchmark.py:244-259) over whole microseconds: the code rounds to
    six decimals. A percentile is a fraction `num / den`; the code multiplies a floating-point one. */
module Percentiles {
  import opened Prelude
  import opened Sorting

  function CeilDiv(a: nat, b: nat): (r: nat)
    requires b > 0
    ensures r * b >= a && (r > 0 ==> (r - 1) * b < a)
  {
    (a + b - 1) / b
  }

  lemma MulLess(a: nat, b: nat, c: nat)
    requires a < b && c > 0
    ensures a * c < b * c
  {
  }

  lemma MulAtMost(a: nat, b: nat, c: nat)
    requires a <= b
    ensures a * c <= b * c
  {
  }

  lemma CancelLess(a: nat, b: nat, c: nat)
    requires a * c < b * c
    ensures a < b
  {
    if a >= b { MulAtMost(b, a, c); }
  }

  /** `max(1, ceil(p * n))`. */
  function Rank(num: nat, den: nat, n: nat): nat
    requires den > 0
  {
    if CeilDiv(num * n, den) == 0 then 1 else CeilDiv(num * n, den)
  }

  lemma RankInRange(num: nat, den: nat, n: nat)
    requires 0 < den && num <= den && n > 0
    ensures 1 <= Rank(num, den, n) <= n
  {
    var r := CeilDiv(num * n, den);
    if r > 0 {
      MulAtMost(num, den, n);
      CancelLess(r - 1, n, den);
    }
  }

  /** `_percentile`. */
  function Percentile(values: seq<int>, num: nat, den: nat): Option<int>
    requires 0 < den && num <= den
  {
    if values == [] then None
    else
      RankInRange(num, den, |values|);
      SortPermutes(IntLeq, values);
      Some(Sort(IntLeq, values)[Rank(num, den, |values|) - 1])
  }

  // ---- Counting ---------------------------------------------------------------------------------

  function AtMost(values: seq<int>, v: int): nat {
    if values == [] then 0 else AtMost(values[..|values| - 1], v) + if values[|values| - 1] <= v then 1 else 0
  }

  function Below(values: seq<int>, v: int): nat {
    AtMost(values, v - 1)
  }

  lemma {:induction false} AtMostJoin(a: seq<int>, b: seq<int>, v: int)
    ensures AtMost(a + b, v) == AtMost(a, v) + AtMost(b, v)
  {
    if b == [] {
      assert a + b == a;
    } else {
      assert (a + b)[..|a + b| - 1] == a + b[..|b| - 1];
      AtMostJoin(a, b[..|b| - 1], v);
    }
  }

  lemma AtMostRemove(s: seq<int>, j: nat, v: int)
    requires j < |s|
    ensures AtMost(s, v) == AtMost(s[..j] + s[j + 1..], v) + if s[j] <= v then 1 else 0
  {
    assert s == s[..j] + [s[j]] + s[j + 1..];
    AtMostJoin(s[..j] + [s[j]], s[j + 1..], v);
    AtMostJoin(s[..j], [s[j]], v);
    AtMostJoin(s[..j], s[j + 1..], v);
    assert [s[j]][..0] == [];
  }

  /** Counting does not depend on the order. */
  lemma {:induction false} AtMostPermutes(s: seq<int>, t: seq<int>, v: int)
    requires multiset(s) == multiset(t)
    ensures AtMost(s, v) == AtMost(t, v)
  {
    SameElements(s, t);
    if s != [] {
      assert s[0] in t;
      var j :| 0 <= j < |t| && t[j] == s[0];
      RemoveAt(s, 0);
      RemoveAt(t, j);
      AtMostPermutes(s[..0] + s[1..], t[..j] + t[j + 1..], v);
      AtMostWithout(s, 0, t, j, v);
    }
  }

  lemma AtMostWithout(s: seq<int>, i: nat, t: seq<int>, j: nat, v: int)
    requires i < |s| && j < |t| && s[i] == t[j]
    requires AtMost(s[..i] + s[i + 1..], v) == AtMost(t[..j] + t[j + 1..], v)
    ensures AtMost(s, v) == AtMost(t, v)
  {
    AtMostRemove(s, i, v);
    AtMostRemove(t, j, v);
  }

  lemma {:induction false} AtMostBounds(s: seq<int>, v: int)
    ensures AtMost(s, v) <= |s|
    ensures (forall i :: 0 <= i < |s| ==> s[i] <= v) ==> AtMost(s, v) == |s|
    ensures (forall i :: 0 <= i < |s| ==> s[i] > v) ==> AtMost(s, v) == 0
    ensures AtMost(s, v) == |s| ==> forall i :: 0 <= i < |s| ==> s[i] <= v
  {
    if s != [] { AtMostBounds(s[..|s| - 1], v); }
  }

  lemma {:induction false} AtMostMonotone(s: seq<int>, v: int, w: int)
    requires v <= w
    ensures AtMost(s, v) <= AtMost(s, w)
  {
    if s != [] { AtMostMonotone(s[..|s| - 1], v, w); }
  }

  lemma {:induction false} AtMostPrefix(s: seq<int>, r: nat, v: int)
    requires r <= |s| && forall i :: 0 <= i < r ==> s[i] <= v
    ensures AtMost(s, v) >= r
  {
    if r == |s| { AtMostBounds(s, v); } else { AtMostPrefix(s[..|s| - 1], r, v); }
  }

  lemma {:induction false} AtMostCapped(s: seq<int>, r: nat, v: int)
    requires r <= |s| && forall i :: r <= i < |s| ==> s[i] > v
    ensures AtMost(s, v) <= r
  {
    if r == |s| { AtMostBounds(s, v); } else { AtMostCapped(s[..|s| - 1], r, v); }
  }

  /** In an ordered sequence the element of rank r has r elements at or below it, and fewer strictly below. */
  lemma OrderedCounts(s: seq<int>, r: nat)
    requires Ordered(IntLeq, s) && 1 <= r <= |s|
    ensures AtMost(s, s[r - 1]) >= r && Below(s, s[r - 1]) < r
  {
    var v := s[r - 1];
    forall i | 0 <= i < r ensures s[i] <= v { assert i == r - 1 || IntLeq(s[i], s[r - 1]); }
    AtMostPrefix(s, r, v);
    forall i | r - 1 <= i < |s| ensures s[i] > v - 1 { assert i == r - 1 || IntLeq(s[r - 1], s[i]); }
    AtMostCapped(s, r - 1, v - 1);
  }

  // ---- What the percentile is -------------------------------------------------------------------

  /** The percentile is a value with at least the rank's number of values at or below it and fewer strictly below. */
  lemma PercentileCounts(values: seq<int>, num: nat, den: nat)
    requires values != [] && 0 < den && num <= den
    ensures var v := Percentile(values, num, den).value;
            && v in values
            && AtMost(values, v) >= Rank(num, den, |values|) > Below(values, v)
  {
    var r := Rank(num, den, |values|);
    RankInRange(num, den, |values|);
    AtRank(values, r);
    assert Percentile(values, num, den) == Some(Sort(IntLeq, values)[r - 1]);
  }

  lemma AtRank(values: seq<int>, r: nat)
    requires 1 <= r <= |values|
    ensures |Sort(IntLeq, values)| == |values|
    ensures var v := Sort(IntLeq, values)[r - 1]; v in values && AtMost(values, v) >= r > Below(values, v)
  {
    SortedAlike(values);
    CountsCarryOver(values, Sort(IntLeq, values), r);
  }

  /** In fractions: at least num / den of the values are at or below the percentile, and less than that strictly below,
      unless it is the least value. */
  lemma PercentileFraction(values: seq<int>, num: nat, den: nat)
    requires values != [] && 0 < den && num <= den
    ensures var v := Percentile(values, num, den).value;
            && AtMost(values, v) * den >= num * |values|
            && (Below(values, v) == 0 || Below(values, v) * den < num * |values|)
  {
    PercentileCounts(values, num, den);
    var v := Percentile(values, num, den).value;
    RankIsLeast(num, den, |values|, AtMost(values, v));
    RankIsLeast(num, den, |values|, Below(values, v));
  }

  /** The rank is the least positive count that makes up the fraction. */
  lemma RankIsLeast(num: nat, den: nat, n: nat, count: nat)
    requires den > 0
    ensures count >= Rank(num, den, n) <==> count > 0 && count * den >= num * n
  {
    var r := CeilDiv(num * n, den);
    if count >= r { MulAtMost(r, count, den); } else { MulAtMost(count, r - 1, den); }
  }

  lemma SortedAlike(values: seq<int>)
    ensures multiset(values) == multiset(Sort(IntLeq, values)) && |Sort(IntLeq, values)| == |values|
              && Ordered(IntLeq, Sort(IntLeq, values))
  {
    SortPermutes(IntLeq, values);
    SortOrders(IntLeq, values);
  }

  lemma CountsCarryOver(values: seq<int>, s: seq<int>, r: nat)
    requires multiset(values) == multiset(s) && Ordered(IntLeq, s) && 1 <= r <= |s|
    ensures s[r - 1] in values && AtMost(values, s[r - 1]) >= r > Below(values, s[r - 1])
  {
    SameElements(values, s);
    OrderedCounts(s, r);
    assert s[r - 1] in s;
    AtMostPermutes(values, s, s[r - 1]);
    AtMostPermutes(values, s, s[r - 1] - 1);
  }

  /** A bound holds for the percentile exactly when it holds for the rank's number of values. */
  lemma PercentileBound(values: seq<int>, num: nat, den: nat, bound: int)
    requires values != [] && 0 < den && num <= den
    ensures Percentile(values, num, den).value <= bound <==> AtMost(values, bound) >= Rank(num, den, |values|)
  {
    var v := Percentile(values, num, den).value;
    PercentileCounts(values, num, den);
    if v <= bound { AtMostMonotone(values, v, bound); } else { AtMostMonotone(values, bound, v - 1); }
  }

  lemma RankMonotone(num: nat, den: nat, num': nat, den': nat, n: nat)
    requires 0 < den && 0 < den' && num * den' <= num' * den
    ensures Rank(num, den, n) <= Rank(num', den', n)
  {
    var r, q := CeilDiv(num * n, den), CeilDiv(num' * n, den');
    if r > 0 {
      assert (r - 1) * den < num * n && num' * n <= q * den';
      RankScaled(r - 1, q, num, den, num', den', n);
    }
  }

  lemma RankScaled(a: nat, q: nat, num: nat, den: nat, num': nat, den': nat, n: nat)
    requires 0 < den && 0 < den' && num * den' <= num' * den
    requires a * den < num * n && num' * n <= q * den'
    ensures a < q
  {
    MulLess(a * den, num * n, den');
    MulAtMost(num * den', num' * den, n);
    MulAtMost(num' * n, q * den', den);
    assert (num * n) * den' == (num * den') * n && (num' * n) * den == (num' * den) * n;
    assert (a * den) * den' == a * (den * den') && (q * den') * den == q * (den * den');
    CancelLess(a, q, den * den');
  }

  /** A higher percentile is never lower. */
  lemma PercentileMonotone(values: seq<int>, num: nat, den: nat, num': nat, den': nat)
    requires values != [] && 0 < den && num <= den && 0 < den' && num' <= den' && num * den' <= num' * den
    ensures Percentile(values, num, den).value <= Percentile(values, num', den').value
  {
    PercentileCounts(values, num', den');
    RankMonotone(num, den, num', den', |values|);
    PercentileBound(values, num, den, Percentile(values, num', den').value);
  }

  /** The percentile depends on nothing but the multiset of values. */
  lemma PercentilePermutes(values: seq<int>, values': seq<int>, num: nat, den: nat)
    requires 0 < den && num <= den && multiset(values) == multiset(values')
    ensures Percentile(values, num, den) == Percentile(values', num, den)
  {
    SameElements(values, values');
    if values != [] {
      var v, w := Percentile(values, num, den).value, Percentile(values', num, den).value;
      PercentileBound(values, num, den, w);
      PercentileBound(values', num, den, v);
      PercentileCounts(values, num, den);
      PercentileCounts(values', num, den);
      AtMostPermutes(values, values', v);
      AtMostPermutes(values, values', w);
    }
  }

  /** `_iqr`. */
  function Iqr(values: seq<int>): Option<int> {
    var high, low := Percentile(values, 75, 100), Percentile(values, 25, 100);
    if high.None? || low.None? then None else Some(high.value - low.value)
  }

  /** The interquartile range is never negative. */
  lemma IqrNonNegative(values: seq<int>)
    requires values != []
    ensures Iqr(values).value >= 0
  {
    PercentileMonotone(values, 25, 100, 75, 100);
  }
}
