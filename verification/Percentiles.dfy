/** Interpolated percentiles over a sorted list of tenant costs. */
module Percentiles {
  import opened Rounding

  predicate Sorted(s: seq<real>) {
    forall i, j :: 0 <= i < j < |s| ==> s[i] <= s[j]
  }

  function Insert(x: real, s: seq<real>): seq<real> {
    if s == [] || x <= s[0] then [x] + s else [s[0]] + Insert(x, s[1..])
  }

  function Sort(s: seq<real>): seq<real> {
    if s == [] then [] else Insert(s[0], Sort(s[1..]))
  }

  lemma {:induction false} InsertElements(x: real, s: seq<real>)
    ensures multiset(Insert(x, s)) == multiset{x} + multiset(s)
  {
    if s != [] && x > s[0] {
      InsertElements(x, s[1..]);
      assert s == [s[0]] + s[1..];
    }
  }

  lemma PrependSorted(x: real, s: seq<real>)
    requires Sorted(s) && forall y :: y in s ==> x <= y
    ensures Sorted([x] + s)
  {
    var t := [x] + s;
    forall i, j | 0 <= i < j < |t|
      ensures t[i] <= t[j]
    {
      assert t[j] == s[j - 1] && s[j - 1] in s;
      assert i > 0 ==> t[i] == s[i - 1];
    }
  }

  lemma {:induction false} InsertSorted(x: real, s: seq<real>)
    requires Sorted(s)
    ensures Sorted(Insert(x, s))
  {
    if s == [] || x <= s[0] {
      PrependSorted(x, s);
    } else {
      var rest := Insert(x, s[1..]);
      InsertSorted(x, s[1..]);
      InsertElements(x, s[1..]);
      forall y | y in rest
        ensures s[0] <= y
      {
        assert y in multiset(rest);
        assert y == x || y in multiset(s[1..]);
      }
      PrependSorted(s[0], rest);
    }
  }

  lemma {:induction false} SortIsSortedPermutation(s: seq<real>)
    ensures Sorted(Sort(s)) && multiset(Sort(s)) == multiset(s) && |Sort(s)| == |s|
  {
    if s != [] {
      SortIsSortedPermutation(s[1..]);
      InsertSorted(s[0], Sort(s[1..]));
      InsertElements(s[0], Sort(s[1..]));
      assert s == [s[0]] + s[1..];
    }
    assert |multiset(Sort(s))| == |multiset(s)|;
  }

  /** A multiset has one sorted arrangement. */
  lemma {:induction false} SortedUnique(a: seq<real>, b: seq<real>)
    requires Sorted(a) && Sorted(b) && multiset(a) == multiset(b)
    ensures a == b
  {
    assert |multiset(a)| == |multiset(b)|;
    if a != [] {
      FirstIsLeast(a, b);
      FirstIsLeast(b, a);
      assert a == [a[0]] + a[1..] && b == [b[0]] + b[1..];
      assert multiset(a[1..]) == multiset(a) - multiset{a[0]} == multiset(b[1..]);
      SortedUnique(a[1..], b[1..]);
    }
  }

  lemma FirstIsLeast(a: seq<real>, b: seq<real>)
    requires a != [] && b != [] && Sorted(a) && multiset(a) == multiset(b)
    ensures a[0] <= b[0]
  {
    assert b[0] in multiset(a);
    var i :| 0 <= i < |a| && a[i] == b[0];
  }

  function Ceiling(r: real): int {
    if r.Floor as real == r then r.Floor else r.Floor + 1
  }

  /** The fraction w of the way from a to b. */
  function Between(a: real, b: real, w: real): real {
    a + (b - a) * w
  }

  /** The value at fractional rank r of an ascending list. */
  function AtRank(s: seq<real>, r: real): real
    requires 0.0 <= r <= |s| as real - 1.0
  {
    var lower, upper := r.Floor, Ceiling(r);
    if lower == upper then s[lower] else Between(s[lower], s[upper], r - lower as real)
  }

  function Smallest(values: seq<real>): real
    requires values != []
  {
    if |values| == 1 then values[0] else Min(values[0], Smallest(values[1..]))
  }

  function Largest(values: seq<real>): real
    requires values != []
  {
    if |values| == 1 then values[0] else Max(values[0], Largest(values[1..]))
  }

  function Sum(values: seq<real>): real {
    if values == [] then 0.0 else Sum(values[..|values| - 1]) + values[|values| - 1]
  }

  function Rank(percentile: real, count: nat): real {
    percentile / 100.0 * (count as real - 1.0)
  }

  function Percentile(values: seq<real>, percentile: real): real {
    if values == [] then 0.0
    else if percentile <= 0.0 then Smallest(values)
    else if percentile >= 100.0 then Largest(values)
    else
      SortIsSortedPermutation(values);
      RankInRange(percentile, |values|);
      AtRank(Sort(values), Rank(percentile, |values|))
  }

  lemma RankInRange(percentile: real, count: nat)
    requires 0.0 <= percentile <= 100.0 && count >= 1
    ensures 0.0 <= Rank(percentile, count) <= count as real - 1.0
  {
    ShareOfLast(percentile / 100.0, count as real - 1.0, Rank(percentile, count));
  }

  lemma ShareOfLast(share: real, last: real, r: real)
    requires 0.0 <= share <= 1.0 && last >= 0.0 && r == share * last
    ensures 0.0 <= r <= last
  {
    MulAtMost(share, last);
    MulNonNegative(share, last);
  }

  // ----- interpolation -----

  lemma BetweenMonotone(a: real, b: real, u: real, v: real)
    requires a <= b && u <= v
    ensures Between(a, b, u) <= Between(a, b, v)
  {
    MulMonotone(u, v, b - a);
  }

  lemma BetweenRange(a: real, b: real, w: real)
    requires a <= b && 0.0 <= w <= 1.0
    ensures a <= Between(a, b, w) <= b
  {
    BetweenMonotone(a, b, 0.0, w);
    BetweenMonotone(a, b, w, 1.0);
  }

  lemma AtRankInSegment(s: seq<real>, r: real)
    requires Sorted(s) && 0.0 <= r <= |s| as real - 1.0
    ensures s[r.Floor] <= AtRank(s, r)
    ensures r.Floor + 1 < |s| ==> AtRank(s, r) <= s[r.Floor + 1]
  {
    hide Between;
    var lower, upper := r.Floor, Ceiling(r);
    if lower != upper {
      assert upper < |s|;
      BetweenRange(s[lower], s[upper], r - lower as real);
    }
  }

  lemma SameSegment(s: seq<real>, q: real, r: real)
    requires Sorted(s) && 0.0 <= q <= r <= |s| as real - 1.0 && q.Floor == r.Floor
    ensures AtRank(s, q) <= AtRank(s, r)
  {
    hide Between;
    var lower := q.Floor;
    AtRankInSegment(s, r);
    if q != lower as real {
      assert Ceiling(q) == Ceiling(r) == lower + 1;
      BetweenMonotone(s[lower], s[lower + 1], q - lower as real, r - lower as real);
    }
  }

  lemma AtRankMonotone(s: seq<real>, q: real, r: real)
    requires Sorted(s) && 0.0 <= q <= r <= |s| as real - 1.0
    ensures AtRank(s, q) <= AtRank(s, r)
  {
    hide AtRank;
    if q.Floor == r.Floor {
      SameSegment(s, q, r);
    } else {
      assert q.Floor + 1 <= r.Floor;
      AtRankInSegment(s, q);
      AtRankInSegment(s, r);
      assert s[q.Floor + 1] <= s[r.Floor];
    }
  }

  lemma {:induction false} SmallestIsLeast(values: seq<real>)
    requires values != []
    ensures Smallest(values) in values && forall i :: 0 <= i < |values| ==> Smallest(values) <= values[i]
  {
    if |values| > 1 {
      SmallestIsLeast(values[1..]);
      assert values == [values[0]] + values[1..];
    }
  }

  lemma {:induction false} LargestIsGreatest(values: seq<real>)
    requires values != []
    ensures Largest(values) in values && forall i :: 0 <= i < |values| ==> values[i] <= Largest(values)
  {
    if |values| > 1 {
      LargestIsGreatest(values[1..]);
      assert values == [values[0]] + values[1..];
    }
  }

  lemma SortedEnds(values: seq<real>)
    requires values != []
    ensures var s := Sort(values); |s| == |values| && s[0] == Smallest(values) && s[|s| - 1] == Largest(values)
  {
    hide Sort, Smallest, Largest;
    var s := Sort(values);
    SortIsSortedPermutation(values);
    SmallestIsLeast(values);
    LargestIsGreatest(values);
    assert s[0] in multiset(values) && s[|s| - 1] in multiset(values);
    assert Smallest(values) in multiset(s) && Largest(values) in multiset(s);
  }

  // ----- percentiles -----

  /** Both ends of the range and the interior come from one interpolant over the sorted list. */
  lemma PercentileIsAtRank(values: seq<real>, percentile: real)
    requires values != []
    ensures var p := Clamp(percentile, 0.0, 100.0);
            && |Sort(values)| == |values| && Sorted(Sort(values))
            && 0.0 <= Rank(p, |values|) <= |values| as real - 1.0
            && Percentile(values, percentile) == AtRank(Sort(values), Rank(p, |values|))
  {
    hide Sort, Smallest, Largest;
    SortIsSortedPermutation(values);
    SortedEnds(values);
    RankInRange(Clamp(percentile, 0.0, 100.0), |values|);
    RankEnds(|values|);
  }

  lemma RankEnds(count: nat)
    requires count >= 1
    ensures Rank(0.0, count) == 0.0 && Rank(100.0, count) == (count - 1) as real
  {
  }

  lemma RankMonotone(p: real, q: real, count: nat)
    requires p <= q && count >= 1
    ensures Rank(p, count) <= Rank(q, count)
  {
    SharesOrdered(p / 100.0, q / 100.0, count as real - 1.0, Rank(p, count), Rank(q, count));
  }

  lemma SharesOrdered(a: real, b: real, n: real, x: real, y: real)
    requires a <= b && n >= 0.0 && x == a * n && y == b * n
    ensures x <= y
  {
    MulMonotone(a, b, n);
  }

  lemma PercentileMonotone(values: seq<real>, p: real, q: real)
    requires p <= q
    ensures Percentile(values, p) <= Percentile(values, q)
  {
    hide Percentile, Rank, AtRank, Sort;
    if values == [] {
      EmptyPercentile(p);
      EmptyPercentile(q);
    } else {
      var lo, hi := Clamp(p, 0.0, 100.0), Clamp(q, 0.0, 100.0);
      PercentileIsAtRank(values, p);
      PercentileIsAtRank(values, q);
      RankMonotone(lo, hi, |values|);
      AtRankMonotone(Sort(values), Rank(lo, |values|), Rank(hi, |values|));
    }
  }

  lemma EmptyPercentile(p: real)
    ensures Percentile([], p) == 0.0
  {
  }

  lemma PercentileBetweenExtremes(values: seq<real>, percentile: real)
    requires values != []
    ensures Smallest(values) <= Percentile(values, percentile) <= Largest(values)
  {
    hide AtRank, Sort, Smallest, Largest;
    PercentileMonotone(values, Min(percentile, 0.0), percentile);
    PercentileMonotone(values, percentile, Max(percentile, 100.0));
  }

  /** The order in which the tenants are listed does not matter. */
  lemma PercentileIgnoresOrder(values: seq<real>, shuffled: seq<real>, percentile: real)
    requires multiset(values) == multiset(shuffled)
    ensures Percentile(values, percentile) == Percentile(shuffled, percentile)
  {
    hide Percentile, AtRank, Sort, Rank;
    assert |multiset(values)| == |multiset(shuffled)|;
    if values == [] {
      assert shuffled == [];
    } else {
      SortIsSortedPermutation(values);
      SortIsSortedPermutation(shuffled);
      SortedUnique(Sort(values), Sort(shuffled));
      PercentileIsAtRank(values, percentile);
      PercentileIsAtRank(shuffled, percentile);
    }
  }

  lemma PercentileNonNegative(values: seq<real>, percentile: real)
    requires forall i :: 0 <= i < |values| ==> values[i] >= 0.0
    ensures Percentile(values, percentile) >= 0.0
  {
    hide Percentile, Smallest;
    if values == [] {
      EmptyPercentile(percentile);
    } else {
      PercentileBetweenExtremes(values, percentile);
      SmallestIsLeast(values);
    }
  }

  /**
    Linear interpolation between neighbours of the sorted values: at the rank k + w, counted
    from 0 over n - 1 steps, the percentile lies the fraction w of the way from s[k] to s[k + 1].
   */
  lemma PercentileInterpolates(values: seq<real>, s: seq<real>, percentile: real, k: nat, w: real)
    requires Sorted(s) && multiset(s) == multiset(values) && k < |s|
    requires 0.0 <= percentile <= 100.0 && 0.0 <= w < 1.0
    requires percentile * (|s| - 1) as real == 100.0 * (k as real + w)
    ensures w > 0.0 ==> k + 1 < |s| && Percentile(values, percentile) == (1.0 - w) * s[k] + w * s[k + 1]
    ensures w == 0.0 ==> Percentile(values, percentile) == s[k]
  {
    hide Percentile, Sort, Smallest, Largest;
    assert |multiset(s)| == |multiset(values)|;
    assert values != [];
    SortIsSortedPermutation(values);
    SortedUnique(s, Sort(values));
    PercentileIsAtRank(values, percentile);
    var r := Rank(percentile, |values|);
    RankSplits(percentile, |values|, k, w);
    hide Between;
    if w > 0.0 {
      assert Ceiling(r) == k + 1;
      SharesOfStep(s[k], s[k + 1], w);
    }
  }

  lemma RankSplits(percentile: real, count: nat, k: nat, w: real)
    requires percentile * (count - 1) as real == 100.0 * (k as real + w) && 0.0 <= w < 1.0
    ensures Rank(percentile, count) == k as real + w && Rank(percentile, count).Floor == k
  {
    assert Rank(percentile, count) * 100.0 == percentile * (count - 1) as real;
  }

  lemma SharesOfStep(a: real, b: real, w: real)
    ensures Between(a, b, w) == (1.0 - w) * a + w * b
  {
  }

  /** Rounding keeps the order, so the p50 <= p95 <= p99 check can never fail. */
  lemma RoundedPercentilesOrdered(values: seq<real>, p: real, q: real)
    requires p <= q
    ensures Round(Percentile(values, p), PLACES6) <= Round(Percentile(values, q), PLACES6)
  {
    hide Percentile, Round;
    PercentileMonotone(values, p, q);
    RoundMonotone(Percentile(values, p), Percentile(values, q), PLACES6);
  }
}
