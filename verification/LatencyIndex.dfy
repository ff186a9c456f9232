/** Query latencies: a sliding window of samples kept twice, in arrival order and sorted. */
module LatencyIndex {
  const MAX_LATENCY_SAMPLES := 1000
  /** The longest duration there is, in nanoseconds. */
  const DURATION_MAX := 18446744073709551615 * 1_000_000_000 + 999_999_999

  predicate Sorted(s: seq<nat>) { forall i, j :: 0 <= i <= j < |s| ==> s[i] <= s[j] }

  /** The most recent samples, at most `k` of them. */
  function Latest(s: seq<nat>, k: nat): (r: seq<nat>) { if |s| <= k then s else s[|s| - k..] }

  function Insert(s: seq<nat>, i: nat, x: nat): (r: seq<nat>)
    requires i <= |s|
  {
    s[..i] + [x] + s[i..]
  }

  function Remove(s: seq<nat>, i: nat): (r: seq<nat>)
    requires i < |s|
  {
    s[..i] + s[i + 1..]
  }

  lemma InsertSorted(s: seq<nat>, i: nat, x: nat)
    requires Sorted(s) && i <= |s|
    requires (forall j :: 0 <= j < i ==> s[j] <= x) && (forall j :: i <= j < |s| ==> x <= s[j])
    ensures Sorted(Insert(s, i, x)) && multiset(Insert(s, i, x)) == multiset(s) + multiset{x}
  {
    assert s == s[..i] + s[i..];
  }

  lemma RemoveSorted(s: seq<nat>, i: nat)
    requires Sorted(s) && i < |s|
    ensures Sorted(Remove(s, i)) && multiset(Remove(s, i)) == multiset(s) - multiset{s[i]}
  {
    assert s == s[..i] + [s[i]] + s[i + 1..];
  }

  /** Any index holding `x`, or the place where it belongs. */
  method BinarySearch(s: seq<nat>, x: nat) returns (found: bool, index: nat)
    requires Sorted(s)
    ensures index <= |s| && (found <==> x in s)
    ensures found ==> index < |s| && s[index] == x
    ensures (forall j :: 0 <= j < index ==> s[j] <= x) && (forall j :: index <= j < |s| ==> x <= s[j])
  {
    var lo, hi := 0, |s|;
    while lo < hi
      invariant lo <= hi <= |s|
      invariant (forall j :: 0 <= j < lo ==> s[j] < x) && (forall j :: hi <= j < |s| ==> x < s[j])
    {
      var mid := lo + (hi - lo) / 2;
      if s[mid] == x {
        return true, mid;
      }
      if s[mid] < x {
        lo := mid + 1;
      } else {
        hi := mid;
      }
    }
    return false, lo;
  }

  function Sum(s: seq<nat>): (n: nat) { if s == [] then 0 else Sum(s[..|s| - 1]) + s[|s| - 1] }

  lemma SumAppend(s: seq<nat>, x: nat)
    ensures Sum(s + [x]) == Sum(s) + x
  {
  }

  class QueryMetrics {
    var queryCount: nat
    var totalLatency: nat
    var minLatency: nat
    var maxLatency: nat
    var samples: seq<nat>
    var sorted: seq<nat>
    /** Every latency ever recorded. */
    ghost var history: seq<nat>

    ghost predicate Valid()
      reads this
    {
      && samples == Latest(history, MAX_LATENCY_SAMPLES)
      && Sorted(sorted) && multiset(sorted) == multiset(samples)
      && Totals()
    }

    ghost predicate Totals()
      reads this
    {
      && queryCount == |history| && totalLatency == Sum(history)
      && (forall i :: 0 <= i < |history| ==> minLatency <= history[i] <= maxLatency)
      && (if history == [] then minLatency == DURATION_MAX && maxLatency == 0
          else minLatency in history && maxLatency in history)
    }

    constructor ()
      ensures Valid() && history == []
    {
      queryCount, totalLatency, minLatency, maxLatency := 0, 0, DURATION_MAX, 0;
      samples, sorted, history := [], [], [];
    }

    method RecordQuery(latency: nat)
      requires Valid() && latency <= DURATION_MAX
      modifies this
      ensures Valid() && history == old(history) + [latency]
    {
      CountTotals(latency);
      SlideWindow(latency);
      LatestAppend(history, latency, MAX_LATENCY_SAMPLES);
      history := history + [latency];
    }

    /** The oldest sample leaves both copies; the sorted one always has it. */
    method SlideWindow(latency: nat)
      requires Sorted(sorted) && multiset(sorted) == multiset(samples) && |samples| <= MAX_LATENCY_SAMPLES
      modifies this`samples, this`sorted
      ensures samples == Latest(old(samples) + [latency], MAX_LATENCY_SAMPLES)
      ensures Sorted(sorted) && multiset(sorted) == multiset(samples)
    {
      InsertLatencySample(latency);
      if |samples| > MAX_LATENCY_SAMPLES {
        var evicted := samples[0];
        Evicted(samples);
        samples := samples[1..];
        RemoveSortedLatencySample(evicted);
      }
    }

    method CountTotals(latency: nat)
      requires Valid() && latency <= DURATION_MAX
      modifies this`queryCount, this`totalLatency, this`minLatency, this`maxLatency
      ensures queryCount == |history| + 1 && totalLatency == Sum(history + [latency])
      ensures forall i :: 0 <= i < |history + [latency]| ==> minLatency <= (history + [latency])[i] <= maxLatency
      ensures minLatency in history + [latency] && maxLatency in history + [latency]
    {
      queryCount := queryCount + 1;
      totalLatency := totalLatency + latency;
      SumAppend(history, latency);
      if latency < minLatency {
        minLatency := latency;
      }
      if latency > maxLatency {
        maxLatency := latency;
      }
    }

    method InsertLatencySample(latency: nat)
      requires Sorted(sorted) && multiset(sorted) == multiset(samples)
      modifies this`samples, this`sorted
      ensures samples == old(samples) + [latency]
      ensures Sorted(sorted) && multiset(sorted) == multiset(samples)
    {
      samples := samples + [latency];
      var _, index := BinarySearch(sorted, latency);
      InsertSorted(sorted, index, latency);
      sorted := Insert(sorted, index, latency);
    }

    /** Removes one occurrence; whether there is one is the caller's affair. */
    method RemoveSortedLatencySample(latency: nat)
      requires Sorted(sorted)
      modifies this`sorted
      ensures Sorted(sorted) && multiset(sorted) == multiset(old(sorted)) - multiset{latency}
      ensures |sorted| == |old(sorted)| - if latency in old(sorted) then 1 else 0
    {
      var found, index := BinarySearch(sorted, latency);
      if found {
        RemoveSorted(sorted, index);
        sorted := Remove(sorted, index);
      }
    }

    /** The sample at the truncated rank; none recorded gives zero. */
    method Percentile(p: real) returns (v: nat)
      requires Valid() && p <= 100.0
      ensures samples == [] ==> v == 0
      ensures samples != [] ==> IsPercentile(samples, p, v)
    {
      SameSize(sorted, samples);
      if sorted == [] {
        return 0;
      }
      RankInRange(|sorted|, p);
      v := sorted[Rank(|sorted|, p)];
      SortedIsOrderStatistic(sorted, Rank(|sorted|, p));
      PermutedOrderStatistic(sorted, samples, Rank(|sorted|, p), v);
      RankedPercentile(samples, p, v);
    }
  }

  lemma LatestAppend(s: seq<nat>, x: nat, k: nat)
    requires k >= 1
    ensures Latest(Latest(s, k) + [x], k) == Latest(s + [x], k)
  {
  }

  lemma Evicted(s: seq<nat>)
    requires s != []
    ensures multiset(s) - multiset{s[0]} == multiset(s[1..])
    ensures s[0] in multiset(s) && Latest(s, |s| - 1) == s[1..]
  {
    assert s == [s[0]] + s[1..];
  }

  lemma SameSize(a: seq<nat>, b: seq<nat>)
    requires multiset(a) == multiset(b)
    ensures |a| == |b|
  {
    assert |multiset(a)| == |a| && |multiset(b)| == |b|;
  }

  // ---------------------------------------------------------------------
  // Percentiles
  // ---------------------------------------------------------------------

  /** The truncated rank of percentile `p`; a negative one saturates at zero. */
  function Rank(n: nat, p: real): (k: nat)
    requires n >= 1
  {
    var k := ((n - 1) as real * p / 100.0).Floor;
    if k < 0 then 0 else k
  }

  lemma Scaled(m: real, a: real, b: real)
    requires m >= 0.0 && a <= b
    ensures m * a <= m * b
  {
  }

  lemma RankInRange(n: nat, p: real)
    requires n >= 1 && p <= 100.0
    ensures Rank(n, p) < n
  {
    var m := (n - 1) as real;
    Scaled(m, p, 100.0);
  }

  function Below(s: seq<nat>, v: nat): (n: nat) {
    if s == [] then 0 else Below(s[1..], v) + if s[0] < v then 1 else 0
  }

  function AtMost(s: seq<nat>, v: nat): (n: nat) {
    if s == [] then 0 else AtMost(s[1..], v) + if s[0] <= v then 1 else 0
  }

  /** The value of rank `k`: at most `k` samples lie below it, and more than `k` do not lie above. */
  predicate IsOrderStatistic(s: seq<nat>, k: nat, v: nat) { v in s && Below(s, v) <= k < AtMost(s, v) }

  lemma {:induction false} SortedCounts(s: seq<nat>, k: nat, v: nat)
    requires Sorted(s) && k < |s| && s[k] == v
    ensures Below(s, v) <= k < AtMost(s, v)
    decreases |s|
  {
    if k > 0 {
      SortedCounts(s[1..], k - 1, v);
    } else {
      NoneBelow(s, v);
    }
  }

  lemma {:induction false} NoneBelow(s: seq<nat>, v: nat)
    requires forall i :: 0 <= i < |s| ==> v <= s[i]
    ensures Below(s, v) == 0
  {
    if s != [] {
      NoneBelow(s[1..], v);
    }
  }

  lemma SortedIsOrderStatistic(s: seq<nat>, k: nat)
    requires Sorted(s) && k < |s|
    ensures IsOrderStatistic(s, k, s[k])
  {
    SortedCounts(s, k, s[k]);
  }

  lemma {:induction false} CountsRemove(s: seq<nat>, i: nat, v: nat)
    requires i < |s|
    ensures Below(s, v) == Below(Remove(s, i), v) + if s[i] < v then 1 else 0
    ensures AtMost(s, v) == AtMost(Remove(s, i), v) + if s[i] <= v then 1 else 0
    decreases |s|
  {
    if i == 0 {
      assert Remove(s, 0) == s[1..];
    } else {
      CountsRemove(s[1..], i - 1, v);
      assert Remove(s, i)[1..] == Remove(s[1..], i - 1);
    }
  }

  /** Where the first of one sequence is in a permutation of it, and what is left of both. */
  lemma FindFirst(s: seq<nat>, t: seq<nat>) returns (i: nat)
    requires multiset(s) == multiset(t) && s != []
    ensures i < |t| && t[i] == s[0] && multiset(s[1..]) == multiset(Remove(t, i))
  {
    assert s[0] in multiset(t);
    i :| 0 <= i < |t| && t[i] == s[0];
    Evicted(s);
    TakenOut(t, i);
  }

  lemma TakenOut(t: seq<nat>, i: nat)
    requires i < |t|
    ensures multiset(Remove(t, i)) == multiset(t) - multiset{t[i]}
  {
    assert t == t[..i] + [t[i]] + t[i + 1..];
  }

  lemma {:induction false} CountsPermuted(s: seq<nat>, t: seq<nat>, v: nat)
    requires multiset(s) == multiset(t)
    ensures Below(s, v) == Below(t, v) && AtMost(s, v) == AtMost(t, v)
    decreases |s|
  {
    SameSize(s, t);
    if s != [] {
      var i := FindFirst(s, t);
      CountsPermuted(s[1..], Remove(t, i), v);
      CountsRemove(t, i, v);
    }
  }

  lemma PermutedOrderStatistic(s: seq<nat>, t: seq<nat>, k: nat, v: nat)
    requires multiset(s) == multiset(t) && IsOrderStatistic(s, k, v)
    ensures IsOrderStatistic(t, k, v)
  {
    CountsPermuted(s, t, v);
    assert v in multiset(t);
  }

  lemma {:induction false} CountsMonotone(s: seq<nat>, v: nat, w: nat)
    requires v < w
    ensures AtMost(s, v) <= Below(s, w)
  {
    if s != [] {
      CountsMonotone(s[1..], v, w);
    }
  }

  /** A rank determines its value, and a higher rank never has a lower one. */
  lemma OrderStatisticsOrdered(s: seq<nat>, j: nat, k: nat, v: nat, w: nat)
    requires IsOrderStatistic(s, j, v) && IsOrderStatistic(s, k, w) && j <= k
    ensures v <= w && (j == k ==> v == w)
  {
    if w < v {
      CountsMonotone(s, w, v);
    }
    if j == k && v < w {
      CountsMonotone(s, v, w);
    }
  }

  /** The rank is the whole part of `p` percent of the last index. */
  lemma RankExact(n: nat, p: real)
    requires n >= 1 && 0.0 <= p <= 100.0
    ensures Rank(n, p) as real * 100.0 <= (n - 1) as real * p < (Rank(n, p) + 1) as real * 100.0
  {
    var m := (n - 1) as real;
    Scaled(m, 0.0, p);
    assert m * p / 100.0 >= 0.0;
  }

  /** More than `p` percent of the last index are at most `v`, and no more than that lie below it. */
  predicate IsPercentile(s: seq<nat>, p: real, v: nat)
    requires s != []
  {
    v in s && Below(s, v) as real * 100.0 <= Share(|s|, p) < AtMost(s, v) as real * 100.0
  }

  /** `p` percent of the last index, times a hundred; a negative `p` counts as zero. */
  function Share(n: nat, p: real): (r: real)
    requires n >= 1
  {
    (n - 1) as real * if p < 0.0 then 0.0 else p
  }

  lemma RankedPercentile(s: seq<nat>, p: real, v: nat)
    requires s != [] && p <= 100.0 && IsOrderStatistic(s, Rank(|s|, p), v)
    ensures IsPercentile(s, p, v)
  {
    if p < 0.0 {
      Scaled((|s| - 1) as real, p, 0.0);
      RankExact(|s|, 0.0);
    } else {
      RankExact(|s|, p);
    }
  }

  /** Percentiles of one window are unique and never decrease in `p`. */
  lemma PercentilesMonotone(s: seq<nat>, p: real, q: real, v: nat, w: nat)
    requires s != [] && p <= q && IsPercentile(s, p, v) && IsPercentile(s, q, w)
    ensures v <= w && (p == q ==> v == w)
  {
    Scaled((|s| - 1) as real, if p < 0.0 then 0.0 else p, if q < 0.0 then 0.0 else q);
    assert Share(|s|, p) <= Share(|s|, q);
    if w < v {
      CountsMonotone(s, w, v);
    }
    if p == q && v < w {
      CountsMonotone(s, v, w);
    }
  }

  /** The ends of the scale: the 0th percentile is the minimum and the 100th the maximum. */
  lemma PercentileEnds(s: seq<nat>, v: nat)
    requires s != []
    ensures IsPercentile(s, 0.0, v) <==> v in s && forall i :: 0 <= i < |s| ==> v <= s[i]
    ensures IsPercentile(s, 100.0, v) <==> v in s && forall i :: 0 <= i < |s| ==> s[i] <= v
  {
    CountsAll(s, v);
    Present(s, v);
    assert 0.0 <= (|s| - 1) as real;
  }

  lemma {:induction false} CountsAll(s: seq<nat>, v: nat)
    ensures Below(s, v) == 0 <==> forall i :: 0 <= i < |s| ==> v <= s[i]
    ensures AtMost(s, v) <= |s| && (AtMost(s, v) == |s| <==> forall i :: 0 <= i < |s| ==> s[i] <= v)
  {
    if s != [] {
      CountsAll(s[1..], v);
      assert forall i :: 1 <= i < |s| ==> s[i] == s[1..][i - 1];
    }
  }

  lemma {:induction false} Present(s: seq<nat>, v: nat)
    requires s != []
    ensures v in s ==> AtMost(s, v) >= 1 && Below(s, v) < |s|
  {
    if v in s && s[0] != v {
      assert v in s[1..];
      Present(s[1..], v);
    } else if s[0] == v {
      FewerBelow(s[1..], v);
    }
  }

  lemma {:induction false} FewerBelow(s: seq<nat>, v: nat)
    ensures Below(s, v) <= |s|
  {
    if s != [] {
      FewerBelow(s[1..], v);
    }
  }
}
