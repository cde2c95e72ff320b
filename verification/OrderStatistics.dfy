/** The nearest-rank percentile and what it decides (benchmarks/evaluate.py). */
module OrderStatistics {

  datatype StatisticError = NoSamples | BadPercentile

  datatype Statistic<+T> = Value(value: T) | Undefined(error: StatisticError)

  function Ceil(x: real): int {
    if x.Floor as real == x then x.Floor else x.Floor + 1
  }

  predicate Ascending(values: seq<real>) {
    forall i, j | 0 <= i < j < |values| :: values[i] <= values[j]
  }

  function Insert(x: real, sorted: seq<real>): (r: seq<real>)
    ensures multiset(r) == multiset(sorted) + multiset{x} && |r| == |sorted| + 1
  {
    if sorted == [] then [x]
    else if x <= sorted[0] then
      assert multiset([x] + sorted) == multiset{x} + multiset(sorted);
      [x] + sorted
    else
      assert sorted == [sorted[0]] + sorted[1..];
      [sorted[0]] + Insert(x, sorted[1..])
  }

  function Sorted(values: seq<real>): (r: seq<real>)
    ensures multiset(r) == multiset(values) && |r| == |values|
  {
    if values == [] then []
    else
      assert values == [values[0]] + values[1..];
      Insert(values[0], Sorted(values[1..]))
  }

  lemma {:induction false} InsertElements(x: real, sorted: seq<real>)
    ensures forall y | y in Insert(x, sorted) :: y == x || y in sorted
  {
    if sorted != [] && x > sorted[0] {
      InsertElements(x, sorted[1..]);
    }
  }

  lemma {:induction false} InsertAscends(x: real, sorted: seq<real>)
    requires Ascending(sorted)
    ensures Ascending(Insert(x, sorted))
  {
    if sorted != [] && x > sorted[0] {
      InsertAscends(x, sorted[1..]);
      InsertElements(x, sorted[1..]);
      var rest := Insert(x, sorted[1..]);
      forall i | 0 <= i < |rest| ensures sorted[0] <= rest[i] {
        assert rest[i] in rest;
      }
    }
  }

  lemma {:induction false} SortedAscends(values: seq<real>)
    ensures Ascending(Sorted(values))
  {
    if values != [] {
      SortedAscends(values[1..]);
      InsertAscends(values[0], Sorted(values[1..]));
    }
  }

  /** The number of samples that a percentile asks for, before rounding up. */
  function Share(percentile: real, n: nat): real {
    percentile * n as real
  }

  function Rank(percentile: real, n: nat): (rank: nat)
    requires 0.0 < percentile <= 1.0 && n > 0
    ensures 1 <= rank <= n
  {
    ShareIsWithin(percentile, n as real);
    Ceil(Share(percentile, n))
  }

  lemma ShareIsWithin(percentile: real, n: real)
    requires 0.0 < percentile <= 1.0 && n > 0.0
    ensures 0.0 < percentile * n <= n
  {
  }

  function NearestRank(values: seq<real>, percentile: real): Statistic<real> {
    if values == [] then Undefined(NoSamples)
    else if !(0.0 < percentile <= 1.0) then Undefined(BadPercentile)
    else Value(Sorted(values)[Rank(percentile, |values|) - 1])
  }

  /** How many samples are within a limit. */
  function Count(values: seq<real>, limit: real): (n: nat)
    ensures n <= |values|
  {
    if values == [] then 0
    else (if values[0] <= limit then 1 else 0) + Count(values[1..], limit)
  }

  lemma {:induction false} CountSplits(a: seq<real>, b: seq<real>, limit: real)
    ensures Count(a + b, limit) == Count(a, limit) + Count(b, limit)
  {
    if a == [] {
      assert a + b == b;
    } else {
      CountSplits(a[1..], b, limit);
      assert (a + b)[1..] == a[1..] + b;
    }
  }

  /** The places of the samples within a limit. */
  function PlacesWithin(values: seq<real>, limit: real): set<nat> {
    set i: nat | i < |values| && values[i] <= limit
  }

  lemma {:induction false} CountIsCardinality(values: seq<real>, limit: real)
    ensures Count(values, limit) == |PlacesWithin(values, limit)|
  {
    if values == [] {
      assert PlacesWithin(values, limit) == {};
    } else {
      var n := |values| - 1;
      CountIsCardinality(values[..n], limit);
      CountSplits(values[..n], [values[n]], limit);
      assert values == values[..n] + [values[n]];
      assert Count([values[n]], limit) == if values[n] <= limit then 1 else 0;
      hide Count, PlacesWithin;
      OnePlaceMore(values, limit);
    }
  }

  lemma OnePlaceMore(values: seq<real>, limit: real)
    requires values != []
    ensures var n := |values| - 1;
      |PlacesWithin(values, limit)| == |PlacesWithin(values[..n], limit)| + if values[n] <= limit then 1 else 0
  {
    var n := |values| - 1;
    assert PlacesWithin(values, limit) == PlacesWithin(values[..n], limit) + if values[n] <= limit then {n} else {};
  }

  function Without(values: seq<real>, i: nat): (rest: seq<real>)
    requires i < |values|
  {
    values[..i] + values[i + 1..]
  }

  lemma RemovingOne(values: seq<real>, i: nat, limit: real)
    requires i < |values|
    ensures multiset(values) == multiset(Without(values, i)) + multiset{values[i]}
    ensures |Without(values, i)| == |values| - 1
    ensures Count(values, limit) == Count(Without(values, i), limit) + Count([values[i]], limit)
  {
    assert values == values[..i] + ([values[i]] + values[i + 1..]);
    CountSplits(values[..i], [values[i]] + values[i + 1..], limit);
    CountSplits([values[i]], values[i + 1..], limit);
    CountSplits(values[..i], values[i + 1..], limit);
  }

  /** The count does not see the order of the samples. */
  lemma {:induction false} CountIgnoresOrder(a: seq<real>, b: seq<real>, limit: real)
    requires multiset(a) == multiset(b)
    ensures Count(a, limit) == Count(b, limit)
    decreases |a|
  {
    if a == [] {
      assert |multiset(b)| == 0;
    } else {
      hide Count, Without;
      assert a[0] in multiset(a);
      var i :| 0 <= i < |b| && b[i] == a[0];
      RemovingOne(a, 0, limit);
      RemovingOne(b, i, limit);
      assert multiset(Without(a, 0)) == multiset(a) - multiset{a[0]};
      assert multiset(Without(b, i)) == multiset(b) - multiset{b[i]};
      CountIgnoresOrder(Without(a, 0), Without(b, i), limit);
    }
  }

  /** In ascending samples the first `k` are within a limit exactly when at least `k` are. */
  lemma {:induction false} CountOfAscending(values: seq<real>, k: nat, limit: real)
    requires Ascending(values) && 1 <= k <= |values|
    ensures values[k - 1] <= limit <==> Count(values, limit) >= k
  {
    if values[0] > limit {
      NoneWithin(values, limit);
    } else if k > 1 {
      CountOfAscending(values[1..], k - 1, limit);
    }
  }

  lemma {:induction false} NoneWithin(values: seq<real>, limit: real)
    requires forall i | 0 <= i < |values| :: values[i] > limit
    ensures Count(values, limit) == 0
  {
    if values != [] {
      NoneWithin(values[1..], limit);
    }
  }

  /**
   * The nearest rank is within a limit exactly when the percentile's share of the samples is: it is a sample, and
   * the least bound with that many samples within it.
   */
  lemma NearestRankIsLeast(values: seq<real>, percentile: real, limit: real)
    requires NearestRank(values, percentile).Value?
    ensures NearestRank(values, percentile).value <= limit
      <==> Count(values, limit) as real >= Share(percentile, |values|)
    ensures NearestRank(values, percentile).value in values
  {
    hide Share, Sorted, Count;
    var n, rank := |values|, Rank(percentile, |values|);
    SortedAscends(values);
    CountOfAscending(Sorted(values), rank, limit);
    CountIgnoresOrder(Sorted(values), values, limit);
    var r := NearestRank(values, percentile).value;
    assert r in multiset(Sorted(values));
    CeilIsLeast(Share(percentile, n), Count(values, limit));
  }

  lemma CeilIsLeast(x: real, n: int)
    ensures n >= Ceil(x) <==> n as real >= x
  {
  }

  /** Only the multiset of samples matters. */
  lemma NearestRankIgnoresOrder(a: seq<real>, b: seq<real>, percentile: real)
    requires multiset(a) == multiset(b) && NearestRank(a, percentile).Value?
    ensures NearestRank(b, percentile) == NearestRank(a, percentile)
  {
    hide Share, Rank, Sorted, Count;
    assert |a| == |multiset(a)| == |multiset(b)| == |b|;
    var x := NearestRank(a, percentile).value;
    var y := NearestRank(b, percentile).value;
    NearestRankIsLeast(a, percentile, x);
    NearestRankIsLeast(a, percentile, y);
    NearestRankIsLeast(b, percentile, x);
    NearestRankIsLeast(b, percentile, y);
    CountIgnoresOrder(a, b, x);
    CountIgnoresOrder(a, b, y);
  }

  lemma {:induction false} CountFallsAsSamplesRise(a: seq<real>, b: seq<real>, limit: real)
    requires |a| == |b| && forall i | 0 <= i < |a| :: a[i] <= b[i]
    ensures Count(b, limit) <= Count(a, limit)
  {
    if a != [] {
      CountFallsAsSamplesRise(a[1..], b[1..], limit);
    }
  }

  /** Slower samples never give a better percentile. */
  lemma NearestRankIsMonotone(a: seq<real>, b: seq<real>, percentile: real)
    requires |a| == |b| && forall i | 0 <= i < |a| :: a[i] <= b[i]
    requires NearestRank(a, percentile).Value?
    ensures NearestRank(b, percentile).Value?
    ensures NearestRank(a, percentile).value <= NearestRank(b, percentile).value
  {
    hide Share, Rank, Sorted, Count;
    var y := NearestRank(b, percentile).value;
    NearestRankIsLeast(b, percentile, y);
    NearestRankIsLeast(a, percentile, y);
    CountFallsAsSamplesRise(a, b, y);
  }

  /** The largest sample. */
  function Maximum(values: seq<real>): (m: real)
    requires values != []
    ensures m in values
    ensures forall i | 0 <= i < |values| :: values[i] <= m
  {
    if |values| == 1 then values[0]
    else
      var rest := Maximum(values[1..]);
      assert forall i | 0 < i < |values| :: values[i] == values[1..][i - 1];
      if values[0] <= rest then rest else values[0]
  }

  lemma {:induction false} CountOfAll(values: seq<real>, limit: real)
    ensures Count(values, limit) == |values| <==> forall i | 0 <= i < |values| :: values[i] <= limit
  {
    if values != [] {
      CountOfAll(values[1..], limit);
      assert forall i | 0 < i < |values| :: values[i] == values[1..][i - 1];
    }
  }

  /** The maximum is the hundredth percentile. */
  lemma MaximumIsFullRank(values: seq<real>)
    requires values != []
    ensures NearestRank(values, 1.0) == Value(Maximum(values))
  {
    hide Rank, Sorted, Count, Maximum;
    var m, r := Maximum(values), NearestRank(values, 1.0).value;
    assert Share(1.0, |values|) == |values| as real;
    NearestRankIsLeast(values, 1.0, m);
    NearestRankIsLeast(values, 1.0, r);
    CountOfAll(values, m);
    CountOfAll(values, r);
  }
}
