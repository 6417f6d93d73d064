/** fetchAnalytics of frontend/src/services/api/analytics.ts. The mock file
    is a parameter and every value here is immutable, so the deep copy the
    function makes is implicit: the source can never be changed by it.
    `Date.parse` results are given: a point or bound that does not parse is
    NaN, and every comparison with NaN is false. */
module AnalyticsService {
  import opened Common
  import opened Collections

  datatype Kpi = Kpi(key: string, labelText: string, value: int, changePct: int, sparkline: seq<int>)
  datatype TripsPoint = TripsPoint(date: Option<int>, count: int)
  datatype ExpenseSlice = ExpenseSlice(category: string, amount: int)
  datatype TopCity = TopCity(city: string, trips: int)
  datatype TopActivity = TopActivity(id: int, title: string, city: string, uses: int, avgCost: int)

  datatype Payload = Payload(kpis: seq<Kpi>, tripsSeries: seq<TripsPoint>, expenseDistribution: seq<ExpenseSlice>,
                             topCities: seq<TopCity>, topActivities: seq<TopActivity>)

  /** A `from` or `to` parameter: absent or empty, a parsed time, or text
      that does not parse. */
  datatype Bound = Absent | At(ms: int) | Unparsed

  datatype Granularity = Day | Week | Month | NoGranularity

  /** `t >= fromTs && t <= toTs` with ±Infinity for an absent bound. */
  predicate InRange(p: TripsPoint, from: Bound, to: Bound)
  {
    && p.date.Some? && !from.Unparsed? && !to.Unparsed?
    && (from.At? ==> from.ms <= p.date.value)
    && (to.At? ==> p.date.value <= to.ms)
  }

  /** Index i of the first (n + k - 1) / k multiples of k lies below n. */
  lemma MultipleBelow(i: int, k: int, n: int)
    requires k > 0 && n >= 0 && 0 <= i < (n + k - 1) / k
    ensures k * i < n
  {
    var q := (n + k - 1) / k;
    assert n + k - 1 == k * q + (n + k - 1) % k;
    assert k * q <= n + k - 1;
    NonNegProduct(k, q - 1 - i);
    assert k * (q - 1 - i) == k * q - k - k * i;
  }

  lemma NonNegProduct(a: int, b: int)
    requires a >= 0 && b >= 0
    ensures a * b >= 0
  {
  }

  /** `filter((_, i) => i % k === 0)`: the points at indices 0, k, 2k, ... */
  function Sample(s: seq<TripsPoint>, k: nat): (r: seq<TripsPoint>)
    requires k > 0
    ensures |r| == (|s| + k - 1) / k
    ensures forall i :: 0 <= i < |r| ==> k * i < |s| && r[i] == s[k * i]
  {
    MultiplesBelow(k, |s|);
    seq((|s| + k - 1) / k, i requires 0 <= i < (|s| + k - 1) / k => s[k * i])
  }

  lemma MultiplesBelow(k: int, n: int)
    requires k > 0 && n >= 0
    ensures forall i :: 0 <= i < (n + k - 1) / k ==> k * i < n
  {
    forall i | 0 <= i < (n + k - 1) / k {
      MultipleBelow(i, k, n);
    }
  }

  /** Every point at an index divisible by k is kept, at position index / k,
      and the result holds nothing else. */
  lemma SampleKeepsMultiples(s: seq<TripsPoint>, k: nat, j: nat)
    requires k > 0 && j < |s| && j % k == 0
    ensures j / k < |Sample(s, k)| && Sample(s, k)[j / k] == s[j]
  {
    var q := j / k;
    assert j == k * q;
    assert (|s| + k - 1) / k >= q + 1 by {
      assert |s| + k - 1 >= k * (q + 1);
      DivLowerBound(|s| + k - 1, k, q + 1);
    }
  }

  lemma DivLowerBound(a: int, k: int, m: int)
    requires k > 0 && m >= 0 && a >= k * m
    ensures a / k >= m
  {
    var q := a / k;
    assert q * k == a - a % k > a - k;
    assert (m - 1) * k == k * m - k;
    MulCancel(q, m - 1, k);
  }

  lemma MulCancel(x: int, y: int, k: int)
    requires k > 0 && x * k > y * k
    ensures x > y
  {
  }


  /** fetchAnalytics: the date filter runs when either bound is given, then
      week keeps every second point and month every third. */
  method FetchAnalytics(source: Payload, from: Bound, to: Bound, granularity: Granularity) returns (cloned: Payload)
    ensures cloned == source.(tripsSeries := cloned.tripsSeries)
    ensures var filtered :=
        if from.Absent? && to.Absent? then source.tripsSeries
        else Filter(source.tripsSeries, (p: TripsPoint) => InRange(p, from, to));
      cloned.tripsSeries == match granularity
        case Week => Sample(filtered, 2)
        case Month => Sample(filtered, 3)
        case _ => filtered
  {
    cloned := source;
    if !from.Absent? || !to.Absent? {
      cloned := cloned.(tripsSeries := Filter(cloned.tripsSeries, (p: TripsPoint) => InRange(p, from, to)));
    }
    if granularity == Week {
      cloned := cloned.(tripsSeries := Sample(cloned.tripsSeries, 2));
    } else if granularity == Month {
      cloned := cloned.(tripsSeries := Sample(cloned.tripsSeries, 3));
    }
  }

  /** With a bound given, every kept point lies within it, the points keep
      their order, and nothing is added. */
  lemma DateFilterSpec(series: seq<TripsPoint>, from: Bound, to: Bound)
    ensures var r := Filter(series, (p: TripsPoint) => InRange(p, from, to));
      && (forall i :: 0 <= i < |r| ==>
            && r[i] in series && r[i].date.Some?
            && (from.At? ==> from.ms <= r[i].date.value) && (to.At? ==> r[i].date.value <= to.ms))
      && IsSubsequence(r, series)
  {
    FilterSubsequence(series, (p: TripsPoint) => InRange(p, from, to));
  }

  /** A bound that does not parse empties the series. */
  lemma {:induction false} UnparsedBoundEmpties(series: seq<TripsPoint>, from: Bound, to: Bound)
    requires from.Unparsed? || to.Unparsed?
    ensures Filter(series, (p: TripsPoint) => InRange(p, from, to)) == []
  {
    if series != [] {
      UnparsedBoundEmpties(series[1..], from, to);
    }
  }
}
