/**
 * Chart points and historical rates from the CoinGecko market-chart
 * responses: the request parameters, the thinning of the returned prices to
 * the chart type's spacing, and the choice of the price nearest to a moment.
 * Timestamps in responses are milliseconds; stored ones are seconds.
 */
module CoinGeckoCharts {
  import opened Wrappers
  import opened Entities

  /** One `[timestamp_ms, value]` pair of a market-chart response. */
  datatype Sample = Sample(millis: int, value: int)

  /** Division of a `Long` by a positive constant: truncates toward zero. */
  function TruncDiv(a: int, b: int): (q: int)
    requires b > 0
    ensures a >= 0 ==> q == a / b
    ensures a < 0 ==> q == -((-a) / b)
  {
    if a >= 0 then a / b else -((-a) / b)
  }

  function MillisToSeconds(ms: int): int
  {
    TruncDiv(ms, 1000)
  }

  // ---------------------------------------------------------------------------
  // Request
  // ---------------------------------------------------------------------------

  /** The `days` and `interval` arguments of a market-chart request. */
  datatype ChartRequest = ChartRequest(days: int, interval: Option<string>)

  function ChartRequestFor(t: ChartType): (r: ChartRequest)
  {
    ChartRequest(2 * t.days, if t.days >= 90 then Some("daily") else None)
  }

  /** Twice the chart's depth is requested, daily points only for charts of 90
      days or more. */
  lemma ChartRequestSpec(t: ChartType)
    ensures ChartRequestFor(t).days == 2 * t.days
    ensures ChartRequestFor(t).interval.Some? <==> t.days >= 90
    ensures ChartRequestFor(t).interval.Some? ==> ChartRequestFor(t).interval.value == "daily"
  {
  }

  // ---------------------------------------------------------------------------
  // Thinning
  // ---------------------------------------------------------------------------

  /** The response's price timestamps in seconds. */
  function Timestamps(prices: seq<Sample>): (ts: seq<int>)
    ensures |ts| == |prices|
  {
    seq(|prices|, i requires 0 <= i < |prices| => MillisToSeconds(prices[i].millis))
  }

  /** Every index in `ks` is below `n`. */
  predicate Below(ks: seq<nat>, n: nat)
  {
    forall p :: 0 <= p < |ks| ==> ks[p] < n
  }

  /** The value of `nextTs` after the points `kept` were kept: zero before the
      first one, then the last kept timestamp plus the spacing less 180 s. */
  function NextTs(ts: seq<int>, kept: seq<nat>, seconds: int): int
    requires Below(kept, |ts|)
  {
    if kept == [] then 0 else ts[kept[|kept| - 1]] + seconds - 180
  }

  /** The indices among the first `n` points that the thinning keeps: all of
      them when `keepAll`, otherwise each point that is not earlier than the
      `nextTs` left by the points kept before it. */
  function Kept(ts: seq<int>, n: nat, seconds: int, keepAll: bool): (ks: seq<nat>)
    requires n <= |ts|
    ensures Below(ks, n)
  {
    if n == 0 then []
    else
      var prev := Kept(ts, n - 1, seconds, keepAll);
      if keepAll || ts[n - 1] >= NextTs(ts, prev, seconds) then prev + [n - 1] else prev
  }

  /** Point `m` is kept after the points kept before it, or dropped. */
  lemma KeptStep(ts: seq<int>, m: nat, n: nat, seconds: int, keepAll: bool)
    requires n == m + 1 <= |ts|
    ensures Kept(ts, n, seconds, keepAll) ==
      if keepAll || ts[m] >= NextTs(ts, Kept(ts, m, seconds, keepAll), seconds)
      then Kept(ts, m, seconds, keepAll) + [m] else Kept(ts, m, seconds, keepAll)
  {
  }

  /** The stored point for response index `i`. */
  function PointAt(key: ChartInfoKey, prices: seq<Sample>, volumes: seq<Sample>, i: nat): ChartPointEntity
    requires i < |prices|
    requires key.chartType.days >= 90 ==> i < |volumes|
  {
    ChartPointEntity(key.chartType, key.coin, key.currency, prices[i].value,
                     if key.chartType.days >= 90 then volumes[i].value else 0,
                     MillisToSeconds(prices[i].millis))
  }

  datatype ChartError = VolumeMissing

  /** Every kept point of a chart of 90 days or more has a volume entry. */
  predicate VolumesPresent(key: ChartInfoKey, volumes: seq<Sample>, ks: seq<nat>)
  {
    key.chartType.days >= 90 ==> forall p :: 0 <= p < |ks| ==> ks[p] < |volumes|
  }

  /** The chart for kept indices `ks`: reading the volume of a kept point that
      has no volume entry fails the whole response. */
  function PointsFor(key: ChartInfoKey, prices: seq<Sample>, volumes: seq<Sample>, ks: seq<nat>): Result<seq<ChartPointEntity>, ChartError>
    requires Below(ks, |prices|)
  {
    if VolumesPresent(key, volumes, ks)
    then Success(seq(|ks|, p requires 0 <= p < |ks| => PointAt(key, prices, volumes, ks[p])))
    else Failure(VolumeMissing)
  }

  /** Whether every point is kept: the response has no more points than the chart. */
  predicate KeepAll(key: ChartInfoKey, prices: seq<Sample>)
  {
    |prices| <= 2 * key.chartType.interval
  }

  /** The points kept among the first `m` are a prefix of those kept among
      the first `n`; the rest are at index `m` or later. */
  lemma {:induction false} KeptPrefix(ts: seq<int>, m: nat, n: nat, seconds: int, keepAll: bool)
    requires m <= n <= |ts|
    ensures var km := Kept(ts, m, seconds, keepAll); var kn := Kept(ts, n, seconds, keepAll);
      && |km| <= |kn| && km == kn[..|km|]
      && forall p :: |km| <= p < |kn| ==> kn[p] >= m
  {
    if m < n {
      var k: nat := n - 1;
      KeptPrefix(ts, m, k, seconds, keepAll);
      KeptStep(ts, k, n, seconds, keepAll);
    }
  }

  /** A kept point of a chart of 90 days or more without a volume entry fails
      the thinning. */
  lemma MissingVolumeFails(key: ChartInfoKey, prices: seq<Sample>, volumes: seq<Sample>, i: nat)
    requires i < |prices| && key.chartType.days >= 90 && i >= |volumes|
    requires Kept(Timestamps(prices), i + 1, key.chartType.seconds, KeepAll(key, prices)) ==
             Kept(Timestamps(prices), i, key.chartType.seconds, KeepAll(key, prices)) + [i]
    ensures PointsFor(key, prices, volumes, Kept(Timestamps(prices), |prices|, key.chartType.seconds, KeepAll(key, prices)))
            == Failure(VolumeMissing)
  {
    var ts := Timestamps(prices);
    var keepAll := KeepAll(key, prices);
    KeptPrefix(ts, i + 1, |prices|, key.chartType.seconds, keepAll);
    var all := Kept(ts, |prices|, key.chartType.seconds, keepAll);
    assert all[|Kept(ts, i, key.chartType.seconds, keepAll)|] == i;
  }

  /** Keeping one more point that has its volume extends the chart by it. */
  lemma PointsForAppend(key: ChartInfoKey, prices: seq<Sample>, volumes: seq<Sample>, ks: seq<nat>, i: nat)
    requires Below(ks, |prices|) && i < |prices|
    requires PointsFor(key, prices, volumes, ks).Success?
    requires key.chartType.days >= 90 ==> i < |volumes|
    ensures PointsFor(key, prices, volumes, ks + [i]) ==
      Success(PointsFor(key, prices, volumes, ks).value + [PointAt(key, prices, volumes, i)])
  {
    var ks' := ks + [i];
    assert forall p :: 0 <= p < |ks| ==> ks'[p] == ks[p];
    assert VolumesPresent(key, volumes, ks');
    var before := PointsFor(key, prices, volumes, ks).value;
    var after := seq(|ks'|, p requires 0 <= p < |ks'| => PointAt(key, prices, volumes, ks'[p]));
    assert after == before + [PointAt(key, prices, volumes, i)];
  }

  /** The mapIndexedNotNull over the prices with its running `nextTs`. */
  method ThinChart(key: ChartInfoKey, prices: seq<Sample>, volumes: seq<Sample>) returns (r: Result<seq<ChartPointEntity>, ChartError>)
    ensures r == PointsFor(key, prices, volumes,
                           Kept(Timestamps(prices), |prices|, key.chartType.seconds, KeepAll(key, prices)))
  {
    ghost var ts := Timestamps(prices);
    var keepAll := |prices| <= 2 * key.chartType.interval;
    assert keepAll == KeepAll(key, prices);
    var nextTs := 0;
    var points: seq<ChartPointEntity> := [];
    ghost var ks: seq<nat> := [];
    assert PointsFor(key, prices, volumes, ks).value == [];
    var i := 0;
    while i < |prices|
      invariant 0 <= i <= |prices|
      invariant ks == Kept(ts, i, key.chartType.seconds, keepAll)
      invariant nextTs == NextTs(ts, ks, key.chartType.seconds)
      invariant PointsFor(key, prices, volumes, ks) == Success(points)
    {
      KeptStep(ts, i, i + 1, key.chartType.seconds, keepAll);
      var timestamp := MillisToSeconds(prices[i].millis);
      if timestamp >= nextTs || keepAll {
        nextTs := timestamp + key.chartType.seconds - 180;
        var volume := 0;
        if key.chartType.days >= 90 {
          if i >= |volumes| {
            MissingVolumeFails(key, prices, volumes, i);
            return Failure(VolumeMissing);
          }
          volume := volumes[i].value;
        }
        PointsForAppend(key, prices, volumes, ks, i);
        points := points + [ChartPointEntity(key.chartType, key.coin, key.currency, prices[i].value, volume, timestamp)];
        ks := ks + [i];
      }
      i := i + 1;
    }
    r := Success(points);
  }

  /** With no more points than the chart holds, every point is kept in order. */
  lemma {:induction false} KeptAll(ts: seq<int>, n: nat, seconds: int)
    requires n <= |ts|
    ensures Kept(ts, n, seconds, true) == seq(n, j => j)
  {
    if n > 0 {
      var m: nat := n - 1;
      KeptAll(ts, m, seconds);
      KeptStep(ts, m, n, seconds, true);
    }
  }

  /** Otherwise a point is kept exactly when its timestamp reaches the `nextTs`
      left by the points kept before it: for the first kept point that bound
      is 0, for a later one the previous kept timestamp plus the spacing less
      180 s. The points kept before index `j` are a prefix of the result. */
  lemma KeptIff(ts: seq<int>, n: nat, seconds: int, keepAll: bool, j: nat)
    requires j < n <= |ts|
    ensures |Kept(ts, j, seconds, keepAll)| <= |Kept(ts, n, seconds, keepAll)|
    ensures Kept(ts, j, seconds, keepAll) == Kept(ts, n, seconds, keepAll)[..|Kept(ts, j, seconds, keepAll)|]
    ensures j in Kept(ts, n, seconds, keepAll) <==>
      keepAll || ts[j] >= NextTs(ts, Kept(ts, j, seconds, keepAll), seconds)
  {
    KeptPrefix(ts, j, n, seconds, keepAll);
    KeptMember(ts, n, seconds, keepAll, j);
    KeptStep(ts, j, j + 1, seconds, keepAll);
  }

  /** Whether point `j` is kept is settled once it is reached. */
  lemma KeptMember(ts: seq<int>, n: nat, seconds: int, keepAll: bool, j: nat)
    requires j < n <= |ts|
    ensures j in Kept(ts, n, seconds, keepAll) <==> j in Kept(ts, j + 1, seconds, keepAll)
  {
    var after := Kept(ts, j + 1, seconds, keepAll);
    var all := Kept(ts, n, seconds, keepAll);
    KeptPrefix(ts, j + 1, n, seconds, keepAll);
    if j in after {
      var p :| 0 <= p < |after| && after[p] == j;
      assert all[p] == j;
    }
    if j in all {
      KeptLater(ts, n, seconds, keepAll, j);
    }
  }

  /** A point kept among the first `n` was kept when it was reached. */
  lemma KeptLater(ts: seq<int>, n: nat, seconds: int, keepAll: bool, j: nat)
    requires j < n <= |ts| && j in Kept(ts, n, seconds, keepAll)
    ensures j in Kept(ts, j + 1, seconds, keepAll)
  {
    var before := Kept(ts, j, seconds, keepAll);
    var after := Kept(ts, j + 1, seconds, keepAll);
    var all := Kept(ts, n, seconds, keepAll);
    var p :| 0 <= p < |all| && all[p] == j;
    assert |before| <= p by {
      KeptPrefix(ts, j, n, seconds, keepAll);
      assert forall q :: 0 <= q < |before| ==> all[q] == before[q] < j;
    }
    assert p < |after| && after[p] == j by {
      KeptPrefix(ts, j + 1, n, seconds, keepAll);
    }
  }

  /** Consecutive kept points are at least the spacing less 180 s apart, and
      the first one kept is not before time 0. */
  lemma {:induction false} KeptSpacing(ts: seq<int>, n: nat, seconds: int)
    requires n <= |ts|
    ensures var ks := Kept(ts, n, seconds, false);
      && (|ks| > 0 ==> ts[ks[0]] >= 0)
      && forall p :: 0 <= p < |ks| - 1 ==> ts[ks[p + 1]] >= ts[ks[p]] + seconds - 180
  {
    if n > 0 {
      var m: nat := n - 1;
      KeptSpacing(ts, m, seconds);
      KeptStep(ts, m, n, seconds, false);
    }
  }

  /** The kept indices are strictly increasing: the thinning keeps points in
      response order and never keeps one twice. */
  lemma {:induction false} KeptIncreasing(ts: seq<int>, n: nat, seconds: int, keepAll: bool)
    requires n <= |ts|
    ensures var ks := Kept(ts, n, seconds, keepAll);
      forall i, j :: 0 <= i < j < |ks| ==> ks[i] < ks[j]
  {
    if n > 0 {
      var m: nat := n - 1;
      KeptIncreasing(ts, m, seconds, keepAll);
      KeptStep(ts, m, n, seconds, keepAll);
    }
  }

  /** The result of a successful thinning: one point per kept index, in
      order, carrying the key, the price, the volume only for charts of 90 days
      or more, and the timestamp in seconds. Thinning fails only when a kept
      point of such a chart has no volume. */
  lemma PointsForSpec(key: ChartInfoKey, prices: seq<Sample>, volumes: seq<Sample>, ks: seq<nat>)
    requires Below(ks, |prices|)
    ensures PointsFor(key, prices, volumes, ks).Success? <==>
      key.chartType.days < 90 || forall p :: 0 <= p < |ks| ==> ks[p] < |volumes|
    ensures PointsFor(key, prices, volumes, ks).Success? ==>
      var pts := PointsFor(key, prices, volumes, ks).value;
      && |pts| == |ks|
      && forall p :: 0 <= p < |ks| ==>
        && pts[p].chartType == key.chartType && pts[p].coin == key.coin && pts[p].currency == key.currency
        && pts[p].value == prices[ks[p]].value
        && pts[p].timestamp == Timestamps(prices)[ks[p]]
        && pts[p].volume == (if key.chartType.days >= 90 then volumes[ks[p]].value else 0)
  {
  }

  // ---------------------------------------------------------------------------
  // Historical rate
  // ---------------------------------------------------------------------------

  const Minutes10InSeconds: int := 60 * 10
  const Hours2InSeconds: int := 60 * 60 * 2

  datatype Window = Window(fromTs: int, toTs: int)

  /** The range queried for the rate at `timestamp`, given the clock in ms. */
  function HistoricalWindow(nowMillis: int, timestamp: int): Window
  {
    var tsDiff := TruncDiv(TruncDiv(nowMillis, 1000) - timestamp, 3600);
    var fromTs := if tsDiff < 24 then timestamp - Minutes10InSeconds else timestamp - Hours2InSeconds;
    var toTs := if tsDiff < 24 then timestamp + Minutes10InSeconds else timestamp + Hours2InSeconds;
    Window(fromTs, toTs)
  }

  /** The window is centred on the timestamp: ten minutes either side when the
      timestamp is less than a day before now (or after it), two hours
      otherwise. */
  lemma HistoricalWindowSpec(nowMillis: int, timestamp: int)
    ensures var w := HistoricalWindow(nowMillis, timestamp);
      var age := MillisToSeconds(nowMillis) - timestamp;
      && (age < 24 * 3600 ==> w == Window(timestamp - 600, timestamp + 600))
      && (age >= 24 * 3600 ==> w == Window(timestamp - 7200, timestamp + 7200))
  {
  }

  function Abs(x: int): nat
  {
    if x < 0 then -x else x
  }

  function Distance(s: Sample, timestamp: int): nat
  {
    Abs(MillisToSeconds(s.millis) - timestamp)
  }

  /** `minByOrNull`: scans in order and moves only to a strictly nearer point. */
  function NearestIndex(ps: seq<Sample>, timestamp: int): (i: nat)
    requires |ps| > 0
    ensures i < |ps|
  {
    if |ps| == 1 then 0
    else
      var j := NearestIndex(ps[..|ps| - 1], timestamp);
      if Distance(ps[|ps| - 1], timestamp) < Distance(ps[j], timestamp) then |ps| - 1 else j
  }

  /** The chosen point is nearest to the timestamp, and every earlier point is
      strictly farther: ties go to the first. */
  lemma {:induction false} NearestIndexSpec(ps: seq<Sample>, timestamp: int)
    requires |ps| > 0
    ensures var i := NearestIndex(ps, timestamp);
      && (forall k :: 0 <= k < |ps| ==> Distance(ps[i], timestamp) <= Distance(ps[k], timestamp))
      && (forall k :: 0 <= k < i ==> Distance(ps[k], timestamp) > Distance(ps[i], timestamp))
  {
    if |ps| > 1 {
      var init := ps[..|ps| - 1];
      NearestIndexSpec(init, timestamp);
      assert forall k :: 0 <= k < |init| ==> init[k] == ps[k];
    }
  }

  /** No point of `ps` is nearer to the timestamp than point `i`. */
  predicate NoneNearer(ps: seq<Sample>, timestamp: int, i: nat)
    requires i < |ps|
  {
    forall k :: 0 <= k < |ps| ==> Distance(ps[i], timestamp) <= Distance(ps[k], timestamp)
  }

  datatype HistoricalError = NoPrices

  /** The historical rate: the price of a point no other point is nearer
      than; no points is an error. */
  function HistoricalPrice(ps: seq<Sample>, timestamp: int): (r: Result<int, HistoricalError>)
    ensures ps == [] <==> r.Failure?
    ensures r.Success? ==> exists i :: 0 <= i < |ps| && r.value == ps[i].value && NoneNearer(ps, timestamp, i)
  {
    if ps == [] then Failure(NoPrices)
    else
      NearestIndexSpec(ps, timestamp);
      Success(ps[NearestIndex(ps, timestamp)].value)
  }
}
