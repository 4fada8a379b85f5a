/**
 * The ticker list of the coin details: tickers with a zero rate or volume, or
 * quoted against a contract address, are dropped; the rest are ordered by a
 * fixed exchange ranking, keeping the response order among equal ranks.
 */
module CoinGeckoTickers {

  /** A ticker of the details response (after contract-address substitution). */
  datatype TickerResponse = TickerResponse(
    base: string, target: string, marketName: string, marketId: string,
    rate: int, volume: int)

  /** A ticker as handed to the application. */
  datatype MarketTicker = MarketTicker(base: string, target: string, marketName: string, rate: int, volume: int)

  // ---------------------------------------------------------------------------
  // Smart-contract addresses
  // ---------------------------------------------------------------------------

  /** The character class `[A-z0-9]`. The range `A-z` also spans the six
      characters between `Z` and `a`: `[ \ ] ^ _` and the backquote. */
  predicate IsAddressChar(c: char)
  {
    'A' <= c <= 'z' || '0' <= c <= '9'
  }

  /** `[A-z0-9]*`, consumed one character at a time. */
  predicate AllAddressChars(s: string)
  {
    s == [] || (IsAddressChar(s[0]) && AllAddressChars(s[1..]))
  }

  /** The regular expression `^0[xX][A-z0-9]+$`. */
  predicate MatchesAddressPattern(v: string)
  {
    |v| >= 3 && v[0] == '0' && (v[1] == 'x' || v[1] == 'X') && AllAddressChars(v[2..])
  }

  /** isSmartContractAddress: a length test, then the pattern. */
  predicate IsSmartContractAddress(v: string)
  {
    if |v| != 42 then false else MatchesAddressPattern(v)
  }

  lemma {:induction false} AllAddressCharsIff(s: string)
    ensures AllAddressChars(s) <==> forall i :: 0 <= i < |s| ==> IsAddressChar(s[i])
  {
    if s != [] {
      AllAddressCharsIff(s[1..]);
      assert forall i :: 1 <= i < |s| ==> s[i] == s[1..][i - 1];
    }
  }

  /** An address is exactly 42 characters: `0`, then `x` or `X`, then forty
      characters of the class. */
  lemma SmartContractAddressIff(v: string)
    ensures IsSmartContractAddress(v) <==>
      && |v| == 42 && v[0] == '0' && (v[1] == 'x' || v[1] == 'X')
      && forall i :: 2 <= i < |v| ==> IsAddressChar(v[i])
  {
    if |v| >= 2 {
      AllAddressCharsIff(v[2..]);
      assert forall i :: 2 <= i < |v| ==> v[i] == v[2..][i - 2];
    }
  }

  /** Forty underscores after `0x` pass the test. */
  lemma UnderscoresAreAnAddress()
    ensures IsSmartContractAddress("0x" + seq(40, _ => '_'))
  {
    var v := "0x" + seq(40, _ => '_');
    SmartContractAddressIff(v);
    assert forall i :: 2 <= i < |v| ==> v[i] == '_';
  }

  // ---------------------------------------------------------------------------
  // Filter
  // ---------------------------------------------------------------------------

  /** filterTicker, in the order of its checks. */
  predicate FilterTicker(t: TickerResponse)
  {
    if t.rate == 0 then false
    else if t.volume == 0 then false
    else if IsSmartContractAddress(t.base) then false
    else if IsSmartContractAddress(t.target) then false
    else true
  }

  /** The tickers the filter accepts, in input order. */
  function FilterTickers(ts: seq<TickerResponse>): (r: seq<TickerResponse>)
    ensures |r| <= |ts|
    ensures forall x :: x in r <==> x in ts && FilterTicker(x)
  {
    if ts == [] then []
    else
      var last := ts[|ts| - 1];
      var rest := FilterTickers(ts[..|ts| - 1]);
      assert ts == ts[..|ts| - 1] + [last];
      rest + (if FilterTicker(last) then [last] else [])
  }

  /** Filtering keeps order: the tickers accepted from a concatenation are
      those accepted from each part, one part after the other. With
      `FilterTickers([x])` being `[x]` or `[]` by `FilterTicker(x)`, this
      determines the filter on every input. */
  lemma {:induction false} FilterTickersAppend(a: seq<TickerResponse>, b: seq<TickerResponse>)
    ensures FilterTickers(a + b) == FilterTickers(a) + FilterTickers(b)
    decreases |b|
  {
    if b == [] {
      assert a + b == a;
    } else {
      var init := b[..|b| - 1];
      var last := b[|b| - 1];
      var kept := if FilterTicker(last) then [last] else [];
      FilterTickersAppend(a, init);
      assert (a + b)[..|a + b| - 1] == a + init;
      assert (a + b)[|a + b| - 1] == last;
      assert FilterTickers(a + b) == FilterTickers(a + init) + kept;
      assert FilterTickers(b) == FilterTickers(init) + kept;
      assert FilterTickers(a) + FilterTickers(init) + kept == FilterTickers(a) + (FilterTickers(init) + kept);
    }
  }

  /** Every accepted ticker is kept as often as it occurs; the others are
      dropped. */
  lemma {:induction false} FilterTickersCount(ts: seq<TickerResponse>, x: TickerResponse)
    ensures multiset(FilterTickers(ts))[x] == if FilterTicker(x) then multiset(ts)[x] else 0
  {
    if ts != [] {
      var init := ts[..|ts| - 1];
      var last := ts[|ts| - 1];
      FilterTickersCount(init, x);
      assert ts == init + [last];
    }
  }

  /** A ticker is dropped exactly when its rate or volume is zero or its base
      or target is a contract address. */
  lemma FilterTickerIff(t: TickerResponse)
    ensures FilterTicker(t) <==>
      t.rate != 0 && t.volume != 0 && !IsSmartContractAddress(t.base) && !IsSmartContractAddress(t.target)
  {
  }

  // ---------------------------------------------------------------------------
  // Exchange ranking
  // ---------------------------------------------------------------------------

  const IntMaxValue: int := 0x7fff_ffff

  /** exchangesOrdering: the preferred exchanges, numbered from 1. */
  const ExchangesOrdering: map<string, int> := map[
    "binance" := 1,
    "binance_us" := 2,
    "binance_dex" := 3,
    "binance_dex_mini" := 4,
    "uniswap_v1" := 5,
    "uniswap" := 6,
    "gdax" := 7,
    "sushiswap" := 8,
    "huobi" := 9,
    "huobi_thailand" := 10,
    "huobi_id" := 11,
    "huobi_korea" := 12,
    "huobi_japan" := 13,
    "ftx_spot" := 14,
    "ftx_us" := 15,
    "one_inch" := 16,
    "one_inch_liquidity_protocol" := 17,
    "one_inch_liquidity_protocol_bsc" := 18
  ]

  /** The sort key of a ticker: its exchange's position, `Int.MAX_VALUE` for an
      exchange that is not listed. */
  function ExchangeRank(marketId: string): (r: int)
  {
    if marketId in ExchangesOrdering then ExchangesOrdering[marketId] else IntMaxValue
  }

  /** Listed exchanges get the distinct ranks 1 to 18, every other exchange
      ranks last. */
  lemma ExchangeRankRange(a: string)
    ensures a in ExchangesOrdering <==> ExchangeRank(a) < IntMaxValue
    ensures a in ExchangesOrdering ==> 1 <= ExchangeRank(a) <= 18
    ensures a !in ExchangesOrdering ==> ExchangeRank(a) == IntMaxValue
    ensures ExchangeRank("binance") == 1 && ExchangeRank("one_inch_liquidity_protocol_bsc") == 18
  {
  }

  /** The listed exchanges by rank: the one at index `i` has rank `i + 1`. */
  const RankedExchanges: seq<string> := [
    "binance", "binance_us", "binance_dex", "binance_dex_mini", "uniswap_v1",
    "uniswap", "gdax", "sushiswap", "huobi", "huobi_thailand", "huobi_id",
    "huobi_korea", "huobi_japan", "ftx_spot", "ftx_us", "one_inch",
    "one_inch_liquidity_protocol", "one_inch_liquidity_protocol_bsc"]

  lemma RankedExchangesInverse(a: string)
    requires a in ExchangesOrdering
    ensures 1 <= ExchangeRank(a) <= |RankedExchanges| && RankedExchanges[ExchangeRank(a) - 1] == a
  {
  }

  /** No two listed exchanges share a rank, and no listed exchange shares its
      rank with an unlisted one. */
  lemma ExchangeRankInjective(a: string, b: string)
    requires a in ExchangesOrdering && ExchangeRank(a) == ExchangeRank(b)
    ensures a == b
  {
    RankedExchangesInverse(a);
    ExchangeRankRange(b);
    RankedExchangesInverse(b);
  }

  // ---------------------------------------------------------------------------
  // Stable sort by rank
  // ---------------------------------------------------------------------------

  function Rank(t: TickerResponse): int
  {
    ExchangeRank(t.marketId)
  }

  predicate SortedByRank(s: seq<TickerResponse>)
  {
    forall i, j :: 0 <= i < j < |s| ==> Rank(s[i]) <= Rank(s[j])
  }

  /** The elements of `s` whose rank is `k`, in order. */
  function WithRank(s: seq<TickerResponse>, k: int): seq<TickerResponse>
  {
    if s == [] then []
    else WithRank(s[..|s| - 1], k) + (if Rank(s[|s| - 1]) == k then [s[|s| - 1]] else [])
  }

  /** Insert `x` after every element whose rank is not above its own. */
  function InsertByRank(s: seq<TickerResponse>, x: TickerResponse): (r: seq<TickerResponse>)
    ensures multiset(r) == multiset(s) + multiset{x}
  {
    if s == [] || Rank(s[|s| - 1]) <= Rank(x) then s + [x]
    else
      var init := s[..|s| - 1];
      assert s == init + [s[|s| - 1]];
      InsertByRank(init, x) + [s[|s| - 1]]
  }

  /** `sortedBy { rank }`: a stable insertion sort. */
  function SortByRank(s: seq<TickerResponse>): (r: seq<TickerResponse>)
    ensures multiset(r) == multiset(s)
  {
    if s == [] then []
    else
      var init := s[..|s| - 1];
      assert s == init + [s[|s| - 1]];
      InsertByRank(SortByRank(init), s[|s| - 1])
  }

  lemma {:induction false} InsertKeepsSorted(s: seq<TickerResponse>, x: TickerResponse)
    requires SortedByRank(s)
    ensures SortedByRank(InsertByRank(s, x))
    ensures InsertByRank(s, x) != [] && Rank(InsertByRank(s, x)[|InsertByRank(s, x)| - 1]) ==
      (if s == [] || Rank(s[|s| - 1]) <= Rank(x) then Rank(x) else Rank(s[|s| - 1]))
  {
    if s == [] || Rank(s[|s| - 1]) <= Rank(x) {
    } else {
      var init := s[..|s| - 1];
      InsertKeepsSorted(init, x);
      var r := InsertByRank(init, x);
      assert init == [] || Rank(init[|init| - 1]) <= Rank(s[|s| - 1]);
      assert InsertByRank(s, x) == r + [s[|s| - 1]];
    }
  }

  lemma WithRankAppend(s: seq<TickerResponse>, x: TickerResponse, k: int)
    ensures WithRank(s + [x], k) == WithRank(s, k) + (if Rank(x) == k then [x] else [])
  {
    assert (s + [x])[..|s|] == s;
  }

  lemma {:induction false} InsertWithRank(s: seq<TickerResponse>, x: TickerResponse, k: int)
    ensures WithRank(InsertByRank(s, x), k) == WithRank(s, k) + (if Rank(x) == k then [x] else [])
  {
    if s == [] || Rank(s[|s| - 1]) <= Rank(x) {
      WithRankAppend(s, x, k);
    } else {
      var init := s[..|s| - 1];
      var last := s[|s| - 1];
      var r := InsertByRank(init, x);
      var xs := if Rank(x) == k then [x] else [];
      var ls := if Rank(last) == k then [last] else [];
      calc {
        WithRank(InsertByRank(s, x), k);
        WithRank(r + [last], k);
        { WithRankAppend(r, last, k); }
        WithRank(r, k) + ls;
        { InsertWithRank(init, x, k); }
        WithRank(init, k) + xs + ls;
        // `last` outranks `x`, so at most one of them has rank `k`
        WithRank(init, k) + ls + xs;
        { WithRankAppend(init, last, k); assert init + [last] == s; }
        WithRank(s, k) + xs;
      }
    }
  }

  /** The sort orders by rank, keeps the multiset of tickers, and among
      tickers of one rank keeps their input order. */
  lemma {:induction false} SortByRankSpec(s: seq<TickerResponse>)
    ensures SortedByRank(SortByRank(s))
    ensures multiset(SortByRank(s)) == multiset(s)
    ensures forall k :: WithRank(SortByRank(s), k) == WithRank(s, k)
  {
    if s != [] {
      var init := s[..|s| - 1];
      var last := s[|s| - 1];
      SortByRankSpec(init);
      InsertKeepsSorted(SortByRank(init), last);
      forall k
        ensures WithRank(SortByRank(s), k) == WithRank(s, k)
      {
        InsertWithRank(SortByRank(init), last, k);
      }
    }
  }

  // ---------------------------------------------------------------------------
  // The ticker list
  // ---------------------------------------------------------------------------

  function ToMarketTicker(t: TickerResponse): MarketTicker
  {
    MarketTicker(t.base, t.target, t.marketName, t.rate, t.volume)
  }

  /** The tickers of the coin details: filter, stable sort by exchange rank,
      then drop the exchange identifier. */
  function MarketTickers(ts: seq<TickerResponse>): (r: seq<MarketTicker>)
  {
    var sorted := SortByRank(FilterTickers(ts));
    seq(|sorted|, i requires 0 <= i < |sorted| => ToMarketTicker(sorted[i]))
  }

  /** Each output ticker is the projection of an accepted input ticker; the
      accepted tickers come out ordered by rank, each exactly as often as in
      the input, and the tickers of one rank are the accepted input tickers of
      that rank in input order. */
  lemma MarketTickersSpec(ts: seq<TickerResponse>)
    ensures var sorted := SortByRank(FilterTickers(ts));
      && |MarketTickers(ts)| == |sorted| == |FilterTickers(ts)|
      && (forall i :: 0 <= i < |sorted| ==>
            sorted[i] in ts && FilterTicker(sorted[i]) && MarketTickers(ts)[i] == ToMarketTicker(sorted[i]))
      && SortedByRank(sorted)
      && multiset(sorted) == multiset(FilterTickers(ts))
      && (forall k :: WithRank(sorted, k) == FilterTickers(WithRank(ts, k)))
  {
    var accepted := FilterTickers(ts);
    SortByRankSpec(accepted);
    SortedAccepted(accepted, SortByRank(accepted));
    forall k ensures WithRank(SortByRank(accepted), k) == FilterTickers(WithRank(ts, k)) {
      FilterWithRank(ts, k);
    }
  }

  /** The accepted tickers of one rank are the accepted ones among the
      input tickers of that rank, in input order. */
  lemma {:induction false} FilterWithRank(ts: seq<TickerResponse>, k: int)
    ensures WithRank(FilterTickers(ts), k) == FilterTickers(WithRank(ts, k))
  {
    if ts != [] {
      var init := ts[..|ts| - 1];
      var last := ts[|ts| - 1];
      var both := if FilterTicker(last) && Rank(last) == k then [last] else [];
      FilterWithRank(init, k);
      assert FilterTickers(ts) == FilterTickers(init) + (if FilterTicker(last) then [last] else []);
      assert WithRank(ts, k) == WithRank(init, k) + (if Rank(last) == k then [last] else []);
      assert WithRank(FilterTickers(ts), k) == WithRank(FilterTickers(init), k) + both by {
        if FilterTicker(last) {
          assert FilterTickers(ts) == FilterTickers(init) + [last];
          WithRankAppend(FilterTickers(init), last, k);
        } else {
          assert FilterTickers(ts) == FilterTickers(init) + [];
          assert FilterTickers(init) + [] == FilterTickers(init);
          assert WithRank(FilterTickers(init), k) + [] == WithRank(FilterTickers(init), k);
        }
      }
      assert FilterTickers(WithRank(ts, k)) == FilterTickers(WithRank(init, k)) + both by {
        if Rank(last) == k {
          assert WithRank(ts, k) == WithRank(init, k) + [last];
          FilterTickersAppend(WithRank(init, k), [last]);
          assert [last][..0] == [];
          assert FilterTickers([last]) == (if FilterTicker(last) then [last] else []);
        } else {
          assert WithRank(ts, k) == WithRank(init, k) + [];
          assert WithRank(init, k) + [] == WithRank(init, k);
          assert FilterTickers(WithRank(init, k)) + [] == FilterTickers(WithRank(init, k));
        }
      }
    }
  }

  /** A permutation of the accepted tickers holds accepted input tickers only. */
  lemma SortedAccepted(accepted: seq<TickerResponse>, sorted: seq<TickerResponse>)
    requires multiset(sorted) == multiset(accepted)
    ensures |sorted| == |accepted|
    ensures forall i :: 0 <= i < |sorted| ==> sorted[i] in accepted
  {
    assert |multiset(sorted)| == |multiset(accepted)|;
    forall i | 0 <= i < |sorted|
      ensures sorted[i] in accepted
    {
      assert sorted[i] in multiset(sorted);
    }
  }
}
