/**
 * Shaping of the coin-details response: the link map, the platform map, the
 * replacement of contract addresses in tickers by the coin symbol, and the
 * selection of price-change percentages by time period.
 */
module CoinGeckoDetails {
  import opened Wrappers
  import opened Text
  import opened CoinGeckoTickers

  // ---------------------------------------------------------------------------
  // Links
  // ---------------------------------------------------------------------------

  datatype LinkType = Website | Twitter | Telegram | Reddit | Github

  /** The `links` object of the coin response; absent JSON values are `None`. */
  datatype CoinLinks = CoinLinks(
    homepage: seq<string>,
    twitterScreenName: Option<string>,
    telegramChannelIdentifier: Option<string>,
    subredditUrl: Option<string>,
    reposUrl: map<string, seq<string>>)

  /** `isNullOrBlank`. */
  predicate NullOrBlank(v: Option<string>)
  {
    v.None? || IsBlank(v.value)
  }

  /** The link map, filled entry by entry. */
  method BuildLinks(l: CoinLinks) returns (links: map<LinkType, string>)
    ensures Website in links <==> |l.homepage| > 0
    ensures Website in links ==> links[Website] == l.homepage[0]
    ensures Twitter in links <==> !NullOrBlank(l.twitterScreenName)
    ensures Twitter in links ==> links[Twitter] == "https://twitter.com/" + l.twitterScreenName.value
    ensures Telegram in links <==> !NullOrBlank(l.telegramChannelIdentifier)
    ensures Telegram in links ==> links[Telegram] == "https://t.me/" + l.telegramChannelIdentifier.value
    ensures Reddit in links <==> !NullOrBlank(l.subredditUrl)
    ensures Reddit in links ==> links[Reddit] == l.subredditUrl.value
    ensures Github in links <==> "github" in l.reposUrl && |l.reposUrl["github"]| > 0
    ensures Github in links ==> links[Github] == l.reposUrl["github"][0]
  {
    links := map[];
    if |l.homepage| > 0 {
      links := links[Website := l.homepage[0]];
    }
    if !NullOrBlank(l.twitterScreenName) {
      links := links[Twitter := "https://twitter.com/" + l.twitterScreenName.value];
    }
    if !NullOrBlank(l.telegramChannelIdentifier) {
      links := links[Telegram := "https://t.me/" + l.telegramChannelIdentifier.value];
    }
    if !NullOrBlank(l.subredditUrl) {
      links := links[Reddit := l.subredditUrl.value];
    }
    if "github" in l.reposUrl && |l.reposUrl["github"]| > 0 {
      links := links[Github := l.reposUrl["github"][0]];
    }
  }

  // ---------------------------------------------------------------------------
  // Platforms
  // ---------------------------------------------------------------------------

  datatype CoinPlatformType = Tron | Ethereum | Eos | BinanceSmartChain | Binance | Other

  /** The platform named by a key of the response's `platforms` object,
      whatever its letter case. */
  function PlatformTypeOf(key: string): (t: CoinPlatformType)
  {
    var k := Lower(key);
    if k == "tron" then Tron
    else if k == "ethereum" then Ethereum
    else if k == "eos" then Eos
    else if k == "binance-smart-chain" then BinanceSmartChain
    else if k == "binancecoin" then Binance
    else Other
  }

  /** Keys that differ only in letter case name the same platform; a key names
      a known platform only when it spells one of the five names. */
  lemma PlatformTypeOfSpec(key: string)
    ensures PlatformTypeOf(key) == PlatformTypeOf(Lower(key))
    ensures PlatformTypeOf(key) != Other <==>
      Lower(key) in {"tron", "ethereum", "eos", "binance-smart-chain", "binancecoin"}
  {
    LowerIdempotent(key);
  }

  /** An entry of `platforms` that yields an address for platform `t`. */
  predicate Yields(entry: (string, string), t: CoinPlatformType)
  {
    !IsBlank(entry.1) && PlatformTypeOf(entry.0) == t
  }

  /** `mapNotNull { … }.toMap()` over the response's platform entries, in
      response order: blank addresses are skipped and a later entry of the
      same platform type replaces an earlier one. */
  function Platforms(entries: seq<(string, string)>): (m: map<CoinPlatformType, string>)
  {
    if entries == [] then map[]
    else
      var last := entries[|entries| - 1];
      var m := Platforms(entries[..|entries| - 1]);
      if IsBlank(last.1) then m else m[PlatformTypeOf(last.0) := last.1]
  }

  /** A platform type is present exactly when some entry yields it. */
  lemma {:induction false} PlatformsPresent(entries: seq<(string, string)>, t: CoinPlatformType)
    ensures t in Platforms(entries) <==> exists i :: 0 <= i < |entries| && Yields(entries[i], t)
  {
    if entries != [] {
      var n := |entries| - 1;
      var init := entries[..n];
      PlatformsPresent(init, t);
      assert forall i :: 0 <= i < n ==> init[i] == entries[i];
    }
  }

  /** The address of a present platform type is that of the last entry that
      yields it. */
  lemma {:induction false} PlatformsLastWins(entries: seq<(string, string)>, t: CoinPlatformType)
    requires t in Platforms(entries)
    ensures exists i ::
      && 0 <= i < |entries| && Yields(entries[i], t) && Platforms(entries)[t] == entries[i].1
      && forall j :: i < j < |entries| ==> !Yields(entries[j], t)
  {
    var n := |entries| - 1;
    var init := entries[..n];
    if Yields(entries[n], t) {
      assert Platforms(entries)[t] == entries[n].1;
    } else {
      assert Platforms(entries) == Platforms(init) || Platforms(entries) == Platforms(init)[PlatformTypeOf(entries[n].0) := entries[n].1];
      assert t in Platforms(init) && Platforms(entries)[t] == Platforms(init)[t];
      PlatformsLastWins(init, t);
      var i :| 0 <= i < n && Yields(init[i], t) && Platforms(init)[t] == init[i].1
                && forall j :: i < j < n ==> !Yields(init[j], t);
      assert entries[i] == init[i];
      assert forall j :: i < j < n ==> entries[j] == init[j];
    }
  }

  /** Every address in the platform map is non-blank. */
  lemma {:induction false} PlatformsNonBlank(entries: seq<(string, string)>)
    ensures forall t :: t in Platforms(entries) ==> !IsBlank(Platforms(entries)[t])
  {
    if entries != [] {
      PlatformsNonBlank(entries[..|entries| - 1]);
    }
  }

  // ---------------------------------------------------------------------------
  // Contract-address substitution
  // ---------------------------------------------------------------------------

  /** A ticker as the coin response carries it. */
  datatype CoinTicker = CoinTicker(base: string, target: string, marketName: string, marketIdentifier: string, last: int, volume: int)

  /** `platforms.map { it.value.toLowerCase() }`, used for membership only. */
  function ContractAddresses(platforms: map<CoinPlatformType, string>): (addrs: set<string>)
    ensures forall x :: x in addrs <==> exists t :: t in platforms && Lower(platforms[t]) == x
  {
    set t | t in platforms :: Lower(platforms[t])
  }

  /** `v` is, ignoring case, the address of some platform in the map. */
  predicate IsPlatformAddress(platforms: map<CoinPlatformType, string>, v: string)
  {
    exists t :: t in platforms && Lower(platforms[t]) == Lower(v)
  }

  /** The coin symbol when `v` is, ignoring case, one of the addresses. */
  function Substitute(v: string, addrs: set<string>, symbol: string): string
  {
    if Lower(v) in addrs then symbol else v
  }

  /** The tickers of the coin response with base and target substituted. */
  function SubstituteTickers(tickers: seq<CoinTicker>, platforms: map<CoinPlatformType, string>, symbol: string): (r: seq<TickerResponse>)
  {
    var addrs := ContractAddresses(platforms);
    seq(|tickers|, i requires 0 <= i < |tickers| =>
      var t := tickers[i];
      TickerResponse(Substitute(t.base, addrs, symbol), Substitute(t.target, addrs, symbol),
                     t.marketName, t.marketIdentifier, t.last, t.volume))
  }

  /** The substitution keeps the number and order of tickers and their market
      fields; a base (or target) becomes the symbol exactly when, ignoring
      case, it is the address of some platform in the map (and every address
      there is non-blank); otherwise it is kept. */
  lemma SubstituteTickersSpec(tickers: seq<CoinTicker>, entries: seq<(string, string)>, symbol: string, i: int)
    requires 0 <= i < |tickers|
    ensures forall t :: t in Platforms(entries) ==> !IsBlank(Platforms(entries)[t])
    ensures var platforms := Platforms(entries);
      var r := SubstituteTickers(tickers, platforms, symbol);
      && |r| == |tickers|
      && r[i].marketName == tickers[i].marketName && r[i].marketId == tickers[i].marketIdentifier
      && r[i].rate == tickers[i].last && r[i].volume == tickers[i].volume
      && r[i].base == (if IsPlatformAddress(platforms, tickers[i].base) then symbol else tickers[i].base)
      && r[i].target == (if IsPlatformAddress(platforms, tickers[i].target) then symbol else tickers[i].target)
  {
    PlatformsNonBlank(entries);
  }

  // ---------------------------------------------------------------------------
  // Price-change percentages
  // ---------------------------------------------------------------------------

  /** The time periods the provider distinguishes; every other period of the
      application is `Unlisted`. */
  datatype TimePeriod = All | Hour1 | Hour24 | Day7 | Day14 | Day30 | Day200 | Year1 | Unlisted(id: int)

  /** The `price_change_percentage` request parameter for one period: empty for
      `All` and `Hour24`, otherwise the period's title. */
  function PriceChangePercentage(period: TimePeriod, title: TimePeriod -> string): (p: string)
  {
    if period != All && period != Hour24 then title(period) else ""
  }

  /** The percentage fields of one coin of the `coins/markets` response. */
  datatype MarketChanges = MarketChanges(
    h1InCurrency: Option<int>, h24: Option<int>, d7InCurrency: Option<int>,
    d14InCurrency: Option<int>, d30InCurrency: Option<int>, d200InCurrency: Option<int>,
    y1InCurrency: Option<int>)

  /** The market's change over the requested period, zero when the period has
      no field or the field is absent. */
  function RateDiffPeriod(period: TimePeriod, c: MarketChanges): (d: int)
  {
    var field := match period
      case Hour1 => c.h1InCurrency
      case Hour24 => c.h24
      case Day7 => c.d7InCurrency
      case Day14 => c.d14InCurrency
      case Day30 => c.d30InCurrency
      case Day200 => c.d200InCurrency
      case Year1 => c.y1InCurrency
      case _ => None;
    if field.Some? then field.value else 0
  }

  /** A period other than `Hour24` that is not requested as a percentage
      parameter yields no change; `Hour24` reads the default field that is
      always present in the response. */
  lemma RateDiffPeriodRequested(period: TimePeriod, c: MarketChanges, title: TimePeriod -> string)
    requires forall p :: title(p) != ""
    ensures period == Hour24 ==> RateDiffPeriod(period, c) == (if c.h24.Some? then c.h24.value else 0)
    ensures PriceChangePercentage(period, title) == "" && period != Hour24 ==> RateDiffPeriod(period, c) == 0
    ensures period.Unlisted? ==> RateDiffPeriod(period, c) == 0
    ensures PriceChangePercentage(period, title) != "" <==> period != All && period != Hour24
  {
  }

  /** The per-currency percentage maps of the details `market_data`. */
  datatype DetailChanges = DetailChanges(
    h1: map<string, int>, h24: map<string, int>, d7: map<string, int>, d14: map<string, int>,
    d30: map<string, int>, d200: map<string, int>, y1: map<string, int>)

  /** The map read for a period; every other period reads the 24-hour one. */
  function DiffPeriod(period: TimePeriod, c: DetailChanges): map<string, int>
  {
    match period
    case Hour1 => c.h1
    case Day7 => c.d7
    case Day14 => c.d14
    case Day30 => c.d30
    case Day200 => c.d200
    case Year1 => c.y1
    case _ => c.h24
  }

  /** One coin's change: looked up by lower-cased code, zero when absent. */
  function CodeDiff(diffs: map<string, int>, code: string): int
  {
    if Lower(code) in diffs then diffs[Lower(code)] else 0
  }

  /** `rateDiffCoinCodes.map { … }.toMap()`. */
  function CodeDiffs(codes: seq<string>, diffs: map<string, int>): map<string, int>
  {
    if codes == [] then map[]
    else
      var code := codes[|codes| - 1];
      CodeDiffs(codes[..|codes| - 1], diffs)[code := CodeDiff(diffs, code)]
  }

  /** `rateDiffPeriods.map { … }.toMap()`. */
  function RateDiffs(periods: seq<TimePeriod>, codes: seq<string>, c: DetailChanges): map<TimePeriod, map<string, int>>
  {
    if periods == [] then map[]
    else
      var p := periods[|periods| - 1];
      RateDiffs(periods[..|periods| - 1], codes, c)[p := CodeDiffs(codes, DiffPeriod(p, c))]
  }

  lemma {:induction false} CodeDiffsSpec(codes: seq<string>, diffs: map<string, int>)
    ensures CodeDiffs(codes, diffs) == map code | code in codes :: CodeDiff(diffs, code)
  {
    if codes != [] {
      var init := codes[..|codes| - 1];
      CodeDiffsSpec(init, diffs);
      assert codes == init + [codes[|codes| - 1]];
    }
  }

  /** The rate-diff table has one row per requested period; each row is the
      per-code table of that period's changes. */
  lemma {:induction false} RateDiffsSpec(periods: seq<TimePeriod>, codes: seq<string>, c: DetailChanges)
    ensures RateDiffs(periods, codes, c).Keys == set p | p in periods
    ensures forall p :: p in periods ==>
      RateDiffs(periods, codes, c)[p] == map code | code in codes :: CodeDiff(DiffPeriod(p, c), code)
  {
    if periods != [] {
      var init := periods[..|periods| - 1];
      var p := periods[|periods| - 1];
      RateDiffsSpec(init, codes, c);
      CodeDiffsSpec(codes, DiffPeriod(p, c));
      assert periods == init + [p];
    }
  }
}
