/** The simulated market store behind every page (`useCryptoData`): the coin list, the
    aggregate market figures and the loading flag; the seed catalog with generated
    sparklines; the fetch result mapping with its fall-back to the seed catalog; and the
    periodic tick that random-walks every price.

    `Math.random()` is a parameter everywhere: a draw `r` with `0 <= r < 1`. The network
    response is a parameter too (`FetchResult`). Prices are JavaScript numbers, modelled as
    exact reals: only ordering, bounds and structure are stated, never float rounding. */
module CryptoData {
  import opened Collections

  /** One coin as the store holds it (the hook's `CryptoData` record). `sparkline` is
      `sparkline_in_7d.price`, `None` when the response carried no `sparkline_in_7d`. */
  datatype Coin = Coin(
    id: string,
    name: string,
    symbol: string,
    currentPrice: real,
    priceChange24h: real,
    marketCap: real,
    marketCapRank: int,
    totalVolume: real,
    image: string,
    sparkline: Option<seq<real>>)

  /** `coin.sparkline_in_7d?.price || []`: the sparkline, empty when it is missing. */
  function Window(coin: Coin): seq<real>
  {
    match coin.sparkline
    case Some(prices) => prices
    case None => []
  }

  /** The aggregate market figures (the hook's `MarketData` record). */
  datatype MarketData = MarketData(
    totalMarketCap: real,
    totalVolume24h: real,
    marketCapChange24h: real,
    activeCryptocurrencies: int)

  const InitialMarketData := MarketData(2640000000000.0, 89200000000.0, 2.4, 2800)

  function Abs(x: real): real { if x < 0.0 then -x else x }

  // ---------------------------------------------------------------------------
  // Randomness

  /** A value `Math.random()` can return. */
  predicate IsDraw(r: real) { 0.0 <= r < 1.0 }

  predicate AllDraws(rs: seq<real>)
  {
    forall i :: 0 <= i < |rs| ==> IsDraw(rs[i])
  }

  // ---------------------------------------------------------------------------
  // Sparkline generator

  const SparklinePoints: nat := 24

  /** One step of the random walk: `price + (r - 0.5) * volatility * price`. The same
      step moves a sparkline sample and a ticking price. */
  function Step(price: real, volatility: real, r: real): real
  {
    price + (r - 0.5) * volatility * price
  }

  /** The samples of a random walk from `start`, one per draw; the reference definition
      for `GenerateSparkline`. */
  function Walk(start: real, volatility: real, draws: seq<real>): (prices: seq<real>)
    ensures |prices| == |draws|
    decreases |draws|
  {
    if draws == [] then []
    else
      var next := Step(start, volatility, draws[0]);
      [next] + Walk(next, volatility, draws[1..])
  }

  /** Each sample is the previous one (the base price for the first) times `1 + (r - 0.5) * volatility`. */
  lemma {:induction false} WalkIsMultiplicative(start: real, volatility: real, draws: seq<real>, i: nat)
    requires i < |draws|
    ensures Walk(start, volatility, draws)[i]
         == (if i == 0 then start else Walk(start, volatility, draws)[i - 1]) * (1.0 + (draws[i] - 0.5) * volatility)
    decreases i
  {
    var next := Step(start, volatility, draws[0]);
    if i > 0 {
      WalkIsMultiplicative(next, volatility, draws[1..], i - 1);
      assert Walk(start, volatility, draws)[i] == Walk(next, volatility, draws[1..])[i - 1];
      if i > 1 {
        assert Walk(start, volatility, draws)[i - 1] == Walk(next, volatility, draws[1..])[i - 2];
      }
    }
  }

  /** A step with a volatility below 2 keeps a positive price positive. */
  lemma StepKeepsSign(price: real, volatility: real, r: real)
    requires 0.0 <= volatility < 2.0 && IsDraw(r)
    ensures price > 0.0 ==> Step(price, volatility, r) > 0.0
  {
    assert r * volatility >= 0.0;
    assert (r - 0.5) * volatility >= -0.5 * volatility;
    assert 1.0 + (r - 0.5) * volatility > 0.0;
    assert Step(price, volatility, r) == price * (1.0 + (r - 0.5) * volatility);
  }

  /** Sign rule for products; the solver's non-linear reasoning needs it stated separately. */
  lemma MulNonNegative(x: real, y: real)
    requires x >= 0.0 && y >= 0.0
    ensures x * y >= 0.0
  {
  }

  /** A step moves a price by at most half the volatility, relatively. */
  lemma StepBound(price: real, volatility: real, r: real)
    requires volatility >= 0.0 && IsDraw(r)
    ensures Abs(Step(price, volatility, r) - price) <= volatility / 2.0 * Abs(price)
  {
    var a, m := r - 0.5, volatility * Abs(price);
    MulNonNegative(volatility, Abs(price));
    MulNonNegative(0.5 - a, m);
    MulNonNegative(a + 0.5, m);
    assert (0.5 - a) * m == 0.5 * m - a * m;
    assert (a + 0.5) * m == a * m + 0.5 * m;
    assert Abs(a * m) <= 0.5 * m;
    assert Step(price, volatility, r) - price == a * volatility * price;
    assert Abs(a * volatility * price) == Abs(a * m);
  }

  /** With a positive base price and a volatility below 2, every sample is positive. */
  lemma {:induction false} WalkPositive(start: real, volatility: real, draws: seq<real>)
    requires start > 0.0 && 0.0 <= volatility < 2.0 && AllDraws(draws)
    ensures forall i :: 0 <= i < |draws| ==> Walk(start, volatility, draws)[i] > 0.0
    decreases |draws|
  {
    if draws != [] {
      var next := Step(start, volatility, draws[0]);
      StepKeepsSign(start, volatility, draws[0]);
      WalkPositive(next, volatility, draws[1..]);
      var prices := Walk(start, volatility, draws);
      assert forall i :: 1 <= i < |draws| ==> prices[i] == Walk(next, volatility, draws[1..])[i - 1];
    }
  }

  /** `generateSparkline(basePrice, volatility)`: 24 samples of a multiplicative random walk. */
  method GenerateSparkline(basePrice: real, volatility: real, draws: seq<real>) returns (prices: seq<real>)
    requires |draws| == SparklinePoints
    ensures |prices| == SparklinePoints
    ensures prices == Walk(basePrice, volatility, draws)
    ensures basePrice > 0.0 && 0.0 <= volatility < 2.0 && AllDraws(draws) ==> forall i :: 0 <= i < |prices| ==> prices[i] > 0.0
  {
    prices := [];
    var currentPrice := basePrice;
    for i := 0 to SparklinePoints
      invariant prices + Walk(currentPrice, volatility, draws[i..]) == Walk(basePrice, volatility, draws)
    {
      assert draws[i..][1..] == draws[i + 1..];
      assert Walk(currentPrice, volatility, draws[i..])
          == [Step(currentPrice, volatility, draws[i])] + Walk(Step(currentPrice, volatility, draws[i]), volatility, draws[i + 1..]);
      var change := (draws[i] - 0.5) * volatility * currentPrice;
      currentPrice := currentPrice + change;
      prices := prices + [currentPrice];
    }
    assert draws[SparklinePoints..] == [];
    if basePrice > 0.0 && 0.0 <= volatility < 2.0 && AllDraws(draws) {
      WalkPositive(basePrice, volatility, draws);
    }
  }

  // ---------------------------------------------------------------------------
  // Seed catalog

  /** The eight coins of `loadSimulatedData`, without their generated sparklines. The
      `image` glyphs are the characters the source file holds (mis-encoded UTF-8). */
  const SeedListings: seq<Coin> := [
    Coin("bitcoin", "Bitcoin", "BTC", 67542.30, 2.45, 1330000000000.0, 1, 28500000000.0, "\U{00E2}\U{201A}\U{00BF}", None),
    Coin("ethereum", "Ethereum", "ETH", 3842.15, -1.23, 462000000000.0, 2, 15200000000.0, "\U{00CE}\U{017E}", None),
    Coin("solana", "Solana", "SOL", 238.91, 5.67, 113000000000.0, 3, 4800000000.0, "S", None),
    Coin("cardano", "Cardano", "ADA", 1.23, -3.45, 43000000000.0, 4, 1200000000.0, "\U{00E2}\U{201A}\U{00B3}", None),
    Coin("polkadot", "Polkadot", "DOT", 8.45, 1.89, 12000000000.0, 5, 450000000.0, "\U{00E2}\U{2014}", None),
    Coin("chainlink", "Chainlink", "LINK", 24.78, 4.12, 15500000000.0, 6, 680000000.0, "\U{00E2}\U{0161}\U{00A1}", None),
    Coin("avalanche", "Avalanche", "AVAX", 45.32, -2.17, 18200000000.0, 7, 890000000.0, "\U{00F0}\U{0178}\U{201D}\U{00BA}", None),
    Coin("polygon", "Polygon", "MATIC", 0.89, 3.76, 8900000000.0, 8, 320000000.0, "\U{00F0}\U{0178}\U{201D}\U{00B7}", None)
  ]

  /** The volatility each seed coin's sparkline is generated with; the base price is the coin's own price. */
  const SeedSparklineVolatility: seq<real> := [0.03, 0.04, 0.06, 0.05, 0.05, 0.05, 0.05, 0.06]

  /** Draws consumed by `loadSimulatedData`: 24 per coin, coin by coin. */
  const SeedDrawCount: nat := 8 * SparklinePoints

  function SeedDraws(draws: seq<real>, k: nat): seq<real>
    requires |draws| == SeedDrawCount && k < 8
  {
    draws[k * SparklinePoints..(k + 1) * SparklinePoints]
  }

  /** The seed listings with the given sparklines attached, in catalog order. */
  function WithSparklines(sparklines: seq<seq<real>>): seq<Coin>
    requires |sparklines| == 8
  {
    seq(8, k requires 0 <= k < 8 => SeedListings[k].(sparkline := Some(sparklines[k])))
  }

  /** The catalog `loadSimulatedData` builds from a stream of draws. */
  function SeedCatalog(draws: seq<real>): seq<Coin>
    requires |draws| == SeedDrawCount
  {
    WithSparklines(seq(8, k requires 0 <= k < 8 =>
      Walk(SeedListings[k].currentPrice, SeedSparklineVolatility[k], SeedDraws(draws, k))))
  }

  /** Whatever the draws, the seed catalog has eight coins with distinct ids, ranks 1..8 in
      order, positive prices and 24-sample sparklines of positive prices. */
  lemma SeedCatalogShape(draws: seq<real>)
    requires |draws| == SeedDrawCount && AllDraws(draws)
    ensures |SeedCatalog(draws)| == 8
    ensures forall i, j :: 0 <= i < j < 8 ==> SeedCatalog(draws)[i].id != SeedCatalog(draws)[j].id
    ensures forall k :: 0 <= k < 8 ==> SeedCatalog(draws)[k].marketCapRank == k + 1
    ensures SimulatedShape(SeedCatalog(draws))
  {
    var catalog := SeedCatalog(draws);
    forall k | 0 <= k < 8
      ensures catalog[k].currentPrice > 0.0 && catalog[k].sparkline.Some?
      ensures |catalog[k].sparkline.value| == SparklinePoints
      ensures forall j :: 0 <= j < SparklinePoints ==> catalog[k].sparkline.value[j] > 0.0
    {
      var d := SeedDraws(draws, k);
      assert forall j :: 0 <= j < |d| ==> d[j] == draws[k * SparklinePoints + j];
      WalkPositive(SeedListings[k].currentPrice, SeedSparklineVolatility[k], d);
    }
  }

  /** The listing part of the seed catalog (everything but the sparklines) does not depend on the draws. */
  lemma SeedListingsFixed(draws1: seq<real>, draws2: seq<real>)
    requires |draws1| == SeedDrawCount && |draws2| == SeedDrawCount
    ensures |SeedCatalog(draws1)| == |SeedCatalog(draws2)| == 8
    ensures forall k :: 0 <= k < 8 ==>
      SeedCatalog(draws1)[k].(sparkline := None) == SeedCatalog(draws2)[k].(sparkline := None) == SeedListings[k]
  {
  }

  /** Every coin has a positive price and a sparkline of 24 positive samples: what the seed
      catalog starts with and every tick keeps. */
  ghost predicate SimulatedShape(coins: seq<Coin>)
  {
    forall k :: 0 <= k < |coins| ==>
      && coins[k].currentPrice > 0.0
      && coins[k].sparkline.Some?
      && |coins[k].sparkline.value| == SparklinePoints
      && forall j :: 0 <= j < SparklinePoints ==> coins[k].sparkline.value[j] > 0.0
  }

  // ---------------------------------------------------------------------------
  // Fetch result mapping

  /** One item of the market-data API's JSON array. `otherFields` stands for the
      response fields the mapping does not copy. */
  datatype ApiCoin = ApiCoin(
    id: string,
    name: string,
    symbol: string,
    currentPrice: real,
    priceChange24h: real,
    marketCap: real,
    marketCapRank: int,
    totalVolume: real,
    image: string,
    sparkline: Option<seq<real>>,
    otherFields: map<string, real>)

  /** What the request produced: the parsed array, or a failure (a non-ok status, a
      transport error or a body that does not parse). */
  datatype FetchResult = Fetched(items: seq<ApiCoin>) | FetchFailed

  predicate CopiesFields(coin: Coin, item: ApiCoin)
  {
    && coin.id == item.id && coin.name == item.name && coin.symbol == item.symbol
    && coin.currentPrice == item.currentPrice && coin.priceChange24h == item.priceChange24h
    && coin.marketCap == item.marketCap && coin.marketCapRank == item.marketCapRank
    && coin.totalVolume == item.totalVolume && coin.image == item.image
    && coin.sparkline == item.sparkline
  }

  /** `data.map(coin => ({ id: coin.id, ..., sparkline_in_7d: coin.sparkline_in_7d }))`. */
  function FormatCoins(items: seq<ApiCoin>): (coins: seq<Coin>)
    ensures |coins| == |items|
    ensures forall i :: 0 <= i < |items| ==> CopiesFields(coins[i], items[i])
  {
    seq(|items|, i requires 0 <= i < |items| =>
      var item := items[i];
      Coin(item.id, item.name, item.symbol, item.currentPrice, item.priceChange24h,
           item.marketCap, item.marketCapRank, item.totalVolume, item.image, item.sparkline))
  }

  // ---------------------------------------------------------------------------
  // Tick

  /** The per-symbol volatility tier. The comparison is case-sensitive. */
  function Volatility(symbol: string): (v: real)
    ensures 0.0 < v <= 0.005
  {
    if symbol == "BTC" then 0.001 else if symbol == "ETH" then 0.002 else 0.005
  }

  /** Only the upper-case tickers get the calmer tiers: a lower-case "btc" (the spelling a
      live response uses) moves like any other coin. */
  lemma VolatilityTiers()
    ensures Volatility("BTC") < Volatility("ETH") < Volatility("SOL")
    ensures Volatility("btc") == Volatility("eth") == Volatility("SOL")
    ensures Volatility("BTC") == 0.001 && Volatility("ETH") == 0.002
    ensures forall symbol :: symbol != "BTC" && symbol != "ETH" ==> Volatility(symbol) == 0.005
  {
  }

  /** The sparkline update: copy the window, `shift()` the oldest sample (a no-op on an
      empty copy) and `push` the new price. */
  function Slide(window: seq<real>, price: real): (slid: seq<real>)
    ensures |slid| == if |window| > 0 then |window| else 1
    ensures slid[|slid| - 1] == price
    ensures forall i :: 0 <= i < |window| - 1 ==> slid[i] == window[i + 1]
  {
    var copy := window;
    var shifted := if |copy| > 0 then copy[1..] else copy;
    shifted + [price]
  }

  /** The listing fields a tick leaves alone. */
  predicate SameListing(a: Coin, b: Coin)
  {
    && a.id == b.id && a.name == b.name && a.symbol == b.symbol
    && a.marketCap == b.marketCap && a.marketCapRank == b.marketCapRank
    && a.totalVolume == b.totalVolume && a.image == b.image
  }

  /** One coin of the tick: a bounded random step of the price, a damped nudge of the 24h
      change by a tenth of the step's percentage, and the window slid to the new price. */
  function TickCoin(coin: Coin, r: real): (ticked: Coin)
    requires IsDraw(r)
    ensures SameListing(ticked, coin)
    ensures ticked.currentPrice == Step(coin.currentPrice, Volatility(coin.symbol), r)
    ensures Abs(ticked.currentPrice - coin.currentPrice) <= Volatility(coin.symbol) / 2.0 * Abs(coin.currentPrice)
    ensures coin.currentPrice > 0.0 ==> ticked.currentPrice > 0.0
    ensures coin.currentPrice != 0.0 ==>
      ticked.priceChange24h - coin.priceChange24h
        == ((ticked.currentPrice - coin.currentPrice) / coin.currentPrice) * 100.0 * 0.1
    ensures coin.currentPrice != 0.0 ==>
      ticked.priceChange24h - coin.priceChange24h == (r - 0.5) * Volatility(coin.symbol) * 10.0
    ensures coin.currentPrice == 0.0 ==> ticked.priceChange24h == coin.priceChange24h
    ensures -0.025 <= ticked.priceChange24h - coin.priceChange24h <= 0.025
    ensures ticked.sparkline.Some? && ticked.sparkline.value == Slide(Window(coin), ticked.currentPrice)
  {
    var volatility := Volatility(coin.symbol);
    var newPrice := Step(coin.currentPrice, volatility, r);
    StepBound(coin.currentPrice, volatility, r);
    StepKeepsSign(coin.currentPrice, volatility, r);
    var percentChange :=
      if coin.currentPrice == 0.0 then 0.0
      else ((newPrice - coin.currentPrice) / coin.currentPrice) * 100.0;
    NudgeIsDamped(coin.currentPrice, volatility, r);
    coin.(currentPrice := newPrice,
          priceChange24h := coin.priceChange24h + percentChange * 0.1,
          sparkline := Some(Slide(Window(coin), newPrice)))
  }

  /** A tenth of the step's percentage is `(r - 0.5) * volatility * 10`, at most 0.025 either way. */
  lemma NudgeIsDamped(price: real, volatility: real, r: real)
    requires 0.0 < volatility <= 0.005 && IsDraw(r)
    ensures price != 0.0 ==> ((Step(price, volatility, r) - price) / price) * 100.0 * 0.1 == (r - 0.5) * volatility * 10.0
    ensures -0.025 <= (r - 0.5) * volatility * 10.0 <= 0.025
  {
    var d := (r - 0.5) * volatility;
    assert Step(price, volatility, r) - price == d * price;
    if price != 0.0 {
      assert (d * price) / price == d;
    }
    assert (0.5 - (r - 0.5)) * volatility >= 0.0;
    assert ((r - 0.5) + 0.5) * volatility >= 0.0;
  }

  /** `prevData.map(coin => ...)`: every coin ticked with its own draw. */
  function TickCoins(coins: seq<Coin>, draws: seq<real>): (ticked: seq<Coin>)
    requires |draws| == |coins| && AllDraws(draws)
    ensures |ticked| == |coins|
    ensures forall i :: 0 <= i < |coins| ==> ticked[i] == TickCoin(coins[i], draws[i])
  {
    seq(|coins|, i requires 0 <= i < |coins| => TickCoin(coins[i], draws[i]))
  }

  /** A tick keeps the list's length and order, and leaves every coin's latest sample equal to its price. */
  lemma TickKeepsOrder(coins: seq<Coin>, draws: seq<real>)
    requires |draws| == |coins| && AllDraws(draws)
    ensures |TickCoins(coins, draws)| == |coins|
    ensures forall i :: 0 <= i < |coins| ==>
      && SameListing(TickCoins(coins, draws)[i], coins[i])
      && var s := TickCoins(coins, draws)[i].sparkline;
         s.Some? && |s.value| > 0 && s.value[|s.value| - 1] == TickCoins(coins, draws)[i].currentPrice
  {
  }

  /** A tick keeps the seed catalog's shape: prices stay positive and every sparkline keeps its 24 positive samples. */
  lemma TickPreservesShape(coins: seq<Coin>, draws: seq<real>)
    requires |draws| == |coins| && AllDraws(draws)
    requires SimulatedShape(coins)
    ensures SimulatedShape(TickCoins(coins, draws))
  {
    var ticked := TickCoins(coins, draws);
    forall k | 0 <= k < |coins|
      ensures ticked[k].currentPrice > 0.0 && ticked[k].sparkline.Some?
      ensures |ticked[k].sparkline.value| == SparklinePoints
      ensures forall j :: 0 <= j < SparklinePoints ==> ticked[k].sparkline.value[j] > 0.0
    {
      var w := Window(coins[k]);
      var s := ticked[k].sparkline.value;
      assert s == Slide(w, ticked[k].currentPrice);
      forall j | 0 <= j < SparklinePoints
        ensures s[j] > 0.0
      {
        if j < SparklinePoints - 1 {
          assert s[j] == w[j + 1];
        }
      }
    }
  }

  /** The seed bitcoin's first tick lands within 0.05% of 67542.30. */
  lemma SeedBitcoinTickBound(draws: seq<real>, r: real)
    requires |draws| == SeedDrawCount && IsDraw(r)
    ensures var ticked := TickCoin(SeedCatalog(draws)[0], r);
      67542.30 * (1.0 - 0.0005) <= ticked.currentPrice <= 67542.30 * (1.0 + 0.0005)
  {
    var coin := SeedCatalog(draws)[0];
    assert coin.symbol == "BTC" && coin.currentPrice == 67542.30;
  }

  /** The market figures of a tick: three independent bounded perturbations. */
  function TickMarket(market: MarketData, capDraw: real, volumeDraw: real, changeDraw: real): (next: MarketData)
    requires IsDraw(capDraw) && IsDraw(volumeDraw) && IsDraw(changeDraw)
    ensures next.totalMarketCap == market.totalMarketCap + (capDraw - 0.5) * 10000000000.0
    ensures next.totalVolume24h == market.totalVolume24h + (volumeDraw - 0.5) * 1000000000.0
    ensures next.marketCapChange24h == market.marketCapChange24h + (changeDraw - 0.5) * 0.1
    ensures -5000000000.0 <= next.totalMarketCap - market.totalMarketCap < 5000000000.0
    ensures -500000000.0 <= next.totalVolume24h - market.totalVolume24h < 500000000.0
    ensures -0.05 <= next.marketCapChange24h - market.marketCapChange24h < 0.05
    ensures next.activeCryptocurrencies == market.activeCryptocurrencies
  {
    market.(
      totalMarketCap := market.totalMarketCap + (capDraw - 0.5) * 10000000000.0,
      totalVolume24h := market.totalVolume24h + (volumeDraw - 0.5) * 1000000000.0,
      marketCapChange24h := market.marketCapChange24h + (changeDraw - 0.5) * 0.1)
  }

  // ---------------------------------------------------------------------------
  // The store

  /** The hook's state: `cryptoData`, `marketData`, `loading` and `useRealData`. */
  class CryptoStore {
    var cryptoData: seq<Coin>
    var marketData: MarketData
    var loading: bool
    var useRealData: bool

    /** The initial state: no coins, the seed market figures, loading. */
    constructor ()
      ensures cryptoData == [] && marketData == InitialMarketData
      ensures loading && useRealData
    {
      cryptoData := [];
      marketData := InitialMarketData;
      loading := true;
      useRealData := true;
    }

    /** `loadSimulatedData`: the seed catalog, each sparkline generated from its own 24 draws. */
    method LoadSimulatedData(draws: seq<real>)
      requires |draws| == SeedDrawCount
      modifies this
      ensures cryptoData == SeedCatalog(draws)
      ensures !loading
      ensures marketData == old(marketData) && useRealData == old(useRealData)
    {
      var s0 := GenerateSparkline(SeedListings[0].currentPrice, SeedSparklineVolatility[0], SeedDraws(draws, 0));
      var s1 := GenerateSparkline(SeedListings[1].currentPrice, SeedSparklineVolatility[1], SeedDraws(draws, 1));
      var s2 := GenerateSparkline(SeedListings[2].currentPrice, SeedSparklineVolatility[2], SeedDraws(draws, 2));
      var s3 := GenerateSparkline(SeedListings[3].currentPrice, SeedSparklineVolatility[3], SeedDraws(draws, 3));
      var s4 := GenerateSparkline(SeedListings[4].currentPrice, SeedSparklineVolatility[4], SeedDraws(draws, 4));
      var s5 := GenerateSparkline(SeedListings[5].currentPrice, SeedSparklineVolatility[5], SeedDraws(draws, 5));
      var s6 := GenerateSparkline(SeedListings[6].currentPrice, SeedSparklineVolatility[6], SeedDraws(draws, 6));
      var s7 := GenerateSparkline(SeedListings[7].currentPrice, SeedSparklineVolatility[7], SeedDraws(draws, 7));
      var sparklines := [s0, s1, s2, s3, s4, s5, s6, s7];
      assert sparklines == seq(8, k requires 0 <= k < 8 =>
        Walk(SeedListings[k].currentPrice, SeedSparklineVolatility[k], SeedDraws(draws, k)));
      cryptoData := WithSparklines(sparklines);
      loading := false;
    }

    /** `fetchRealCryptoData`: the mapped response on success; otherwise the seed catalog,
        built from `draws`. Either way loading ends. */
    method FetchRealCryptoData(response: FetchResult, draws: seq<real>)
      requires |draws| == SeedDrawCount
      modifies this
      ensures response.Fetched? ==> cryptoData == FormatCoins(response.items) && useRealData
      ensures response.FetchFailed? ==> cryptoData == SeedCatalog(draws) && !useRealData
      ensures !loading
      ensures marketData == old(marketData)
    {
      match response {
        case Fetched(items) =>
          cryptoData := FormatCoins(items);
          useRealData := true;
          loading := false;
        case FetchFailed =>
          useRealData := false;
          LoadSimulatedData(draws);
      }
    }

    /** One firing of the 3-second interval: every coin ticked with its own draw, then the
        market figures perturbed by three more draws. */
    method Tick(coinDraws: seq<real>, capDraw: real, volumeDraw: real, changeDraw: real)
      requires |coinDraws| == |cryptoData| && AllDraws(coinDraws)
      requires IsDraw(capDraw) && IsDraw(volumeDraw) && IsDraw(changeDraw)
      modifies this
      ensures cryptoData == TickCoins(old(cryptoData), coinDraws)
      ensures marketData == TickMarket(old(marketData), capDraw, volumeDraw, changeDraw)
      ensures loading == old(loading) && useRealData == old(useRealData)
    {
      cryptoData := TickCoins(cryptoData, coinDraws);
      marketData := TickMarket(marketData, capDraw, volumeDraw, changeDraw);
    }
  }

  /** A failed fetch followed by any number of ticks leaves eight coins, in seed order, each
      with a positive price and 24 positive samples: the store's invariant on the simulated path. */
  method SimulatedSession(response: FetchResult, draws: seq<real>, tickDraws: seq<seq<real>>) returns (store: CryptoStore)
    requires response.FetchFailed?
    requires |draws| == SeedDrawCount && AllDraws(draws)
    requires forall t :: 0 <= t < |tickDraws| ==> |tickDraws[t]| == 8 + 3 && AllDraws(tickDraws[t])
    ensures |store.cryptoData| == 8 && SimulatedShape(store.cryptoData)
    ensures forall k :: 0 <= k < 8 ==> store.cryptoData[k].id == SeedListings[k].id
    ensures !store.loading
  {
    store := new CryptoStore();
    store.FetchRealCryptoData(response, draws);
    SeedCatalogShape(draws);
    var t := 0;
    while t < |tickDraws|
      invariant 0 <= t <= |tickDraws|
      invariant |store.cryptoData| == 8 && SimulatedShape(store.cryptoData)
      invariant forall k :: 0 <= k < 8 ==> store.cryptoData[k].id == SeedListings[k].id
      invariant !store.loading
    {
      var d := tickDraws[t];
      TickPreservesShape(store.cryptoData, d[..8]);
      store.Tick(d[..8], d[8], d[9], d[10]);
      t := t + 1;
    }
  }
}
