/** The dashboard's price chart: the selected coin (bitcoin unless changed), falling back to
    the first listed coin; its sparkline as labelled points; and the first-to-last price change. */
module PriceChart {
  import opened Collections
  import opened Display
  import opened CryptoData

  /** `useState('bitcoin')`. */
  const InitialSelection: string := "bitcoin"

  /** `cryptoData.find(c => c.id === selectedCrypto) || cryptoData[0]`, `None` when the list is empty. */
  function ChartCoin(cryptoData: seq<Coin>, selectedCrypto: string): (crypto: Option<Coin>)
    ensures crypto.None? <==> cryptoData == []
    ensures (exists i :: 0 <= i < |cryptoData| && cryptoData[i].id == selectedCrypto) ==>
      exists i :: 0 <= i < |cryptoData| && cryptoData[i] == crypto.value && cryptoData[i].id == selectedCrypto
        && forall j :: 0 <= j < i ==> cryptoData[j].id != selectedCrypto
    ensures (forall i :: 0 <= i < |cryptoData| ==> cryptoData[i].id != selectedCrypto) && cryptoData != [] ==>
      crypto == Some(cryptoData[0])
  {
    match Find(cryptoData, (c: Coin) => c.id == selectedCrypto)
    case Some(coin) => Some(coin)
    case None => if |cryptoData| > 0 then Some(cryptoData[0]) else None
  }

  /** `crypto?.sparkline_in_7d?.price.map(...) || []`: empty without a coin or a sparkline. */
  function ChartData(crypto: Option<Coin>): (chart: seq<ChartPoint>)
    ensures crypto.None? ==> chart == []
    ensures crypto.Some? ==> |chart| == |Window(crypto.value)|
    ensures crypto.Some? ==> forall i :: 0 <= i < |chart| ==> chart[i] == ChartPoint(TimeLabel(i), Window(crypto.value)[i])
  {
    match crypto
    case Some(coin) => ChartPoints(Window(coin))
    case None => []
  }

  /** `chartData[chartData.length - 1]?.price || 0`. */
  function CurrentPrice(chart: seq<ChartPoint>): real
  {
    if |chart| > 0 then chart[|chart| - 1].price else 0.0
  }

  /** `chartData[0]?.price || 0`. */
  function PreviousPrice(chart: seq<ChartPoint>): real
  {
    if |chart| > 0 then chart[0].price else 0.0
  }

  function PriceChange(chart: seq<ChartPoint>): real
  {
    CurrentPrice(chart) - PreviousPrice(chart)
  }

  /** `crypto?.name || 'Bitcoin'`: an absent coin or an empty name shows "Bitcoin". */
  function Title(crypto: Option<Coin>): (title: string)
    ensures crypto.Some? && crypto.value.name != "" ==> title == crypto.value.name
    ensures crypto.None? || crypto.value.name == "" ==> title == "Bitcoin"
  {
    if crypto.Some? && crypto.value.name != "" then crypto.value.name else "Bitcoin"
  }

  /** The headline figures read the sparkline's ends: last and first sample, 0 for a missing one. */
  lemma HeadlinePrices(crypto: Option<Coin>)
    ensures crypto.Some? && |Window(crypto.value)| > 0 ==>
      && CurrentPrice(ChartData(crypto)) == Window(crypto.value)[|Window(crypto.value)| - 1]
      && PreviousPrice(ChartData(crypto)) == Window(crypto.value)[0]
    ensures crypto.None? || |Window(crypto.value)| == 0 ==>
      CurrentPrice(ChartData(crypto)) == 0.0 && PreviousPrice(ChartData(crypto)) == 0.0
  {
    match crypto
    case None =>
    case Some(coin) => ChartEnds(Window(coin));
  }

  lemma ChartEnds(prices: seq<real>)
    ensures |prices| > 0 ==>
      CurrentPrice(ChartPoints(prices)) == prices[|prices| - 1] && PreviousPrice(ChartPoints(prices)) == prices[0]
    ensures |prices| == 0 ==> CurrentPrice(ChartPoints(prices)) == 0.0 && PreviousPrice(ChartPoints(prices)) == 0.0
  {
    var chart := ChartPoints(prices);
    if |prices| > 0 {
      assert chart[0] == ChartPoint(TimeLabel(0), prices[0]);
      assert chart[|prices| - 1] == ChartPoint(TimeLabel(|prices| - 1), prices[|prices| - 1]);
    }
  }

  /** The change badge: '+' and price-up exactly when the last sample is not below the first. */
  lemma ChangeBadge(chart: seq<ChartPoint>)
    ensures SignPrefix(PriceChange(chart)) == "+" <==> CurrentPrice(chart) >= PreviousPrice(chart)
    ensures TrendOf(PriceChange(chart)) == PriceUp <==> CurrentPrice(chart) >= PreviousPrice(chart)
  {
    BadgeAgrees(PriceChange(chart));
  }

  /** Before any data arrives the chart is empty, titled "Bitcoin", and reads 0 with no change. */
  lemma EmptyStoreChart(selectedCrypto: string)
    ensures ChartCoin([], selectedCrypto) == None
    ensures ChartData(ChartCoin([], selectedCrypto)) == []
    ensures Title(ChartCoin([], selectedCrypto)) == "Bitcoin"
    ensures PriceChange(ChartData(ChartCoin([], selectedCrypto))) == 0.0
  {
  }

  /** After a tick, the chart's headline price is the charted coin's new price. */
  lemma ChartFollowsTick(coins: seq<Coin>, draws: seq<real>, selectedCrypto: string)
    requires |draws| == |coins| && AllDraws(draws) && coins != []
    ensures var crypto := ChartCoin(TickCoins(coins, draws), selectedCrypto);
      crypto.Some? && CurrentPrice(ChartData(crypto)) == crypto.value.currentPrice
  {
    var ticked := TickCoins(coins, draws);
    TickKeepsOrder(coins, draws);
    var crypto := ChartCoin(ticked, selectedCrypto);
    if exists i :: 0 <= i < |ticked| && ticked[i].id == selectedCrypto {
      var i :| 0 <= i < |ticked| && ticked[i] == crypto.value && ticked[i].id == selectedCrypto;
      assert ticked[i] == TickCoin(coins[i], draws[i]);
    } else {
      assert ticked[0] == TickCoin(coins[0], draws[0]);
    }
  }

  /** On the seed catalog the initial selection charts bitcoin's 24 samples. */
  lemma SeedChartIsBitcoin(draws: seq<real>)
    requires |draws| == SeedDrawCount
    ensures ChartCoin(SeedCatalog(draws), InitialSelection) == Some(SeedCatalog(draws)[0])
    ensures Title(ChartCoin(SeedCatalog(draws), InitialSelection)) == "Bitcoin"
    ensures |ChartData(ChartCoin(SeedCatalog(draws), InitialSelection))| == SparklinePoints
  {
    var catalog := SeedCatalog(draws);
    assert catalog[0].id == InitialSelection && catalog[0].name == "Bitcoin";
  }
}
