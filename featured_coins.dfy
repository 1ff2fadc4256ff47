/** The featured-coins cards: the first three coins of the store, each with its price, 24h
    change badge and a chart of its sparkline. */
module FeaturedCoins {
  import opened Collections
  import opened Display
  import opened CryptoData

  /** A card's data: `{ name, symbol, price, change24h, logo, chartData }`. */
  datatype FeaturedCoin = FeaturedCoin(
    name: string,
    symbol: string,
    price: real,
    change24h: real,
    logo: string,
    chartData: seq<ChartPoint>)

  function FeaturedOf(coin: Coin): FeaturedCoin
  {
    FeaturedCoin(coin.name, coin.symbol, coin.currentPrice, coin.priceChange24h, coin.image, ChartPoints(Window(coin)))
  }

  /** `cryptoData.slice(0, 3).map(...)`: the first three coins (fewer if the list is
      shorter), in order, each copying its listing fields and charting its sparkline. */
  function Featured(cryptoData: seq<Coin>): (featured: seq<FeaturedCoin>)
    ensures |featured| == Min(3, |cryptoData|)
    ensures forall i :: 0 <= i < |featured| ==>
      && featured[i].name == cryptoData[i].name
      && featured[i].symbol == cryptoData[i].symbol
      && featured[i].price == cryptoData[i].currentPrice
      && featured[i].change24h == cryptoData[i].priceChange24h
      && featured[i].logo == cryptoData[i].image
      && |featured[i].chartData| == |Window(cryptoData[i])|
      && (forall j :: 0 <= j < |Window(cryptoData[i])| ==>
            featured[i].chartData[j] == ChartPoint(TimeLabel(j), Window(cryptoData[i])[j]))
      && (cryptoData[i].sparkline.None? ==> featured[i].chartData == [])
  {
    var top := cryptoData[..Min(3, |cryptoData|)];
    seq(|top|, i requires 0 <= i < |top| => FeaturedOf(top[i]))
  }

  /** The card's badge: '+' and price-up exactly when the change is not negative. */
  lemma FeaturedBadge(card: FeaturedCoin)
    ensures SignPrefix(card.change24h) == "+" <==> card.change24h >= 0.0
    ensures TrendOf(card.change24h) == PriceUp <==> card.change24h >= 0.0
  {
    BadgeAgrees(card.change24h);
  }

  /** After a tick, each card's chart ends at the card's (new) price. */
  lemma FeaturedChartEndsAtPrice(coins: seq<Coin>, draws: seq<real>)
    requires |draws| == |coins| && AllDraws(draws)
    ensures forall i :: 0 <= i < |Featured(TickCoins(coins, draws))| ==>
      var card := Featured(TickCoins(coins, draws))[i];
      |card.chartData| >= 1 && card.chartData[|card.chartData| - 1].price == card.price
  {
    var ticked := TickCoins(coins, draws);
    TickKeepsOrder(coins, draws);
    forall i | 0 <= i < |Featured(ticked)|
      ensures var card := Featured(ticked)[i];
        |card.chartData| >= 1 && card.chartData[|card.chartData| - 1].price == card.price
    {
      assert ticked[i] == TickCoin(coins[i], draws[i]);
    }
  }
}
