/** The coin table component: a spinner while the store is loading, otherwise one row per
    coin with its 24h badge, abbreviated market cap and volume, sparkline and a star that
    toggles the table's own watchlist. */
module PriceTable {
  import opened Collections
  import opened Text
  import opened Display
  import opened CryptoData

  /** The abbreviation `formatNumber` picks. */
  datatype Magnitude = Trillions | Billions | Millions | Thousands | Units

  function MagnitudeOf(num: real): (m: Magnitude)
    ensures m == Trillions <==> num >= 1e12
    ensures m == Billions <==> 1e9 <= num < 1e12
    ensures m == Millions <==> 1e6 <= num < 1e9
    ensures m == Thousands <==> 1e3 <= num < 1e6
    ensures m == Units <==> num < 1e3
  {
    if num >= 1e12 then Trillions
    else if num >= 1e9 then Billions
    else if num >= 1e6 then Millions
    else if num >= 1e3 then Thousands
    else Units
  }

  function Divisor(m: Magnitude): real
  {
    match m
    case Trillions => 1e12
    case Billions => 1e9
    case Millions => 1e6
    case Thousands => 1e3
    case Units => 1.0
  }

  function Suffix(m: Magnitude): string
  {
    match m
    case Trillions => "T"
    case Billions => "B"
    case Millions => "M"
    case Thousands => "K"
    case Units => ""
  }

  /** `formatNumber(num)`: "$", the number scaled to its magnitude and rendered by
      `toFixed(2)` (the parameter `fixed2`), then the magnitude's suffix. */
  function FormatNumber(num: real, fixed2: real -> string): (text: string)
    ensures |text| >= 1 && text[0] == '$'
  {
    var m := MagnitudeOf(num);
    "$" + fixed2(num / Divisor(m)) + Suffix(m)
  }

  /** From a thousand up to below a thousand trillion, the figure before the suffix lies in [1, 1000). */
  lemma ScaledFigureInRange(num: real)
    requires 1e3 <= num < 1e15
    ensures 1.0 <= num / Divisor(MagnitudeOf(num)) < 1000.0
  {
  }

  /** Below a thousand, negatives included, the number is shown unscaled and without a suffix. */
  lemma SmallFiguresUnscaled(num: real, fixed2: real -> string)
    requires num < 1e3
    ensures FormatNumber(num, fixed2) == "$" + fixed2(num)
  {
  }

  /** From a thousand up, the figure is scaled to its magnitude and carries that magnitude's letter. */
  lemma LargeFiguresScaled(num: real, fixed2: real -> string)
    ensures num >= 1e12 ==> FormatNumber(num, fixed2) == "$" + fixed2(num / 1e12) + "T"
    ensures 1e9 <= num < 1e12 ==> FormatNumber(num, fixed2) == "$" + fixed2(num / 1e9) + "B"
    ensures 1e6 <= num < 1e9 ==> FormatNumber(num, fixed2) == "$" + fixed2(num / 1e6) + "M"
    ensures 1e3 <= num < 1e6 ==> FormatNumber(num, fixed2) == "$" + fixed2(num / 1e3) + "K"
  {
  }

  /** One rendered row. */
  datatype Row = Row(
    rank: int,
    image: string,
    name: string,
    symbolText: string,
    price: real,
    trend: Trend,
    changePrefix: string,
    change: real,
    marketCapText: string,
    volumeText: string,
    sparkline: seq<real>,
    starred: bool)

  /** What the component renders: the spinner alone, or the table's rows. */
  datatype TableView = Spinner | Table(rows: seq<Row>)

  function RowOf(coin: Coin, watchlist: set<string>, fixed2: real -> string): Row
  {
    Row(coin.marketCapRank, coin.image, coin.name, Upper(coin.symbol), coin.currentPrice,
        TrendOf(coin.priceChange24h), SignPrefix(coin.priceChange24h), coin.priceChange24h,
        FormatNumber(coin.marketCap, fixed2), FormatNumber(coin.totalVolume, fixed2),
        Window(coin), coin.id in watchlist)
  }

  /** The component's output for a store state and a watchlist. */
  function Render(loading: bool, cryptoData: seq<Coin>, watchlist: set<string>, fixed2: real -> string): (view: TableView)
    ensures view.Spinner? <==> loading
    ensures view.Table? ==> |view.rows| == |cryptoData|
    ensures view.Table? ==> forall i :: 0 <= i < |cryptoData| ==>
      && view.rows[i].rank == cryptoData[i].marketCapRank
      && (view.rows[i].starred <==> cryptoData[i].id in watchlist)
      && (view.rows[i].trend == PriceUp <==> cryptoData[i].priceChange24h >= 0.0)
      && (view.rows[i].changePrefix == "+" <==> cryptoData[i].priceChange24h >= 0.0)
      && (cryptoData[i].sparkline.None? ==> view.rows[i].sparkline == [])
      && "$" <= view.rows[i].marketCapText && "$" <= view.rows[i].volumeText
  {
    if loading then Spinner
    else Table(seq(|cryptoData|, i requires 0 <= i < |cryptoData| => RowOf(cryptoData[i], watchlist, fixed2)))
  }

  /** The table component's state: its own watchlist, initially empty. */
  class PriceTableState {
    var watchlist: set<string>

    constructor ()
      ensures watchlist == {}
    {
      watchlist := {};
    }

    /** `toggleWatchlist`: copy the set, delete the id if present or add it if absent, store the copy. */
    method ToggleWatchlist(id: string)
      modifies this
      ensures watchlist == Toggled(old(watchlist), id)
    {
      var newWatchlist := watchlist;
      if id in newWatchlist {
        newWatchlist := newWatchlist - {id};
      } else {
        newWatchlist := newWatchlist + {id};
      }
      watchlist := newWatchlist;
    }
  }

  /** Starring a row and starring it again leaves the table as it was; meanwhile only that coin's star changed. */
  lemma StarTwiceRestores(cryptoData: seq<Coin>, watchlist: set<string>, id: string, fixed2: real -> string)
    ensures Render(false, cryptoData, Toggled(Toggled(watchlist, id), id), fixed2) == Render(false, cryptoData, watchlist, fixed2)
    ensures forall i :: 0 <= i < |cryptoData| && cryptoData[i].id != id ==>
      Render(false, cryptoData, Toggled(watchlist, id), fixed2).rows[i] == Render(false, cryptoData, watchlist, fixed2).rows[i]
  {
    ToggleTwice(watchlist, id);
  }
}
