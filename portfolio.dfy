/** The Portfolio page: five fixed holdings valued against the store's coin list. Each
    holding is priced by the first coin with its id; the overview sums value and cost with
    `reduce`, and the holdings list shows one row per holding that found its coin. */
module Portfolio {
  import opened Collections
  import opened CryptoData

  /** One holding: `{ id, amount, purchasePrice }`. */
  datatype Holding = Holding(id: string, amount: real, purchasePrice: real)

  const Holdings: seq<Holding> := [
    Holding("bitcoin", 0.5, 45000.0),
    Holding("ethereum", 2.5, 2800.0),
    Holding("solana", 10.0, 180.0),
    Holding("cardano", 500.0, 0.85),
    Holding("polkadot", 25.0, 12.5)
  ]

  /** `cryptoData.find(c => c.id === id)`. */
  function FindCoin(cryptoData: seq<Coin>, id: string): Option<Coin>
  {
    Find(cryptoData, (c: Coin) => c.id == id)
  }

  /** A holding's contribution to the portfolio value: `current_price * amount` of its
      coin, or 0 when no coin has its id. */
  function HoldingValue(holding: Holding, cryptoData: seq<Coin>): real
  {
    match FindCoin(cryptoData, holding.id)
    case Some(coin) => coin.currentPrice * holding.amount
    case None => 0.0
  }

  /** The `reduce` behind `portfolioValue`: a left fold from the running total. */
  function ValueFold(total: real, holdings: seq<Holding>, cryptoData: seq<Coin>): real
    decreases |holdings|
  {
    if holdings == [] then total
    else ValueFold(total + HoldingValue(holdings[0], cryptoData), holdings[1..], cryptoData)
  }

  /** The `reduce` behind `totalCost`: `purchasePrice * amount` folded from the running total. */
  function CostFold(total: real, holdings: seq<Holding>): real
    decreases |holdings|
  {
    if holdings == [] then total
    else CostFold(total + Cost(holdings[0]), holdings[1..])
  }

  function PortfolioValue(cryptoData: seq<Coin>): real
  {
    ValueFold(0.0, Holdings, cryptoData)
  }

  function TotalCost(): real
  {
    CostFold(0.0, Holdings)
  }

  function TotalGainLoss(cryptoData: seq<Coin>): real
  {
    PortfolioValue(cryptoData) - TotalCost()
  }

  function Cost(holding: Holding): real
  {
    holding.purchasePrice * holding.amount
  }

  /** Reference definitions: the per-holding values and costs, listed one by one. */
  function HoldingValues(holdings: seq<Holding>, cryptoData: seq<Coin>): (values: seq<real>)
    ensures |values| == |holdings|
    decreases |holdings|
  {
    if holdings == [] then [] else [HoldingValue(holdings[0], cryptoData)] + HoldingValues(holdings[1..], cryptoData)
  }

  function Costs(holdings: seq<Holding>): (costs: seq<real>)
    ensures |costs| == |holdings|
    decreases |holdings|
  {
    if holdings == [] then [] else [Cost(holdings[0])] + Costs(holdings[1..])
  }

  /** The value fold adds each holding's value to the running total, no more and no less. */
  lemma {:induction false} ValueFoldIsSum(total: real, holdings: seq<Holding>, cryptoData: seq<Coin>)
    ensures ValueFold(total, holdings, cryptoData) == total + Sum(HoldingValues(holdings, cryptoData))
    decreases |holdings|
  {
    if holdings != [] {
      ValueFoldIsSum(total + HoldingValue(holdings[0], cryptoData), holdings[1..], cryptoData);
    }
  }

  lemma {:induction false} CostFoldIsSum(total: real, holdings: seq<Holding>)
    ensures CostFold(total, holdings) == total + Sum(Costs(holdings))
    decreases |holdings|
  {
    if holdings != [] {
      CostFoldIsSum(total + Cost(holdings[0]), holdings[1..]);
    }
  }

  /** `portfolioValue` is the sum over the holdings of their values, a holding without a coin
      adding nothing; with no coin listed at all it is 0. */
  lemma PortfolioValueIsSum(cryptoData: seq<Coin>)
    ensures PortfolioValue(cryptoData) == Sum(HoldingValues(Holdings, cryptoData))
    ensures cryptoData == [] ==> PortfolioValue(cryptoData) == 0.0
  {
    ValueFoldIsSum(0.0, Holdings, cryptoData);
    if cryptoData == [] {
      var values := HoldingValues(Holdings, cryptoData);
      assert values == [0.0, 0.0, 0.0, 0.0, 0.0];
    }
  }

  /** `totalCost` sums all five cost bases, listed or not: 32037.5, so the percentage's
      divisor is never zero. */
  lemma TotalCostValue()
    ensures TotalCost() == Sum(Costs(Holdings))
    ensures TotalCost() == 32037.5
    ensures TotalCost() > 0.0
  {
    CostFoldIsSum(0.0, Holdings);
    assert Costs(Holdings) == [22500.0, 7000.0, 1800.0, 425.0, 312.5];
  }

  /** The Holdings card shows `portfolio.length`. */
  lemma HoldingsCount()
    ensures |Holdings| == 5
  {
  }

  /** One entry of the holdings list. */
  datatype HoldingRow = HoldingRow(
    id: string,
    name: string,
    amount: real,
    currentValue: real,
    costBasis: real,
    gainLoss: real)

  function RowFor(holding: Holding, coin: Coin): HoldingRow
  {
    var currentValue := coin.currentPrice * holding.amount;
    var costBasis := holding.purchasePrice * holding.amount;
    HoldingRow(holding.id, coin.name, holding.amount, currentValue, costBasis, currentValue - costBasis)
  }

  /** `portfolio.map(...)` with `return null` for a holding whose coin is missing: the rows,
      in holding order, of the holdings that found their coin. */
  function Rows(holdings: seq<Holding>, cryptoData: seq<Coin>): (rows: seq<HoldingRow>)
    ensures |rows| <= |holdings|
    decreases |holdings|
  {
    if holdings == [] then []
    else
      var rest := Rows(holdings[1..], cryptoData);
      match FindCoin(cryptoData, holdings[0].id)
      case Some(coin) => [RowFor(holdings[0], coin)] + rest
      case None => rest
  }

  /** A holding whose id some coin carries. */
  predicate Listed(cryptoData: seq<Coin>, holding: Holding)
  {
    FindCoin(cryptoData, holding.id).Some?
  }

  function RowIds(rows: seq<HoldingRow>): seq<string>
    decreases |rows|
  {
    if rows == [] then [] else [rows[0].id] + RowIds(rows[1..])
  }

  function HoldingIds(holdings: seq<Holding>): seq<string>
    decreases |holdings|
  {
    if holdings == [] then [] else [holdings[0].id] + HoldingIds(holdings[1..])
  }

  /** The rows are those of the listed holdings, in holding order: one per listed holding,
      each carrying that holding's id, value, cost basis and their difference. */
  lemma RowsOfListedHoldings(holdings: seq<Holding>, cryptoData: seq<Coin>)
    ensures RowIds(Rows(holdings, cryptoData)) == HoldingIds(Filter(holdings, h => Listed(cryptoData, h)))
    ensures forall r :: r in Rows(holdings, cryptoData) ==> r.gainLoss == r.currentValue - r.costBasis
    ensures (forall i :: 0 <= i < |holdings| ==> Listed(cryptoData, holdings[i])) ==> |Rows(holdings, cryptoData)| == |holdings|
  {
    RowIdsOfListed(holdings, cryptoData);
    RowsShape(holdings, cryptoData);
  }

  lemma {:induction false} RowIdsOfListed(holdings: seq<Holding>, cryptoData: seq<Coin>)
    ensures RowIds(Rows(holdings, cryptoData)) == HoldingIds(Filter(holdings, h => Listed(cryptoData, h)))
    decreases |holdings|
  {
    if holdings != [] {
      RowIdsOfListed(holdings[1..], cryptoData);
      var rest := Rows(holdings[1..], cryptoData);
      match FindCoin(cryptoData, holdings[0].id)
      case Some(coin) =>
        var row := RowFor(holdings[0], coin);
        assert ([row] + rest)[1..] == rest;
      case None =>
    }
  }

  lemma {:induction false} RowsShape(holdings: seq<Holding>, cryptoData: seq<Coin>)
    ensures forall r :: r in Rows(holdings, cryptoData) ==> r.gainLoss == r.currentValue - r.costBasis
    ensures (forall i :: 0 <= i < |holdings| ==> Listed(cryptoData, holdings[i])) ==> |Rows(holdings, cryptoData)| == |holdings|
    decreases |holdings|
  {
    if holdings != [] {
      RowsShape(holdings[1..], cryptoData);
      if (forall i :: 0 <= i < |holdings| ==> Listed(cryptoData, holdings[i])) {
        assert forall i :: 0 <= i < |holdings[1..]| ==> holdings[1..][i] == holdings[i + 1];
      }
    }
  }

  function RowValues(rows: seq<HoldingRow>): (values: seq<real>)
    ensures |values| == |rows|
    decreases |rows|
  {
    if rows == [] then [] else [rows[0].currentValue] + RowValues(rows[1..])
  }

  function RowGains(rows: seq<HoldingRow>): (gains: seq<real>)
    ensures |gains| == |rows|
    decreases |rows|
  {
    if rows == [] then [] else [rows[0].gainLoss] + RowGains(rows[1..])
  }

  /** The rows' current values add up to what the value fold adds to its running total. */
  lemma {:induction false} RowValuesFold(total: real, holdings: seq<Holding>, cryptoData: seq<Coin>)
    ensures ValueFold(total, holdings, cryptoData) == total + Sum(RowValues(Rows(holdings, cryptoData)))
    decreases |holdings|
  {
    if holdings != [] {
      var rest := Rows(holdings[1..], cryptoData);
      RowValuesFold(total + HoldingValue(holdings[0], cryptoData), holdings[1..], cryptoData);
      match FindCoin(cryptoData, holdings[0].id)
      case Some(coin) =>
        var row := RowFor(holdings[0], coin);
        assert ([row] + rest)[1..] == rest;
      case None =>
    }
  }

  /** The listed rows' values sum to the overview's `portfolioValue`. */
  lemma RowsSumToPortfolioValue(cryptoData: seq<Coin>)
    ensures Sum(RowValues(Rows(Holdings, cryptoData))) == PortfolioValue(cryptoData)
  {
    RowValuesFold(0.0, Holdings, cryptoData);
  }

  /** With a coin for every holding, the rows' gains and losses sum to the value fold minus
      the cost fold. */
  lemma {:induction false} RowGainsFold(holdings: seq<Holding>, cryptoData: seq<Coin>)
    requires forall i :: 0 <= i < |holdings| ==> Listed(cryptoData, holdings[i])
    ensures Sum(RowGains(Rows(holdings, cryptoData))) == Sum(HoldingValues(holdings, cryptoData)) - Sum(Costs(holdings))
    decreases |holdings|
  {
    if holdings != [] {
      var rest := Rows(holdings[1..], cryptoData);
      assert forall i :: 0 <= i < |holdings[1..]| ==> holdings[1..][i] == holdings[i + 1];
      RowGainsFold(holdings[1..], cryptoData);
      assert Listed(cryptoData, holdings[0]);
      var coin := FindCoin(cryptoData, holdings[0].id).value;
      var row := RowFor(holdings[0], coin);
      assert Rows(holdings, cryptoData) == [row] + rest;
      assert ([row] + rest)[1..] == rest;
    }
  }

  /** When every holding is listed, the rows' gains sum to `totalGainLoss`. */
  lemma RowsSumToTotalGainLoss(cryptoData: seq<Coin>)
    requires forall i :: 0 <= i < |Holdings| ==> Listed(cryptoData, Holdings[i])
    ensures Sum(RowGains(Rows(Holdings, cryptoData))) == TotalGainLoss(cryptoData)
  {
    RowGainsFold(Holdings, cryptoData);
    ValueFoldIsSum(0.0, Holdings, cryptoData);
    CostFoldIsSum(0.0, Holdings);
  }
}
