/** Display logic shared by several components: the 24h badge (colour class and sign
    prefix) and the mapping of a sparkline onto labelled chart points. */
module Display {
  import opened Text

  /** The badge colour class: "price-up" or "price-down". */
  datatype Trend = PriceUp | PriceDown

  /** `x >= 0 ? "price-up" : "price-down"`. */
  function TrendOf(x: real): Trend
  {
    if x >= 0.0 then PriceUp else PriceDown
  }

  /** `x >= 0 ? '+' : ''`, written before the formatted figure. */
  function SignPrefix(x: real): string
  {
    if x >= 0.0 then "+" else ""
  }

  /** The '+' prefix and the price-up class go together, and exactly for non-negative figures. */
  lemma BadgeAgrees(x: real)
    ensures SignPrefix(x) == "+" <==> TrendOf(x) == PriceUp
    ensures TrendOf(x) == PriceUp <==> x >= 0.0
    ensures SignPrefix(x) == "" <==> x < 0.0
  {
  }

  /** One point of a price chart: `{ time, price }`. */
  datatype ChartPoint = ChartPoint(time: string, price: real)

  /** The label of the `index`-th sample: `${index * 4}:00`. */
  function TimeLabel(index: nat): (time: string)
    ensures |time| >= 4 && time[|time| - 3..] == ":00"
    ensures IsDigits(time[..|time| - 3]) && ParseNat(time[..|time| - 3]) == index * 4
  {
    var digits := NatToString(index * 4);
    ParseNatToString(index * 4);
    assert (digits + ":00")[..|digits|] == digits;
    digits + ":00"
  }

  /** `prices.map((price, index) => ({ time: `${index * 4}:00`, price }))`. */
  function ChartPoints(prices: seq<real>): (points: seq<ChartPoint>)
    ensures |points| == |prices|
    ensures forall i :: 0 <= i < |prices| ==> points[i] == ChartPoint(TimeLabel(i), prices[i])
  {
    seq(|prices|, i requires 0 <= i < |prices| => ChartPoint(TimeLabel(i), prices[i]))
  }

  /** No two points of a chart share a time label. */
  lemma ChartLabelsDistinct(prices: seq<real>, i: nat, j: nat)
    requires i < j < |prices|
    ensures ChartPoints(prices)[i].time != ChartPoints(prices)[j].time
  {
  }
}
