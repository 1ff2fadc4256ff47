/** The Market page: a case-insensitive search over names and tickers, and the top three
    gainers and losers of the last 24 hours, each taken from a sorted copy of the list. */
module Market {
  import opened Collections
  import opened Text
  import opened CryptoData

  /** The page's search: the lower-cased name or ticker includes the lower-cased term. */
  predicate MatchesSearch(coin: Coin, searchTerm: string)
  {
    Contains(Lower(coin.name), Lower(searchTerm)) || Contains(Lower(coin.symbol), Lower(searchTerm))
  }

  /** `filteredCryptos`: the coins matching the search, in list order; all of them for an empty term. */
  function FilteredCryptos(cryptoData: seq<Coin>, searchTerm: string): (shown: seq<Coin>)
    ensures forall c :: c in shown <==> c in cryptoData && MatchesSearch(c, searchTerm)
    ensures forall c :: multiset(shown)[c] == if MatchesSearch(c, searchTerm) then multiset(cryptoData)[c] else 0
    ensures SubsequenceOf(shown, cryptoData)
    ensures searchTerm == "" ==> shown == cryptoData
  {
    var matches := (c: Coin) => MatchesSearch(c, searchTerm);
    FilterIsSubsequence(cryptoData, matches);
    if searchTerm == "" then
      FilterKeepsAll(cryptoData, matches);
      Filter(cryptoData, matches)
    else
      Filter(cryptoData, matches)
  }

  /** The search ignores case: terms equal up to case select the same coins, and a coin is
      selected exactly when the term occurs at some position of its lower-cased name or ticker. */
  lemma SearchIgnoresCase(coin: Coin, term1: string, term2: string)
    requires Lower(term1) == Lower(term2)
    ensures MatchesSearch(coin, term1) == MatchesSearch(coin, term2)
    ensures MatchesSearch(coin, term1) <==>
      (exists i :: OccursAt(Lower(coin.name), Lower(term1), i)) || (exists i :: OccursAt(Lower(coin.symbol), Lower(term1), i))
  {
    ContainsAt(Lower(coin.name), Lower(term1));
    ContainsAt(Lower(coin.symbol), Lower(term1));
  }

  /** Searching for the upper-cased term selects the same coins as the term itself. */
  lemma SearchIgnoresUpper(coin: Coin, term: string)
    ensures MatchesSearch(coin, Upper(term)) == MatchesSearch(coin, term)
  {
    LowerOfUpper(term);
    SearchIgnoresCase(coin, Upper(term), term);
  }

  /** Sort keys: `b.change - a.change` orders by descending change, `a.change - b.change` by ascending. */
  function NegatedChange(coin: Coin): real { -coin.priceChange24h }
  function Change(coin: Coin): real { coin.priceChange24h }

  /** `[...cryptoData].sort((a, b) => b.change - a.change).slice(0, 3)`. */
  function TopGainers(cryptoData: seq<Coin>): seq<Coin>
  {
    var sorted := SortBy(cryptoData, NegatedChange);
    SortBySorted(cryptoData, NegatedChange);
    sorted[..Min(3, |cryptoData|)]
  }

  /** `[...cryptoData].sort((a, b) => a.change - b.change).slice(0, 3)`. */
  function TopLosers(cryptoData: seq<Coin>): seq<Coin>
  {
    var sorted := SortBy(cryptoData, Change);
    SortBySorted(cryptoData, Change);
    sorted[..Min(3, |cryptoData|)]
  }

  /** The gainers: min(3, n) coins of the list, by descending change, none below a coin left out. */
  lemma TopGainersAreTop(cryptoData: seq<Coin>)
    ensures |TopGainers(cryptoData)| == Min(3, |cryptoData|)
    ensures forall i, j :: 0 <= i < j < |TopGainers(cryptoData)| ==>
      TopGainers(cryptoData)[i].priceChange24h >= TopGainers(cryptoData)[j].priceChange24h
    ensures multiset(TopGainers(cryptoData)) <= multiset(cryptoData)
    ensures forall g, c :: g in TopGainers(cryptoData) && c in multiset(cryptoData) - multiset(TopGainers(cryptoData)) ==>
      g.priceChange24h >= c.priceChange24h
  {
    var gainers := TopGainers(cryptoData);
    SortedPrefix(cryptoData, NegatedChange, Min(3, |cryptoData|));
    forall i, j | 0 <= i < j < |gainers| ensures gainers[i].priceChange24h >= gainers[j].priceChange24h {
      assert NegatedChange(gainers[i]) <= NegatedChange(gainers[j]);
    }
    forall g, c | g in gainers && c in multiset(cryptoData) - multiset(gainers) ensures g.priceChange24h >= c.priceChange24h {
      assert NegatedChange(g) <= NegatedChange(c);
    }
  }

  /** The losers: min(3, n) coins of the list, by ascending change, none above a coin left out. */
  lemma TopLosersAreBottom(cryptoData: seq<Coin>)
    ensures |TopLosers(cryptoData)| == Min(3, |cryptoData|)
    ensures forall i, j :: 0 <= i < j < |TopLosers(cryptoData)| ==>
      TopLosers(cryptoData)[i].priceChange24h <= TopLosers(cryptoData)[j].priceChange24h
    ensures multiset(TopLosers(cryptoData)) <= multiset(cryptoData)
    ensures forall l, c :: l in TopLosers(cryptoData) && c in multiset(cryptoData) - multiset(TopLosers(cryptoData)) ==>
      l.priceChange24h <= c.priceChange24h
  {
    var losers := TopLosers(cryptoData);
    SortedPrefix(cryptoData, Change, Min(3, |cryptoData|));
    forall i, j | 0 <= i < j < |losers| ensures losers[i].priceChange24h <= losers[j].priceChange24h {
      assert Change(losers[i]) <= Change(losers[j]);
    }
    forall l, c | l in losers && c in multiset(cryptoData) - multiset(losers) ensures l.priceChange24h <= c.priceChange24h {
      assert Change(l) <= Change(c);
    }
  }
}
