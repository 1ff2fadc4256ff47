# CryptoTracker core, modelled in Dafny

CryptoTracker is a React dashboard of cryptocurrency prices. Its data comes from the
`useCryptoData` hook. The hook keeps its state in plain component state and no provider
shares it, so each page or component that calls it runs its own instance of the store, with
its own list, its own fetch and its own three-second interval. Each instance holds:

- the coin list;
- the aggregate market figures;
- a loading flag.

It tries the CoinGecko markets endpoint and falls back to a seed catalog of eight coins with
generated 24-sample sparklines. Every three seconds it random-walks every price: it moves the
price, nudges the 24h change and slides the sparkline window, and it also perturbs the market
figures.

The pages and components on top of the store, each with its own instance:

- the Watchlist page filters the list down to a set of watched ids;
- the price table has its own star set and abbreviates large figures;
- the Market page picks the top three gainers and losers. It also computes a search of its list by name or ticker, but never displays the result: the list it shows is the price table, which has its own store and ignores the search term;
- the Portfolio page values five fixed holdings;
- the icon helper maps a ticker to an icon file or an inline SVG;
- the featured cards and the price chart turn sparklines into labelled chart points.

The model, module by module:

- `Collections`: `filter`, `find`, the copy-and-toggle of a `Set`, a stable sort by key and a sum. These are the JavaScript library operations the pages use, with their properties proved once.
- `Text`: ASCII `toLowerCase`/`toUpperCase`, `includes`, and the decimal rendering of whole numbers used in chart labels.
- `Display`: the 24h badge (class and '+' prefix) and the sparkline-to-chart-points mapping.
- `CryptoData`: the store.
  - `CryptoStore` is a class whose methods replace its fields as the hook's setters do. One object is one instance of the hook; the page functions take the coin list of their own instance as a parameter.
  - `GenerateSparkline` is the sparkline loop, proved against the reference random walk `Walk`.
  - Also here: the seed catalog, the fetch mapping, and the per-coin and market tick.
- `Watchlist`, `PriceTable`, `Market`, `Portfolio`, `CryptoIcons`, `FeaturedCoins`, `PriceChart`: one module per page or component.

What the model does not do itself is passed in as parameters:

- `Math.random()` is a draw `r` with `0 <= r < 1`;
- the network response is a `FetchResult`, either `Fetched(items)` or `FetchFailed`;
- `toFixed(2)` and `encodeURIComponent` are function parameters.

Prices are JavaScript numbers and are modelled as exact reals. The contracts state orderings, bounds and structure, never float rounding.

## Model

| member | source | states |
|---|---|---|
| Collections.Filter | client/src/pages/Watchlist.tsx:25 | `filter` keeps exactly the elements satisfying the predicate, each as many times as it occurs in the input, drops every other element, and never grows the list |
| Collections.FilterIsSubsequence | client/src/pages/Watchlist.tsx:25 | the filtered list is a subsequence of the input, so list order is preserved |
| Collections.FilterKeepsAll | client/src/pages/Market.tsx:17-20 | a filter whose predicate holds everywhere returns the list unchanged |
| Collections.Find | client/src/pages/Portfolio.tsx:22 | `find` returns `None` iff no element matches; otherwise it returns the element at the first matching index |
| Collections.Toggled | client/src/pages/Watchlist.tsx:15-23 | the toggled set holds the id iff the old one did not; every other id keeps its membership |
| Collections.ToggleTwice | client/src/pages/Watchlist.tsx:15-23 | toggling the same id twice gives back the original set |
| Collections.InsertPermutes | client/src/pages/Market.tsx:22-23 | one insertion step of the sort adds exactly the inserted element |
| Collections.Insert | client/src/pages/Market.tsx:22-23 | one insertion step of the stable sort: the element goes in front of the first element whose key is not smaller than its own, so it stays ahead of later elements with an equal key; the placement is stated by `Collections.InsertPlacement`, the permutation and ordering properties by `Collections.InsertPermutes` and `Collections.InsertSorted` |
| Collections.InsertPlacement | client/src/pages/Market.tsx:22-23 | the insertion puts the element at some index k: every element before k has a smaller key, the element at k (if any) a key not smaller, and the rest of the list is unchanged around it |
| Collections.InsertSorted | client/src/pages/Market.tsx:22-23 | inserting into a key-ordered list keeps it key-ordered |
| Collections.InsertKeepsLowerBound | client/src/pages/Market.tsx:22-23 | inserting an element whose key is at least b into a list whose keys are all at least b gives a list whose keys are all at least b |
| Collections.SortBySorted | client/src/pages/Market.tsx:22-23 | the sorted copy is key-ordered and a permutation of the input |
| Collections.SortByOrdered | client/src/pages/Market.tsx:22-23 | the sorted copy is key-ordered |
| Collections.SortByPermutes | client/src/pages/Market.tsx:22-23 | the sorted copy is a permutation of the input, of the same length |
| Collections.SortedSplit | client/src/pages/Market.tsx:23-24 | cutting a sorted list leaves the suffix as exactly the rest, with no prefix key above a suffix key |
| Collections.PrefixOfSorted | client/src/pages/Market.tsx:24 | a prefix of a sorted list is sorted and drawn from the list |
| Collections.SortedPrefix | client/src/pages/Market.tsx:22-24 | the first k elements of the sorted copy are sorted, come from the input, and have keys no larger than any element left out |
| Collections.SortBy | client/src/pages/Market.tsx:22-23 | the stable sort by key; that it is key-ordered and a permutation of its input is stated by `Collections.SortBySorted` |
| Text.Lower | client/src/pages/Market.tsx:18-19 | `toLowerCase` keeps the length and lower-cases each character |
| Text.Upper | src/components/crypto/CryptoPriceTable.tsx:154 | `toUpperCase` keeps the length and upper-cases each character |
| Text.LowerOfUpper | client/src/pages/Market.tsx:18-19 | lower-casing an upper-cased string gives the string lower-cased |
| Text.UpperOfLower | client/src/lib/crypto-icons.ts:9-20 | upper-casing a lower-cased character gives the character upper-cased |
| Text.ContainsAt | client/src/pages/Market.tsx:18-19 | `includes` holds iff the term occurs at some position |
| Text.ContainsEmpty | client/src/pages/Market.tsx:18-19 | every string includes the empty term |
| Text.Contains | client/src/pages/Market.tsx:18-19 | `includes`; that it holds iff the term occurs at some position is stated by `Text.ContainsAt` |
| Text.NatToString | src/components/crypto/FeaturedCoins.tsx:28 | the decimal rendering of a whole number is a non-empty string of digits |
| Text.ParseNatToString | src/components/crypto/FeaturedCoins.tsx:28 | reading the rendered digits back gives the number |
| Text.NatToStringInjective | src/components/crypto/FeaturedCoins.tsx:28 | distinct numbers render differently |
| Display.BadgeAgrees | src/components/crypto/CryptoPriceTable.tsx:168-176 | the price-up class and the '+' prefix go together, exactly for a change >= 0 |
| Display.TrendOf | src/components/crypto/CryptoPriceTable.tsx:166-175 | `change >= 0 ? "price-up" : "price-down"`; stated by `Display.BadgeAgrees` |
| Display.SignPrefix | src/components/crypto/CryptoPriceTable.tsx:176 | `change >= 0 ? '+' : ''`; stated by `Display.BadgeAgrees` |
| Display.TimeLabel | src/components/crypto/FeaturedCoins.tsx:28 | the label of sample i is decimal digits reading back as i*4, followed by ":00" |
| Display.ChartPoints | src/components/crypto/FeaturedCoins.tsx:27-30 | one point per price, in order: point i carries price i and label i*4 ":00" |
| Display.ChartLabelsDistinct | src/components/crypto/FeaturedCoins.tsx:28 | no two points of a chart share a label |
| CryptoData.Walk | client/src/hooks/useCryptoData.tsx:43-47 | the walk produces one sample per draw |
| CryptoData.Step | client/src/hooks/useCryptoData.tsx:44-45 | one step `price + (r-0.5)*volatility*price`, shared by the sparkline loop and the tick; its bound and sign are stated by `CryptoData.StepBound` and `CryptoData.StepKeepsSign` |
| CryptoData.WalkIsMultiplicative | client/src/hooks/useCryptoData.tsx:41-46 | each sample is the previous one (the base price for the first) times 1 + (r-0.5)*volatility |
| CryptoData.StepKeepsSign | client/src/hooks/useCryptoData.tsx:44-45 | with volatility below 2, a step keeps a positive price positive |
| CryptoData.StepBound | client/src/hooks/useCryptoData.tsx:204-205 | a step moves a price by at most volatility/2 times its magnitude |
| CryptoData.WalkPositive | client/src/hooks/useCryptoData.tsx:41-46 | with a positive base and volatility below 2, every sample is positive |
| CryptoData.GenerateSparkline | client/src/hooks/useCryptoData.tsx:38-50 | the loop returns exactly 24 samples, equal to the reference walk; with a positive base and volatility below 2 all of them are positive |
| CryptoData.SeedCatalog | client/src/hooks/useCryptoData.tsx:90-187 | the eight seed coins with generated sparklines; their shape and fixed fields are stated by `CryptoData.SeedCatalogShape` and `CryptoData.SeedListingsFixed` |
| CryptoData.SeedCatalogShape | client/src/hooks/useCryptoData.tsx:90-187 | the seed catalog has 8 coins, distinct ids and ranks 1..8 in order; prices are positive and sparklines have 24 positive samples |
| CryptoData.SeedListingsFixed | client/src/hooks/useCryptoData.tsx:90-187 | all seed fields except the sparklines are the fixed listing, whatever the draws |
| CryptoData.FormatCoins | client/src/hooks/useCryptoData.tsx:65-76 | one record per response item, in order, with the ten fields copied unchanged |
| CryptoData.Volatility | client/src/hooks/useCryptoData.tsx:203 | the tick volatility is positive and at most 0.005 |
| CryptoData.VolatilityTiers | client/src/hooks/useCryptoData.tsx:203 | 'BTC' moves less than 'ETH', which moves less than other tickers such as 'SOL'; the tiers are 0.001 for 'BTC', 0.002 for 'ETH' and 0.005 for every other ticker; the test is case-sensitive, so "btc" and "eth" get the 'SOL' tier |
| CryptoData.Window | client/src/hooks/useCryptoData.tsx:209 | `coin.sparkline_in_7d?.price \|\| []`: the sparkline, or empty without one; read by `CryptoData.Slide`, `PriceChart.ChartData` and `FeaturedCoins.Featured` |
| CryptoData.Slide | client/src/hooks/useCryptoData.tsx:209-211 | shift-then-push keeps a non-empty window's length, makes a missing or empty one length 1, shifts the rest by one and ends in the new price |
| CryptoData.TickCoin | client/src/hooks/useCryptoData.tsx:202-218 | listing fields unchanged; the new price is one random-walk `Step` of the old at the ticker's volatility, within volatility/2 of the old and positive if the old was; the 24h change moves by exactly a tenth of the percentage from old to new price, which is (r-0.5)*volatility*10 and at most ±0.025, and not at all for a price of 0; sparkline slid to the new price |
| CryptoData.NudgeIsDamped | client/src/hooks/useCryptoData.tsx:206-216 | a tenth of the step's percentage is (r-0.5)*volatility*10, within ±0.025 |
| CryptoData.TickCoins | client/src/hooks/useCryptoData.tsx:201-220 | the tick maps every coin with its own draw, keeping the list length |
| CryptoData.TickKeepsOrder | client/src/hooks/useCryptoData.tsx:201-220 | after a tick, every coin keeps its place and its listing, and its sparkline ends in its new price |
| CryptoData.TickPreservesShape | client/src/hooks/useCryptoData.tsx:202-218 | ticks keep positive prices and 24 positive sparkline samples |
| CryptoData.SeedBitcoinTickBound | client/src/hooks/useCryptoData.tsx:203-205 | the seed bitcoin's first tick lands within 0.05% of 67542.30 |
| CryptoData.TickMarket | client/src/hooks/useCryptoData.tsx:223-228 | market cap moves by (capDraw-0.5)*1e10, volume by (volumeDraw-0.5)*1e9 and the change by (changeDraw-0.5)*0.1, each with its own draw; so they move by at least -5e9, -5e8 and -0.05 and by less than 5e9, 5e8 and 0.05; the active count is unchanged |
| CryptoData.CryptoStore.constructor | client/src/hooks/useCryptoData.tsx:27-35 | the store starts empty, with the initial market figures, loading |
| CryptoData.CryptoStore.LoadSimulatedData | client/src/hooks/useCryptoData.tsx:89-191 | the list becomes the seed catalog and loading ends; the market figures are untouched |
| CryptoData.CryptoStore.FetchRealCryptoData | client/src/hooks/useCryptoData.tsx:53-86 | a response gives the mapped list; a failure gives the seed catalog and clears `useRealData`; loading ends either way |
| CryptoData.CryptoStore.Tick | client/src/hooks/useCryptoData.tsx:200-229 | one interval firing: the list becomes the ticked list and the market figures the ticked figures |
| CryptoData.SimulatedSession | client/src/hooks/useCryptoData.tsx:194-232 | a failed fetch followed by any number of ticks leaves the 8 seed coins in seed order, with positive prices and 24 positive samples, not loading |
| Watchlist.WatchlistPage.constructor | client/src/pages/Watchlist.tsx:13 | the watch set starts as exactly {bitcoin, ethereum, solana} |
| Watchlist.WatchlistPage.ToggleWatchlist | client/src/pages/Watchlist.tsx:15-23 | the new watch set is the old one with the id toggled |
| Watchlist.ToggleBitcoinTwice | client/src/pages/Watchlist.tsx:13-23 | on a fresh page, toggling bitcoin leaves {ethereum, solana}; toggling it again restores the initial set |
| Watchlist.WatchedCryptos | client/src/pages/Watchlist.tsx:25 | exactly the listed coins whose id is watched, each as often as it is listed, as a subsequence of the list |
| Watchlist.ShowEmptyState | client/src/pages/Watchlist.tsx:101 | `watchedCryptos.length === 0`; that it holds iff no listed coin is watched is stated by `Watchlist.EmptyStateExactly` |
| Watchlist.EmptyStateExactly | client/src/pages/Watchlist.tsx:101 | the empty-state card shows iff no listed coin is watched |
| Watchlist.ToggleAffectsOneCoin | client/src/pages/Watchlist.tsx:15-25 | a toggle flips whether the toggled coin is shown and leaves every other coin as it was |
| PriceTable.MagnitudeOf | src/components/crypto/CryptoPriceTable.tsx:86-91 | T iff >= 1e12, B iff in [1e9, 1e12), M iff in [1e6, 1e9), K iff in [1e3, 1e6), no suffix iff below 1e3 (negatives included) |
| PriceTable.Divisor | src/components/crypto/CryptoPriceTable.tsx:87-91 | the divisor of each branch: 1e12, 1e9, 1e6, 1e3, or none; the scaled range is stated by `PriceTable.ScaledFigureInRange` |
| PriceTable.Suffix | src/components/crypto/CryptoPriceTable.tsx:87-91 | the letter of each branch: T, B, M, K, or none; stated per range by `PriceTable.LargeFiguresScaled` |
| PriceTable.FormatNumber | src/components/crypto/CryptoPriceTable.tsx:86-92 | every abbreviated figure begins with '$' |
| PriceTable.ScaledFigureInRange | src/components/crypto/CryptoPriceTable.tsx:87-90 | from 1e3 up to below 1e15 the scaled figure lies in [1, 1000) |
| PriceTable.SmallFiguresUnscaled | src/components/crypto/CryptoPriceTable.tsx:91 | below 1e3 the figure is '$' and the number itself, with no suffix |
| PriceTable.LargeFiguresScaled | src/components/crypto/CryptoPriceTable.tsx:86-90 | from 1e12 the figure is '$', num/1e12 and 'T'; in [1e9, 1e12) num/1e9 and 'B'; in [1e6, 1e9) num/1e6 and 'M'; in [1e3, 1e6) num/1e3 and 'K' |
| PriceTable.RowOf | src/components/crypto/CryptoPriceTable.tsx:138-212 | one table row of a coin; stated by `PriceTable.Render` |
| PriceTable.Render | src/components/crypto/CryptoPriceTable.tsx:108-192 | only the spinner iff loading; otherwise one row per coin with its rank; a star iff watched; price-up and '+' iff change >= 0; an empty sparkline when missing; '$' figures |
| PriceTable.PriceTableState.constructor | src/components/crypto/CryptoPriceTable.tsx:96 | the table's star set starts empty |
| PriceTable.PriceTableState.ToggleWatchlist | src/components/crypto/CryptoPriceTable.tsx:98-106 | the new star set is the old one with the id toggled |
| PriceTable.StarTwiceRestores | src/components/crypto/CryptoPriceTable.tsx:98-106 | starring twice restores the rendered table; one star changes no other row |
| Market.FilteredCryptos | client/src/pages/Market.tsx:17-20 | a coin is shown iff its lower-cased name or ticker includes the lower-cased term, as often as it is listed; list order is kept; an empty term keeps every coin |
| Market.MatchesSearch | client/src/pages/Market.tsx:17-20 | the search predicate; its case-insensitivity and occurrence reading are stated by `Market.SearchIgnoresCase` |
| Market.SearchIgnoresCase | client/src/pages/Market.tsx:17-20 | terms equal up to case select the same coins; selection means the term occurs at some position of the lower-cased name or ticker |
| Market.SearchIgnoresUpper | client/src/pages/Market.tsx:17-20 | searching for the upper-cased term selects the same coins as the term |
| Market.TopGainers | client/src/pages/Market.tsx:22-24 | the first three of the list sorted by descending 24h change; stated by `Market.TopGainersAreTop` |
| Market.TopLosers | client/src/pages/Market.tsx:26-28 | the first three of the list sorted by ascending 24h change; stated by `Market.TopLosersAreBottom` |
| Market.NegatedChange | client/src/pages/Market.tsx:23 | the sort key standing for the comparator `b.change - a.change`: ascending order of the negated change is descending change; used by `Market.TopGainersAreTop` |
| Market.Change | client/src/pages/Market.tsx:27 | the sort key standing for the comparator `a.change - b.change`; used by `Market.TopLosersAreBottom` |
| Market.TopGainersAreTop | client/src/pages/Market.tsx:22-24 | min(3, n) coins taken from the list, by descending 24h change, none below a coin left out |
| Market.TopLosersAreBottom | client/src/pages/Market.tsx:26-28 | min(3, n) coins taken from the list, by ascending 24h change, none above a coin left out |
| Portfolio.FindCoin | client/src/pages/Portfolio.tsx:22 | `cryptoData.find(c => c.id === id)`; `None` iff no coin has the id, else the first one, as stated by `Collections.Find` |
| Portfolio.HoldingValue | client/src/pages/Portfolio.tsx:22-23 | price times amount of the first coin with the holding's id, 0 without one; summed by `Portfolio.ValueFoldIsSum` |
| Portfolio.PortfolioValue | client/src/pages/Portfolio.tsx:21-24 | the value `reduce`; stated by `Portfolio.PortfolioValueIsSum` and `Portfolio.RowsSumToPortfolioValue` |
| Portfolio.TotalCost | client/src/pages/Portfolio.tsx:26-28 | the cost `reduce`; stated by `Portfolio.TotalCostValue` |
| Portfolio.TotalGainLoss | client/src/pages/Portfolio.tsx:30 | value minus cost; stated by `Portfolio.RowsSumToTotalGainLoss` |
| Portfolio.Cost | client/src/pages/Portfolio.tsx:27 | `purchasePrice * amount`; summed by `Portfolio.CostFoldIsSum` and valued by `Portfolio.TotalCostValue` |
| Portfolio.ValueFold | client/src/pages/Portfolio.tsx:21-24 | the value `reduce` callback folded from the running total; stated by `Portfolio.ValueFoldIsSum` |
| Portfolio.CostFold | client/src/pages/Portfolio.tsx:26-28 | the cost `reduce` callback folded from the running total; stated by `Portfolio.CostFoldIsSum` |
| Portfolio.ValueFoldIsSum | client/src/pages/Portfolio.tsx:21-24 | the value `reduce` adds the sum of the per-holding values to its start; a holding without a coin adds 0 |
| Portfolio.CostFoldIsSum | client/src/pages/Portfolio.tsx:26-28 | the cost `reduce` adds the sum of the per-holding cost bases to its start |
| Portfolio.PortfolioValueIsSum | client/src/pages/Portfolio.tsx:21-24 | `portfolioValue` is the sum of the holding values, and 0 with no coins listed |
| Portfolio.TotalCostValue | client/src/pages/Portfolio.tsx:13-31 | `totalCost` sums all five cost bases to 32037.5 > 0, so the percentage's divisor is non-zero |
| Portfolio.HoldingsCount | client/src/pages/Portfolio.tsx:95 | the Holdings card shows 5 |
| Portfolio.RowFor | client/src/pages/Portfolio.tsx:112-114 | value, cost basis and gain of one listed holding; stated by `Portfolio.RowsShape` and `Portfolio.RowValuesFold` |
| Portfolio.Rows | client/src/pages/Portfolio.tsx:108-115 | no more rows than holdings |
| Portfolio.RowsOfListedHoldings | client/src/pages/Portfolio.tsx:108-115 | the row ids are the ids of the listed holdings, in order; each row's gain is its value minus its cost basis; with every holding listed there is a row per holding |
| Portfolio.RowIdsOfListed | client/src/pages/Portfolio.tsx:108-115 | the row ids are the ids of the listed holdings, in order |
| Portfolio.RowsShape | client/src/pages/Portfolio.tsx:108-115 | each row's gain is its value minus its cost basis; with every holding listed there is a row per holding |
| Portfolio.RowValuesFold | client/src/pages/Portfolio.tsx:108-112 | the rows' current values sum to what the value fold adds |
| Portfolio.RowsSumToPortfolioValue | client/src/pages/Portfolio.tsx:21-24 | the rows' current values sum to `portfolioValue` |
| Portfolio.RowGainsFold | client/src/pages/Portfolio.tsx:108-114 | with every holding listed, the rows' gains sum to total value minus total cost |
| Portfolio.RowsSumToTotalGainLoss | client/src/pages/Portfolio.tsx:108-114 | with every holding listed, the rows' gains sum to `totalGainLoss` |
| CryptoIcons.Initial | client/src/lib/crypto-icons.ts:20 | `charAt(0).toUpperCase()` is the first character upper-cased, or "" for "" |
| CryptoIcons.FallbackSvg | client/src/lib/crypto-icons.ts:16-23 | the SVG template around the initial; its layout is stated by `CryptoIcons.FallbackShowsInitial` |
| CryptoIcons.GetCryptoIcon | client/src/lib/crypto-icons.ts:1-24 | the icon lookup; stated by `CryptoIcons.IconChoice` and `CryptoIcons.IconIgnoresCase` |
| CryptoIcons.IconChoice | client/src/lib/crypto-icons.ts:1-24 | a supported ticker gets exactly the icon file of its lower-cased form; any other gets the data URL of the encoded fallback; a file path iff the ticker is supported |
| CryptoIcons.InitialIgnoresCase | client/src/lib/crypto-icons.ts:9-20 | tickers equal up to case have the same upper-cased initial |
| CryptoIcons.IconIgnoresCase | client/src/lib/crypto-icons.ts:9-23 | tickers equal up to case get the same icon, file or fallback |
| CryptoIcons.FallbackShowsInitial | client/src/lib/crypto-icons.ts:16-23 | the fallback SVG is the fixed markup around exactly the upper-cased initial |
| CryptoIcons.IconExamples | client/src/lib/crypto-icons.ts:3-23 | "BTC" gets /assets/crypto-icons/btc.svg; "doge" gets the fallback showing "D" |
| FeaturedCoins.FeaturedOf | src/components/crypto/FeaturedCoins.tsx:21-31 | one card of a coin; stated by `FeaturedCoins.Featured` |
| FeaturedCoins.Featured | src/components/crypto/FeaturedCoins.tsx:21-31 | the first min(3, n) coins in order, each copying name, symbol, price, change and logo; charts its sparkline point by point; empty chart without a sparkline |
| FeaturedCoins.FeaturedBadge | src/components/crypto/FeaturedCoins.tsx:52-60 | a card's '+' and price-up exactly when its change >= 0 |
| FeaturedCoins.FeaturedChartEndsAtPrice | src/components/crypto/FeaturedCoins.tsx:21-31 | after a tick, every card's chart ends at the card's price |
| PriceChart.ChartCoin | client/src/components/crypto/PriceChart.tsx:31 | the first coin with the selected id; else the first coin; `None` iff the list is empty |
| PriceChart.ChartData | client/src/components/crypto/PriceChart.tsx:34-38 | empty without a coin; otherwise one point per sparkline price, in order, labelled i*4 ":00" |
| PriceChart.CurrentPrice | client/src/components/crypto/PriceChart.tsx:40 | the last point's price, 0 for an empty chart; stated by `PriceChart.ChartEnds` |
| PriceChart.PreviousPrice | client/src/components/crypto/PriceChart.tsx:41 | the first point's price, 0 for an empty chart; stated by `PriceChart.ChartEnds` |
| PriceChart.PriceChange | client/src/components/crypto/PriceChart.tsx:42 | current minus previous; its sign is stated by `PriceChart.ChangeBadge` |
| PriceChart.Title | client/src/components/crypto/PriceChart.tsx:70 | the coin's name, or "Bitcoin" when there is no coin or the name is empty |
| PriceChart.HeadlinePrices | client/src/components/crypto/PriceChart.tsx:40-41 | current is the last sample and previous the first; both are 0 for an empty chart |
| PriceChart.ChartEnds | client/src/components/crypto/PriceChart.tsx:40-41 | the last and first points of a chart carry the last and first prices; an empty chart reads 0 for both |
| PriceChart.ChangeBadge | client/src/components/crypto/PriceChart.tsx:78-87 | '+' and price-up exactly when the last sample is not below the first |
| PriceChart.EmptyStoreChart | client/src/components/crypto/PriceChart.tsx:31-42 | with no coins the chart is empty, titled "Bitcoin", with no change |
| PriceChart.ChartFollowsTick | client/src/components/crypto/PriceChart.tsx:31-40 | after a tick, the headline price is the charted coin's new price |
| PriceChart.SeedChartIsBitcoin | client/src/components/crypto/PriceChart.tsx:28-38 | on the seed catalog the initial selection charts bitcoin, titled "Bitcoin", with 24 points |

## Left out

- The request to the market-data API and JSON parsing (client/src/hooks/useCryptoData.tsx:55-63): network I/O. The response is the `FetchResult` parameter; a body that is not an array of coins counts as `FetchFailed`.
- `setInterval`, `clearInterval` and the `useEffect` lifecycle: timers. Each interval firing is one call of `CryptoStore.Tick`.
  - React's batching of state updates is not modelled.
  - A tick that interleaves with the initial fetch while the fetch is still in flight is not modelled: `FetchRealCryptoData` runs as one step.
- The instances of the store run side by side with independent draws and timers. The model states each instance on its own and nothing about how their lists relate to one another.
- `console.log` on the fallback path: output only.
- `Math.random()`: every use is a draw parameter. The simulated chart volume (client/src/components/crypto/PriceChart.tsx:37) is random display data and is not modelled.
- Float rendering: `toFixed`, `toLocaleString`, and the percentage divisions (client/src/components/crypto/PriceChart.tsx:43, client/src/pages/Portfolio.tsx:31 and 115). They need IEEE rounding, and the chart's division can divide by 0. `toFixed(2)` is the function parameter `fixed2` of `PriceTable.FormatNumber`.
- `encodeURIComponent`: a library call, passed to `CryptoIcons.GetCryptoIcon` as `encode`.
- JSX rendering, recharts, styling, icons and the time-range and volume buttons of the chart.
- The unused mock rows in src/components/crypto/CryptoPriceTable.tsx. The undefined `mockChartData` in client/src/components/crypto/PriceChart.tsx is part of rendering only.
- Files that are pure UI or constants, which are not part of this model:
  - client/src/pages/Settings.tsx, client/src/pages/Landing.tsx, client/src/App.tsx;
  - client/src/components/crypto/Dashboard.tsx, client/src/components/crypto/Sparkline.tsx, client/src/components/crypto/MarketStats.tsx;
  - src/components/layout/DashboardLayout.tsx, src/components/layout/TopBar.tsx, both Sidebar.tsx files;
  - src/pages/Index.tsx and src/components/crypto/PriceChart.tsx;
  - server/routes.ts.
- CryptoData.GenerateSparkline: the default argument `volatility = 0.05` (client/src/hooks/useCryptoData.tsx:38) is not modelled; every caller passes a volatility, so the model takes it as a required parameter.
- CryptoData.TickCoin: for a price of exactly 0, JavaScript computes a NaN percentage and the 24h change becomes NaN. The model has no NaN and leaves the change unchanged there; the exact-nudge clause is stated only for non-zero prices.
- Text.Lower: case mapping covers ASCII letters only. JavaScript's full Unicode mapping (for example the Kelvin sign lower-casing to 'k') is not modelled. The tickers and ids the app handles are ASCII.
- Text.Upper: the same ASCII-only mapping; for example 'ß' upper-casing to "SS" is not modelled.
- CryptoIcons.Initial: upper-cases the first character with the same ASCII-only mapping.
- Market.TopGainersAreTop: the sort is modelled as a stable insertion sort, as JavaScript's `sort` is. The contracts do not state the order among coins with equal changes.
- Market.TopLosersAreBottom: the same holds for ties among the losers.
- The spread copy before sorting (client/src/pages/Market.tsx:22, 26) holds by construction: the model's sort is a function on values, so the store's list cannot change.
- Portfolio.RowGainsFold: the sum of row gains equals `totalGainLoss` only when every holding is listed. Otherwise the unlisted holdings still count in `totalCost`, so no such equality holds; the lemma requires every holding listed.
