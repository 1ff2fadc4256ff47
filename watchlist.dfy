/** The Watchlist page: a set of watched coin ids with a toggle, and the watched coins
    filtered out of the store's list. */
module Watchlist {
  import opened Collections
  import opened CryptoData

  const InitialWatched: set<string> := {"bitcoin", "ethereum", "solana"}

  /** The page's state: `watchedCoins`. */
  class WatchlistPage {
    var watchedCoins: set<string>

    constructor ()
      ensures watchedCoins == InitialWatched
    {
      watchedCoins := InitialWatched;
    }

    /** `toggleWatchlist`: copy the set, delete the id if present or add it if absent, store the copy. */
    method ToggleWatchlist(coinId: string)
      modifies this
      ensures watchedCoins == Toggled(old(watchedCoins), coinId)
    {
      var newWatchlist := watchedCoins;
      if coinId in newWatchlist {
        newWatchlist := newWatchlist - {coinId};
      } else {
        newWatchlist := newWatchlist + {coinId};
      }
      watchedCoins := newWatchlist;
    }
  }

  /** Scenario of a fresh page: toggling "bitcoin" removes it, toggling it again puts it back. */
  method ToggleBitcoinTwice() returns (afterFirst: set<string>, afterSecond: set<string>)
    ensures afterFirst == {"ethereum", "solana"}
    ensures afterSecond == InitialWatched
  {
    var page := new WatchlistPage();
    page.ToggleWatchlist("bitcoin");
    afterFirst := page.watchedCoins;
    page.ToggleWatchlist("bitcoin");
    afterSecond := page.watchedCoins;
    ToggleTwice(InitialWatched, "bitcoin");
  }

  /** `cryptoData.filter(crypto => watchedCoins.has(crypto.id))`: the watched coins, in list order. */
  function WatchedCryptos(cryptoData: seq<Coin>, watched: set<string>): (shown: seq<Coin>)
    ensures forall c :: c in shown <==> c in cryptoData && c.id in watched
    ensures forall c :: multiset(shown)[c] == if c.id in watched then multiset(cryptoData)[c] else 0
    ensures SubsequenceOf(shown, cryptoData)
  {
    var isWatched := (c: Coin) => c.id in watched;
    FilterIsSubsequence(cryptoData, isWatched);
    Filter(cryptoData, isWatched)
  }

  /** `watchedCryptos.length === 0`: whether the empty-state card is shown. */
  function ShowEmptyState(cryptoData: seq<Coin>, watched: set<string>): bool
  {
    |WatchedCryptos(cryptoData, watched)| == 0
  }

  /** The empty-state card appears exactly when no listed coin is watched. */
  lemma EmptyStateExactly(cryptoData: seq<Coin>, watched: set<string>)
    ensures ShowEmptyState(cryptoData, watched) <==> forall i :: 0 <= i < |cryptoData| ==> cryptoData[i].id !in watched
  {
    var shown := WatchedCryptos(cryptoData, watched);
    if |shown| > 0 {
      assert shown[0] in shown;
    }
    if exists i :: 0 <= i < |cryptoData| && cryptoData[i].id in watched {
      var i :| 0 <= i < |cryptoData| && cryptoData[i].id in watched;
      assert cryptoData[i] in shown;
    }
  }

  /** A toggle changes what the page shows for that coin only. */
  lemma ToggleAffectsOneCoin(cryptoData: seq<Coin>, watched: set<string>, coinId: string, c: Coin)
    requires c in cryptoData
    ensures c in WatchedCryptos(cryptoData, Toggled(watched, coinId))
        <==> (if c.id == coinId then c !in WatchedCryptos(cryptoData, watched) else c in WatchedCryptos(cryptoData, watched))
  {
  }
}
