/** The coin table of the admin page `public/coin.js`: the filters, the page
    of ten rows it shows, the five-page pagination window, page changes and
    the summary counters. */
module CoinTable {
  import opened Seqs
  import opened Text

  datatype Coin = Coin(id: string, name: string, symbol: string, price: real, priceChange: real,
                       marketCap: real, volume: real, category: string, status: string)

  /** `itemsPerPage`. */
  const ItemsPerPage := 10

  /** `maxVisiblePages`; the window reaches half of it, rounded down, on each side of the current page. */
  const MaxVisiblePages := 5

  /** The predicate of `applyFilters`: the (already lower-cased) search term
      occurs in the lower-cased name or symbol, and the status and category
      filters match, an empty filter matching everything. */
  function Matches(searchTerm: string, status: string, category: string): Coin -> bool {
    (c: Coin) => (Includes(Lower(c.name), searchTerm) || Includes(Lower(c.symbol), searchTerm))
                 && (status == "" || c.status == status)
                 && (category == "" || c.category == category)
  }

  /** A name or symbol containing the typed text, in any case the user typed
      it, is found by the lower-cased search of `handleSearch`. */
  lemma SearchIgnoresCase(text: string, typed: string, i: int)
    requires OccursAt(text, typed, i)
    ensures Includes(Lower(text), Lower(typed))
  {
    assert Lower(text)[i..i + |typed|] == Lower(typed);
    assert OccursAt(Lower(text), Lower(typed), i);
    IncludesIff(Lower(text), Lower(typed));
  }

  /** `Math.ceil(n / itemsPerPage)`. */
  function TotalPages(n: nat): (r: nat)
    ensures r == 0 <==> n == 0
    ensures n > 0 ==> (r - 1) * ItemsPerPage < n <= r * ItemsPerPage
  {
    (n + ItemsPerPage - 1) / ItemsPerPage
  }

  /** The rows `renderCoins` shows for a page:
      `filtered.slice((page - 1) * itemsPerPage, page * itemsPerPage)`. For
      a page from 1 on, the rows are the page's stretch of the filtered list,
      at most ten of them, a full ten on every page before the last, and
      there are some exactly when the page is at most the page count. */
  function Shown(filtered: seq<Coin>, page: int): (r: seq<Coin>)
    ensures page >= 1 ==> |r| <= ItemsPerPage
    ensures page >= 1 ==> forall i :: 0 <= i < |r| ==>
      (page - 1) * ItemsPerPage + i < |filtered| && r[i] == filtered[(page - 1) * ItemsPerPage + i]
    ensures page >= 1 ==> (|r| > 0 <==> page <= TotalPages(|filtered|))
    ensures 1 <= page < TotalPages(|filtered|) ==> |r| == ItemsPerPage
  {
    var start := (page - 1) * ItemsPerPage;
    Slice(filtered, start, start + ItemsPerPage)
  }

  /** The pages `updatePagination` numbers, as `(startPage, endPage)`. */
  function PageWindow(current: int, total: int): (int, int) {
    var start := if current - MaxVisiblePages / 2 > 1 then current - MaxVisiblePages / 2 else 1;
    var end := if total < start + MaxVisiblePages - 1 then total else start + MaxVisiblePages - 1;
    if end - start + 1 < MaxVisiblePages then
      (if end - MaxVisiblePages + 1 > 1 then end - MaxVisiblePages + 1 else 1, end)
    else (start, end)
  }

  /** For a current page within the page count, the window lies within the
      pages, holds the current page, and has five pages, or all of them
      when there are fewer. */
  lemma PageWindowBounds(current: int, total: int)
    requires 1 <= current <= total
    ensures var (start, end) := PageWindow(current, total);
      1 <= start <= current <= end <= total
      && end - start + 1 == (if total < MaxVisiblePages then total else MaxVisiblePages)
  {
  }

  datatype CoinStats = CoinStats(totalCoins: nat, activeCoins: nat, totalMarketCap: real, totalVolume: real)

  function MarketCapOf(c: Coin): real {
    c.marketCap
  }

  function VolumeOf(c: Coin): real {
    c.volume
  }

  function IsActive(c: Coin): bool {
    c.status == "active"
  }

  /** The counters of `updateStats`; active coins are among all coins. */
  function StatsOf(coins: seq<Coin>): (r: CoinStats)
    ensures r.activeCoins <= r.totalCoins == |coins|
  {
    CoinStats(|coins|, Count(coins, IsActive), Sum(coins, MarketCapOf), Sum(coins, VolumeOf))
  }

  /** The counters of two lists of coins together are the counters of each
      added up. */
  lemma StatsAppend(a: seq<Coin>, b: seq<Coin>)
    ensures StatsOf(a + b).totalCoins == StatsOf(a).totalCoins + StatsOf(b).totalCoins
    ensures StatsOf(a + b).activeCoins == StatsOf(a).activeCoins + StatsOf(b).activeCoins
    ensures StatsOf(a + b).totalMarketCap == StatsOf(a).totalMarketCap + StatsOf(b).totalMarketCap
    ensures StatsOf(a + b).totalVolume == StatsOf(a).totalVolume + StatsOf(b).totalVolume
  {
    SumAppend(a, b, MarketCapOf);
    SumAppend(a, b, VolumeOf);
    FilterAppend(a, b, IsActive);
  }

  /** The page's global state: `coins`, `filteredCoins`, `currentPage`. */
  class CoinPage {
    var coins: seq<Coin>
    var filtered: seq<Coin>
    var currentPage: int

    /** Pages are numbered from 1. */
    ghost predicate Valid()
      reads this
    {
      currentPage >= 1
    }

    constructor ()
      ensures Valid()
      ensures coins == [] && filtered == [] && currentPage == 1
    {
      coins := [];
      filtered := [];
      currentPage := 1;
    }

    /** A successful `loadCoins`: the fetched list, unfiltered; the current
        page is kept. */
    method LoadCoins(fetched: seq<Coin>)
      requires Valid()
      modifies this
      ensures Valid()
      ensures coins == fetched && filtered == fetched && currentPage == old(currentPage)
    {
      coins := fetched;
      filtered := coins;
    }

    /** `applyFilters(searchTerm)`: exactly the matching coins, in their
        order, and back to the first page. */
    method ApplyFilters(searchTerm: string, status: string, category: string)
      modifies this
      ensures Valid()
      ensures filtered == Filter(coins, Matches(searchTerm, status, category))
      ensures forall c :: c in filtered <==> c in coins && Matches(searchTerm, status, category)(c)
      ensures SubsequenceOf(filtered, coins)
      ensures coins == old(coins) && currentPage == 1
    {
      FilterExactly(coins, Matches(searchTerm, status, category));
      FilterIsSubsequence(coins, Matches(searchTerm, status, category));
      filtered := Filter(coins, Matches(searchTerm, status, category));
      currentPage := 1;
    }

    /** `updatePagination`: the two buttons' disabled flags and the page
        numbers from `startPage` to `endPage`; when the current page is
        within the page count, the numbers include it, lie within the page
        count and are at most five. */
    method UpdatePagination() returns (prevDisabled: bool, nextDisabled: bool, pages: seq<int>)
      ensures prevDisabled <==> currentPage == 1
      ensures nextDisabled <==> currentPage == TotalPages(|filtered|)
      ensures var (start, end) := PageWindow(currentPage, TotalPages(|filtered|));
        |pages| == (if end >= start then end - start + 1 else 0)
        && forall k :: 0 <= k < |pages| ==> pages[k] == start + k
      ensures 1 <= currentPage <= TotalPages(|filtered|) ==>
        currentPage in pages && |pages| <= MaxVisiblePages
        && forall k :: 0 <= k < |pages| ==> 1 <= pages[k] <= TotalPages(|filtered|)
    {
      var totalPages := TotalPages(|filtered|);
      prevDisabled := currentPage == 1;
      nextDisabled := currentPage == totalPages;
      var (startPage, endPage) := PageWindow(currentPage, totalPages);
      pages := [];
      var i := startPage;
      while i <= endPage
        invariant startPage <= i <= (if endPage >= startPage then endPage + 1 else startPage)
        invariant |pages| == i - startPage
        invariant forall k :: 0 <= k < |pages| ==> pages[k] == startPage + k
      {
        pages := pages + [i];
        i := i + 1;
      }
      if 1 <= currentPage <= totalPages {
        PageWindowBounds(currentPage, totalPages);
        assert pages[currentPage - startPage] == currentPage;
      }
    }

    /** `changePage(page)`: moves only to an existing page. */
    method ChangePage(page: int)
      requires Valid()
      modifies this
      ensures Valid()
      ensures 1 <= page <= TotalPages(|filtered|) ==> currentPage == page
      ensures !(1 <= page <= TotalPages(|filtered|)) ==> currentPage == old(currentPage)
      ensures coins == old(coins) && filtered == old(filtered)
    {
      var totalPages := TotalPages(|filtered|);
      if page >= 1 && page <= totalPages {
        currentPage := page;
      }
    }
  }
}
