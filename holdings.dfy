/** The holdings book that every ledger variant keeps: per asset a balance, a
    weighted average purchase price and the amount invested, kept in a
    JavaScript object or `Map`, which iterates in insertion order. It is
    modelled as an association list with unique keys; `Set` keeps the position
    of an existing key and appends a new one, as property assignment does. */
module Holdings {
  import opened Wrappers
  import opened Seqs

  datatype Holding = Holding(balance: real, averagePrice: real, totalInvested: real)

  type Book = seq<(string, Holding)>

  const EmptyHolding := Holding(0.0, 0.0, 0.0)

  ghost predicate UniqueKeys(b: Book) {
    forall i, j :: 0 <= i < j < |b| ==> b[i].0 != b[j].0
  }

  ghost predicate HasKey(b: Book, k: string) {
    exists i :: 0 <= i < |b| && b[i].0 == k
  }

  /** `obj[k]`: the holding stored under `k`, or None. */
  function Get(b: Book, k: string): (r: Option<Holding>)
    ensures r.Some? <==> HasKey(b, k)
    ensures r.Some? ==> (k, r.value) in b
  {
    if b == [] then None
    else if b[0].0 == k then Some(b[0].1)
    else
      var r := Get(b[1..], k);
      assert HasKey(b, k) ==> b[0].0 == k || HasKey(b[1..], k) by {
        if HasKey(b, k) {
          var i :| 0 <= i < |b| && b[i].0 == k;
          if i > 0 { assert b[1..][i - 1].0 == k; }
        }
      }
      assert HasKey(b[1..], k) ==> HasKey(b, k) by {
        if HasKey(b[1..], k) {
          var i :| 0 <= i < |b[1..]| && b[1..][i].0 == k;
          assert b[i + 1].0 == k;
        }
      }
      r
  }

  /** `obj[k] = h`. */
  function Set(b: Book, k: string, h: Holding): (r: Book)
    ensures Get(r, k) == Some(h)
    ensures forall k' :: k' != k ==> Get(r, k') == Get(b, k')
    ensures forall e :: e in r ==> e == (k, h) || e in b
  {
    if b == [] then [(k, h)]
    else if b[0].0 == k then [(k, h)] + b[1..]
    else
      var t := Set(b[1..], k, h);
      assert ([b[0]] + t)[1..] == t;
      [b[0]] + t
  }

  /** `delete obj[k]`. */
  function Delete(b: Book, k: string): (r: Book)
    ensures Get(r, k) == None
    ensures forall k' :: k' != k ==> Get(r, k') == Get(b, k')
    ensures forall e :: e in r ==> e in b
  {
    if b == [] then []
    else if b[0].0 == k then Delete(b[1..], k)
    else
      var t := Delete(b[1..], k);
      assert ([b[0]] + t)[1..] == t;
      [b[0]] + t
  }

  lemma {:induction false} SetUnique(b: Book, k: string, h: Holding)
    requires UniqueKeys(b)
    ensures UniqueKeys(Set(b, k, h))
  {
    if b != [] && b[0].0 != k {
      SetUnique(b[1..], k, h);
      HeadKeyNotInTail(b);
      var t := Set(b[1..], k, h);
      assert Get(t, b[0].0) == Get(b[1..], b[0].0) == None;
      assert ([b[0]] + t)[1..] == t;
    }
  }

  lemma HeadKeyNotInTail(b: Book)
    requires b != [] && UniqueKeys(b)
    ensures UniqueKeys(b[1..]) && !HasKey(b[1..], b[0].0)
  {
    forall i | 0 <= i < |b[1..]| ensures b[1..][i].0 != b[0].0 {
      assert b[1..][i] == b[i + 1];
    }
  }

  lemma {:induction false} DeleteUnique(b: Book, k: string)
    requires UniqueKeys(b)
    ensures UniqueKeys(Delete(b, k))
  {
    if b != [] {
      DeleteUnique(b[1..], k);
      if b[0].0 != k {
        HeadKeyNotInTail(b);
        var t := Delete(b[1..], k);
        assert Get(t, b[0].0) == Get(b[1..], b[0].0) == None;
        assert ([b[0]] + t)[1..] == t;
      }
    }
  }

  /** In a book with unique keys, looking up an entry's key finds that entry. */
  lemma {:induction false} GetMember(b: Book, e: (string, Holding))
    requires UniqueKeys(b) && e in b
    ensures Get(b, e.0) == Some(e.1)
  {
    if b[0] != e {
      HeadKeyNotInTail(b);
      assert e in b[1..];
      GetMember(b[1..], e);
    }
  }

  /** Every stored holding has a positive balance: entries are deleted once
      their balance reaches 0 or below. */
  ghost predicate PositiveBalances(b: Book) {
    forall e :: e in b ==> e.1.balance > 0.0
  }

  // ---------------------------------------------------------------------
  // Weighted-average cost

  /** The average price is the amount invested per unit held. */
  ghost predicate Consistent(h: Holding) {
    h.totalInvested == h.averagePrice * h.balance
  }

  /** Every holding's investment is its average price times its balance. */
  ghost predicate AllConsistent(b: Book) {
    forall e :: e in b ==> Consistent(e.1)
  }

  /** A purchase of `amount` units at `price`: the investment grows by
      `amount * price` and the average is recomputed from the new totals. */
  function Buy(h: Holding, amount: real, price: real): (r: Holding)
    requires h.balance + amount != 0.0
    ensures r.balance == h.balance + amount
    ensures r.totalInvested == h.totalInvested + amount * price
    ensures Consistent(r)
  {
    var invested := h.totalInvested + amount * price;
    var balance := h.balance + amount;
    Holding(balance, invested / balance, invested)
  }

  /** A sale of `amount` units: the average is kept and the investment is
      rescaled to what remains. */
  function Sell(h: Holding, amount: real): (r: Holding)
    ensures r.balance == h.balance - amount
    ensures r.averagePrice == h.averagePrice
    ensures Consistent(r)
  {
    Holding(h.balance - amount, h.averagePrice, h.averagePrice * (h.balance - amount))
  }

  /** A purchase keeps the book's invariants: one entry per asset, positive
      balances, and every average equal to investment over balance. */
  lemma BuyKeepsBook(b: Book, k: string, amount: real, price: real)
    requires UniqueKeys(b) && PositiveBalances(b) && AllConsistent(b) && amount > 0.0
    ensures Get(b, k).GetOr(EmptyHolding).balance + amount > 0.0
    ensures var r := Set(b, k, Buy(Get(b, k).GetOr(EmptyHolding), amount, price));
            UniqueKeys(r) && PositiveBalances(r) && AllConsistent(r)
  {
    var h := Get(b, k).GetOr(EmptyHolding);
    if Get(b, k).Some? {
      assert (k, h) in b;
    }
    SetUnique(b, k, Buy(h, amount, price));
  }

  /** A sale that reduces a holding, or deletes it once nothing positive is
      left, keeps the book's invariants. */
  lemma SellKeepsBook(b: Book, k: string, amount: real)
    requires UniqueKeys(b) && PositiveBalances(b) && AllConsistent(b) && Get(b, k).Some?
    ensures var h := Get(b, k).value;
            var r := if h.balance - amount <= 0.0 then Delete(b, k) else Set(b, k, Sell(h, amount));
            UniqueKeys(r) && PositiveBalances(r) && AllConsistent(r)
  {
    var h := Get(b, k).value;
    if h.balance - amount <= 0.0 {
      DeleteUnique(b, k);
    } else {
      SetUnique(b, k, Sell(h, amount));
    }
  }

  /** After a purchase into a consistent holding the average price is the
      weighted mean of the old average and the purchase price, so it lies
      between them. */
  lemma BuyAverageBetween(h: Holding, amount: real, price: real)
    requires Consistent(h) && h.balance >= 0.0 && amount > 0.0
    ensures Buy(h, amount, price).averagePrice * (h.balance + amount)
            == h.averagePrice * h.balance + price * amount
    ensures h.averagePrice <= price ==> h.averagePrice <= Buy(h, amount, price).averagePrice <= price
    ensures price <= h.averagePrice ==> price <= Buy(h, amount, price).averagePrice <= h.averagePrice
  {
    var n := h.balance + amount;
    var avg := Buy(h, amount, price).averagePrice;
    assert avg * n == h.averagePrice * h.balance + price * amount;
    // avg - old average == amount * (price - old average) / n
    assert (avg - h.averagePrice) * n == amount * (price - h.averagePrice);
    // price - avg == balance * (price - old average) / n
    assert (price - avg) * n == h.balance * (price - h.averagePrice);
    if h.averagePrice <= price {
      MulNonNegative(amount, price - h.averagePrice);
      MulNonNegative(h.balance, price - h.averagePrice);
      SignOfQuotient(avg - h.averagePrice, n);
      SignOfQuotient(price - avg, n);
    } else {
      MulNonNegative(amount, h.averagePrice - price);
      MulNonNegative(h.balance, h.averagePrice - price);
      SignOfQuotient(h.averagePrice - avg, n);
      SignOfQuotient(avg - price, n);
    }
  }

  lemma MulNonNegative(x: real, y: real)
    requires x >= 0.0 && y >= 0.0
    ensures x * y >= 0.0
  {
  }

  lemma SignOfQuotient(x: real, n: real)
    requires n > 0.0 && x * n >= 0.0
    ensures x >= 0.0
  {
    assert x == (x * n) / n;
  }

  /** The fixed price table that `getAssetPrice` in balance.js and
      `getAssetCurrentPrice` in portfolio.js both carry. */
  const AssetPrices: map<string, real> := map[
    "bitcoin" := 43250.0, "ethereum" := 4842.0, "solana" := 198.0, "cardano" := 0.45,
    "polkadot" := 6.5, "chainlink" := 15.2, "litecoin" := 122.0, "bitcoin-cash" := 245.0,
    "stellar" := 0.12, "monero" := 165.0]

  ghost predicate Positive(prices: map<string, real>) {
    forall id :: id in prices ==> prices[id] > 0.0
  }

  lemma AssetPricesPositive()
    ensures Positive(AssetPrices)
  {
  }

  // ---------------------------------------------------------------------
  // Priced totals: value and investment over the assets with a known price

  function ValueTerm(prices: map<string, real>): ((string, Holding)) -> real {
    (e: (string, Holding)) => if e.0 in prices then e.1.balance * prices[e.0] else 0.0
  }

  function InvestedTerm(prices: map<string, real>): ((string, Holding)) -> real {
    (e: (string, Holding)) => if e.0 in prices then e.1.totalInvested else 0.0
  }

  /** Sum of `balance * price` over the assets that have a price. */
  function PricedValue(b: Book, prices: map<string, real>): real {
    Sum(b, ValueTerm(prices))
  }

  /** Sum of `totalInvested` over the assets that have a price. */
  function PricedInvested(b: Book, prices: map<string, real>): real {
    Sum(b, InvestedTerm(prices))
  }

  /** `invested > 0 ? (value - invested) / invested * 100 : 0`. */
  function ProfitPercent(value: real, invested: real): (r: real)
    ensures invested <= 0.0 ==> r == 0.0
    ensures invested > 0.0 ==> (r > 0.0 <==> value > invested)
    ensures invested > 0.0 ==> r * invested == (value - invested) * 100.0
  {
    if invested > 0.0 then (value - invested) / invested * 100.0 else 0.0
  }

  /** The loop every ledger variant runs over its book:
      `for (const [id, asset] of entries) if (price known) { value += ...; invested += ... }`. */
  method Totals(b: Book, prices: map<string, real>) returns (value: real, invested: real)
    ensures value == PricedValue(b, prices)
    ensures invested == PricedInvested(b, prices)
  {
    value, invested := 0.0, 0.0;
    var i := 0;
    while i < |b|
      invariant 0 <= i <= |b|
      invariant value == Sum(b[..i], ValueTerm(prices))
      invariant invested == Sum(b[..i], InvestedTerm(prices))
    {
      var (id, asset) := b[i];
      assert b[..i + 1][..i] == b[..i];
      if id in prices {
        value := value + asset.balance * prices[id];
        invested := invested + asset.totalInvested;
      }
      i := i + 1;
    }
    assert b[..i] == b;
  }

  /** An asset without a known price does not contribute to either total,
      whatever is stored for it. */
  lemma {:induction false} UnpricedSetKeepsTotals(b: Book, k: string, h: Holding, prices: map<string, real>)
    requires k !in prices
    ensures PricedValue(Set(b, k, h), prices) == PricedValue(b, prices)
    ensures PricedInvested(Set(b, k, h), prices) == PricedInvested(b, prices)
  {
    var vt, it := ValueTerm(prices), InvestedTerm(prices);
    if b == [] {
      SumCons((k, h), [], vt);
      SumCons((k, h), [], it);
    } else if b[0].0 == k {
      SumCons((k, h), b[1..], vt);
      SumCons((k, h), b[1..], it);
      SumCons(b[0], b[1..], vt);
      SumCons(b[0], b[1..], it);
      assert b == [b[0]] + b[1..];
    } else {
      UnpricedSetKeepsTotals(b[1..], k, h, prices);
      SumCons(b[0], Set(b[1..], k, h), vt);
      SumCons(b[0], Set(b[1..], k, h), it);
      SumCons(b[0], b[1..], vt);
      SumCons(b[0], b[1..], it);
      assert b == [b[0]] + b[1..];
    }
  }

  /** With positive balances and prices the market value of a book is never
      negative. */
  lemma PricedValueNonNegative(b: Book, prices: map<string, real>)
    requires PositiveBalances(b) && Positive(prices)
    ensures PricedValue(b, prices) >= 0.0
  {
    forall i | 0 <= i < |b| ensures ValueTerm(prices)(b[i]) >= 0.0 {
      assert b[i] in b;
      if b[i].0 in prices {
        MulNonNegative(b[i].1.balance, prices[b[i].0]);
      }
    }
    SumNonNegative(b, ValueTerm(prices));
  }

  /** With non-negative balances, investments and prices both totals are
      non-negative. */
  lemma PricedTotalsNonNegative(b: Book, prices: map<string, real>)
    requires forall i :: 0 <= i < |b| ==> b[i].1.balance >= 0.0 && b[i].1.totalInvested >= 0.0
    requires forall k :: k in prices ==> prices[k] >= 0.0
    ensures PricedValue(b, prices) >= 0.0
    ensures PricedInvested(b, prices) >= 0.0
  {
    forall i | 0 <= i < |b| ensures ValueTerm(prices)(b[i]) >= 0.0 {
      if b[i].0 in prices {
        MulNonNegative(b[i].1.balance, prices[b[i].0]);
      }
    }
    SumNonNegative(b, ValueTerm(prices));
    SumNonNegative(b, InvestedTerm(prices));
  }
}
