/** The PriceList aggregate: a snapshot of per-model prices, each entry with an
    active flag. Prices are credits per one million tokens. */
module PriceListAgg {

  datatype Price = Price(modelName: string, inputPricePer1M: real, outputPricePer1M: real, isActive: bool)

  /** The aggregate's props. `restore` wraps them without validation and
      `getProps` hands back a copy, so the immutable value stands for both. */
  datatype PriceList = PriceList(id: string, prices: seq<Price>, createdAt: int)

  /** `prices.filter(p => p.isActive)`. */
  function ActivePrices(prices: seq<Price>): (r: seq<Price>)
    ensures forall p :: p in r <==> p in prices && p.isActive
    ensures |r| <= |prices|
    ensures |r| == |prices| <==> forall i :: 0 <= i < |prices| ==> prices[i].isActive
  {
    if |prices| == 0 then []
    else
      var rest := ActivePrices(prices[1..]);
      assert forall i :: 1 <= i < |prices| ==> prices[i] == prices[1..][i - 1];
      if prices[0].isActive then [prices[0]] + rest else rest
  }

  /** `getActivePrices`: exactly the active entries of the list, in list order. */
  function GetActivePrices(pl: PriceList): (r: seq<Price>)
    ensures forall i :: 0 <= i < |r| ==> r[i].isActive
    ensures forall p :: p in r <==> p in pl.prices && p.isActive
    ensures IsSubsequence(r, pl.prices)
  {
    ActivePricesIsSubsequence(pl.prices);
    ActivePrices(pl.prices)
  }

  /** `a` can be obtained from `b` by deleting elements: relative order is kept. */
  predicate IsSubsequence<T(==)>(a: seq<T>, b: seq<T>)
    decreases |b|
  {
    |a| == 0
    || (|b| > 0 && ((a[0] == b[0] && IsSubsequence(a[1..], b[1..])) || IsSubsequence(a, b[1..])))
  }

  /** Filtering keeps the active entries in their original order. */
  lemma {:induction false} ActivePricesIsSubsequence(prices: seq<Price>)
    ensures IsSubsequence(ActivePrices(prices), prices)
  {
    if |prices| > 0 {
      var rest := ActivePrices(prices[1..]);
      ActivePricesIsSubsequence(prices[1..]);
      if prices[0].isActive {
        assert ActivePrices(prices)[1..] == rest;
      }
    }
  }

  /** Filtering distributes over concatenation. */
  lemma {:induction false} ActivePricesConcat(a: seq<Price>, b: seq<Price>)
    ensures ActivePrices(a + b) == ActivePrices(a) + ActivePrices(b)
  {
    if |a| > 0 {
      assert (a + b)[1..] == a[1..] + b;
      ActivePricesConcat(a[1..], b);
    } else {
      assert a + b == b;
    }
  }

  /** Inserting an inactive entry at any position leaves the active prices as they were. */
  lemma {:induction false} InsertInactive(prices: seq<Price>, p: Price, k: nat)
    requires !p.isActive && k <= |prices|
    ensures ActivePrices(prices[..k] + [p] + prices[k..]) == ActivePrices(prices)
    decreases k
  {
    var grown := prices[..k] + [p] + prices[k..];
    if k == 0 {
      assert grown[1..] == prices;
    } else {
      var tail := prices[1..];
      assert grown[0] == prices[0];
      assert grown[1..] == tail[..k - 1] + [p] + tail[k - 1..];
      InsertInactive(tail, p, k - 1);
    }
  }
}
