/** `UsageCostCalculator.calculate`: the credit cost of one usage record under a price list. */
module UsageCostCalculator {
  import opened Wrappers
  import opened UsageValue
  import opened PriceListAgg

  /** `Array.prototype.find` by model name: the first entry carrying `name`. */
  function FindByName(prices: seq<Price>, name: string): (r: Option<Price>)
    ensures r.None? <==> forall i :: 0 <= i < |prices| ==> prices[i].modelName != name
    ensures r.Some? ==> exists i :: (0 <= i < |prices| && prices[i] == r.value
      && prices[i].modelName == name && forall j :: 0 <= j < i ==> prices[j].modelName != name)
  {
    if |prices| == 0 then None
    else if prices[0].modelName == name then Some(prices[0])
    else
      var r := FindByName(prices[1..], name);
      assert forall i :: 1 <= i < |prices| ==> prices[i] == prices[1..][i - 1];
      assert r.Some? ==> exists i :: (1 <= i < |prices| && prices[i] == r.value
        && prices[i].modelName == name && forall j :: 0 <= j < i ==> prices[j].modelName != name) by {
        if r.Some? {
          var k :| 0 <= k < |prices[1..]| && prices[1..][k] == r.value
            && prices[1..][k].modelName == name && forall j :: 0 <= j < k ==> prices[1..][j].modelName != name;
          assert prices[k + 1] == r.value;
          assert forall j :: 1 <= j < k + 1 ==> prices[j] == prices[1..][j - 1];
        }
      }
      r
  }

  /** Entry `i` is the first ACTIVE entry named `name`; inactive entries before it,
      whatever their name, do not count. */
  predicate IsFirstActiveMatch(prices: seq<Price>, name: string, i: int) {
    && 0 <= i < |prices|
    && prices[i].isActive && prices[i].modelName == name
    && forall j :: 0 <= j < i ==> !(prices[j].isActive && prices[j].modelName == name)
  }

  predicate HasActiveMatch(prices: seq<Price>, name: string) {
    exists i :: 0 <= i < |prices| && prices[i].isActive && prices[i].modelName == name
  }

  /** Looking the name up among the active prices finds the first active match. */
  lemma {:induction false} FindActiveIsFirstActiveMatch(prices: seq<Price>, name: string, i: int)
    requires IsFirstActiveMatch(prices, name, i)
    ensures FindByName(ActivePrices(prices), name) == Some(prices[i])
  {
    var rest := ActivePrices(prices[1..]);
    if i == 0 {
      assert ActivePrices(prices) == [prices[0]] + rest;
    } else {
      assert IsFirstActiveMatch(prices[1..], name, i - 1) by {
        assert forall j :: 1 <= j < |prices| ==> prices[j] == prices[1..][j - 1];
      }
      FindActiveIsFirstActiveMatch(prices[1..], name, i - 1);
      if prices[0].isActive {
        assert prices[0].modelName != name;
        assert ActivePrices(prices) == [prices[0]] + rest;
        assert ActivePrices(prices)[1..] == rest;
      }
    }
  }

  lemma FindActiveMatches(prices: seq<Price>, name: string)
    ensures !HasActiveMatch(prices, name) ==> FindByName(ActivePrices(prices), name) == None
    ensures forall i :: IsFirstActiveMatch(prices, name, i) ==> FindByName(ActivePrices(prices), name) == Some(prices[i])
  {
    forall i | IsFirstActiveMatch(prices, name, i)
      ensures FindByName(ActivePrices(prices), name) == Some(prices[i])
    {
      FindActiveIsFirstActiveMatch(prices, name, i);
    }
    if !HasActiveMatch(prices, name) {
      var active := ActivePrices(prices);
      assert forall k :: 0 <= k < |active| ==> active[k] in prices && active[k].isActive;
    }
  }

  /** Every name with an active entry has a first one. */
  lemma FirstActiveMatchExists(prices: seq<Price>, name: string) returns (i: int)
    requires HasActiveMatch(prices, name)
    ensures IsFirstActiveMatch(prices, name, i)
  {
    var k :| 0 <= k < |prices| && prices[k].isActive && prices[k].modelName == name;
    i := 0;
    while !(prices[i].isActive && prices[i].modelName == name)
      invariant 0 <= i <= k
      invariant forall j :: 0 <= j < i ==> !(prices[j].isActive && prices[j].modelName == name)
      decreases k - i
    {
      i := i + 1;
    }
  }

  /** `calculate`: finds the usage's model among the active prices and charges
      prompt tokens at the input price and completion tokens at the output price,
      both per million tokens; an unpriced model costs nothing. */
  function Calculate(u: Usage, pl: PriceList): (r: real)
    ensures !HasActiveMatch(pl.prices, u.modelName) ==> r == 0.0
    ensures forall i :: IsFirstActiveMatch(pl.prices, u.modelName, i) ==> r == TariffCost(u, pl.prices[i])
  {
    var found := FindByName(GetActivePrices(pl), u.modelName);
    FindActiveMatches(pl.prices, u.modelName);
    PriceCost(u, found)
  }

  /** The arithmetic of `calculate` once the price entry has been looked up:
      dividing each token count by a million first gives exactly the tariff, and
      no entry costs nothing. */
  function PriceCost(u: Usage, found: Option<Price>): (r: real)
    ensures found.None? ==> r == 0.0
    ensures found.Some? ==> r == TariffCost(u, found.value)
  {
    match found
    case None => 0.0
    case Some(price) =>
      var inputCost := (u.promptTokens / 1000000.0) * price.inputPricePer1M;
      var outputCost := (u.completionTokens / 1000000.0) * price.outputPricePer1M;
      inputCost + outputCost
  }

  /** The tariff as the price list states it: prompt tokens at the input price and
      completion tokens at the output price, both per million tokens. */
  function TariffCost(u: Usage, p: Price): real {
    (u.promptTokens * p.inputPricePer1M + u.completionTokens * p.outputPricePer1M) / 1000000.0
  }

  /** With a match, `calculate` charges the first active entry's prices. */
  lemma CalculateChargesFirstActiveMatch(u: Usage, pl: PriceList, i: int)
    requires IsFirstActiveMatch(pl.prices, u.modelName, i)
    ensures Calculate(u, pl) == PriceCost(u, Some(pl.prices[i]))
  {
    FindActiveMatches(pl.prices, u.modelName);
  }

  lemma PriceCostNonNegative(u: Usage, p: Price)
    requires u.promptTokens >= 0.0 && u.completionTokens >= 0.0
    requires p.inputPricePer1M >= 0.0 && p.outputPricePer1M >= 0.0
    ensures PriceCost(u, Some(p)) >= 0.0
  {
    MulNonNegative(u.promptTokens / 1000000.0, p.inputPricePer1M);
    MulNonNegative(u.completionTokens / 1000000.0, p.outputPricePer1M);
  }

  lemma MulNonNegative(x: real, y: real)
    requires x >= 0.0 && y >= 0.0
    ensures x * y >= 0.0
  {
  }

  /** With non-negative token counts and non-negative prices on the matched entry,
      the cost is never negative. */
  lemma CostNonNegative(u: Usage, pl: PriceList)
    requires u.promptTokens >= 0.0 && u.completionTokens >= 0.0
    requires forall i :: (0 <= i < |pl.prices| && pl.prices[i].isActive && pl.prices[i].modelName == u.modelName
      ==> pl.prices[i].inputPricePer1M >= 0.0 && pl.prices[i].outputPricePer1M >= 0.0)
    ensures Calculate(u, pl) >= 0.0
  {
    if HasActiveMatch(pl.prices, u.modelName) {
      var i := FirstActiveMatchExists(pl.prices, u.modelName);
      CalculateChargesFirstActiveMatch(u, pl, i);
      PriceCostNonNegative(u, pl.prices[i]);
    }
  }

  /** A usage with no tokens costs nothing, whatever the prices. */
  lemma ZeroTokensCostNothing(u: Usage, pl: PriceList)
    requires u.promptTokens == 0.0 && u.completionTokens == 0.0
    ensures Calculate(u, pl) == 0.0
  {
    if HasActiveMatch(pl.prices, u.modelName) {
      var i := FirstActiveMatchExists(pl.prices, u.modelName);
    }
  }

  /** Inserting an inactive entry anywhere in the list, even one that carries the
      usage's model name, leaves the cost unchanged. */
  lemma InactiveEntryIrrelevant(u: Usage, pl: PriceList, p: Price, k: nat)
    requires !p.isActive && k <= |pl.prices|
    ensures Calculate(u, pl.(prices := pl.prices[..k] + [p] + pl.prices[k..])) == Calculate(u, pl)
  {
    var grown := pl.(prices := pl.prices[..k] + [p] + pl.prices[k..]);
    InsertInactive(pl.prices, p, k);
    assert GetActivePrices(grown) == GetActivePrices(pl);
  }
}
