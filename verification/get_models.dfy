/** `getModelsList`: the active price list as an OpenAI-style model list. */
module GetModels {
  import opened Wrappers
  import opened Decimal
  import opened PriceListAgg
  import PriceListRepo

  datatype ModelPricing = ModelPricing(prompt: string, completion: string)

  /** One `ModelDto`; `created` is in seconds. */
  datatype ModelDto = ModelDto(id: string, objectType: string, created: int, ownedBy: string, pricing: ModelPricing)

  datatype ModelList = ModelList(objectType: string, data: seq<ModelDto>)

  const PricingSuffix: string := " Credits/1M tokens"

  /** `s.split("/")[0]`: the text before the first "/", or all of `s` without one. */
  function FirstSegment(s: string): (r: string)
    ensures |r| <= |s| && r == s[..|r|]
    ensures forall i :: 0 <= i < |r| ==> r[i] != '/'
    ensures |r| < |s| ==> s[|r|] == '/'
  {
    if |s| == 0 || s[0] == '/' then ""
    else [s[0]] + FirstSegment(s[1..])
  }

  /** `split("/")[0] || "unknown"`: the owner is the first path segment, and an
      empty segment (a name starting with "/", or the empty name) is "unknown". */
  function OwnedBy(modelName: string): (r: string)
    ensures FirstSegment(modelName) != "" ==> r == FirstSegment(modelName)
    ensures FirstSegment(modelName) == "" ==> r == "unknown"
    ensures r != ""
  {
    var head := FirstSegment(modelName);
    if head == "" then "unknown" else head
  }

  /** `${price.toFixed(2)} Credits/1M tokens`: the two-decimal price, then the unit. */
  function PricingText(price: real): (t: string)
    ensures |t| > |PricingSuffix| && t[|t| - |PricingSuffix|..] == PricingSuffix
    ensures t[..|t| - |PricingSuffix|] == ToFixed2(price)
    ensures price >= 0.0 ==> IsDigit(t[0])
  {
    ToFixed2(price) + PricingSuffix
  }

  /** For a whole price `n` the text is "n.00 Credits/1M tokens". */
  lemma PricingTextOfInteger(price: real)
    requires IsInt(price)
    ensures PricingText(price) == IntToString(price.Floor) + ".00" + PricingSuffix
  {
    ToFixed2OfInteger(price);
  }

  /** The DTO for one price at time `nowMs` (milliseconds). */
  function ToDto(p: Price, nowMs: int): (d: ModelDto)
    ensures d.id == p.modelName && d.objectType == "model" && d.ownedBy == OwnedBy(p.modelName)
    ensures d.created * 1000 <= nowMs < d.created * 1000 + 1000
    ensures d.pricing == ModelPricing(PricingText(p.inputPricePer1M), PricingText(p.outputPricePer1M))
  {
    ModelDto(p.modelName, "model", nowMs / 1000, OwnedBy(p.modelName),
      ModelPricing(PricingText(p.inputPricePer1M), PricingText(p.outputPricePer1M)))
  }

  function ToDtos(prices: seq<Price>, nowMs: int): (ds: seq<ModelDto>)
    ensures |ds| == |prices|
    ensures forall i :: 0 <= i < |prices| ==> ds[i] == ToDto(prices[i], nowMs)
  {
    if |prices| == 0 then [] else [ToDto(prices[0], nowMs)] + ToDtos(prices[1..], nowMs)
  }

  /** `getModelsList()` at time `nowMs`: an empty list without an active price
      list, otherwise one DTO per active price, in price-list order. */
  function GetModelsList(store: PriceListRepo.PriceListStore, nowMs: int): (r: ModelList)
    ensures r.objectType == "list"
    ensures |store| == 0 ==> r.data == []
    ensures |store| > 0 ==> (
      var active := GetActivePrices(store[0].value);
      && |r.data| == |active|
      && forall i :: 0 <= i < |active| ==> r.data[i] == ToDto(active[i], nowMs))
  {
    match PriceListRepo.FindActive(store)
    case None => ModelList("list", [])
    case Some(priceList) => ModelList("list", ToDtos(GetActivePrices(priceList), nowMs))
  }

  /** Every listed model is an active entry of the active list, and every active
      entry is listed: inactive models never appear. */
  lemma ListedExactlyTheActiveModels(store: PriceListRepo.PriceListStore, nowMs: int, name: string)
    requires |store| > 0
    ensures (exists i :: 0 <= i < |GetModelsList(store, nowMs).data| && GetModelsList(store, nowMs).data[i].id == name)
      <==> (exists p :: p in store[0].value.prices && p.isActive && p.modelName == name)
  {
    var active := GetActivePrices(store[0].value);
    var data := GetModelsList(store, nowMs).data;
    assert data == ToDtos(active, nowMs);
    DtoIdsAreModelNames(active, nowMs);
    assert forall p :: p in active <==> p in store[0].value.prices && p.isActive;
  }

  /** The DTO list names the models of the prices, one for one. */
  lemma DtoIdsAreModelNames(prices: seq<Price>, nowMs: int)
    ensures |ToDtos(prices, nowMs)| == |prices|
    ensures forall i :: 0 <= i < |prices| ==> ToDtos(prices, nowMs)[i].id == prices[i].modelName
  {
  }

  /** The first segment of "a/b" is `a` when `a` has no slash. */
  lemma {:induction false} FirstSegmentOfPath(a: string, b: string)
    requires forall i :: 0 <= i < |a| ==> a[i] != '/'
    ensures FirstSegment(a + "/" + b) == a
    decreases |a|
  {
    if |a| > 0 {
      assert (a + "/" + b)[1..] == a[1..] + "/" + b;
      FirstSegmentOfPath(a[1..], b);
    }
  }

  /** A name without a slash is its own first segment, so a non-empty one is its
      own owner. */
  lemma {:induction false} FirstSegmentWithoutSlash(a: string)
    requires forall i :: 0 <= i < |a| ==> a[i] != '/'
    ensures FirstSegment(a) == a
    ensures |a| > 0 ==> OwnedBy(a) == a
    decreases |a|
  {
    if |a| > 0 {
      FirstSegmentWithoutSlash(a[1..]);
    }
  }

  /** The owner of "openrouter/openai/gpt-4o" is "openrouter". */
  lemma OwnedByExample()
    ensures OwnedBy("openrouter/openai/gpt-4o") == "openrouter"
  {
    assert "openrouter/openai/gpt-4o" == "openrouter" + "/" + "openai/gpt-4o";
    FirstSegmentOfPath("openrouter", "openai/gpt-4o");
  }

  /** A name starting with "/" is owned by "unknown". */
  lemma LeadingSlashIsUnknown(rest: string)
    ensures OwnedBy("/" + rest) == "unknown"
  {
  }

  /** The unit-test price of 350 credits prints as "350.00 Credits/1M tokens". */
  lemma PricingExample()
    ensures PricingText(350.0) == "350.00 Credits/1M tokens"
  {
    assert (350.0).Floor == 350;
    PricingTextOfInteger(350.0);
    ThreeFiftyText();
  }

  /** The decimal digits of 350, followed by ".00" and the unit. */
  lemma ThreeFiftyText()
    ensures IntToString(350) + ".00" + PricingSuffix == "350.00 Credits/1M tokens"
  {
    assert NatToString(350) == "350" by {
      assert NatToString(3) == "3";
      assert NatToString(35) == NatToString(3) + [DigitChar(5)];
    }
  }
}
