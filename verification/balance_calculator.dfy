/** `BalanceCalculator.calculateFor`: a user's balance derived from the ledger,
    with usage rows re-priced against the current active price list. */
module BalanceCalculator {
  import opened Wrappers
  import opened UsageValue
  import opened PriceListAgg
  import opened UsageCostCalculator
  import opened TransactionAgg
  import opened TransactionRepo
  import opened PriceListRepo

  datatype BalanceError = NoActivePriceList   // "Active PriceList not found."

  /** What one row adds to the running balance. Only COMPLETED rows count; a
      usage row adds the cost recomputed now, not its stored `costCredits`, and
      adds it as computed (a non-negative number for ordinary prices). */
  function Contribution(t: Transaction, pl: PriceList): real {
    if t.status != Completed then 0.0
    else
      match t.data
      case TopUp(amount) => amount
      case UsageCharge(usage, _) => Calculate(usage, pl)
  }

  /** The fold `balance += contribution` over the rows, in order. */
  function LedgerBalance(txs: seq<Transaction>, pl: PriceList): real {
    if |txs| == 0 then 0.0
    else LedgerBalance(txs[..|txs| - 1], pl) + Contribution(txs[|txs| - 1], pl)
  }

  /** The loop of `calculateFor` over an already loaded list of rows. */
  method SumLedger(txs: seq<Transaction>, pl: PriceList) returns (balance: real)
    ensures balance == LedgerBalance(txs, pl)
  {
    balance := 0.0;
    var i := 0;
    while i < |txs|
      invariant 0 <= i <= |txs|
      invariant balance == LedgerBalance(txs[..i], pl)
    {
      var t := txs[i];
      assert txs[..i + 1][..i] == txs[..i];
      if t.status == Completed {
        match t.data {
          case TopUp(amount) =>
            balance := balance + amount;
          case UsageCharge(usage, _) =>
            var cost := Calculate(usage, pl);
            balance := balance + cost;
        }
      }
      i := i + 1;
    }
    assert txs[..|txs|] == txs;
  }

  /** `calculateFor`: fails when no price list is active, otherwise folds the
      user's rows against the active list. */
  function CalculateFor(txs: TxStore, prices: PriceListStore, userId: string): (r: Result<real, BalanceError>)
    ensures r.Failure? <==> |prices| == 0
    ensures r.Success? ==> r.value == LedgerBalance(FindAllByUserId(txs, userId), prices[0].value)
  {
    match FindActive(prices)
    case None => Failure(NoActivePriceList)
    case Some(pl) => Success(LedgerBalance(FindAllByUserId(txs, userId), pl))
  }

  /** The balance of a concatenation is the sum of the balances: every row
      contributes independently of its neighbours. */
  lemma {:induction false} LedgerBalanceConcat(a: seq<Transaction>, b: seq<Transaction>, pl: PriceList)
    ensures LedgerBalance(a + b, pl) == LedgerBalance(a, pl) + LedgerBalance(b, pl)
    decreases |b|
  {
    if |b| == 0 {
      assert a + b == a;
    } else {
      var init := b[..|b| - 1];
      assert (a + b)[..|a + b| - 1] == a + init;
      assert (a + b)[|a + b| - 1] == b[|b| - 1];
      LedgerBalanceConcat(a, init, pl);
    }
  }

  /** Appending a row adds exactly its contribution. */
  lemma AppendAddsContribution(txs: seq<Transaction>, t: Transaction, pl: PriceList)
    ensures LedgerBalance(txs + [t], pl) == LedgerBalance(txs, pl) + Contribution(t, pl)
  {
    assert (txs + [t])[..|txs|] == txs;
  }

  /** PENDING and FAILED rows never move the balance, whatever they carry. */
  lemma UnsettledRowsAreIgnored(txs: seq<Transaction>, t: Transaction, pl: PriceList)
    requires t.status != Completed
    ensures LedgerBalance(txs + [t], pl) == LedgerBalance(txs, pl)
  {
    AppendAddsContribution(txs, t, pl);
  }

  /** A COMPLETED top-up adds exactly its amount. */
  lemma CompletedTopUpAddsAmount(txs: seq<Transaction>, t: Transaction, pl: PriceList)
    requires t.status == Completed && t.data.TopUp?
    ensures LedgerBalance(txs + [t], pl) == LedgerBalance(txs, pl) + t.data.amountCredits
  {
    AppendAddsContribution(txs, t, pl);
  }

  /** A COMPLETED usage row adds the cost recomputed under `pl`; the stored
      `costCredits` plays no part, so two rows that differ only there weigh the same. */
  lemma CompletedUsageAddsRecomputedCost(txs: seq<Transaction>, t: Transaction, stored: real, pl: PriceList)
    requires t.status == Completed && t.data.UsageCharge?
    ensures LedgerBalance(txs + [t], pl) == LedgerBalance(txs, pl) + Calculate(t.data.usageData, pl)
    ensures LedgerBalance(txs + [t.(data := t.data.(costCredits := stored))], pl) == LedgerBalance(txs + [t], pl)
  {
    AppendAddsContribution(txs, t, pl);
    AppendAddsContribution(txs, t.(data := t.data.(costCredits := stored)), pl);
  }

  /** The sign: a COMPLETED usage row whose model has non-negative prices RAISES
      the derived balance (or leaves it), although the stored cost of such a row
      is negative. Charging for usage never lowers the ledger balance. */
  lemma UsageNeverLowersBalance(txs: seq<Transaction>, t: Transaction, pl: PriceList)
    requires t.status == Completed && t.data.UsageCharge?
    requires t.data.usageData.promptTokens >= 0.0 && t.data.usageData.completionTokens >= 0.0
    requires forall p :: p in pl.prices ==> p.inputPricePer1M >= 0.0 && p.outputPricePer1M >= 0.0
    ensures LedgerBalance(txs + [t], pl) >= LedgerBalance(txs, pl)
  {
    AppendAddsContribution(txs, t, pl);
    CostNonNegative(t.data.usageData, pl);
  }

  /** A top-up of 500 and a COMPLETED usage row stored at -50 whose usage is
      re-priced at 50 give 550, not the 450 that subtracting the charge would give. */
  lemma TopUpAndUsageExample(pl: PriceList)
    requires pl.prices == [Price("m", 1000000.0, 2000000.0, true)]
    ensures LedgerBalance([
      Transaction("t1", "u", 0, Completed, TopUp(500.0)),
      Transaction("t2", "u", 1, Completed, UsageCharge(Usage(10.0, 20.0, "m"), -50.0))], pl) == 550.0
  {
    var u := Usage(10.0, 20.0, "m");
    assert IsFirstActiveMatch(pl.prices, "m", 0);
    CalculateChargesFirstActiveMatch(u, pl, 0);
    var txs := [
      Transaction("t1", "u", 0, Completed, TopUp(500.0)),
      Transaction("t2", "u", 1, Completed, UsageCharge(u, -50.0))];
    assert PriceCost(u, Some(pl.prices[0])) == 50.0;
    assert Contribution(txs[1], pl) == 50.0;
    assert txs[..1][..0] == [];
    assert LedgerBalance(txs[..1], pl) == 500.0;
  }

  /** No rows, no balance. */
  lemma EmptyLedgerIsZero(txs: TxStore, prices: PriceListStore, userId: string)
    requires |prices| > 0 && FindAllByUserId(txs, userId) == []
    ensures CalculateFor(txs, prices, userId) == Success(0.0)
  {
  }
}
