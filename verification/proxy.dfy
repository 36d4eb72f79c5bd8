/** `proxyChatCompletion`: the ordered pipeline rate limit -> authorise -> balance
    check -> provider call -> usage row -> debit, over the four in-memory stores. */
module ProxyPipeline {
  import opened Wrappers
  import opened Errors
  import opened Decimal
  import opened UsageValue
  import opened PriceListAgg
  import opened UsageCostCalculator
  import opened UserAgg
  import opened BalanceCalculator
  import TransactionAgg
  import TransactionRepo
  import PriceListRepo
  import QuotaRepo
  import UserRepo
  import OrderedMap

  /** The repositories the use case reaches through the container. */
  datatype Gateway = Gateway(
    quotas: QuotaRepo.KeyedQuotaStore,
    users: UserRepo.UserStore,
    txs: TransactionRepo.TxStore,
    prices: PriceListRepo.PriceListStore)

  /** What the provider adapter does with a payload: answers with a response and
      the usage it reports; throws a value whose `message` is `message` ("" when
      that property is missing or empty); or rejects with `null` or `undefined`,
      where reading `error.message` in the catch block itself throws a TypeError
      whose engine-specific text is `typeError`. */
  datatype ProviderOutcome<R> =
    | Responded(response: R, usage: Usage)
    | ProviderFailed(message: string)
    | RejectedNullish(typeError: string)

  /** The ids the pipeline draws from `randomUUID`: one for a quota created for an
      unseen key, one for the usage row. */
  datatype ProxyFresh = ProxyFresh(quotaId: string, txId: string)

  datatype ProxyResult<R> = ProxyResult(outcome: Result<R, Thrown>, state: Gateway)

  const NoPriceListMessage: string := "Active PriceList not found."
  const NoPriceListForCostMessage: string := "Active PriceList not found for cost calculation."
  const UnknownProviderMessage: string := "Unknown provider error"
  const NonPositiveAmountMessage: string := "Amount must be positive."

  function Fail<R>(kind: DomainKind): Result<R, Thrown> {
    Failure(Domain(DomainError(kind, "")))
  }

  /** `error.message || "Unknown provider error"`. */
  function ProviderMessage(message: string): (m: string)
    ensures message != "" ==> m == message
    ensures m != ""
  {
    if message == "" then UnknownProviderMessage else message
  }

  /** The usage row step 5 writes for `cost`: COMPLETED, stamped now, cost negated.
      Its schema accepts it exactly when the usage is valid and the cost a positive
      safe integer. */
  function UsageRow(txId: string, userId: string, usage: Usage, cost: real, now: int): (row: TransactionAgg.Transaction)
    ensures row.id == txId && row.userId == userId && row.timestamp == now
    ensures row.status == TransactionAgg.Completed
    ensures TransactionAgg.ValidData(row.data) <==> ValidUsage(usage) && IsInt(cost) && cost > 0.0
  {
    NegatedIsInt(cost);
    TransactionAgg.Transaction(txId, userId, now, TransactionAgg.Completed, TransactionAgg.UsageCharge(usage, -cost))
  }

  /** Steps 5 and 6 once the usage has been priced at `cost`: write the usage row
      (its schema wants a valid usage and a negative whole cost), then debit. */
  function Record<R>(g: Gateway, user: User, response: R, usage: Usage, cost: real, txId: string, now: int): (r: ProxyResult<R>)
    ensures r.outcome.Success? <==> ValidUsage(usage) && IsInt(cost) && cost > 0.0
    ensures r.outcome.Success? ==> (
      && r.outcome.value == response
      && r.state.txs == TransactionRepo.Save(g.txs, UsageRow(txId, user.id, usage, cost, now))
      && DebitTokens(user, cost).Success?
      && r.state.users == UserRepo.Save(g.users, DebitTokens(user, cost).value))
    ensures r.outcome.Failure? ==> r.outcome == Failure(Zod([])) && r.state == g
    ensures r.state.quotas == g.quotas && r.state.prices == g.prices
  {
    NegatedIsInt(cost);
    match TransactionAgg.CreateUsage(txId, user.id, usage, -cost, now, TransactionAgg.Completed)
    case Failure(_) => ProxyResult(Failure(Zod([])), g)
    case Success(row) =>
      var written := g.(txs := TransactionRepo.Save(g.txs, row));
      match DebitTokens(user, cost)
      case Failure(_) => ProxyResult(Failure(Plain(NonPositiveAmountMessage)), written)
      case Success(debited) =>
        ProxyResult(Success(response), written.(users := UserRepo.Save(written.users, debited)))
  }

  /** Steps 4 to 6, once the user is authorised and has funds. */
  function Charge<R>(g: Gateway, user: User, answer: ProviderOutcome<R>, txId: string, now: int): (r: ProxyResult<R>)
    ensures answer.ProviderFailed? ==>
      r == ProxyResult(Failure(Domain(DomainError(ProviderFailure, ProviderMessage(answer.message)))), g)
    ensures answer.RejectedNullish? ==> r == ProxyResult(Failure(Plain(answer.typeError)), g)
    ensures answer.Responded? && |g.prices| == 0 ==> r == ProxyResult(Failure(Plain(NoPriceListForCostMessage)), g)
    ensures answer.Responded? && |g.prices| > 0 ==>
      r == Record(g, user, answer.response, answer.usage, Calculate(answer.usage, g.prices[0].value), txId, now)
  {
    match answer
    case ProviderFailed(message) =>
      ProxyResult(Failure(Domain(DomainError(ProviderFailure, ProviderMessage(message)))), g)
    case RejectedNullish(typeError) =>
      ProxyResult(Failure(Plain(typeError)), g)
    case Responded(response, usage) =>
      match PriceListRepo.FindActive(g.prices)
      case None => ProxyResult(Failure(Plain(NoPriceListForCostMessage)), g)
      case Some(priceList) => Record(g, user, response, usage, Calculate(usage, priceList), txId, now)
  }

  /** The whole use case for one request presenting `apiKey`. */
  function ProxyChatCompletion<P, R>(g: Gateway, apiKey: string, payload: P, provider: P -> ProviderOutcome<R>,
                                     hash: string -> string, f: ProxyFresh, now: int): (r: ProxyResult<R>)
    ensures r.state.prices == g.prices
    ensures r.outcome.Success? ==> provider(payload).Responded? && r.outcome.value == provider(payload).response
  {
    // 1. The quota is looked up under the raw API key.
    var gate := QuotaRepo.CheckAndIncrement(g.quotas, apiKey, f.quotaId, now);
    var counted := g.(quotas := gate.store);
    if !gate.allowed then ProxyResult(Fail(RateLimitExceeded), counted)
    else
      // 2. Authorise.
      match UserRepo.FindByApiKey(counted.users, apiKey, hash)
      case None => ProxyResult(Fail(InvalidApiKey), counted)
      case Some(user) =>
        // 3. The balance derived from the ledger alone.
        match CalculateFor(counted.txs, counted.prices, user.id)
        case Failure(_) => ProxyResult(Failure(Plain(NoPriceListMessage)), counted)
        case Success(balance) =>
          if balance <= 0.0 then ProxyResult(Fail(InsufficientFunds), counted)
          else Charge(counted, user, provider(payload), f.txId, now)
  }

  /** The gateway after step 1 only. */
  function AfterQuota(g: Gateway, apiKey: string, f: ProxyFresh, now: int): Gateway {
    g.(quotas := QuotaRepo.CheckAndIncrement(g.quotas, apiKey, f.quotaId, now).store)
  }

  /** Whether step 1 lets the request through. */
  predicate Admitted(g: Gateway, apiKey: string, f: ProxyFresh, now: int) {
    QuotaRepo.CheckAndIncrement(g.quotas, apiKey, f.quotaId, now).allowed
  }

  /** The ledger balance step 3 computes for `user`, given an active list. */
  function LedgerOf(g: Gateway, user: User): real
    requires |g.prices| > 0
  {
    LedgerBalance(TransactionRepo.FindAllByUserId(g.txs, user.id), g.prices[0].value)
  }

  /** Step 1 rejects: RateLimitExceeded, no store changes, and the provider plays
      no part (any other provider gives the same result). */
  lemma RateLimitedRequestTouchesNothing<P, R>(g: Gateway, apiKey: string, payload: P,
      provider: P -> ProviderOutcome<R>, other: P -> ProviderOutcome<R>, hash: string -> string, f: ProxyFresh, now: int)
    requires !Admitted(g, apiKey, f, now)
    ensures var r := ProxyChatCompletion(g, apiKey, payload, provider, hash, f, now);
      && r.outcome == Fail(RateLimitExceeded) && r.state == g
      && ProxyChatCompletion(g, apiKey, payload, other, hash, f, now) == r
  {
  }

  /** A key no user accepts: InvalidApiKey, decided only after the rate limit has
      counted the request; users and ledger unchanged, provider irrelevant. The
      quota store keeps an entry under the raw key even so. */
  lemma UnknownKeyIsRejected<P, R>(g: Gateway, apiKey: string, payload: P,
      provider: P -> ProviderOutcome<R>, other: P -> ProviderOutcome<R>, hash: string -> string, f: ProxyFresh, now: int)
    requires Admitted(g, apiKey, f, now)
    requires UserRepo.FindByApiKey(g.users, apiKey, hash).None?
    ensures var r := ProxyChatCompletion(g, apiKey, payload, provider, hash, f, now);
      && r.outcome == Fail(InvalidApiKey) && r.state == AfterQuota(g, apiKey, f, now)
      && r.state.users == g.users && r.state.txs == g.txs
      && QuotaRepo.FindByUserId(r.state.quotas, apiKey).Some?
      && ProxyChatCompletion(g, apiKey, payload, other, hash, f, now) == r
  {
  }

  /** A non-positive ledger balance: InsufficientFunds before the provider is
      consulted; users and ledger unchanged. */
  lemma NoFundsNoCall<P, R>(g: Gateway, apiKey: string, payload: P,
      provider: P -> ProviderOutcome<R>, other: P -> ProviderOutcome<R>, hash: string -> string, f: ProxyFresh, now: int)
    requires Admitted(g, apiKey, f, now)
    requires UserRepo.FindByApiKey(g.users, apiKey, hash).Some?
    requires |g.prices| > 0 && LedgerOf(g, UserRepo.FindByApiKey(g.users, apiKey, hash).value) <= 0.0
    ensures var r := ProxyChatCompletion(g, apiKey, payload, provider, hash, f, now);
      && r.outcome == Fail(InsufficientFunds) && r.state == AfterQuota(g, apiKey, f, now)
      && ProxyChatCompletion(g, apiKey, payload, other, hash, f, now) == r
  {
  }

  /** The balance check reads the ledger only: a user with no ledger rows is
      refused for lack of funds whatever their `tokenBalance` (the 1500 bonus of a
      fresh registration included). */
  lemma EmptyLedgerIsRefused<P, R>(g: Gateway, apiKey: string, payload: P,
      provider: P -> ProviderOutcome<R>, hash: string -> string, f: ProxyFresh, now: int)
    requires Admitted(g, apiKey, f, now)
    requires UserRepo.FindByApiKey(g.users, apiKey, hash).Some?
    requires |g.prices| > 0
    requires TransactionRepo.FindAllByUserId(g.txs, UserRepo.FindByApiKey(g.users, apiKey, hash).value.id) == []
    ensures ProxyChatCompletion(g, apiKey, payload, provider, hash, f, now).outcome == Fail(InsufficientFunds)
  {
    var user := UserRepo.FindByApiKey(g.users, apiKey, hash).value;
    EmptyLedgerIsZero(g.txs, g.prices, user.id);
  }

  /** No active price list at step 3: the calculator's plain error. */
  lemma NoPriceListIsInternal<P, R>(g: Gateway, apiKey: string, payload: P,
      provider: P -> ProviderOutcome<R>, hash: string -> string, f: ProxyFresh, now: int)
    requires Admitted(g, apiKey, f, now)
    requires UserRepo.FindByApiKey(g.users, apiKey, hash).Some?
    requires |g.prices| == 0
    ensures var r := ProxyChatCompletion(g, apiKey, payload, provider, hash, f, now);
      r.outcome == Failure(Plain(NoPriceListMessage)) && r.state == AfterQuota(g, apiKey, f, now)
  {
  }

  /** The provider throws: ProviderError carrying its message (or the default),
      and no ledger row nor user change is written. */
  lemma ProviderFailureWritesNothing<P, R>(g: Gateway, apiKey: string, payload: P,
      provider: P -> ProviderOutcome<R>, hash: string -> string, f: ProxyFresh, now: int)
    requires Admitted(g, apiKey, f, now)
    requires UserRepo.FindByApiKey(g.users, apiKey, hash).Some?
    requires |g.prices| > 0 && LedgerOf(g, UserRepo.FindByApiKey(g.users, apiKey, hash).value) > 0.0
    requires provider(payload).ProviderFailed?
    ensures var r := ProxyChatCompletion(g, apiKey, payload, provider, hash, f, now);
      && r.outcome == Failure(Domain(DomainError(ProviderFailure, ProviderMessage(provider(payload).message))))
      && r.state.users == g.users && r.state.txs == g.txs
  {
  }

  /** The provider rejects with `null` or `undefined`: the catch block's own
      TypeError escapes as a plain error instead of a ProviderError, and no ledger
      row nor user change is written. */
  lemma NullishRejectionIsPlain<P, R>(g: Gateway, apiKey: string, payload: P,
      provider: P -> ProviderOutcome<R>, hash: string -> string, f: ProxyFresh, now: int)
    requires Admitted(g, apiKey, f, now)
    requires UserRepo.FindByApiKey(g.users, apiKey, hash).Some?
    requires |g.prices| > 0 && LedgerOf(g, UserRepo.FindByApiKey(g.users, apiKey, hash).value) > 0.0
    requires provider(payload).RejectedNullish?
    ensures var r := ProxyChatCompletion(g, apiKey, payload, provider, hash, f, now);
      && r.outcome == Failure(Plain(provider(payload).typeError))
      && r.state.users == g.users && r.state.txs == g.txs
  {
  }

  /** Exactly when the request succeeds: admitted, authorised, positive ledger
      balance, a provider answer whose usage is valid, and a cost that is a
      positive whole number (the row schema demands a negative whole cost). */
  lemma SucceedsExactlyWhen<P, R>(g: Gateway, apiKey: string, payload: P,
      provider: P -> ProviderOutcome<R>, hash: string -> string, f: ProxyFresh, now: int)
    ensures ProxyChatCompletion(g, apiKey, payload, provider, hash, f, now).outcome.Success? <==> (
      && Admitted(g, apiKey, f, now)
      && UserRepo.FindByApiKey(g.users, apiKey, hash).Some?
      && |g.prices| > 0
      && LedgerOf(g, UserRepo.FindByApiKey(g.users, apiKey, hash).value) > 0.0
      && provider(payload).Responded?
      && ValidUsage(provider(payload).usage)
      && IsInt(Calculate(provider(payload).usage, g.prices[0].value))
      && Calculate(provider(payload).usage, g.prices[0].value) > 0.0)
  {
  }

  /** On success: one COMPLETED usage row with cost `-calculate(usage, active list)`
      is saved under the fresh id, the user is debited by that cost and saved, the
      provider's response is returned, and for a fresh id the user's ledger grows
      by exactly that row. */
  lemma SuccessWritesRowAndDebits<P, R>(g: Gateway, apiKey: string, payload: P,
      provider: P -> ProviderOutcome<R>, hash: string -> string, f: ProxyFresh, now: int)
    requires ProxyChatCompletion(g, apiKey, payload, provider, hash, f, now).outcome.Success?
    ensures UserRepo.FindByApiKey(g.users, apiKey, hash).Some? && |g.prices| > 0 && provider(payload).Responded?
    ensures var r := ProxyChatCompletion(g, apiKey, payload, provider, hash, f, now);
      var user := UserRepo.FindByApiKey(g.users, apiKey, hash).value;
      var usage := provider(payload).usage;
      var cost := Calculate(usage, g.prices[0].value);
      var row := UsageRow(f.txId, user.id, usage, cost, now);
      && r.outcome == Success(provider(payload).response)
      && r.state.txs == TransactionRepo.Save(g.txs, row)
      && UserRepo.FindById(r.state.users, user.id).Some?
      && UserRepo.FindById(r.state.users, user.id).value.tokenBalance == user.tokenBalance - cost
      && (forall id :: id != user.id ==> UserRepo.FindById(r.state.users, id) == UserRepo.FindById(g.users, id))
      && (!OrderedMap.Has(g.txs, f.txId) ==>
            TransactionRepo.FindAllByUserId(r.state.txs, user.id) == TransactionRepo.FindAllByUserId(g.txs, user.id) + [row])
  {
    SucceedsExactlyWhen(g, apiKey, payload, provider, hash, f, now);
    var user := UserRepo.FindByApiKey(g.users, apiKey, hash).value;
    var usage := provider(payload).usage;
    var cost := Calculate(usage, g.prices[0].value);
    var row := UsageRow(f.txId, user.id, usage, cost, now);
    if !OrderedMap.Has(g.txs, f.txId) {
      TransactionRepo.SaveNewAppends(g.txs, row);
    }
  }

  /** The sign: after a successful request with a fresh row id, the ledger balance
      the next request checks is HIGHER by the cost just charged, while the user's
      `tokenBalance` went down by it. */
  lemma SuccessRaisesLedgerBalance<P, R>(g: Gateway, apiKey: string, payload: P,
      provider: P -> ProviderOutcome<R>, hash: string -> string, f: ProxyFresh, now: int)
    requires ProxyChatCompletion(g, apiKey, payload, provider, hash, f, now).outcome.Success?
    requires !OrderedMap.Has(g.txs, f.txId)
    ensures UserRepo.FindByApiKey(g.users, apiKey, hash).Some? && |g.prices| > 0 && provider(payload).Responded?
    ensures var r := ProxyChatCompletion(g, apiKey, payload, provider, hash, f, now);
      var user := UserRepo.FindByApiKey(g.users, apiKey, hash).value;
      var cost := Calculate(provider(payload).usage, g.prices[0].value);
      && cost > 0.0
      && LedgerOf(r.state, user) == LedgerOf(g, user) + cost
      && UserRepo.FindById(r.state.users, user.id).value.tokenBalance == user.tokenBalance - cost
  {
    SuccessWritesRowAndDebits(g, apiKey, payload, provider, hash, f, now);
    SucceedsExactlyWhen(g, apiKey, payload, provider, hash, f, now);
    var user := UserRepo.FindByApiKey(g.users, apiKey, hash).value;
    var usage := provider(payload).usage;
    var pl := g.prices[0].value;
    RowRaisesLedger(g.txs, user.id, usage, Calculate(usage, pl), f.txId, now, pl);
  }

  /** Saving a fresh usage row for a user raises the user's ledger balance by
      the cost recomputed under the active list. */
  lemma RowRaisesLedger(txs: TransactionRepo.TxStore, userId: string, usage: Usage, cost: real, txId: string,
                        now: int, pl: PriceList)
    requires !OrderedMap.Has(txs, txId) && cost == Calculate(usage, pl)
    ensures LedgerBalance(TransactionRepo.FindAllByUserId(TransactionRepo.Save(txs, UsageRow(txId, userId, usage, cost, now)), userId), pl)
      == LedgerBalance(TransactionRepo.FindAllByUserId(txs, userId), pl) + cost
  {
    var row := UsageRow(txId, userId, usage, cost, now);
    TransactionRepo.SaveNewAppends(txs, row);
    AppendAddsContribution(TransactionRepo.FindAllByUserId(txs, userId), row, pl);
  }

  /** The unit-test prices (1000 and 2000 credits per million) and the mock usage
      (10 prompt, 20 completion tokens) cost 0.05, which is not a whole number, so
      the usage row fails its schema and the request ends in a ZodError with
      nothing written to the ledger or the user. */
  lemma FractionalCostFailsTheRowSchema<P, R>(g: Gateway, apiKey: string, payload: P,
      provider: P -> ProviderOutcome<R>, hash: string -> string, f: ProxyFresh, now: int, response: R)
    requires Admitted(g, apiKey, f, now)
    requires UserRepo.FindByApiKey(g.users, apiKey, hash).Some?
    requires |g.prices| > 0 && g.prices[0].value.prices == [Price("test-model", 1000.0, 2000.0, true)]
    requires LedgerOf(g, UserRepo.FindByApiKey(g.users, apiKey, hash).value) > 0.0
    requires provider(payload) == Responded(response, Usage(10.0, 20.0, "test-model"))
    ensures var r := ProxyChatCompletion(g, apiKey, payload, provider, hash, f, now);
      r.outcome == Failure(Zod([])) && r.state.txs == g.txs && r.state.users == g.users
  {
    var u := Usage(10.0, 20.0, "test-model");
    var pl := g.prices[0].value;
    assert IsFirstActiveMatch(pl.prices, "test-model", 0);
    CalculateChargesFirstActiveMatch(u, pl, 0);
    assert PriceCost(u, Some(pl.prices[0])) == 0.05;
    assert !IsInt(-0.05) by {
      assert (-0.05).Floor == -1;
    }
  }

  /** An unseen raw key always passes the rate limit, so presenting a new key
      string (a second key of the same user, or any junk) is never throttled on
      its first use: the limit is per key string, not per user. */
  lemma UnseenKeyIsAdmitted(g: Gateway, apiKey: string, f: ProxyFresh, now: int)
    requires !OrderedMap.Has(g.quotas, apiKey)
    ensures Admitted(g, apiKey, f, now)
  {
  }
}
