# llmrouter metering and billing, modelled in Dafny

This project models the metering and billing core of the llmrouter gateway, an
HTTP proxy that forwards chat completions to an LLM provider and charges users in
credits. The model covers:

- the `Usage` value object;
- the `PriceList` aggregate and the usage cost calculator;
- the `Transaction` aggregate, with its PENDING → COMPLETED | FAILED status machine;
- the balance calculator, which folds a user's ledger;
- the `Quota` aggregate and the fixed-window rate limiter of the in-memory quota
  repository;
- the `User` aggregate: API keys (at most five ACTIVE), debit and credit with
  `isLocked = balance < 0`, key validation by hash, and the overridden `User.create`;
- the four in-memory repositories;
- the use cases `proxyChatCompletion`, `registerUser`, `revokeAndGenerateApiKey`
  and `getModelsList`;
- the request handling of `createApiHandler`: how it merges the input and how it
  classifies errors.

Everything is stated over immutable datatypes and pure functions. The source
relies on outside effects; in the model they become parameters:

- The SHA-256 key hash is an uninterpreted `hash: string -> string`.
- Every `randomUUID` value and clock reading is an explicit argument. The records
  `KeyFresh`, `CreateFresh` and `ProxyFresh` hold the UUIDs; `now` is in
  milliseconds.
- The LLM provider is a function `provider: P -> ProviderOutcome<R>`. It returns
  either a response with its usage, or a failure with a message. "The provider is
  not called" is stated as independence: any other provider gives the same result.
- The error catalogue (each domain error's code, message, type and param) is the
  parameter `describe` of the HTTP handler.

JavaScript numbers are exact `real`s. zod 4's `.int()` accepts only safe integers
(whole numbers of magnitude at most 2^53 − 1), and `Decimal.IsInt` states exactly
that, so a whole number of 2^53 or more fails the schema, as it does in the source
(`Decimal.TwoToThe53IsNotInt`). The `int`-typed fields that zod checks with `.int()`
(the telegram id and the quota count) carry the same bound through `Decimal.IsSafe`.
Counts and timestamps are `int`. A JavaScript `Map` is `OrderedMap.Store`:
entries in insertion order with distinct keys, and `set` on a present key replaces
the value where it stands.

The model keeps these behaviours of the code as written, and lemmas expose them:

- The balance calculator adds the recomputed (non-negative) usage cost, so a
  charge raises the ledger balance.
  - `BalanceCalculator.UsageNeverLowersBalance` shows this for the fold.
  - `ProxyPipeline.SuccessRaisesLedgerBalance` shows it for a completed request.
- The balance check reads only the ledger, while a successful request also debits
  `tokenBalance`. A user with no ledger rows is therefore refused
  (`ProxyPipeline.EmptyLedgerIsRefused`).
- The usage row demands a negative safe-integer cost. A fractional or zero cost ends the
  request in a schema error after the provider has answered
  (`ProxyPipeline.SucceedsExactlyWhen`, `ProxyPipeline.FractionalCostFailsTheRowSchema`).
- The rate limit is keyed by the raw API key string, not by the user
  (`ProxyPipeline.UnseenKeyIsAdmitted`).
- The schema bound `tokenBalance >= 0` conflicts with debiting below zero
  (`UserAgg.DebitCanBreakSchema`).

Where the repository's own tests disagree with the code, the model follows the code:

- src/application/use-cases/register-user.cmd.spec.ts:32 expects a new user's
  balance to be 10000. The code gives 1500 (src/domain/user.agg.ts:183).
- src/infra/api/server.test.ts:27 expects "RUB/1M tokens". The code writes
  " Credits/1M tokens" (src/application/use-cases/get-models.query.ts:40-45).
- src/application/use-cases/proxy-chat-completion.cmd.spec.ts:73-119 expects a
  request at cost 0.05 to succeed and leave a balance of 9950 for a user with no
  ledger rows. The code refuses that request twice over: the ledger-only balance
  check refuses a user without rows (`ProxyPipeline.EmptyLedgerIsRefused`), and a
  fractional cost fails the usage row's schema
  (`ProxyPipeline.FractionalCostFailsTheRowSchema`).
- src/application/use-cases/proxy-chat-completion.cmd.spec.ts:170-189 expects a
  ProviderError for a user with no ledger rows. The code throws
  InsufficientFundsError at src/application/use-cases/proxy-chat-completion.cmd.ts:49-50,
  before the provider is called (`ProxyPipeline.EmptyLedgerIsRefused`).

## Model

| member | source | states |
|---|---|---|
| UsageValue.ValidUsage | src/domain/usage.vo.ts:7-11 | `UsageSchema`: both token counts are safe integers ≥ 0 and the model name is non-empty (a definition; `UsageIssues` and `CreateUsage` state what it decides) |
| UsageValue.UsageIssues | src/domain/usage.vo.ts:7-11 | each field is reported iff it breaks its rule: prompt and completion tokens safe integers ≥ 0, model name non-empty; no issue iff the usage is valid |
| UsageValue.CreateUsage | src/domain/usage.vo.ts:18-20 | succeeds iff the usage is valid, then returns the input unchanged; a failure names exactly the offending fields |
| PriceListAgg.ActivePrices | src/domain/pricelist.agg.ts:52 | an entry is in the result iff it is in the list and active; the result is no longer than the list, and equally long iff every entry is active |
| PriceListAgg.GetActivePrices | src/domain/pricelist.agg.ts:51-53 | a price is returned iff it is an active entry of the list, and the result is a subsequence of the list, so list order is kept |
| PriceListAgg.ActivePricesIsSubsequence | src/domain/pricelist.agg.ts:52 | the active prices are a subsequence of the list: relative order is kept |
| PriceListAgg.ActivePricesConcat | src/domain/pricelist.agg.ts:52 | filtering a concatenation is the concatenation of the filtered parts |
| PriceListAgg.InsertInactive | src/domain/pricelist.agg.ts:52 | inserting an inactive entry anywhere leaves the active prices unchanged |
| UsageCostCalculator.FindByName | src/domain/services/usage-cost-calculator.ts:7-9 | `find` by model name: none iff no entry has the name, otherwise the first entry that has it |
| UsageCostCalculator.FindActiveIsFirstActiveMatch | src/domain/services/usage-cost-calculator.ts:7-9 | looking the name up among the active prices yields the first ACTIVE entry of the whole list with that name |
| UsageCostCalculator.FindActiveMatches | src/domain/services/usage-cost-calculator.ts:7-15 | the lookup finds nothing when no active entry has the name, even if an inactive one does, and otherwise finds the first active match |
| UsageCostCalculator.FirstActiveMatchExists | src/domain/services/usage-cost-calculator.ts:7-9 | a name with some active entry has a first active entry |
| UsageCostCalculator.Calculate | src/domain/services/usage-cost-calculator.ts:6-21 | 0 when no active entry has the usage's model; otherwise exactly the tariff (prompt·input + completion·output) / 1 000 000 at the first active match's prices |
| UsageCostCalculator.PriceCost | src/domain/services/usage-cost-calculator.ts:13-20 | no entry costs 0; with an entry, dividing each count by a million before multiplying gives exactly the tariff (prompt·input + completion·output) / 1 000 000 |
| UsageCostCalculator.CalculateChargesFirstActiveMatch | src/domain/services/usage-cost-calculator.ts:17-20 | with duplicate names, the first active entry's prices are the ones charged |
| UsageCostCalculator.PriceCostNonNegative | src/domain/services/usage-cost-calculator.ts:17-20 | non-negative token counts at non-negative prices cost ≥ 0 |
| UsageCostCalculator.CostNonNegative | src/domain/services/usage-cost-calculator.ts:17-20 | the cost is ≥ 0 whenever the token counts are ≥ 0 and every active entry for the model has non-negative prices |
| UsageCostCalculator.ZeroTokensCostNothing | src/domain/services/usage-cost-calculator.ts:17-20 | zero tokens cost 0 whatever the prices |
| UsageCostCalculator.InactiveEntryIrrelevant | src/domain/services/usage-cost-calculator.ts:7-9 | inserting an inactive entry anywhere in the list, even one with the usage's model name, leaves the cost unchanged |
| TransactionAgg.ValidData | src/domain/transaction.agg.ts:21-31 | `TransactionDataSchema`: a top-up amount is a positive safe integer; a usage row has a valid usage and a negative safe-integer cost (a definition; `NewTransaction` states what it decides) |
| TransactionAgg.NewTransaction | src/domain/transaction.agg.ts:49-52 | construction succeeds iff the data passes the schema (a top-up is a positive safe integer; a usage row has a valid usage and a negative safe-integer cost) and then keeps the props unchanged |
| TransactionAgg.CreateTopUp | src/domain/transaction.agg.ts:54-66 | succeeds iff the amount is a positive safe integer; the row carries the given id, user, time and status (PENDING by default) |
| TransactionAgg.CreateUsage | src/domain/transaction.agg.ts:68-81 | succeeds iff the usage is valid and the cost is a negative safe integer; the status is COMPLETED by default |
| TransactionAgg.Complete | src/domain/transaction.agg.ts:87-93 | succeeds iff the row is PENDING; the result is COMPLETED with id, user, time and data unchanged |
| TransactionAgg.Fail | src/domain/transaction.agg.ts:95-101 | succeeds iff the row is PENDING; the result is FAILED with id, user, time and data unchanged |
| TransactionAgg.TerminalStatusesAreFinal | src/domain/transaction.agg.ts:87-101 | from COMPLETED or FAILED, no sequence of `complete`/`fail` calls changes the row |
| TransactionAgg.StatusMachineKeepsPayload | src/domain/transaction.agg.ts:87-101 | no sequence of status operations changes id, user, time or data; from PENDING, the first operation decides the final status |
| TransactionRepo.Save | src/infra/in-memory-transaction.repo.ts:8-10 | upsert by id: the id reads back the row, and every other id is unchanged |
| TransactionRepo.RowsOf | src/infra/in-memory-transaction.repo.ts:13-15 | a row is kept iff it belongs to the user |
| TransactionRepo.RowsOfConcat | src/infra/in-memory-transaction.repo.ts:13-15 | selecting a user's rows distributes over concatenation |
| TransactionRepo.RowsOfPointwise | src/infra/in-memory-transaction.repo.ts:13-15 | swapping rows that belong to other users leaves a user's rows unchanged |
| TransactionRepo.FindAllByUserId | src/infra/in-memory-transaction.repo.ts:12-16 | a row is returned iff it is stored and has that user id |
| TransactionRepo.SaveKeepsOtherUsers | src/infra/in-memory-transaction.repo.ts:8-16 | saving a row for one user never changes another user's list (when the replaced row was not theirs) |
| TransactionRepo.SaveNewAppends | src/infra/in-memory-transaction.repo.ts:8-16 | saving under a new id appends exactly that row to its user's list |
| TransactionRepo.ClearAll | src/infra/in-memory-transaction.repo.ts:19-21 | after `clear` every user's list is empty |
| PriceListRepo.FindActive | src/infra/in-memory-pricelist.repo.ts:7-10 | null iff the store is empty, otherwise the earliest-inserted list |
| PriceListRepo.Add | src/infra/in-memory-pricelist.repo.ts:13-15 | the list is stored under its id, and every other id reads back what it did before |
| PriceListRepo.AddNewKeepsActive | src/infra/in-memory-pricelist.repo.ts:9-15 | in a non-empty store, adding a list with a new id never changes which list is active |
| PriceListRepo.ReAddKeepsPosition | src/infra/in-memory-pricelist.repo.ts:13-15 | re-adding a known id keeps every entry's position; the replaced list stays active if it was |
| PriceListRepo.AddToEmptyActivates | src/infra/in-memory-pricelist.repo.ts:9-15 | a list added to an empty store becomes the active one |
| PriceListRepo.ClearAll | src/infra/in-memory-pricelist.repo.ts:17-19 | after `clear` no list is active |
| OrderedMap.Get | src/infra/in-memory-quota.repo.ts:9-11 | `map.get`: none iff the key is absent, otherwise the value stored under it |
| OrderedMap.Set | src/infra/in-memory-user.repo.ts:6-8 | `map.set`: a present key keeps its position and gets the new value; an absent key is appended |
| OrderedMap.SetThenGet | src/infra/in-memory-user.repo.ts:6-12 | after `set(k, v)`, `k` reads `v` and every other key reads as before |
| OrderedMap.Values | src/infra/in-memory-transaction.repo.ts:13 | the values in insertion order |
| OrderedMap.FirstValue | src/infra/in-memory-pricelist.repo.ts:9 | the earliest-inserted value, none iff empty |
| OrderedMap.Clear | src/infra/in-memory-user.repo.ts:24-26 | `clear` leaves no entry |
| BalanceCalculator.Contribution | src/domain/services/balance-calculator.ts:34-46 | what one row adds: 0 unless COMPLETED, the amount of a top-up, the recomputed cost of a usage row (a definition; `UnsettledRowsAreIgnored`, `CompletedTopUpAddsAmount` and `CompletedUsageAddsRecomputedCost` state it) |
| BalanceCalculator.LedgerBalance | src/domain/services/balance-calculator.ts:31-50 | the fold of the contributions in row order (a definition; `SumLedger`, `LedgerBalanceConcat` and `AppendAddsContribution` fix its meaning) |
| BalanceCalculator.SumLedger | src/domain/services/balance-calculator.ts:31-50 | the loop computes the ledger fold: the sum of every row's contribution |
| BalanceCalculator.CalculateFor | src/domain/services/balance-calculator.ts:22-51 | fails iff no price list is active; otherwise it is the fold of the user's rows against the active list |
| BalanceCalculator.LedgerBalanceConcat | src/domain/services/balance-calculator.ts:33-48 | the balance of a concatenation is the sum of the balances of its parts |
| BalanceCalculator.AppendAddsContribution | src/domain/services/balance-calculator.ts:33-48 | appending a row adds exactly its contribution |
| BalanceCalculator.UnsettledRowsAreIgnored | src/domain/services/balance-calculator.ts:34 | PENDING and FAILED rows add 0 |
| BalanceCalculator.CompletedTopUpAddsAmount | src/domain/services/balance-calculator.ts:35-36 | a COMPLETED top-up adds exactly its amount |
| BalanceCalculator.CompletedUsageAddsRecomputedCost | src/domain/services/balance-calculator.ts:37-45 | a COMPLETED usage row adds `calculate(usage, active list)`; its stored cost plays no part |
| BalanceCalculator.UsageNeverLowersBalance | src/domain/services/balance-calculator.ts:41-45 | with non-negative prices, a COMPLETED usage row never lowers the balance, although the comment calls the cost negative |
| BalanceCalculator.TopUpAndUsageExample | src/domain/services/balance-calculator.ts:33-48 | a 500 top-up plus a usage row stored at −50 and re-priced at 50 gives 550 |
| BalanceCalculator.EmptyLedgerIsZero | src/domain/services/balance-calculator.ts:31-50 | no rows give a balance of 0 |
| QuotaAgg.ValidQuota | src/domain/quota.agg.ts:27-35 | `QuotaPropsSchema` on the count: a safe integer ≥ 0 (a definition; `Restore` states what it decides) |
| QuotaAgg.Restore | src/domain/quota.agg.ts:73-75 | succeeds iff the count is a safe integer ≥ 0, and then gives back the props unchanged |
| QuotaAgg.Create | src/domain/quota.agg.ts:59-66 | a new quota has count 0, its window starts now, and it is valid |
| QuotaAgg.RecordRequest | src/domain/quota.agg.ts:80-82 | the count goes up by exactly 1 and nothing else changes; the props stay schema-valid while the count is below 2^53 − 1, since nothing re-parses them |
| QuotaAgg.ResetQuota | src/domain/quota.agg.ts:87-90 | the count becomes 0 and the window starts now; id and user are kept |
| QuotaRepo.FindByUserId | src/infra/in-memory-quota.repo.ts:9-11 | none iff the key was never saved |
| QuotaRepo.Save | src/infra/in-memory-quota.repo.ts:13-15 | the quota is stored under its user id and other keys are unchanged |
| QuotaRepo.CheckAndIncrement | src/infra/in-memory-quota.repo.ts:17-40 | allowed iff the count after any reset (a reset happens when strictly more than 60 000 ms have passed; an unknown key gets a new quota) is below 5; if allowed, it stores count + 1; if refused, the store is unchanged; other keys never change; counts stay ≤ 5 |
| QuotaRepo.BoundedAfterSave | src/infra/in-memory-quota.repo.ts:33-35 | saving a counter within the limit keeps every stored counter within it |
| QuotaRepo.AtMostFivePerWindow | src/infra/in-memory-quota.repo.ts:29-39 | within one window, a key that has used c requests gets exactly min(n, 5 − c) of its next n calls allowed, never more than 5 |
| QuotaRepo.ClearAll | src/infra/in-memory-quota.repo.ts:43-45 | after `clear` no key has a quota |
| UserAgg.SchemaValid | src/domain/user.agg.ts:48-54 | `UserPropsSchema` on the numbers: a positive safe-integer telegram id and a safe-integer balance ≥ 0 (a definition; `DebitCanBreakSchema` uses it) |
| UserAgg.LockInvariant | src/domain/user.agg.ts:61-68 | the first invariant: locked exactly when the balance is negative (a definition; `LockIgnoresBalance` and the debit and credit contracts use it) |
| UserAgg.KeyInvariant | src/domain/user.agg.ts:69-74 | the second invariant: at most five ACTIVE keys (a definition; `GenerateApiKey` and `RevokePreservesKeyInvariant` keep it) |
| UserAgg.ActiveCount | src/domain/user.agg.ts:70 | the number of ACTIVE keys is at most the number of keys |
| UserAgg.RawKey | src/domain/user.agg.ts:15 | the raw key is "sk-" followed by the UUID |
| UserAgg.NewKey | src/domain/user.agg.ts:85-91 | a generated key is ACTIVE and stores the hash of the raw key |
| UserAgg.AppendCounts | src/domain/user.agg.ts:93 | appending a key adds 1 to the ACTIVE count iff the key is ACTIVE |
| UserAgg.GenerateApiKey | src/domain/user.agg.ts:79-95 | fails iff 5 or more keys are ACTIVE; otherwise it appends exactly one ACTIVE key, changes nothing else, and keeps the five-key invariant |
| UserAgg.FindKey | src/domain/user.agg.ts:98 | the first key with the id, or none iff no key has it |
| UserAgg.RevokeMatching | src/domain/user.agg.ts:107-109 | every key with the id becomes REVOKED and every other key is kept |
| UserAgg.RevokeMatchingCount | src/domain/user.agg.ts:107-109 | revoking never increases the ACTIVE count |
| UserAgg.RevokeApiKey | src/domain/user.agg.ts:97-111 | fails iff no key has the id; if the first key with the id is already REVOKED, nothing changes; otherwise only the keys with that id become REVOKED |
| UserAgg.RevokePreservesKeyInvariant | src/domain/user.agg.ts:97-111 | revoking keeps the at-most-five-ACTIVE invariant |
| UserAgg.RevokeConsultsFirstMatchOnly | src/domain/user.agg.ts:98-105 | when the first key with an id is REVOKED, a later ACTIVE key with the same id stays ACTIVE |
| UserAgg.RevokeAll | src/application/use-cases/revoke-and-generate-api-key.cmd.ts:25 | every key is REVOKED, nothing else changes, and none is ACTIVE |
| UserAgg.RevokeAllActiveApiKeys | src/application/use-cases/revoke-and-generate-api-key.cmd.ts:24-25 | no key stays ACTIVE; ids, hashes and creation times are kept, and so are all other user fields |
| UserAgg.DebitTokens | src/domain/user.agg.ts:113-120 | fails iff amount ≤ 0; otherwise the balance goes down by exactly the amount, `isLocked` becomes balance < 0, and nothing else changes |
| UserAgg.CreditTokens | src/domain/user.agg.ts:122-129 | fails iff amount ≤ 0; otherwise the balance goes up by exactly the amount, `isLocked` becomes balance < 0, and nothing else changes |
| UserAgg.CreditUndoesDebit | src/domain/user.agg.ts:113-129 | crediting back a debit restores a user that kept the lock invariant |
| UserAgg.DebitCanBreakSchema | src/domain/user.agg.ts:48-54 | a schema-valid user debited below zero keeps the lock invariant but violates `tokenBalance >= 0` |
| UserAgg.Lock | src/domain/user.agg.ts:131-136 | the user becomes locked and nothing else changes |
| UserAgg.Unlock | src/domain/user.agg.ts:138-143 | the user becomes unlocked and nothing else changes |
| UserAgg.LockIgnoresBalance | src/domain/user.agg.ts:61-68 | `lock` and `unlock` ignore the balance, so the lock invariant survives them only on the matching side of zero |
| UserAgg.HasActiveHash | src/domain/user.agg.ts:147-149 | true iff some ACTIVE key stores the hash |
| UserAgg.IsApiKeyValid | src/domain/user.agg.ts:145-151 | true iff some ACTIVE key stores the hash of the presented key |
| UserAgg.GeneratedKeyIsValid | src/domain/user.agg.ts:79-95 | the raw key handed out by `generateApiKey` is accepted |
| UserAgg.RevokedUserAcceptsNothing | src/domain/user.agg.ts:145-151 | once every key is revoked, no key is accepted |
| UserAgg.InitialBalance | src/domain/user.agg.ts:183 | an absent or zero balance becomes 1500, and any other value is kept |
| UserAgg.CreateUser | src/domain/user.agg.ts:169-194 | with no id or no keys: a new id, exactly one new ACTIVE key, not locked, and the initial balance, with the raw key attached; otherwise the props pass through unchanged |
| UserAgg.FreshUserHasOneActiveKey | src/domain/user.agg.ts:171-186 | a brand new user has one key, ACTIVE, which accepts the returned raw key, and keeps the five-key invariant |
| UserAgg.ZeroBalanceGetsBonus | src/domain/user.agg.ts:183 | asking for a balance of 0 gives 1500 |
| UserRepo.Save | src/infra/in-memory-user.repo.ts:6-8 | afterwards `findById(u.id)` is u and every other id reads as before |
| UserRepo.FindById | src/infra/in-memory-user.repo.ts:10-12 | null iff the id was never saved; a found user has that id |
| UserRepo.FirstWhere | src/infra/in-memory-user.repo.ts:15-20 | none iff no stored user matches, otherwise the earliest-saved match |
| UserRepo.FindByTelegramId | src/infra/in-memory-user.repo.ts:14-21 | null iff no stored user has the telegram id, otherwise the earliest-saved user that has it |
| UserRepo.FindByApiKey | src/application/use-cases/proxy-chat-completion.cmd.ts:41 | none iff no stored user accepts the key, otherwise the earliest-saved user that accepts it |
| UserRepo.SavedKeyIsFound | src/application/use-cases/proxy-chat-completion.cmd.ts:41 | a saved user with an ACTIVE key for the raw key is found by it when no other user accepts the key |
| UserRepo.ClearAll | src/infra/in-memory-user.repo.ts:24-26 | after `clear` no id and no telegram id is found |
| ProxyPipeline.ProviderMessage | src/application/use-cases/proxy-chat-completion.cmd.ts:61 | the provider's message, or the default message when it is empty |
| ProxyPipeline.UsageRow | src/application/use-cases/proxy-chat-completion.cmd.ts:73-82 | the row carries the given id, user and time and is COMPLETED; its schema accepts it iff the usage is valid and the cost is a positive safe integer |
| ProxyPipeline.Record | src/application/use-cases/proxy-chat-completion.cmd.ts:73-86 | succeeds iff the usage is valid and the cost is a positive safe integer; on success the row with cost −cost is saved and the user is debited and saved; otherwise a ZodError with nothing written |
| ProxyPipeline.Charge | src/application/use-cases/proxy-chat-completion.cmd.ts:56-86 | a provider failure becomes ProviderError with nothing written; a rejection with `null` or `undefined` escapes as the catch block's own TypeError, a plain error, with nothing written; a missing price list is a plain error; otherwise the usage is priced with the active list and recorded |
| ProxyPipeline.ProxyChatCompletion | src/application/use-cases/proxy-chat-completion.cmd.ts:22-90 | the price lists are never changed, and a success returns the provider's response unchanged |
| ProxyPipeline.RateLimitedRequestTouchesNothing | src/application/use-cases/proxy-chat-completion.cmd.ts:35-38 | a quota refusal gives RateLimitExceeded, changes no store, and does not depend on the provider |
| ProxyPipeline.UnknownKeyIsRejected | src/application/use-cases/proxy-chat-completion.cmd.ts:41-44 | a key no user accepts gives InvalidApiKey after the quota has counted it; users and ledger are unchanged, and the provider is irrelevant |
| ProxyPipeline.NoFundsNoCall | src/application/use-cases/proxy-chat-completion.cmd.ts:48-51 | a ledger balance ≤ 0 gives InsufficientFunds before the provider is consulted |
| ProxyPipeline.EmptyLedgerIsRefused | src/application/use-cases/proxy-chat-completion.cmd.ts:48-51 | a user with no ledger rows is refused for lack of funds whatever their `tokenBalance` |
| ProxyPipeline.NoPriceListIsInternal | src/application/use-cases/proxy-chat-completion.cmd.ts:48 | no active price list at the balance check gives the calculator's plain error, with only the quota counted |
| ProxyPipeline.NullishRejectionIsPlain | src/application/use-cases/proxy-chat-completion.cmd.ts:56-62 | a provider that rejects with `null` or `undefined` ends the request in a plain error (the TypeError from reading `error.message`), not a ProviderError; users and ledger are unchanged |
| ProxyPipeline.ProviderFailureWritesNothing | src/application/use-cases/proxy-chat-completion.cmd.ts:56-62 | a provider failure gives ProviderError with its message; users and ledger are unchanged |
| ProxyPipeline.SucceedsExactlyWhen | src/application/use-cases/proxy-chat-completion.cmd.ts:33-89 | a request succeeds iff all of these hold: it is admitted, the key is known, a price list is active, the ledger balance is > 0, the provider answers with a valid usage, and the cost is a positive safe integer |
| ProxyPipeline.SuccessWritesRowAndDebits | src/application/use-cases/proxy-chat-completion.cmd.ts:73-86 | success saves one COMPLETED row with cost −calculate(usage, active list), which for a new id appends to the user's list; the user's `tokenBalance` drops by that cost and other users are unchanged |
| ProxyPipeline.SuccessRaisesLedgerBalance | src/application/use-cases/proxy-chat-completion.cmd.ts:76-86 | after a success, the ledger balance that the next check reads is higher by the cost, while `tokenBalance` is lower by it |
| ProxyPipeline.RowRaisesLedger | src/application/use-cases/proxy-chat-completion.cmd.ts:76-82 | saving a usage row under a fresh id raises its user's ledger balance by the recomputed cost, though the row stores the negated cost |
| ProxyPipeline.FractionalCostFailsTheRowSchema | src/application/use-cases/proxy-chat-completion.cmd.ts:73-81 | the unit-test prices and the mock usage cost 0.05, so the row fails its schema and nothing is written |
| ProxyPipeline.UnseenKeyIsAdmitted | src/application/use-cases/proxy-chat-completion.cmd.ts:35 | a key string never seen before always passes the rate limit |
| RegisterUser.NewUserInput | src/application/use-cases/register-user.cmd.ts:24 | the creation request for a telegram id takes the brand-new-user branch with no balance given |
| RegisterUser.RegisterUser | src/application/use-cases/register-user.cmd.ts:12-31 | an existing telegram id gives UserAlreadyExists with the store unchanged; otherwise the new user is saved and its raw key returned |
| RegisterUser.RegisteredUserIsFound | src/application/use-cases/register-user.cmd.ts:24-30 | the new user is found by telegram id, has one ACTIVE key that accepts the returned "sk-" key and a balance of 1500; other users are unchanged |
| RegisterUser.SecondRegistrationIsRefused | src/application/use-cases/register-user.cmd.ts:18-21 | registering the same telegram id twice refuses the second call |
| RevokeAndGenerate.Rotated | src/application/use-cases/revoke-and-generate-api-key.cmd.ts:24-28 | the rotated user has one ACTIVE key (the new one, last) and one key more than before, every old key REVOKED, and the other fields kept |
| RevokeAndGenerate.RevokeAndGenerateApiKey | src/application/use-cases/revoke-and-generate-api-key.cmd.ts:13-35 | an unknown user id gives UserNotFound with the store unchanged; otherwise the rotated user is saved and the new raw key returned |
| RevokeAndGenerate.RotationLeavesOneActiveKey | src/application/use-cases/revoke-and-generate-api-key.cmd.ts:24-34 | it never hits the key limit; afterwards exactly one key is ACTIVE, all old keys are kept but REVOKED, and the returned key is accepted |
| GetModels.FirstSegment | src/application/use-cases/get-models.query.ts:38 | `split("/")[0]`: the longest prefix without '/' |
| GetModels.OwnedBy | src/application/use-cases/get-models.query.ts:38 | the text before the first '/', or "unknown" when that text is empty |
| GetModels.PricingText | src/application/use-cases/get-models.query.ts:40-45 | the text is the price's two-decimal rendering followed by " Credits/1M tokens"; a non-negative price starts with a digit |
| GetModels.PricingTextOfInteger | src/application/use-cases/get-models.query.ts:40-45 | an integer price n reads "n.00 Credits/1M tokens" |
| GetModels.ToDto | src/application/use-cases/get-models.query.ts:34-47 | the DTO's id is the model name, its object is "model", owned_by and the pricing strings come from the price, and `created` is the current second |
| GetModels.ToDtos | src/application/use-cases/get-models.query.ts:34 | one DTO per price, in order |
| GetModels.GetModelsList | src/application/use-cases/get-models.query.ts:27-49 | object "list"; no active price list gives no data; otherwise one DTO per active price, in price-list order |
| GetModels.DtoIdsAreModelNames | src/application/use-cases/get-models.query.ts:34-35 | one DTO per price, and the i-th DTO's id is the i-th price's model name |
| GetModels.ListedExactlyTheActiveModels | src/application/use-cases/get-models.query.ts:33-34 | a model is listed iff the active list has an active price for it |
| GetModels.FirstSegmentOfPath | src/application/use-cases/get-models.query.ts:38 | the owner part of "a/b" is a when a has no '/' |
| GetModels.FirstSegmentWithoutSlash | src/application/use-cases/get-models.query.ts:38 | a non-empty name without '/' is its own owner |
| GetModels.OwnedByExample | src/application/use-cases/get-models.query.ts:38 | "openrouter/openai/gpt-4o" is owned by "openrouter" |
| GetModels.LeadingSlashIsUnknown | src/application/use-cases/get-models.query.ts:38 | a name starting with '/' is owned by "unknown" |
| GetModels.PricingExample | src/application/use-cases/get-models.query.ts:40-42 | 350 reads "350.00 Credits/1M tokens" |
| Decimal.ToFixed2 | src/application/use-cases/get-models.query.ts:40-45 | `toFixed(2)`: a leading '-' iff the number is negative; after it, "<digits>.<two digits>" that reads back to the hundredth nearest the magnitude (within half a hundredth) |
| Decimal.CentsToStringReadsBack | src/application/use-cases/get-models.query.ts:40-45 | a count of hundredths renders as "<digits>.<two digits>" and reads back to the same count |
| Decimal.TwoToThe53IsNotInt | src/domain/usage.vo.ts:8-9 | `.int()` accepts 2^53 − 1 and refuses the whole number 2^53 |
| Decimal.ToFixed2OfInteger | src/application/use-cases/get-models.query.ts:40-42 | `toFixed(2)` of a whole number is its decimal digits followed by ".00" |
| Decimal.RoundCents | src/application/use-cases/get-models.query.ts:40-42 | the cents `toFixed(2)` prints lie within half a cent of the value |
| Decimal.NatToStringRoundTrip | src/application/use-cases/get-models.query.ts:40-42 | reading back the printed digits of n gives n |
| ApiHandler.MergeInput | src/infra/api/api-handler.ts:38-42 | the merged keys are the union of the parts; a query param overrides a path param, which overrides a body field; a missing body counts as empty |
| ApiHandler.QueryBeatsPathBeatsBody | src/infra/api/api-handler.ts:38-42 | for one name present in all three parts, the query value wins, then the path value, then the body value |
| ApiHandler.StatusFor | src/infra/api/api-handler.ts:103-122 | the statuses: InvalidApiKey 401, InsufficientFunds 402, UserLocked 403, RateLimitExceeded 429, InvalidRequest 400, UserAlreadyExists 409, InternalServer and every unmapped class 500 |
| ApiHandler.StatusIdentifiesClientErrors | src/infra/api/api-handler.ts:103-122 | every status lies in 400..500; 500 exactly for InternalServer and the unmapped classes; the other statuses each belong to one class |
| ApiHandler.ValidationResponse | src/infra/api/api-handler.ts:68-77 | a schema failure answers 400 with code `invalid_request` and carries the issues unchanged |
| ApiHandler.ErrorResponseFor | src/infra/api/api-handler.ts:56-97 | ZodError → 400 `invalid_request` with the issues; domain error → its mapped status with the catalogue's code, message, type and param; other Error → 500 `internal_server_error` with its message; any other value → 500 with "An unexpected error occurred." |
| ApiHandler.Handle | src/infra/api/api-handler.ts:36-99 | status 200 iff validation and the use case both succeed, and then the body is the use case's result; a validation failure gives the 400 validation response |
| ApiHandler.ValidationFailureSkipsUseCase | src/infra/api/api-handler.ts:44-49 | when validation fails the response is 400 and does not depend on the use case |
| ApiHandler.DuplicateRegistrationResponse | src/infra/api/server.test.ts:63-92 | a worked example, given a catalogue that publishes the duplicate-user entry: a refused registration answers 409 with `user_already_exists` and the message naming the telegram id, for 54321 the one the test expects |

## Left out

- IEEE-754 arithmetic: numbers are exact reals, so rounding of `/`, `*` and `+` on doubles is not modelled.
- Decimal.RoundCents: chooses the nearest cent with halves rounded up, where `toFixed` rounds the exact binary value; the string form for values of 1e21 and above (exponent notation) is not modelled either.
- Validation of UUIDs and of the branded `UserId`: ids are plain strings. `QuotaAggregate.create(apiKey as UserId)` parses the raw key through `userId: UserIdSchema` (src/domain/quota.agg.ts:29 and 50), and src/domain/user.agg.ts exports the branded-id value `UserId` and its type (lines 30-31) but no `UserIdSchema`. ProxyPipeline.UnseenKeyIsAdmitted therefore holds only because that parse is not modelled.
- UserAgg.CreateUser: the schema and invariant checks that the underlying aggregate factory runs are not modelled. The aggregate library is not part of this model. `SchemaValid`, `LockInvariant` and `KeyInvariant` are stated as separate predicates instead.
- The invariant re-checks that the aggregate library may run after each `User` action are not modelled, for the same reason; each action's contract states the invariant it keeps.
- src/domain/errors.ts is not part of this model. As shown, it defines only a `UserAlreadyExistsError` that extends `Error`, which contradicts the domain error classes that api-handler.ts imports and server.test.ts expects. The model follows api-handler.ts: every domain error is `Errors.Domain(kind, detail)`, and each class's code, message, type and param come from the `describe` parameter.
- ApiHandler.ErrorResponseFor: zod's `error.format()` tree is abstracted to a sequence of issue strings, and the proxy's schema failures carry no issues (`Zod([])`).
- ProxyPipeline.ProxyChatCompletion: the separate clock readings of one request are collapsed into one `now`. So are `QuotaAggregate.create`'s own `new Date()` and the quota repository's `now` (src/infra/in-memory-quota.repo.ts:17-27).
- GetModels.ToDtos: `Date.now()` is read once per DTO inside the `map` (src/application/use-cases/get-models.query.ts:37); the model uses one `nowMs` for the whole list.
- ProxyPipeline.Record: the debit-failure branch is unreachable, because a successful row already implies a positive cost; it is modelled as a plain error.
- ProxyPipeline.Charge: the engine's TypeError text for a nullish rejection is a parameter (`RejectedNullish(typeError)`), because it differs between JavaScript engines. A thrown value whose `message` is truthy but not a string is not modelled; the model's message is always a string.
- ProxyPipeline.Charge: the "no price list for cost calculation" branch cannot follow a successful balance check in a sequential model, because both read the same store. It is modelled but never taken after step 3.
- RevokeAndGenerate.RevokeAndGenerateApiKey: the key-limit failure after revoking everything is unreachable; it is modelled as a plain error.
- RegisterUser.RegisterUser: the call `UserAggregate.create(telegramId)` is not defined in the user aggregate file. It is modelled as the brand new branch of `User.create` with no balance given.
- PriceList `restore` and `getProps` are the identity on an immutable value, so they have no members of their own.
- `findByApiKey` and `revokeAllActiveApiKeys` are not defined in the shown files. They are modelled from their call sites: the first returns the earliest-saved user with an ACTIVE key whose stored hash matches; the second revokes every key.
- UserAgg.GenerateApiKey, UserAgg.RevokeApiKey, UserAgg.FindKey, UserAgg.HasActiveHash, UserAgg.IsApiKeyValid, UserAgg.ActiveCount: the key list holds plain props (`newKey.props` is pushed at src/domain/user.agg.ts:93 and 184), yet the actions and invariants read `k.props.status`, `k.props.id` and `k.props.hashedKey` (lines 70, 80, 98, 102, 107-108 and 148). As written, those reads throw a TypeError on any non-empty key list unless the value-object library supplies a `.props` on plain objects, and that library is not part of this model. The model reads the fields directly, as the repository's tests do (revoke-and-generate-api-key.cmd.spec.ts:37-38, register-user.cmd.spec.ts:34), so a contract such as "fails iff 5 or more keys are ACTIVE" describes the intended reading, not a run of the text.
- Asynchrony and concurrency: one request runs at a time, and interleavings of concurrent requests are not modelled.
- The Hono adapter `toHonoAdapter`, the server routes, the DI container, the bootstrap code, the Postgres repository stub and the mock LLM adapter are not part of this model. Their behaviour is framework glue or a stub. The mock's fixed 10/20 usage appears as one concrete instance.
- Non-object request bodies: `createApiHandler` spreads any body value; the model takes the body to be a map or absent.
- Console logging in `revokeApiKey` and in the handler.
