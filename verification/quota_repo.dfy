/** `InMemoryQuotaRepo`: quotas in a `Map` keyed by user id, and the fixed-window
    limiter `checkAndIncrement` (5 requests per window of 60 000 ms). */
module QuotaRepo {
  import opened Wrappers
  import opened OrderedMap
  import opened QuotaAgg

  const RateLimitPerMinute: int := 5
  const WindowMs: int := 60 * 1000

  type QuotaStore = Store<Quota>

  /** `save` files a quota under its own `userId`, so every entry's key is the
      user id stored in its value. */
  predicate KeyedByUserId(s: QuotaStore) {
    forall i :: 0 <= i < |s| ==> s[i].value.userId == s[i].key
  }

  /** The stores `save` can build. */
  type KeyedQuotaStore = s: QuotaStore | KeyedByUserId(s) witness []

  /** No stored counter exceeds the limit, nor is negative. */
  predicate CountsBounded(s: QuotaStore) {
    forall i :: 0 <= i < |s| ==> 0 <= s[i].value.requestsCount <= RateLimitPerMinute
  }

  /** `findByUserId`. */
  function FindByUserId(s: QuotaStore, userId: string): (r: Option<Quota>)
    ensures r.None? <==> !Has(s, userId)
    ensures forall i :: 0 <= i < |s| && s[i].key == userId ==> r == Some(s[i].value)
  {
    Get(s, userId)
  }

  /** `save`. */
  function Save(s: QuotaStore, q: Quota): (r: QuotaStore)
    ensures FindByUserId(r, q.userId) == Some(q)
    ensures forall k :: k != q.userId ==> FindByUserId(r, k) == FindByUserId(s, k)
    ensures KeyedByUserId(s) ==> KeyedByUserId(r)
  {
    var r := Set(s, q.userId, q);
    SetThenGet(s, q.userId, q, q.userId);
    forall k ensures k != q.userId ==> Get(r, k) == Get(s, k) {
      SetThenGet(s, q.userId, q, k);
    }
    r
  }

  /** The counter a call compares with the limit: the stored one, unless the key
      is unknown or strictly more than a window has passed since the last reset. */
  function EffectiveCount(s: QuotaStore, userId: string, now: int): int {
    match FindByUserId(s, userId)
    case None => 0
    case Some(q) => if now - q.lastResetTime > WindowMs then 0 else q.requestsCount
  }

  /** The window start a call works with. */
  function EffectiveReset(s: QuotaStore, userId: string, now: int): int {
    match FindByUserId(s, userId)
    case None => now
    case Some(q) => if now - q.lastResetTime > WindowMs then now else q.lastResetTime
  }

  datatype CheckResult = CheckResult(allowed: bool, store: QuotaStore)

  /** `checkAndIncrement(userId)` at time `now`; `freshId` is the id a quota created
      for an unknown key receives. */
  function CheckAndIncrement(s: QuotaStore, userId: string, freshId: string, now: int): (r: CheckResult)
    requires KeyedByUserId(s)
    ensures KeyedByUserId(r.store)
    ensures r.allowed <==> EffectiveCount(s, userId, now) < RateLimitPerMinute
    ensures r.allowed ==> FindByUserId(r.store, userId) == Some(Quota(
      (if Has(s, userId) then FindByUserId(s, userId).value.id else freshId),
      userId, EffectiveCount(s, userId, now) + 1, EffectiveReset(s, userId, now)))
    ensures !r.allowed ==> r.store == s
    ensures forall k :: k != userId ==> FindByUserId(r.store, k) == FindByUserId(s, k)
    ensures CountsBounded(s) ==> CountsBounded(r.store)
  {
    var found := FindByUserId(s, userId);
    var quota := if found.Some? then found.value else Create(freshId, userId, now);
    var stored := if found.Some? then s else Save(s, quota);
    assert quota.userId == userId by {
      if found.Some? {
        var i :| 0 <= i < |s| && s[i].key == userId;
      }
    }
    var current := if now - quota.lastResetTime > WindowMs then ResetQuota(quota, now) else quota;
    if current.requestsCount < RateLimitPerMinute then
      var r := Save(stored, RecordRequest(current));
      BoundedAfterSave(s, quota);
      BoundedAfterSave(stored, RecordRequest(current));
      CheckResult(true, r)
    else
      CheckResult(false, stored)
  }

  /** Saving a counter within the limit keeps every stored counter within it. */
  lemma BoundedAfterSave(s: QuotaStore, q: Quota)
    ensures CountsBounded(s) && 0 <= q.requestsCount <= RateLimitPerMinute ==> CountsBounded(Save(s, q))
  {
    var r := Set(s, q.userId, q);
    assert forall i :: 0 <= i < |s| ==> r[i].value == s[i].value || r[i].value == q;
  }

  /** Outcome of a run of calls for one key: how many were allowed, and the store after. */
  datatype RunResult = RunResult(allowedCount: nat, store: QuotaStore)

  function Run(s: QuotaStore, userId: string, freshId: string, times: seq<int>): (r: RunResult)
    requires KeyedByUserId(s)
    ensures KeyedByUserId(r.store)
    decreases |times|
  {
    if |times| == 0 then RunResult(0, s)
    else
      var step := CheckAndIncrement(s, userId, freshId, times[0]);
      var rest := Run(step.store, userId, freshId, times[1..]);
      RunResult(rest.allowedCount + (if step.allowed then 1 else 0), rest.store)
  }

  /** Within one window (no call comes strictly more than 60 000 ms after the last
      reset) a key that has used `c` requests gets exactly `min(n, 5 - c)` of its
      next `n` calls allowed; in particular never more than 5. */
  lemma {:induction false} AtMostFivePerWindow(s: QuotaStore, userId: string, freshId: string, times: seq<int>)
    requires KeyedByUserId(s) && CountsBounded(s) && Has(s, userId)
    requires forall i :: 0 <= i < |times| ==> times[i] - FindByUserId(s, userId).value.lastResetTime <= WindowMs
    ensures var c := FindByUserId(s, userId).value.requestsCount;
      Run(s, userId, freshId, times).allowedCount
        == if |times| < RateLimitPerMinute - c then |times| else RateLimitPerMinute - c
    ensures Run(s, userId, freshId, times).allowedCount <= RateLimitPerMinute
    decreases |times|
  {
    var q := FindByUserId(s, userId).value;
    var i :| 0 <= i < |s| && s[i].key == userId;
    assert 0 <= q.requestsCount <= RateLimitPerMinute;
    if |times| > 0 {
      var step := CheckAndIncrement(s, userId, freshId, times[0]);
      assert EffectiveCount(s, userId, times[0]) == q.requestsCount;
      if step.allowed {
        var q' := FindByUserId(step.store, userId).value;
        assert q'.lastResetTime == q.lastResetTime && q'.requestsCount == q.requestsCount + 1;
      }
      AtMostFivePerWindow(step.store, userId, freshId, times[1..]);
    }
  }

  /** `clear`. */
  function ClearAll(): (r: QuotaStore)
    ensures forall k :: FindByUserId(r, k).None?
  {
    Clear()
  }
}
