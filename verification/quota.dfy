/** The Quota aggregate: a request counter and the time its window last started. */
module QuotaAgg {
  import opened Wrappers
  import opened Decimal

  /** Times are milliseconds since the epoch. */
  datatype Quota = Quota(id: string, userId: string, requestsCount: int, lastResetTime: int)

  datatype QuotaError = InvalidQuotaProps

  /** `QuotaPropsSchema`: the count is a safe integer (whole by its type here) and
      not negative. */
  predicate ValidQuota(q: Quota) {
    IsSafe(q.requestsCount) && q.requestsCount >= 0
  }

  /** The private constructor (also `restore`): parses the props and keeps them. */
  function Restore(props: Quota): (r: Result<Quota, QuotaError>)
    ensures r.Success? <==> ValidQuota(props)
    ensures r.Success? ==> r.value == props
  {
    if ValidQuota(props) then Success(props) else Failure(InvalidQuotaProps)
  }

  /** `create`: a fresh window starting now with no requests counted. */
  function Create(id: string, userId: string, now: int): (q: Quota)
    ensures ValidQuota(q)
    ensures q.requestsCount == 0 && q.lastResetTime == now
    ensures q.id == id && q.userId == userId
  {
    Quota(id, userId, 0, now)
  }

  /** `recordRequest`: counts one more request. It does not re-parse the props, so
      the count keeps its schema only while it stays below 2^53 - 1. */
  function RecordRequest(q: Quota): (r: Quota)
    ensures r.requestsCount == q.requestsCount + 1
    ensures r.id == q.id && r.userId == q.userId && r.lastResetTime == q.lastResetTime
    ensures ValidQuota(q) && q.requestsCount < MaxSafeInteger ==> ValidQuota(r)
  {
    q.(requestsCount := q.requestsCount + 1)
  }

  /** `resetQuota`: starts a new window now. */
  function ResetQuota(q: Quota, now: int): (r: Quota)
    ensures r.requestsCount == 0 && r.lastResetTime == now
    ensures r.id == q.id && r.userId == q.userId
    ensures ValidQuota(r)
  {
    q.(requestsCount := 0, lastResetTime := now)
  }
}
