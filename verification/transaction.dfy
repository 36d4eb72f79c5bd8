/** The Transaction aggregate: one ledger row, a top-up or a usage charge, with a
    small status machine PENDING -> COMPLETED | FAILED. */
module TransactionAgg {
  import opened Wrappers
  import opened Decimal
  import opened UsageValue

  datatype TxStatus = Pending | Completed | Failed

  /** The payload: credits added by a top-up, or the usage and its (signed) cost. */
  datatype TxData =
    | TopUp(amountCredits: real)
    | UsageCharge(usageData: Usage, costCredits: real)

  datatype Transaction = Transaction(id: string, userId: string, timestamp: int, status: TxStatus, data: TxData)

  datatype TxError =
    | InvalidProps           // the schema parse in the constructor threw
    | CannotComplete         // `complete` from a status other than PENDING
    | CannotFail             // `fail` from a status other than PENDING

  /** `TransactionDataSchema`: a top-up amount is a positive whole number; a usage
      row carries a valid usage and a negative whole cost. */
  predicate ValidData(d: TxData) {
    match d
    case TopUp(amount) => IsInt(amount) && amount > 0.0
    case UsageCharge(usage, cost) => ValidUsage(usage) && IsInt(cost) && cost < 0.0
  }

  /** The private constructor (also `restore`): parses the props and keeps them. */
  function NewTransaction(props: Transaction): (r: Result<Transaction, TxError>)
    ensures r.Success? <==> ValidData(props.data)
    ensures r.Success? ==> r.value == props
    ensures r.Failure? ==> r.error == InvalidProps
  {
    if ValidData(props.data) then Success(props) else Failure(InvalidProps)
  }

  /** `createTopUp`, status PENDING unless given. */
  function CreateTopUp(id: string, userId: string, amountCredits: real, now: int,
                       status: TxStatus := Pending): (r: Result<Transaction, TxError>)
    ensures r.Success? <==> IsInt(amountCredits) && amountCredits > 0.0
    ensures r.Success? ==> (r.value.status == status && r.value.data == TopUp(amountCredits)
      && r.value.id == id && r.value.userId == userId && r.value.timestamp == now)
  {
    NewTransaction(Transaction(id, userId, now, status, TopUp(amountCredits)))
  }

  /** `createUsage`, status COMPLETED unless given. */
  function CreateUsage(id: string, userId: string, usageData: Usage, costCredits: real, now: int,
                       status: TxStatus := Completed): (r: Result<Transaction, TxError>)
    ensures r.Success? <==> ValidUsage(usageData) && IsInt(costCredits) && costCredits < 0.0
    ensures r.Success? ==> (r.value.status == status && r.value.data == UsageCharge(usageData, costCredits)
      && r.value.id == id && r.value.userId == userId && r.value.timestamp == now)
  {
    NewTransaction(Transaction(id, userId, now, status, UsageCharge(usageData, costCredits)))
  }

  /** `complete`: PENDING becomes COMPLETED; any other status throws. */
  function Complete(t: Transaction): (r: Result<Transaction, TxError>)
    ensures r.Success? <==> t.status == Pending
    ensures r.Success? ==> r.value.status == Completed
    ensures r.Success? ==> (r.value.id == t.id && r.value.userId == t.userId
      && r.value.timestamp == t.timestamp && r.value.data == t.data)
  {
    if t.status == Pending then Success(t.(status := Completed)) else Failure(CannotComplete)
  }

  /** `fail`: PENDING becomes FAILED; any other status throws. */
  function Fail(t: Transaction): (r: Result<Transaction, TxError>)
    ensures r.Success? <==> t.status == Pending
    ensures r.Success? ==> r.value.status == Failed
    ensures r.Success? ==> (r.value.id == t.id && r.value.userId == t.userId
      && r.value.timestamp == t.timestamp && r.value.data == t.data)
  {
    if t.status == Pending then Success(t.(status := Failed)) else Failure(CannotFail)
  }

  /** The status operations of the aggregate. */
  datatype StatusOp = CompleteOp | FailOp

  function Apply(t: Transaction, op: StatusOp): Result<Transaction, TxError> {
    match op
    case CompleteOp => Complete(t)
    case FailOp => Fail(t)
  }

  /** Applies operations in order, skipping those that throw (the row keeps its
      status when an operation is rejected). */
  function ApplyAll(t: Transaction, ops: seq<StatusOp>): Transaction
    decreases |ops|
  {
    if |ops| == 0 then t
    else
      var next := Apply(t, ops[0]);
      ApplyAll(if next.Success? then next.value else t, ops[1..])
  }

  /** COMPLETED and FAILED are terminal: no sequence of operations leaves them,
      and none ever touches the monetary payload. */
  lemma {:induction false} TerminalStatusesAreFinal(t: Transaction, ops: seq<StatusOp>)
    requires t.status != Pending
    ensures ApplyAll(t, ops) == t
    decreases |ops|
  {
    if |ops| > 0 {
      TerminalStatusesAreFinal(t, ops[1..]);
    }
  }

  /** From PENDING, the first accepted operation decides the final status, and the
      payload and identity never change. */
  lemma {:induction false} StatusMachineKeepsPayload(t: Transaction, ops: seq<StatusOp>)
    ensures ApplyAll(t, ops).data == t.data && ApplyAll(t, ops).id == t.id
      && ApplyAll(t, ops).userId == t.userId && ApplyAll(t, ops).timestamp == t.timestamp
    ensures t.status == Pending && |ops| > 0 ==>
      ApplyAll(t, ops).status == (if ops[0] == CompleteOp then Completed else Failed)
    decreases |ops|
  {
    if |ops| > 0 {
      var next := Apply(t, ops[0]);
      var t' := if next.Success? then next.value else t;
      StatusMachineKeepsPayload(t', ops[1..]);
      if t.status == Pending {
        TerminalStatusesAreFinal(t', ops[1..]);
      }
    }
  }
}
