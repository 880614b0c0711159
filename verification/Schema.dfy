/** The rows of the gateway's database, as one immutable value.
    Every table is a sequence of rows and a row's id is its position, which is
    what a never-reused random id amounts to: a new row takes the next id.
    Columns that only carry text for a human reader are not modelled. */
module Schema {

  datatype Option<+T> = None | Some(value: T)

  /** Amounts are integer microUSD, clock readings integer microseconds. */
  type Money = int
  type Time = int

  // ---------------------------------------------------------------- identity

  datatype UserStatus = PendingEmail | Active | Frozen

  datatype User = User(status: UserStatus, verified: bool)
  datatype Wallet = Wallet(balance: Money, reserved: Money)
  datatype ApiKey = ApiKey(user: nat, active: bool)
  datatype AccessSession = AccessSession(user: nat, revoked: bool, expiresAt: Time)

  /** A password-reset or e-mail-verification token, looked up by its digest. */
  datatype OneTimeToken = OneTimeToken(user: nat, consumed: bool, expiresAt: Time)

  // ----------------------------------------------------------------- metering

  datatype Budget = Budget(user: nat, limit: Money, spent: Money, reserved: Money,
                           active: bool, start: Time, end: Time)

  datatype RequestStatus =
    | Reserved
    | PendingReconciliation
    | Settled
    | UnderReserved
    | Failed
    | ReconciledReleased

  datatype Request = Request(
    user: nat, apiKey: nat, budget: Option<nat>, clientKey: Option<string>,
    status: RequestStatus, inputPrice: Money, outputPrice: Money,
    hold: Money, charged: Money, upstreamCost: Money,
    inputTokens: int, outputTokens: int, estimated: bool, createdAt: Time)
  {
    /** The hold is still set aside in the wallet. */
    predicate Live() { status.Reserved? || status.PendingReconciliation? }
  }

  // ----------------------------------------------------------------- payments

  /** `OrderReconciliation` is the source's "pending_reconciliation",
      `PaymentFailed` its "failed". */
  datatype OrderStatus =
    | Pending
    | CheckoutRequesting
    | OrderReconciliation
    | Paid
    | Refunding
    | Refunded
    | PaymentFailed
    | Closed

  datatype Quote = Quote(provider: string, cash: Option<int>, currency: Option<string>,
                         credit: Money, quoteId: Option<string>,
                         numerator: int, denominator: int)

  datatype Order = Order(
    user: nat, quote: Quote, clientKey: Option<string>, status: OrderStatus,
    txn: Option<string>, url: Option<string>,
    checkoutClaim: Option<Time>, reconcileClaim: Option<Time>)
  {
    predicate Open() { status.Pending? || status.CheckoutRequesting? || status.OrderReconciliation? }
    predicate Credited() { status.Paid? || status.Refunding? }
  }

  /** `RefundReconciliation` is the source's "pending_reconciliation",
      `RefundDone` its "refunded". */
  datatype RefundStatus =
    | Requesting
    | Retrying
    | RefundReconciliation
    | RefundDone
    | Risk
    | Resolved

  datatype Refund = Refund(
    order: nat, user: nat, clientKey: string, providerRefund: Option<string>,
    credit: Money, status: RefundStatus, claimedAt: Time)
  {
    /** The command may still complete. */
    predicate InFlight() { status.Requesting? || status.Retrying? || status.RefundReconciliation? }
  }

  datatype EventType =
    | EventPending
    | EventFailed
    | EventClosed
    | EventSucceeded
    | EventTopup
    | EventRefunded
    | EventOther

  datatype WebhookEvent = WebhookEvent(
    provider: string, eventId: string, nonce: string, order: nat,
    digest: string, eventType: EventType, duplicate: bool)

  // ------------------------------------------------------------------ journal

  datatype Account =
    | CustomerAvailable
    | CustomerReserved
    | PlatformClearing
    | PlatformRevenue
    | PlatformRisk
    | PlatformLoss
    | ProviderExpense
    | ProviderPayable

  datatype Kind =
    | KindReserve
    | KindSettle
    | KindRelease
    | KindOperatorRelease
    | KindCredit
    | KindPaymentCredit
    | KindPaymentRefund
    | KindPaymentRefundRisk
    | KindRiskRecover
    | KindRiskWriteOff

  datatype Ref = RequestRef(request: nat) | OrderRef(order: nat)

  /** The journal's globally unique idempotency keys, one constructor for each
      format string that builds one. */
  datatype JournalKey =
    | ReserveKey(request: nat)
    | SettleKey(request: nat)
    | ReleaseKey(request: nat)
    | PaymentKey(provider: string, eventId: string)
    | RefundKey(refund: nat)
    | RefundRiskKey(refund: nat)
    | DispositionKey(refund: nat, clientKey: string)

  datatype Entry = Entry(account: Account, amount: Money)
  datatype Transaction = Transaction(user: nat, kind: Kind, ref: Ref, key: JournalKey, entries: seq<Entry>)

  type Journal = seq<Transaction>

  // ----------------------------------------------------------------- database

  datatype Tables = Tables(
    users: seq<User>, wallets: seq<Wallet>, keys: seq<ApiKey>, sessions: seq<AccessSession>,
    resets: seq<OneTimeToken>, verifications: seq<OneTimeToken>,
    budgets: seq<Budget>, requests: seq<Request>,
    orders: seq<Order>, refunds: seq<Refund>, events: seq<WebhookEvent>,
    journal: Journal)

  const EMPTY := Tables([], [], [], [], [], [], [], [], [], [], [], [])

  // ------------------------------------------------------------------ replies

  /** One constructor per rejection the services raise. */
  datatype Error =
    // identity
    | UserMissing | AccountUnavailable | KeyRevoked | BadCredentials | KeyLimitInvalid
    | KeyLimitReached | Unverified | KeyMissing | NotFrozen | UnresolvedRisk | TokenInvalid | PasswordRejected
    // budgets
    | BudgetNotPositive | BudgetBusy | BudgetBelowSpend
    // model requests
    | PriceMissing | OutputLimitExceeded | ClientKeyUsed | WalletMissing | InsufficientBalance
    | InsufficientBudget | BudgetChanged | RequestConflict | RequestNotLive | NegativeUpstreamCost
    | WalletHoldAnomaly | BudgetHoldAnomaly | LeaseOutOfRange
    // journal
    | JournalUnbalanced | JournalConflict
    // payment orders
    | QuoteInvalid | QuoteMismatch | OpenOrderCapInvalid | TooManyOpenOrders | OrderMissing
    | CheckoutInProgress | CheckoutExpired | OrderNotClaimable | OrderChanged | TransactionConflict
    | OrderNotReconcilable | ReconcileInProgress
    // webhooks
    | EventIncomplete | EventBodyConflict | NonceReused | AmountMismatch | TransactionMismatch
    | EventTypeMismatch | RefundIdMissing | RefundIdUnexpected | RefundIdMismatch | RefundCommandAnomaly
    | OrderNotRefundable | OrderNotUpdatable | OrderStateConflict
    // refunds
    | ClientKeyEmpty | RefundInProgress | RefundNeedsReview | QuoteIncomplete | RefundConflict
    | OrderAlreadyRefunded | RefundNotCompletable | ActionInvalid | RefundMissing | DispositionKeyReused
    | RefundNotAtRisk | RefundOrderAnomaly | RiskAlreadySettled | HoldsOutstanding | BalanceBelowDebt
    // test payments
    | TestAmountOutOfRange | TestOrderNotCreditable

  datatype Answer =
    | Nothing
    | Row(id: nat)
    | Claim(order: nat, claimed: bool)
    | Duplicate(duplicate: bool)
    | Charge(charged: Money, estimated: bool)
    | RefundClaim(refund: nat, claimed: bool)
    | Disposition(refund: nat, repeated: bool, outstanding: Money, recovered: Money, writtenOff: Money)
    | Counted(n: nat)
    | Accepted(accepted: bool)

  datatype Outcome = Ok(answer: Answer) | Err(error: Error)

  /** What one transaction leaves in the database and tells its caller. */
  datatype Reply = Reply(db: Tables, out: Outcome)

  function Refuse(db: Tables, error: Error): Reply { Reply(db, Err(error)) }

  // ------------------------------------------------------------------ queries

  /** The first row a query's condition selects. */
  function Find<T>(rows: seq<T>, p: T -> bool): (found: Option<nat>)
    ensures found.Some? ==> found.value < |rows| && p(rows[found.value])
    ensures found.Some? ==> forall i | 0 <= i < found.value :: !p(rows[i])
    ensures found.None? ==> forall i | 0 <= i < |rows| :: !p(rows[i])
  {
    if |rows| == 0 then None
    else
      match Find(rows[..|rows| - 1], p)
      case Some(i) => Some(i)
      case None => if p(rows[|rows| - 1]) then Some(|rows| - 1) else None
  }

  /** The most recent row a query's condition selects. */
  function FindLast<T>(rows: seq<T>, p: T -> bool): (found: Option<nat>)
    ensures found.Some? ==> found.value < |rows| && p(rows[found.value])
    ensures found.Some? ==> forall i | found.value < i < |rows| :: !p(rows[i])
    ensures found.None? ==> forall i | 0 <= i < |rows| :: !p(rows[i])
  {
    if |rows| == 0 then None
    else if p(rows[|rows| - 1]) then Some(|rows| - 1)
    else FindLast(rows[..|rows| - 1], p)
  }

  predicate Any<T>(rows: seq<T>, p: T -> bool) { Find(rows, p).Some? }

  /** How many rows a query's condition selects. */
  function CountRows<T>(rows: seq<T>, p: T -> bool): nat {
    if |rows| == 0 then 0
    else CountRows(rows[..|rows| - 1], p) + if p(rows[|rows| - 1]) then 1 else 0
  }

  function Min(a: int, b: int): int { if a <= b then a else b }
  function Max(a: int, b: int): int { if a <= b then b else a }
}
