/** The whole money machine: every committed transaction is one command, and a
    run is any finite sequence of commands by any users, the operators, the
    sweep and the payment provider, in any order and with any clock readings.
    A crash between two transactions is a run in which the next one is missing. */
module Machine {
  import opened Schema
  import opened Budgets
  import opened Identity
  import opened Billing
  import opened Payments

  datatype AccountCommand =
    | DoRegister(requireVerification: bool)
    | DoLogin(loginUser: nat, passwordValid: bool, requireVerified: bool, sessionExpiry: Time)
    | DoLogoutAll(logoutUser: nat)
    | DoCreateKey(keyUser: nat, maxActiveKeys: int)
    | DoRevokeKey(revokeUser: nat, revokedKey: nat)
    | DoIssueVerification(verifyUser: nat, verifyExpiry: Time)
    | DoCancelVerification(cancelledVerification: nat)
    | DoConsumeVerification(verification: nat, verifiedAt: Time)
    | DoRequestReset(resetUser: nat, resetExpiry: Time)
    | DoCancelReset(cancelledReset: nat)
    | DoResetPassword(reset: nat, passwordAcceptable: bool, resetAt: Time)
    | DoFreeze(frozenUser: nat)
    | DoUnfreeze(unfrozenUser: nat)

  /** A budget is created at a clock reading that names a month. */
  type Today = d: Date | 1 <= d.month <= 12 witness Date(1970, 1, 0)

  datatype MeterCommand =
    | DoCreateBudget(budgetUser: nat, limit: Money, budgetAt: Today)
    | DoReserve(payer: nat, apiKey: nat, demand: Demand, requestKey: Option<string>, clock: Clock)
    | DoSettle(settled: nat, usage: Usage, forceEstimated: bool, upstream: Upstream, settler: Caller)
    | DoRelease(released: nat, releaser: Caller)
    | DoMarkPending(marked: nat)
    | DoSweep(leaseSeconds: int, sweptAt: Time)

  datatype PaymentCommand =
    | DoCreateOrder(buyer: nat, quote: Quote, orderKey: string, maxOpen: Option<int>)
    | DoCreateTestOrder(tester: nat, testAmount: Money)
    | DoPrepareCheckout(checkoutOrder: nat, checkoutAt: Time, checkoutLease: Time)
    | DoCheckoutResponse(answeredOrder: nat, result: CheckoutResult)
    | DoClaimReconciliation(claimedOrder: nat, claimedAt: Time)
    | DoReconcileInconclusive(inconclusiveOrder: nat)
    | DoClearReconciliation(clearedOrder: nat)
    | DoWebhook(notice: Notice)
    | DoTestWebhook(testEvent: string, testDigest: string, testOrder: nat, creditedAmount: int)
    | DoPrepareRefund(refundOrder: nat, refundKey: string, refundAt: Time, refundLease: Time)
    | DoRefundUncertain(uncertainRefund: nat)
    | DoApplyRefund(reversedOrder: nat, reversalKey: string, providerRefund: string)
    | DoResolveRisk(riskRefund: nat, action: RiskAction, dispositionKey: string)

  datatype Command =
    | OnAccount(account: AccountCommand)
    | OnMeter(meter: MeterCommand)
    | OnPayment(payment: PaymentCommand)

  function AccountStep(db: Tables, c: AccountCommand): Reply {
    match c
    case DoRegister(v) => Register(db, v)
    case DoLogin(u, p, v, x) => Login(db, u, p, v, x)
    case DoLogoutAll(u) => LogoutAll(db, u)
    case DoCreateKey(u, m) => CreateKey(db, u, m)
    case DoRevokeKey(u, k) => RevokeKey(db, u, k)
    case DoIssueVerification(u, x) => IssueVerification(db, u, x)
    case DoCancelVerification(t) => CancelVerification(db, t)
    case DoConsumeVerification(t, now) => ConsumeVerification(db, t, now)
    case DoRequestReset(u, x) => RequestReset(db, u, x)
    case DoCancelReset(t) => CancelReset(db, t)
    case DoResetPassword(t, p, now) => ResetPassword(db, t, p, now)
    case DoFreeze(u) => Freeze(db, u)
    case DoUnfreeze(u) => Unfreeze(db, u)
  }

  function MeterStep(db: Tables, c: MeterCommand): Reply {
    match c
    case DoCreateBudget(u, m, now) => CreateBudget(db, u, m, now)
    case DoReserve(u, k, d, ck, clock) => Reserve(db, u, k, d, ck, clock)
    case DoSettle(r, u, e, up, caller) => Settle(db, r, u, e, up, caller)
    case DoRelease(r, caller) => Release(db, r, caller)
    case DoMarkPending(r) => MarkPending(db, r)
    case DoSweep(l, now) => Sweep(db, l, now)
  }

  function PaymentStep(db: Tables, c: PaymentCommand): Reply {
    match c
    case DoCreateOrder(u, q, k, m) => CreateOrder(db, u, q, k, m)
    case DoCreateTestOrder(u, a) => CreateTestOrder(db, u, a)
    case DoPrepareCheckout(o, now, lease) => PrepareCheckout(db, o, now, lease)
    case DoCheckoutResponse(o, r) => CheckoutResponse(db, o, r)
    case DoClaimReconciliation(o, now) => ClaimReconciliation(db, o, now)
    case DoReconcileInconclusive(o) => ReconcileInconclusive(db, o)
    case DoClearReconciliation(o) => ClearReconciliation(db, o)
    case DoWebhook(n) => ApplyWebhook(db, n)
    case DoTestWebhook(e, d, o, a) => TestWebhook(db, e, d, o, a)
    case DoPrepareRefund(o, k, now, lease) => PrepareRefund(db, o, k, now, lease)
    case DoRefundUncertain(f) => RefundUncertain(db, f)
    case DoApplyRefund(o, k, r) => ApplyRefund(db, o, k, r)
    case DoResolveRisk(f, a, k) => ResolveRisk(db, f, a, k)
  }

  function Step(db: Tables, c: Command): Reply {
    match c
    case OnAccount(a) => AccountStep(db, a)
    case OnMeter(m) => MeterStep(db, m)
    case OnPayment(p) => PaymentStep(db, p)
  }

  function Run(db: Tables, commands: seq<Command>): Tables
    decreases |commands|
  {
    if |commands| == 0 then db else Run(Step(db, commands[0]).db, commands[1..])
  }

  ghost predicate Reachable(db: Tables) {
    exists commands :: Run(EMPTY, commands) == db
  }
}
