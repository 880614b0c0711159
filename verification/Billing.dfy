/** Pre-authorization, settlement and release of model requests
    (app/services/gateway_billing.py, app/services/reconciliation_maintenance.py). */
module Billing {
  import opened Schema
  import opened Json
  import opened Pricing
  import opened Budgets
  import opened JournalBooks
  import opened Identity

  // --------------------------------------------------------------- reservation

  /** What a caller asks to be priced: the model's price if it has one, the
      payload with its JSON text, and the output limit. */
  datatype Demand = Demand(price: Option<Price>, value: Json, text: string, maxOutput: int)

  /** The two clock readings of the budget check and the row's creation time. */
  datatype Clock = Clock(lookup: Time, update: Time, created: Time)

  predicate ClientKeyTaken(requests: seq<Request>, user: nat, key: string) {
    Any(requests, (r: Request) => r.user == user && r.clientKey == Some(key))
  }

  function OwnedActiveKey(keys: seq<ApiKey>, user: nat, key: nat): bool {
    key < |keys| && keys[key].user == user && keys[key].active
  }

  /** Why a hold cannot be placed, if it cannot. */
  function ReserveObstacle(db: Tables, user: nat, key: nat, d: Demand, clientKey: Option<string>, clock: Clock): Option<Error> {
    if d.price.None? then Some(PriceMissing)
    else if d.maxOutput > d.price.value.maxOutput then Some(OutputLimitExceeded)
    else if clientKey.Some? && clientKey.value != "" && ClientKeyTaken(db.requests, user, clientKey.value) then
      Some(ClientKeyUsed)
    else if !IsActive(db, user) then Some(AccountUnavailable)
    else if !OwnedActiveKey(db.keys, user, key) then Some(KeyRevoked)
    else if user >= |db.wallets| then Some(WalletMissing)
    else
      var hold := HoldFor(d.price.value, d.value, d.text, d.maxOutput);
      if db.wallets[user].balance < hold then Some(InsufficientBalance)
      else
        match ActiveBudget(db.budgets, user, clock.lookup)
        case None => DuplicateClientKey(db, user, clientKey)
        case Some(b) =>
          var budget := db.budgets[b];
          if budget.limit - budget.spent - budget.reserved < hold then Some(InsufficientBudget)
          else if !Governs(budget, user, clock.update) then Some(BudgetChanged)
          else DuplicateClientKey(db, user, clientKey)
  }

  /** The unique constraint on a user's client keys, which also covers the empty key. */
  function DuplicateClientKey(db: Tables, user: nat, clientKey: Option<string>): Option<Error> {
    if clientKey.Some? && ClientKeyTaken(db.requests, user, clientKey.value) then Some(RequestConflict) else None
  }

  /** `reserve_model_request`. */
  function Reserve(db: Tables, user: nat, key: nat, d: Demand, clientKey: Option<string>, clock: Clock): Reply {
    match ReserveObstacle(db, user, key, d, clientKey, clock)
    case Some(error) => Refuse(db, error)
    case None =>
      var price := d.price.value;
      var hold: Money := HoldFor(price, d.value, d.text, d.maxOutput);
      var budget := ActiveBudget(db.budgets, user, clock.lookup);
      var id := |db.requests|;
      var request := Request(user, key, budget, clientKey, Reserved, price.input, price.output,
                             hold, 0, 0, EstimateTokens(d.text), 0, true, clock.created);
      Commit(db,
             db.(wallets := db.wallets[user := Hold(db.wallets[user], hold)],
                 budgets := if budget.None? then db.budgets
                            else db.budgets[budget.value := HoldBudget(db.budgets[budget.value], hold)],
                 requests := db.requests + [request]),
             Post(db.journal, user, KindReserve, RequestRef(id), ReserveKey(id),
                  Entries2(CustomerAvailable, -hold, CustomerReserved, hold)),
             Row(id))
  }

  function Hold(w: Wallet, amount: Money): Wallet { Wallet(w.balance - amount, w.reserved + amount) }

  /** Give up a hold of which `back` returns to the spendable balance. */
  function Unhold(w: Wallet, amount: Money, back: Money): Wallet { Wallet(w.balance + back, w.reserved - amount) }

  function HoldBudget(b: Budget, amount: Money): Budget { b.(reserved := b.reserved + amount) }

  function UnholdBudget(b: Budget, amount: Money, spent: Money): Budget {
    b.(reserved := b.reserved - amount, spent := b.spent + spent)
  }

  // ---------------------------------------------------------------- settlement

  /** What a response says about its usage: both counts, or nothing usable and
      an estimate of the output. */
  datatype Usage = Reported(prompt: nat, completion: nat) | Unreported(output: nat) {
    function Input(fallback: int): int { if Reported? then prompt else fallback }
    function Output(): nat { if Reported? then completion else output }
  }

  datatype Upstream = Upstream(cost: Option<int>, inputPrice: Option<int>, outputPrice: Option<int>)

  /** The provider loop may finish a `Reserved` request, an operator only one
      that awaits reconciliation. */
  datatype Caller = Gateway | Operator {
    function Allowed(): RequestStatus { if Gateway? then Reserved else PendingReconciliation }
  }

  function CustomerCost(r: Request, usage: Usage): nat {
    TokenCost(usage.Input(r.inputTokens), r.inputPrice) + TokenCost(usage.Output(), r.outputPrice)
  }

  function UpstreamCost(r: Request, usage: Usage, up: Upstream): int {
    match up.cost
    case Some(cost) => cost
    case None =>
      TokenCost(usage.Input(r.inputTokens), if up.inputPrice.None? then r.inputPrice else up.inputPrice.value)
      + TokenCost(usage.Output(), if up.outputPrice.None? then r.outputPrice else up.outputPrice.value)
  }

  /** The six possible entries of a settlement; zero amounts are never written. */
  function SettlementEntries(hold: Money, cost: Money, upstream: Money): seq<Entry> {
    var charged := Min(cost, hold);
    [Entry(CustomerReserved, -hold), Entry(CustomerAvailable, hold - charged),
     Entry(PlatformRevenue, cost), Entry(PlatformRisk, charged - cost),
     Entry(ProviderExpense, upstream), Entry(ProviderPayable, -upstream)]
  }

  /** The wallet or the budget no longer holds what the request set aside. */
  function HoldAnomaly(db: Tables, r: Request): Option<Error> {
    if r.user >= |db.wallets| || db.wallets[r.user].reserved < r.hold then Some(WalletHoldAnomaly)
    else if r.budget.Some? && (r.budget.value >= |db.budgets| || db.budgets[r.budget.value].reserved < r.hold) then
      Some(BudgetHoldAnomaly)
    else None
  }

  /** Wallet, budget and request rows after a request gave up its hold. */
  function FinishRequest(db: Tables, id: nat, done: Request, back: Money, spent: Money): Tables
    requires id < |db.requests| && HoldAnomaly(db, db.requests[id]).None?
  {
    var r := db.requests[id];
    db.(wallets := db.wallets[r.user := Unhold(db.wallets[r.user], r.hold, back)],
        budgets := if r.budget.None? then db.budgets
                   else db.budgets[r.budget.value := UnholdBudget(db.budgets[r.budget.value], r.hold, spent)],
        requests := db.requests[id := done])
  }

  /** `settle_model_request`. */
  function Settle(db: Tables, id: nat, usage: Usage, forceEstimated: bool, up: Upstream, caller: Caller): Reply {
    if id >= |db.requests| || db.requests[id].status != caller.Allowed() then Refuse(db, RequestNotLive)
    else
      var r := db.requests[id];
      var cost := CustomerCost(r, usage);
      var upstream := UpstreamCost(r, usage, up);
      var charged := Min(cost, r.hold);
      var estimated := usage.Unreported? || forceEstimated;
      if upstream < 0 then Refuse(db, NegativeUpstreamCost)
      else if HoldAnomaly(db, r).Some? then Refuse(db, HoldAnomaly(db, r).value)
      else
        var done := r.(status := if cost <= r.hold then Settled else UnderReserved,
                       charged := charged, upstreamCost := upstream,
                       inputTokens := usage.Input(r.inputTokens), outputTokens := usage.Output(),
                       estimated := estimated);
        Commit(db, FinishRequest(db, id, done, r.hold - charged, charged),
               Post(db.journal, r.user, KindSettle, RequestRef(id), SettleKey(id),
                    SettlementEntries(r.hold, cost, upstream)),
               Charge(charged, estimated))
  }

  /** `release_model_request`: silent when the request is not the caller's to release. */
  function Release(db: Tables, id: nat, caller: Caller): Reply {
    if id >= |db.requests| || db.requests[id].status != caller.Allowed() then Reply(db, Ok(Nothing))
    else
      var r := db.requests[id];
      if HoldAnomaly(db, r).Some? then Refuse(db, HoldAnomaly(db, r).value)
      else
        var done := r.(status := if caller.Gateway? then Failed else ReconciledReleased);
        Commit(db, FinishRequest(db, id, done, r.hold, 0),
               Post(db.journal, r.user, if caller.Gateway? then KindRelease else KindOperatorRelease,
                    RequestRef(id), ReleaseKey(id),
                    Entries2(CustomerReserved, -r.hold, CustomerAvailable, r.hold)),
               Nothing)
  }

  // ------------------------------------------------------------ reconciliation

  /** `mark_pending_reconciliation`. */
  function MarkPending(db: Tables, id: nat): Reply {
    if id >= |db.requests| || !db.requests[id].status.Reserved? then Reply(db, Ok(Nothing))
    else
      Reply(db.(requests := db.requests[id := db.requests[id].(status := PendingReconciliation)]), Ok(Nothing))
  }

  const SECOND: Time := 1_000_000

  predicate Stale(r: Request, cutoff: Time) { r.status.Reserved? && r.createdAt <= cutoff }

  function SweepRows(requests: seq<Request>, cutoff: Time): (after: seq<Request>)
    ensures |after| == |requests|
  {
    seq(|requests|, i requires 0 <= i < |requests| =>
      if Stale(requests[i], cutoff) then requests[i].(status := PendingReconciliation) else requests[i])
  }

  /** `recover_stale_model_reservations`. */
  function Sweep(db: Tables, leaseSeconds: int, now: Time): Reply {
    if !(60 <= leaseSeconds <= 86_400) then Refuse(db, LeaseOutOfRange)
    else
      var cutoff := now - leaseSeconds * SECOND;
      Reply(db.(requests := SweepRows(db.requests, cutoff)),
            Ok(Counted(CountRows(db.requests, (r: Request) => Stale(r, cutoff)))))
  }
}
