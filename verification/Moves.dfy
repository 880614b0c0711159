/** Every metering and payment transaction is one of a few moves: this module says
    what a move changes and when it may happen. The invariants are proved move
    by move. */
module Moves {
  import opened Schema
  import opened Budgets
  import opened JournalBooks
  import opened Identity
  import opened Billing
  import opened Payments

  datatype Move =
    | Stay
    | PlaceHold(request: Request, placing: Transaction)
    | FinishHold(id: nat, finished: Request, back: Money, finishing: Transaction)
    | Suspend(suspended: seq<Request>)
    | StartBudget(superseded: Option<nat>, started: Budget)
    | PlaceOrder(placed: Order)
    | Adjust(o: nat, adjusted: Order, noted: seq<WebhookEvent>)
    | Note(noted: seq<WebhookEvent>)
    | Credit(o: nat, paid: Order, event: WebhookEvent, crediting: Transaction)
    | OpenRefund(o: nat, requested: Refund)
    | Retouch(f: nat, touched: Refund)
    | Reversal(o: nat, closed: Order, f: nat, done: Refund, recovered: Money,
               noted: seq<WebhookEvent>, reversing: Transaction)
    | Disposal(f: nat, resolved: Refund, recovered: Money, disposing: Transaction)

  // ------------------------------------------------- what every table relies on

  ghost predicate RequestLinked(r: Request, db: Tables) {
    && r.user < |db.wallets| && r.hold >= 1 && r.charged >= 0
    && (r.Live() ==> r.charged == 0)
    && (r.budget.Some? ==> r.budget.value < |db.budgets| && db.budgets[r.budget.value].user == r.user)
  }

  ghost predicate OrderLinked(o: Order, db: Tables) {
    o.user < |db.wallets| && o.quote.credit > 0
  }

  ghost predicate RefundLinked(f: Refund, db: Tables) {
    && f.order < |db.orders| && f.user == db.orders[f.order].user
    && f.credit == db.orders[f.order].quote.credit
  }

  /** `post_transaction` would write it: balanced, two entries or more, no zeros. */
  ghost predicate Balanced(t: Transaction) {
    && |t.entries| >= 2 && EntryTotal(t.entries) == 0
    && forall e :: e in t.entries ==> e.amount != 0
  }

  ghost predicate TransactionLinked(t: Transaction, db: Tables) {
    && t.user < |db.wallets| && Balanced(t)
    && (match t.ref
        case RequestRef(r) => r < |db.requests|
        case OrderRef(o) => o < |db.orders|)
  }

  /** Foreign keys and row constraints. */
  ghost predicate Linked(db: Tables) {
    && |db.wallets| == |db.users|
    && (forall r | 0 <= r < |db.requests| :: RequestLinked(db.requests[r], db))
    && (forall b | 0 <= b < |db.budgets| :: db.budgets[b].user < |db.wallets|)
    && (forall o | 0 <= o < |db.orders| :: OrderLinked(db.orders[o], db))
    && (forall f | 0 <= f < |db.refunds| :: RefundLinked(db.refunds[f], db))
    && (forall t | 0 <= t < |db.journal| :: TransactionLinked(db.journal[t], db))
  }

  // --------------------------------------------------------- when a move is legal

  /** A new posting about `ref`, under a key no earlier one used. */
  ghost predicate Fresh(db: Tables, t: Transaction, user: nat, ref: Ref) {
    Balanced(t) && t.user == user && t.ref == ref && !KeyUsed(db.journal, t.key)
  }

  /** What a posting does to the customer's accounts. */
  ghost predicate Moved(t: Transaction, available: Money, reserved: Money) {
    && AccountTotal(t.entries, CustomerAvailable) == available
    && AccountTotal(t.entries, CustomerReserved) == reserved
  }

  /** What a posting does to the platform's side of an order. */
  ghost predicate Booked(t: Transaction, clearing: Money, risk: Money, loss: Money) {
    && AccountTotal(t.entries, PlatformClearing) == clearing
    && AccountTotal(t.entries, PlatformRisk) == risk
    && AccountTotal(t.entries, PlatformLoss) == loss
  }

  predicate SameOrder(a: Order, b: Order) {
    a.user == b.user && a.quote == b.quote && a.clientKey == b.clientKey
  }

  predicate SameRefund(a: Refund, b: Refund) {
    a.order == b.order && a.user == b.user && a.credit == b.credit && a.clientKey == b.clientKey
  }

  /** Pending as a new order is, with nothing known at the provider. */
  predicate Untouched(o: Order) { o.status.Pending? && o.txn.None? }

  /** No checkout can be claimed for the order any more. */
  predicate Unclaimable(o: Order) { !o.status.Pending? || o.txn.Some? || o.url.Some? }

  ghost predicate HoldLegal(db: Tables, r: Request, t: Transaction) {
    var id := |db.requests|;
    && IsActive(db, r.user) && OwnedActiveKey(db.keys, r.user, r.apiKey)
    && r.user < |db.wallets| && 1 <= r.hold <= db.wallets[r.user].balance
    && r.status.Reserved? && r.charged == 0
    && (r.budget.Some? ==>
          && r.budget.value < |db.budgets|
          && var b := db.budgets[r.budget.value]; b.user == r.user && b.active && b.spent + b.reserved + r.hold <= b.limit)
    && Fresh(db, t, r.user, RequestRef(id)) && t.kind == KindReserve && t.key == ReserveKey(id)
    && Moved(t, -r.hold, r.hold)
  }

  ghost predicate FinishLegal(db: Tables, id: nat, done: Request, back: Money, t: Transaction) {
    && id < |db.requests|
    && var r := db.requests[id];
    && r.Live() && !done.Live() && HoldAnomaly(db, r).None?
    && done.user == r.user && done.budget == r.budget && done.hold == r.hold && done.clientKey == r.clientKey
    && done.createdAt == r.createdAt && done.apiKey == r.apiKey
    && 0 <= back <= r.hold && done.charged == r.hold - back
    && Fresh(db, t, r.user, RequestRef(id))
    && (if done.status.Settled? || done.status.UnderReserved? then t.kind == KindSettle && t.key == SettleKey(id)
        else t.kind in {KindRelease, KindOperatorRelease} && t.key == ReleaseKey(id))
    && Moved(t, back, -r.hold)
  }

  ghost predicate AdjustLegal(db: Tables, o: nat, order: Order) {
    && o < |db.orders| && SameOrder(db.orders[o], order)
    && var was := db.orders[o];
    && (order.status == was.status
        || (was.Open() && (order.Open() || order.status.PaymentFailed? || order.status.Closed?)))
    && (was.txn.Some? ==> order.txn == was.txn)
    && (Unclaimable(was) ==> Unclaimable(order))
    && (!Untouched(was) ==> !Untouched(order))
  }

  ghost predicate CreditLegal(db: Tables, o: nat, order: Order, event: WebhookEvent, t: Transaction) {
    && o < |db.orders| && SameOrder(db.orders[o], order) && db.orders[o].user < |db.wallets|
    && var was := db.orders[o];
    && was.Open() && order.status.Paid? && order.txn.Some?
    && (was.txn.Some? && (was.quote.provider != TEST_PROVIDER || t.kind.KindPaymentCredit?) ==> order.txn == was.txn)
    && event.order == o && EventById(db.events, event.provider, event.eventId).None?
    && Fresh(db, t, was.user, OrderRef(o)) && t.kind in {KindCredit, KindPaymentCredit}
    && t.key == PaymentKey(event.provider, event.eventId)
    && Moved(t, was.quote.credit, 0) && Booked(t, -was.quote.credit, 0, 0)
  }

  ghost predicate ReversalLegal(db: Tables, o: nat, closed: Order, f: nat, done: Refund, recovered: Money, t: Transaction) {
    && o < |db.orders| && SameOrder(db.orders[o], closed) && db.orders[o].user < |db.wallets|
    && var was := db.orders[o]; var credit := was.quote.credit; var balance := db.wallets[was.user].balance;
    && was.Credited() && closed.status.Refunded? && closed.txn == was.txn
    && f <= |db.refunds| && done.order == o && done.user == was.user && done.credit == credit
    && (if f < |db.refunds| then
          SameRefund(db.refunds[f], done) && db.refunds[f].InFlight()
          && db.refunds[f].providerRefund in {None, done.providerRefund}
        else !OrderHasRefund(db.refunds, o))
    && done.providerRefund.Some?
    && recovered == (if balance >= credit then credit else Max(0, balance))
    && (if balance >= credit
        then done.status.RefundDone? && t.kind == KindPaymentRefund && t.key == RefundKey(f)
        else done.status.Risk? && t.kind == KindPaymentRefundRisk && t.key == RefundRiskKey(f))
    && Fresh(db, t, was.user, OrderRef(o))
    && Moved(t, -recovered, 0) && Booked(t, credit, recovered - credit, 0)
  }

  ghost predicate DisposalLegal(db: Tables, f: nat, resolved: Refund, recovered: Money, t: Transaction) {
    && f < |db.refunds| && db.refunds[f].user < |db.wallets|
    && var was := db.refunds[f]; var debt := RiskDebt(db.journal, was.order);
    && was.status.Risk? && resolved == was.(status := Resolved)
    && was.order < |db.orders| && db.orders[was.order].status.Refunded?
    && debt > 0 && db.wallets[was.user].reserved == 0
    && recovered <= debt && recovered <= db.wallets[was.user].balance
    && (db.wallets[was.user].balance >= 0 ==> recovered >= 0)
    && Fresh(db, t, was.user, OrderRef(was.order))
    && t.kind in {KindRiskRecover, KindRiskWriteOff}
    && t.key.DispositionKey? && t.key.refund == f
    && Moved(t, -recovered, 0) && Booked(t, 0, debt, recovered - debt)
  }

  ghost predicate BudgetLegal(db: Tables, superseded: Option<nat>, started: Budget) {
    && started.user < |db.wallets| && started.limit > 0 && started.active && started.reserved == 0
    && IsMonth(started.start, started.end)
    && (match superseded
        case None =>
          && started.spent == 0
          && forall i | 0 <= i < |db.budgets| ::
               !(db.budgets[i].active && db.budgets[i].user == started.user && db.budgets[i].start == started.start)
        case Some(b) =>
          && b < |db.budgets|
          && var was := db.budgets[b];
          && was.active && was.user == started.user && was.start == started.start && was.reserved <= 0
          && started.spent == was.spent <= started.limit)
  }

  ghost predicate Legal(db: Tables, m: Move) {
    match m
    case Stay => true
    case PlaceHold(r, t) => HoldLegal(db, r, t)
    case FinishHold(id, done, back, t) => FinishLegal(db, id, done, back, t)
    case Suspend(rows) =>
      && |rows| == |db.requests|
      && forall i | 0 <= i < |rows| ::
           rows[i] == db.requests[i]
           || (db.requests[i].status.Reserved? && rows[i] == db.requests[i].(status := PendingReconciliation))
    case StartBudget(s, started) => BudgetLegal(db, s, started)
    case PlaceOrder(o) => o.user < |db.wallets| && o == NewOrder(o.user, o.quote, o.clientKey) && o.quote.credit > 0
    case Adjust(o, order, _) => AdjustLegal(db, o, order)
    case Note(_) => true
    case Credit(o, order, e, t) => CreditLegal(db, o, order, e, t)
    case OpenRefund(o, r) =>
      && o < |db.orders| && db.orders[o].status.Paid? && !OrderHasRefund(db.refunds, o)
      && r.order == o && r.user == db.orders[o].user && r.credit == db.orders[o].quote.credit
      && r.status.Requesting? && r.providerRefund.None?
    case Retouch(f, r) =>
      && f < |db.refunds| && SameRefund(db.refunds[f], r) && r.providerRefund == db.refunds[f].providerRefund
      && db.refunds[f].InFlight() && r.InFlight()
    case Reversal(o, closed, f, done, recovered, _, t) => ReversalLegal(db, o, closed, f, done, recovered, t)
    case Disposal(f, r, recovered, t) => DisposalLegal(db, f, r, recovered, t)
  }

  // ------------------------------------------------------------ what a move does

  function Reversed(db: Tables, o: nat, closed: Order, f: nat, done: Refund, recovered: Money,
                    noted: seq<WebhookEvent>, t: Transaction): Tables
    requires o < |db.orders| && db.orders[o].user < |db.wallets| && f <= |db.refunds|
  {
    var user := db.orders[o].user;
    var w := db.wallets[user];
    (if done.status.Risk? then FreezeUser(db, user) else db)
      .(orders := db.orders[o := closed], refunds := StoreRefund(db.refunds, f, done),
        events := db.events + noted, journal := db.journal + [t],
        wallets := db.wallets[user := w.(balance := w.balance - recovered)])
  }

  function Make(db: Tables, m: Move): Tables
    requires Legal(db, m)
  {
    match m
    case Stay => db
    case PlaceHold(r, t) =>
      db.(wallets := db.wallets[r.user := Hold(db.wallets[r.user], r.hold)],
          budgets := if r.budget.None? then db.budgets
                     else db.budgets[r.budget.value := HoldBudget(db.budgets[r.budget.value], r.hold)],
          requests := db.requests + [r],
          journal := db.journal + [t])
    case FinishHold(id, done, back, t) =>
      FinishRequest(db, id, done, back, done.charged).(journal := db.journal + [t])
    case Suspend(rows) => db.(requests := rows)
    case StartBudget(s, started) =>
      db.(budgets := (if s.None? then db.budgets
                      else db.budgets[s.value := db.budgets[s.value].(active := false)]) + [started])
    case PlaceOrder(o) => db.(orders := db.orders + [o])
    case Adjust(o, order, noted) => db.(orders := db.orders[o := order], events := db.events + noted)
    case Note(noted) => db.(events := db.events + noted)
    case Credit(o, order, e, t) =>
      var w := db.wallets[order.user];
      db.(orders := db.orders[o := order], events := db.events + [e], journal := db.journal + [t],
          wallets := db.wallets[order.user := w.(balance := w.balance + order.quote.credit)])
    case OpenRefund(o, r) =>
      db.(orders := db.orders[o := db.orders[o].(status := Refunding)], refunds := db.refunds + [r])
    case Retouch(f, r) => db.(refunds := db.refunds[f := r])
    case Reversal(o, closed, f, done, recovered, noted, t) => Reversed(db, o, closed, f, done, recovered, noted, t)
    case Disposal(f, r, recovered, t) =>
      var w := db.wallets[r.user];
      db.(refunds := db.refunds[f := r], journal := db.journal + [t],
          wallets := db.wallets[r.user := w.(balance := w.balance - recovered)])
  }

  predicate IsMetering(m: Move) { m.PlaceHold? || m.FinishHold? || m.Suspend? || m.StartBudget? }

  predicate IsOrdering(m: Move) { m.PlaceOrder? || m.Adjust? || m.Credit? }

  // -------------------------------------------------- readings of the postings

  lemma TransferMoves(a: Account, b: Account, x: Money, y: Money)
    requires a != b
    ensures forall on :: AccountTotal(Normalize(Entries2(a, x, b, y)), on) == Amount(on, Entry(a, x)) + Amount(on, Entry(b, y))
    ensures Postable(Entries2(a, x, b, y)) <==> x != 0 && x + y == 0
  {
    forall on
      ensures AccountTotal(Normalize(Entries2(a, x, b, y)), on) == Amount(on, Entry(a, x)) + Amount(on, Entry(b, y))
    {
      Transfer(a, b, x, y, on);
    }
    Transfer(a, b, x, y, a);
  }

  lemma SplitMoves(a: Account, b: Account, c: Account, x: Money, y: Money, z: Money)
    requires x + y + z == 0 && (x != 0 || y != 0) && (x != 0 || z != 0) && (y != 0 || z != 0)
    ensures forall on :: AccountTotal(Normalize(Entries3(a, x, b, y, c, z)), on)
                         == Amount(on, Entry(a, x)) + Amount(on, Entry(b, y)) + Amount(on, Entry(c, z))
    ensures Postable(Entries3(a, x, b, y, c, z))
  {
    forall on
      ensures AccountTotal(Normalize(Entries3(a, x, b, y, c, z)), on)
              == Amount(on, Entry(a, x)) + Amount(on, Entry(b, y)) + Amount(on, Entry(c, z))
    {
      Split(a, b, c, x, y, z, on);
    }
    Split(a, b, c, x, y, z, a);
  }

  lemma SettlementMoves(hold: Money, cost: Money, upstream: Money)
    requires hold >= 1 && cost >= 0
    ensures var es := SettlementEntries(hold, cost, upstream);
            && Postable(es)
            && AccountTotal(Normalize(es), CustomerAvailable) == hold - Min(cost, hold)
            && AccountTotal(Normalize(es), CustomerReserved) == -hold
            && AccountTotal(Normalize(es), PlatformRevenue) == cost
            && AccountTotal(Normalize(es), PlatformRisk) == Min(cost, hold) - cost
            && AccountTotal(Normalize(es), ProviderExpense) == upstream
            && AccountTotal(Normalize(es), ProviderPayable) == -upstream
  {
    var es := SettlementEntries(hold, cost, upstream);
    var s5 := [es[5]] + [];
    var s4 := [es[4]] + s5;
    var s3 := [es[3]] + s4;
    var s2 := [es[2]] + s3;
    var s1 := [es[1]] + s2;
    assert es == [es[0]] + s1;
    forall on: Account
      ensures AccountTotal(Normalize(es), on) == Amount(on, es[0]) + Amount(on, es[1]) + Amount(on, es[2])
                                                 + Amount(on, es[3]) + Amount(on, es[4]) + Amount(on, es[5])
    {
      Peel(es[5], [], on);
      Peel(es[4], s5, on);
      Peel(es[3], s4, on);
      Peel(es[2], s3, on);
      Peel(es[1], s2, on);
      Peel(es[0], s1, on);
      NormalizeKeepsTotals(es, on);
    }
    assert Postable(es) by {
      var on := CustomerAvailable;
      Peel(es[5], [], on);
      Peel(es[4], s5, on);
      Peel(es[3], s4, on);
      Peel(es[2], s3, on);
      Peel(es[1], s2, on);
      Peel(es[0], s1, on);
      NormalizeKeepsTotals(es, on);
    }
  }
}
