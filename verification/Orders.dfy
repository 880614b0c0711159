/** Orders, refunds and the journal: each order is credited and reversed at most
    once, orders and refunds move together, and a refund's shortfall stays
    accounted for until it is disposed of. */
module Orders {
  import opened Schema
  import opened JournalBooks
  import opened Payments
  import opened Moves
  import opened Evolution
  import opened Books

  // ------------------------------------------------------ an order's position

  const CREDIT_KINDS: set<Kind> := {KindCredit, KindPaymentCredit}
  const REVERSAL_KINDS: set<Kind> := {KindPaymentRefund, KindPaymentRefundRisk}
  const DISPOSAL_KINDS: set<Kind> := {KindRiskRecover, KindRiskWriteOff}
  const FINISH_KINDS: set<Kind> := {KindSettle, KindRelease, KindOperatorRelease}

  /** Everything the journal says about one order. */
  datatype Position = Position(
    clearing: Money,      // net platform_clearing
    credits: int,         // credit transactions
    reversals: int,       // refund transactions
    debt: Money,          // what resolve_refund_risk recomputes
    shortfall: Money,     // what the refund itself booked as risk
    atRefund: Money,      // taken from the customer by the refund
    later: Money,         // taken from the customer by the disposition
    writtenOff: Money)    // booked as platform loss

  const NONE := Position(0, 0, 0, 0, 0, 0, 0, 0)

  function PositionOf(j: Journal, o: nat): Position {
    Position(
      Sum(OfOrder(o, PlatformClearing), j),
      Sum(Postings(OrderRef(o), CREDIT_KINDS), j),
      Sum(Postings(OrderRef(o), REVERSAL_KINDS), j),
      RiskDebt(j, o),
      -Sum(OfOrderKinds(o, PlatformRisk, {KindPaymentRefundRisk}), j),
      -Sum(OfOrderKinds(o, CustomerAvailable, REVERSAL_KINDS), j),
      -Sum(OfOrderKinds(o, CustomerAvailable, DISPOSAL_KINDS), j),
      -Sum(OfOrder(o, PlatformLoss), j))
  }

  function If(condition: bool, x: int): int { if condition then x else 0 }

  function Advanced(p: Position, t: Transaction): Position {
    var available, risk := AccountTotal(t.entries, CustomerAvailable), AccountTotal(t.entries, PlatformRisk);
    Position(
      p.clearing + AccountTotal(t.entries, PlatformClearing),
      p.credits + If(t.kind in CREDIT_KINDS, 1),
      p.reversals + If(t.kind in REVERSAL_KINDS, 1),
      p.debt - If(t.kind in RISK_KINDS, risk),
      p.shortfall - If(t.kind == KindPaymentRefundRisk, risk),
      p.atRefund - If(t.kind in REVERSAL_KINDS, available),
      p.later - If(t.kind in DISPOSAL_KINDS, available),
      p.writtenOff - AccountTotal(t.entries, PlatformLoss))
  }

  lemma PositionAppend(j: Journal, t: Transaction, o: nat)
    ensures PositionOf(j + [t], o) == (if t.ref == OrderRef(o) then Advanced(PositionOf(j, o), t) else PositionOf(j, o))
  {
    SumAppend(OfOrder(o, PlatformClearing), j, t);
    SumAppend(Postings(OrderRef(o), CREDIT_KINDS), j, t);
    SumAppend(Postings(OrderRef(o), REVERSAL_KINDS), j, t);
    SumAppend(OfOrderKinds(o, PlatformRisk, RISK_KINDS), j, t);
    SumAppend(OfOrderKinds(o, PlatformRisk, {KindPaymentRefundRisk}), j, t);
    SumAppend(OfOrderKinds(o, CustomerAvailable, REVERSAL_KINDS), j, t);
    SumAppend(OfOrderKinds(o, CustomerAvailable, DISPOSAL_KINDS), j, t);
    SumAppend(OfOrder(o, PlatformLoss), j, t);
  }

  lemma {:induction false} NoPosition(j: Journal, o: nat)
    requires forall i | 0 <= i < |j| :: j[i].ref != OrderRef(o)
    ensures PositionOf(j, o) == NONE
  {
    if |j| > 0 {
      NoPosition(j[..|j| - 1], o);
      PositionAppend(j[..|j| - 1], j[|j| - 1], o);
      assert j == j[..|j| - 1] + [j[|j| - 1]];
    }
  }

  // ---------------------------------------------------------------- invariants

  /** What an order's status says about its position. */
  ghost predicate OrderBook(order: Order, p: Position) {
    && p.clearing == (if order.Credited() then -order.quote.credit else 0)
    && p.credits == (if order.Credited() || order.status.Refunded? then 1 else 0)
    && p.reversals == (if order.status.Refunded? then 1 else 0)
    && (!order.status.Refunded? ==>
          p.debt == 0 && p.shortfall == 0 && p.atRefund == 0 && p.later == 0 && p.writtenOff == 0)
  }

  /** How a completed refund's credit is split, and what is still owed. */
  ghost predicate RefundBook(refund: Refund, p: Position) {
    !refund.InFlight() ==>
      && p.atRefund >= 0 && p.later >= 0 && p.writtenOff >= 0
      && refund.credit == p.atRefund + p.later + p.writtenOff + p.debt
      && p.shortfall == refund.credit - p.atRefund
      && (refund.status.RefundDone? ==> p.shortfall == 0 && p.debt == 0)
      && (refund.status.Risk? ==> p.debt == p.shortfall > 0)
      && (refund.status.Resolved? ==> p.debt == 0 < p.shortfall)
  }

  ghost predicate OrdersBooked(orders: seq<Order>, refunds: seq<Refund>, j: Journal) {
    && (forall o | 0 <= o < |orders| :: OrderBook(orders[o], PositionOf(j, o)))
    && (forall f | 0 <= f < |refunds| :: RefundBook(refunds[f], PositionOf(j, refunds[f].order)))
  }

  /** An order has no refund before `Refunding`, one in flight while refunding and
      one completed afterwards. */
  ghost predicate Lockstep(orders: seq<Order>, refunds: seq<Refund>) {
    && (forall f | 0 <= f < |refunds| ::
          && refunds[f].order < |orders|
          && (if refunds[f].InFlight() then orders[refunds[f].order].status.Refunding?
              else orders[refunds[f].order].status.Refunded?))
    && (forall f, g | 0 <= f < g < |refunds| :: refunds[f].order != refunds[g].order)
    && (forall o | 0 <= o < |orders| ::
          orders[o].status.Refunding? || orders[o].status.Refunded? ==> OrderHasRefund(refunds, o))
  }

  /** A journal key was used only by the step that leaves this behind. */
  ghost predicate KeyOk(db: Tables, key: JournalKey) {
    match key
    case ReserveKey(r) => r < |db.requests|
    case SettleKey(r) => r < |db.requests| && (db.requests[r].status.Settled? || db.requests[r].status.UnderReserved?)
    case ReleaseKey(r) => r < |db.requests| && (db.requests[r].status.Failed? || db.requests[r].status.ReconciledReleased?)
    case PaymentKey(p, e) => EventById(db.events, p, e).Some?
    case RefundKey(f) => f < |db.refunds| && db.refunds[f].status.RefundDone?
    case RefundRiskKey(f) => f < |db.refunds| && (db.refunds[f].status.Risk? || db.refunds[f].status.Resolved?)
    case DispositionKey(f, _) => f < |db.refunds| && db.refunds[f].status.Resolved?
  }

  ghost predicate KeysOk(db: Tables) {
    && (forall i | 0 <= i < |db.journal| :: KeyOk(db, db.journal[i].key))
    && (forall i, j | 0 <= i < j < |db.journal| :: db.journal[i].key != db.journal[j].key)
  }

  /** Each request is settled or released at most once. */
  ghost predicate RequestsBooked(requests: seq<Request>, j: Journal) {
    forall r | 0 <= r < |requests| ::
      Sum(Postings(RequestRef(r), FINISH_KINDS), j) == (if requests[r].Live() then 0 else 1)
  }

  ghost predicate OrdersSound(db: Tables) {
    && OrdersBooked(db.orders, db.refunds, db.journal)
    && Lockstep(db.orders, db.refunds)
    && KeysOk(db)
    && RequestsBooked(db.requests, db.journal)
  }

  // --------------------------------------------------------------- preservation

  /** A posting about something else leaves an order's position alone. */
  lemma OtherPosting(orders: seq<Order>, refunds: seq<Refund>, j: Journal, t: Transaction)
    requires OrdersBooked(orders, refunds, j) && t.ref.RequestRef?
    ensures OrdersBooked(orders, refunds, j + [t])
  {
    forall o | 0 <= o < |orders| ensures OrderBook(orders[o], PositionOf(j + [t], o)) {
      PositionAppend(j, t, o);
    }
    forall f | 0 <= f < |refunds| ensures RefundBook(refunds[f], PositionOf(j + [t], refunds[f].order)) {
      PositionAppend(j, t, refunds[f].order);
    }
  }

  /** A posting about one order, with the order row and at most one refund row
      rewritten to match. */
  lemma OrderPosting(orders: seq<Order>, refunds: seq<Refund>, j: Journal, t: Transaction,
                     o: nat, order: Order, refunds': seq<Refund>)
    requires OrdersBooked(orders, refunds, j) && o < |orders| && t.ref == OrderRef(o)
    requires OrderBook(order, Advanced(PositionOf(j, o), t))
    requires forall f | 0 <= f < |refunds'| ::
               (if refunds'[f].order == o then RefundBook(refunds'[f], Advanced(PositionOf(j, o), t))
                else f < |refunds| && refunds'[f] == refunds[f])
    ensures OrdersBooked(orders[o := order], refunds', j + [t])
  {
    var after := orders[o := order];
    forall i | 0 <= i < |after| ensures OrderBook(after[i], PositionOf(j + [t], i)) {
      PositionAppend(j, t, i);
    }
    forall f | 0 <= f < |refunds'| ensures RefundBook(refunds'[f], PositionOf(j + [t], refunds'[f].order)) {
      PositionAppend(j, t, refunds'[f].order);
      if refunds'[f].order != o { assert RefundBook(refunds[f], PositionOf(j, refunds[f].order)); }
    }
  }

  lemma CreditBooked(db: Tables, o: nat, order: Order, e: WebhookEvent, t: Transaction)
    requires OrdersBooked(db.orders, db.refunds, db.journal) && Lockstep(db.orders, db.refunds) && CreditLegal(db, o, order, e, t)
    ensures OrdersBooked(db.orders[o := order], db.refunds, db.journal + [t])
  {
    assert OrderBook(db.orders[o], PositionOf(db.journal, o));
    OrderPosting(db.orders, db.refunds, db.journal, t, o, order, db.refunds);
  }

  lemma ReversalBooked(db: Tables, o: nat, closed: Order, f: nat, done: Refund, recovered: Money, t: Transaction)
    requires OrdersBooked(db.orders, db.refunds, db.journal) && Lockstep(db.orders, db.refunds)
    requires o < |db.orders| && WalletsBooked(db.wallets, db.journal) && OrderLinked(db.orders[o], db)
    requires ReversalLegal(db, o, closed, f, done, recovered, t)
    ensures OrdersBooked(db.orders[o := closed], StoreRefund(db.refunds, f, done), db.journal + [t])
  {
    assert OrderBook(db.orders[o], PositionOf(db.journal, o));
    assert WalletBooked(db.wallets, db.journal, db.orders[o].user);
    OrderPosting(db.orders, db.refunds, db.journal, t, o, closed, StoreRefund(db.refunds, f, done));
  }

  lemma DisposalBooked(db: Tables, f: nat, resolved: Refund, recovered: Money, t: Transaction)
    requires OrdersBooked(db.orders, db.refunds, db.journal) && Lockstep(db.orders, db.refunds)
    requires WalletsBooked(db.wallets, db.journal) && DisposalLegal(db, f, resolved, recovered, t)
    ensures OrdersBooked(db.orders, db.refunds[f := resolved], db.journal + [t])
  {
    var o := resolved.order;
    assert OrderBook(db.orders[o], PositionOf(db.journal, o));
    assert RefundBook(db.refunds[f], PositionOf(db.journal, o));
    assert WalletBooked(db.wallets, db.journal, db.refunds[f].user);
    OrderPosting(db.orders, db.refunds, db.journal, t, o, db.orders[o], db.refunds[f := resolved]);
    assert db.orders[o := db.orders[o]] == db.orders;
  }

  lemma NewOrderBooked(db: Tables, order: Order)
    requires Linked(db) && OrdersBooked(db.orders, db.refunds, db.journal) && order.status.Pending?
    ensures OrdersBooked(db.orders + [order], db.refunds, db.journal)
  {
    var n := |db.orders|;
    forall i | 0 <= i < |db.journal| ensures db.journal[i].ref != OrderRef(n) {
      assert TransactionLinked(db.journal[i], db);
    }
    NoPosition(db.journal, n);
  }

  lemma MeteringKeepsOrders(db: Tables, m: Move)
    requires OrdersBooked(db.orders, db.refunds, db.journal) && Legal(db, m) && IsMetering(m)
    ensures var db' := Make(db, m); OrdersBooked(db'.orders, db'.refunds, db'.journal)
  {
    if m.PlaceHold? { OtherPosting(db.orders, db.refunds, db.journal, m.placing); }
    if m.FinishHold? { OtherPosting(db.orders, db.refunds, db.journal, m.finishing); }
  }

  /** Orders of the same standing, credited, refunded or neither, have the same book. */
  predicate SameStanding(a: Order, b: Order) {
    a.quote == b.quote && (a.Credited() <==> b.Credited()) && (a.status.Refunded? <==> b.status.Refunded?)
  }

  lemma StandingKeepsBooks(orders: seq<Order>, refunds: seq<Refund>, j: Journal, orders': seq<Order>, refunds': seq<Refund>)
    requires OrdersBooked(orders, refunds, j) && |orders'| == |orders|
    requires forall o | 0 <= o < |orders| :: SameStanding(orders[o], orders'[o])
    requires forall f | 0 <= f < |refunds'| :: refunds'[f].InFlight() || (f < |refunds| && refunds'[f] == refunds[f])
    ensures OrdersBooked(orders', refunds', j)
  {
    forall o | 0 <= o < |orders| ensures OrderBook(orders'[o], PositionOf(j, o)) {
      assert OrderBook(orders[o], PositionOf(j, o));
    }
  }

  /** The moves on orders and refunds that post nothing. */
  lemma UnpostedKeepsOrders(db: Tables, m: Move)
    requires OrdersBooked(db.orders, db.refunds, db.journal) && Legal(db, m)
    requires m.Stay? || m.Adjust? || m.Note? || m.OpenRefund? || m.Retouch?
    ensures var db' := Make(db, m); OrdersBooked(db'.orders, db'.refunds, db'.journal)
  {
    StandingKeepsBooks(db.orders, db.refunds, db.journal, Make(db, m).orders, Make(db, m).refunds);
  }

  lemma OrderingKeepsOrders(db: Tables, m: Move)
    requires Linked(db) && OrdersBooked(db.orders, db.refunds, db.journal) && Lockstep(db.orders, db.refunds)
    requires Legal(db, m) && (m.PlaceOrder? || m.Credit?)
    ensures var db' := Make(db, m); OrdersBooked(db'.orders, db'.refunds, db'.journal)
  {
    match m
    case PlaceOrder(order) => NewOrderBooked(db, order);
    case Credit(o, order, e, t) => CreditBooked(db, o, order, e, t);
  }

  lemma RefundKeepsOrders(db: Tables, m: Move)
    requires Linked(db) && WalletsBooked(db.wallets, db.journal)
    requires OrdersBooked(db.orders, db.refunds, db.journal) && Lockstep(db.orders, db.refunds)
    requires Legal(db, m) && (m.Reversal? || m.Disposal?)
    ensures var db' := Make(db, m); OrdersBooked(db'.orders, db'.refunds, db'.journal)
  {
    match m
    case Reversal(o, closed, f, done, recovered, _, t) =>
      assert OrderLinked(db.orders[o], db);
      ReversalBooked(db, o, closed, f, done, recovered, t);
    case Disposal(f, r, recovered, t) => DisposalBooked(db, f, r, recovered, t);
  }

  lemma OrdersBookedKept(db: Tables, m: Move)
    requires Linked(db) && WalletsBooked(db.wallets, db.journal) && Legal(db, m)
    requires OrdersBooked(db.orders, db.refunds, db.journal) && Lockstep(db.orders, db.refunds)
    ensures var db' := Make(db, m); OrdersBooked(db'.orders, db'.refunds, db'.journal)
  {
    if IsMetering(m) { MeteringKeepsOrders(db, m); }
    else if m.PlaceOrder? || m.Credit? { OrderingKeepsOrders(db, m); }
    else if m.Reversal? || m.Disposal? { RefundKeepsOrders(db, m); }
    else { UnpostedKeepsOrders(db, m); }
  }

  /** An order keeps its refund while refunds keep their orders. */
  lemma HasRefundKept(refunds: seq<Refund>, refunds': seq<Refund>, o: nat)
    requires |refunds| <= |refunds'| && forall f | 0 <= f < |refunds| :: refunds'[f].order == refunds[f].order
    ensures OrderHasRefund(refunds, o) ==> OrderHasRefund(refunds', o)
  {
    if OrderHasRefund(refunds, o) {
      var i :| 0 <= i < |refunds| && refunds[i].order == o;
      assert refunds'[i].order == o;
    }
  }

  lemma RefundsKept(orders: seq<Order>, refunds: seq<Refund>, orders': seq<Order>, refunds': seq<Refund>, f: nat)
    requires Lockstep(orders, refunds) && f <= |refunds| && |orders'| >= |orders|
    requires |refunds'| == (if f < |refunds| then |refunds| else |refunds| + 1)
    requires forall i | 0 <= i < |refunds'| && i != f :: refunds'[i] == refunds[i]
    requires refunds'[f].order < |orders|
    requires if f < |refunds| then refunds'[f].order == refunds[f].order else !OrderHasRefund(refunds, refunds'[f].order)
    requires if refunds'[f].InFlight() then orders'[refunds'[f].order].status.Refunding?
             else orders'[refunds'[f].order].status.Refunded?
    requires forall o | 0 <= o < |orders'| && o != refunds'[f].order ::
               if o < |orders| then orders'[o] == orders[o] else orders'[o].status.Pending?
    ensures Lockstep(orders', refunds')
  {
    forall o | 0 <= o < |orders'| && (orders'[o].status.Refunding? || orders'[o].status.Refunded?)
      ensures OrderHasRefund(refunds', o)
    {
      HasRefundKept(refunds, refunds', o);
    }
  }

  /** Order rows may change among the statuses that go with no refund. */
  lemma OrdersKept(orders: seq<Order>, refunds: seq<Refund>, orders': seq<Order>)
    requires Lockstep(orders, refunds) && |orders'| >= |orders|
    requires forall o | 0 <= o < |orders'| ::
               (o < |orders| && orders'[o].status == orders[o].status)
               || ((o < |orders| ==> orders[o].Open()) && !orders'[o].status.Refunding? && !orders'[o].status.Refunded?)
    ensures Lockstep(orders', refunds)
  {
  }

  /** A refund row changes and its order row with it. */
  lemma RefundLockstep(db: Tables, m: Move)
    requires Lockstep(db.orders, db.refunds) && Legal(db, m) && (m.OpenRefund? || m.Reversal?)
    ensures Lockstep(Make(db, m).orders, Make(db, m).refunds)
  {
    match m
    case OpenRefund(o, r) =>
      RefundsKept(db.orders, db.refunds, Make(db, m).orders, db.refunds + [r], |db.refunds|);
    case Reversal(o, closed, f, done, _, _, _) =>
      RefundsKept(db.orders, db.refunds, db.orders[o := closed], StoreRefund(db.refunds, f, done), f);
  }

  /** A refund row changes alone. */
  lemma RefundRowLockstep(db: Tables, m: Move)
    requires Lockstep(db.orders, db.refunds) && Legal(db, m) && (m.Retouch? || m.Disposal?)
    ensures Lockstep(Make(db, m).orders, Make(db, m).refunds)
  {
    RefundsKept(db.orders, db.refunds, db.orders, Make(db, m).refunds, m.f);
  }

  lemma LockstepKept(db: Tables, m: Move)
    requires Linked(db) && Lockstep(db.orders, db.refunds) && Legal(db, m)
    ensures Lockstep(Make(db, m).orders, Make(db, m).refunds)
  {
    if m.OpenRefund? || m.Reversal? {
      RefundLockstep(db, m);
    } else if m.Retouch? || m.Disposal? {
      RefundRowLockstep(db, m);
    } else if IsOrdering(m) {
      OrdersKept(db.orders, db.refunds, Make(db, m).orders);
    }
  }

  lemma EventRecorded(events: seq<WebhookEvent>, e: WebhookEvent)
    ensures EventById(events + [e], e.provider, e.eventId).Some?
  {
    assert (events + [e])[|events|] == e;
  }

  /** What a key stands for is never undone. */
  lemma KeyStaysOk(db: Tables, db': Tables, key: JournalKey)
    requires KeyOk(db, key) && Evolves(db, db')
    ensures KeyOk(db', key)
  {
    match key
    case SettleKey(r) => assert RequestNext(db.requests[r], db'.requests[r]);
    case ReleaseKey(r) => assert RequestNext(db.requests[r], db'.requests[r]);
    case PaymentKey(p, e) =>
      var i := EventById(db.events, p, e).value;
      assert db'.events[i] == db.events[i];
    case RefundKey(f) => assert RefundNext(db.refunds[f], db'.refunds[f]);
    case RefundRiskKey(f) => assert RefundNext(db.refunds[f], db'.refunds[f]);
    case DispositionKey(f, _) => assert RefundNext(db.refunds[f], db'.refunds[f]);
    case _ =>
  }

  /** The key of a move's posting stands for what the move leaves behind. */
  lemma NewKeyOk(db: Tables, m: Move)
    requires Legal(db, m) && |Make(db, m).journal| > |db.journal|
    ensures |Make(db, m).journal| == |db.journal| + 1
    ensures KeyOk(Make(db, m), Make(db, m).journal[|db.journal|].key)
    ensures !KeyUsed(db.journal, Make(db, m).journal[|db.journal|].key)
  {
    if IsMetering(m) { MeteringKeyOk(db, m); } else { OrderKeyOk(db, m); }
  }

  lemma MeteringKeyOk(db: Tables, m: Move)
    requires Legal(db, m) && |Make(db, m).journal| > |db.journal| && IsMetering(m)
    ensures |Make(db, m).journal| == |db.journal| + 1
    ensures KeyOk(Make(db, m), Make(db, m).journal[|db.journal|].key)
    ensures !KeyUsed(db.journal, Make(db, m).journal[|db.journal|].key)
  {
  }

  lemma OrderKeyOk(db: Tables, m: Move)
    requires Legal(db, m) && |Make(db, m).journal| > |db.journal| && !IsMetering(m)
    ensures |Make(db, m).journal| == |db.journal| + 1
    ensures KeyOk(Make(db, m), Make(db, m).journal[|db.journal|].key)
    ensures !KeyUsed(db.journal, Make(db, m).journal[|db.journal|].key)
  {
    if m.Credit? { EventRecorded(db.events, m.event); }
  }

  lemma KeysKept(db: Tables, m: Move)
    requires KeysOk(db) && Legal(db, m)
    ensures KeysOk(Make(db, m))
  {
    var db' := Make(db, m);
    MoveEvolves(db, m);
    if |db'.journal| > |db.journal| { NewKeyOk(db, m); }
    forall i | 0 <= i < |db'.journal| ensures KeyOk(db', db'.journal[i].key) {
      if i < |db.journal| { KeyStaysOk(db, db', db.journal[i].key); }
    }
  }

  /** A posting of another kind, or about something else, finishes no request. */
  lemma UnfinishedPosting(requests: seq<Request>, j: Journal, t: Transaction, r: nat)
    requires t.ref != RequestRef(r) || t.kind !in FINISH_KINDS
    ensures Sum(Postings(RequestRef(r), FINISH_KINDS), j + [t]) == Sum(Postings(RequestRef(r), FINISH_KINDS), j)
  {
    SumAppend(Postings(RequestRef(r), FINISH_KINDS), j, t);
  }

  lemma NewRequestBooked(db: Tables, r: Request, t: Transaction)
    requires Linked(db) && RequestsBooked(db.requests, db.journal)
    requires r.Live() && t.kind.KindReserve?
    ensures RequestsBooked(db.requests + [r], db.journal + [t])
  {
    var n := |db.requests|;
    var meter := Postings(RequestRef(n), FINISH_KINDS);
    forall i | 0 <= i < |db.journal| ensures Reading(meter, db.journal[i]) == 0 {
      assert TransactionLinked(db.journal[i], db);
    }
    SumZero(meter, db.journal);
    forall i | 0 <= i <= n
      ensures Sum(Postings(RequestRef(i), FINISH_KINDS), db.journal + [t]) == Sum(Postings(RequestRef(i), FINISH_KINDS), db.journal)
    {
      UnfinishedPosting(db.requests, db.journal, t, i);
    }
  }

  lemma FinishedRequestBooked(requests: seq<Request>, j: Journal, id: nat, done: Request, t: Transaction)
    requires RequestsBooked(requests, j) && id < |requests| && requests[id].Live() && !done.Live()
    requires t.ref == RequestRef(id) && t.kind in FINISH_KINDS
    ensures RequestsBooked(requests[id := done], j + [t])
  {
    forall i | 0 <= i < |requests|
      ensures Sum(Postings(RequestRef(i), FINISH_KINDS), j + [t])
              == (if requests[id := done][i].Live() then 0 else 1)
    {
      SumAppend(Postings(RequestRef(i), FINISH_KINDS), j, t);
    }
  }

  lemma OrderPostingFinishesNothing(requests: seq<Request>, j: Journal, t: Transaction)
    requires RequestsBooked(requests, j) && t.ref.OrderRef?
    ensures RequestsBooked(requests, j + [t])
  {
    forall i | 0 <= i < |requests|
      ensures Sum(Postings(RequestRef(i), FINISH_KINDS), j + [t]) == (if requests[i].Live() then 0 else 1)
    {
      UnfinishedPosting(requests, j, t, i);
    }
  }

  lemma MeteringRequestsBooked(db: Tables, m: Move)
    requires Linked(db) && RequestsBooked(db.requests, db.journal) && Legal(db, m) && IsMetering(m)
    ensures RequestsBooked(Make(db, m).requests, Make(db, m).journal)
  {
    match m
    case PlaceHold(r, t) => NewRequestBooked(db, r, t);
    case FinishHold(id, done, _, t) => FinishedRequestBooked(db.requests, db.journal, id, done, t);
    case _ =>
  }

  /** The other moves touch no request row and post about an order if at all. */
  lemma OtherMovePosts(db: Tables, m: Move)
    requires Legal(db, m) && !IsMetering(m)
    ensures var db' := Make(db, m);
            && db'.requests == db.requests
            && (db'.journal == db.journal
                || (|db'.journal| == |db.journal| + 1 && db'.journal == db.journal + [db'.journal[|db.journal|]]
                    && db'.journal[|db.journal|].ref.OrderRef?))
  {
  }

  lemma RequestsBookedKept(db: Tables, m: Move)
    requires Linked(db) && RequestsBooked(db.requests, db.journal) && Legal(db, m)
    ensures RequestsBooked(Make(db, m).requests, Make(db, m).journal)
  {
    if IsMetering(m) {
      MeteringRequestsBooked(db, m);
    } else {
      OtherMovePosts(db, m);
      var after := Make(db, m).journal;
      if after != db.journal { OrderPostingFinishesNothing(db.requests, db.journal, after[|db.journal|]); }
    }
  }

  lemma OrdersSoundKept(db: Tables, m: Move)
    requires Sound(db) && OrdersSound(db) && Legal(db, m)
    ensures OrdersSound(Make(db, m))
  {
    OrdersBookedKept(db, m);
    LockstepKept(db, m);
    KeysKept(db, m);
    RequestsBookedKept(db, m);
  }
}
