/** The unique constraints of app/models.py that the journal and refund invariants
    do not already contain, over any run. */
module Constraints {
  import opened Schema
  import opened Payments
  import opened Machine
  import opened Reachability

  /** Rows that carry the same key are the same row. */
  ghost predicate Distinct<T(!new)>(rows: seq<T>, clash: (T, T) -> bool) {
    forall i, j | 0 <= i < j < |rows| :: !clash(rows[i], rows[j])
  }

  predicate SameEvent(a: WebhookEvent, b: WebhookEvent) {
    a.provider == b.provider && (a.eventId == b.eventId || a.nonce == b.nonce)
  }

  predicate SameRequestKey(a: Request, b: Request) { a.user == b.user && a.clientKey.Some? && a.clientKey == b.clientKey }

  predicate SameOrderKey(a: Order, b: Order) {
    (a.txn.Some? && a.txn == b.txn) || (a.user == b.user && a.clientKey.Some? && a.clientKey == b.clientKey)
  }

  predicate SameRefundId(a: Refund, b: Refund) { a.providerRefund.Some? && a.providerRefund == b.providerRefund }

  ghost predicate UniqueEvents(events: seq<WebhookEvent>) { Distinct(events, SameEvent) }
  ghost predicate UniqueRequests(requests: seq<Request>) { Distinct(requests, SameRequestKey) }
  ghost predicate UniqueOrders(orders: seq<Order>) { Distinct(orders, SameOrderKey) }
  ghost predicate UniqueRefunds(refunds: seq<Refund>) { Distinct(refunds, SameRefundId) }

  ghost predicate UniqueRows(db: Tables) {
    UniqueEvents(db.events) && UniqueRequests(db.requests) && UniqueOrders(db.orders) && UniqueRefunds(db.refunds)
  }

  // ------------------------------------------------------------------ one row at a time

  lemma NewRow<T(!new)>(rows: seq<T>, row: T, clash: (T, T) -> bool)
    requires Distinct(rows, clash) && forall i | 0 <= i < |rows| :: !clash(rows[i], row)
    ensures Distinct(rows + [row], clash)
  {
  }

  lemma ChangedRow<T(!new)>(rows: seq<T>, k: nat, row: T, clash: (T, T) -> bool)
    requires Distinct(rows, clash) && k < |rows|
    requires forall i | 0 <= i < |rows| && i != k :: !clash(rows[i], row) && !clash(row, rows[i])
    ensures Distinct(rows[k := row], clash)
  {
  }

  /** A webhook or test event is recorded under an unused event id and nonce. */
  lemma EventIsNew(events: seq<WebhookEvent>, e: WebhookEvent)
    requires UniqueEvents(events) && EventById(events, e.provider, e.eventId).None? && !NonceUsed(events, e.provider, e.nonce)
    ensures UniqueEvents(events + [e])
  {
    NewRow(events, e, SameEvent);
  }

  /** An order's transaction id is set only if no other order has it. */
  lemma OrderIsPut(orders: seq<Order>, o: nat, order: Order)
    requires UniqueOrders(orders) && o < |orders|
    requires order.user == orders[o].user && order.clientKey == orders[o].clientKey
    requires order.txn == orders[o].txn || (order.txn.Some? && !TxnElsewhere(orders, o, order.txn.value))
    ensures UniqueOrders(orders[o := order])
  {
    forall i | 0 <= i < |orders| && i != o ensures !SameOrderKey(orders[i], order) && !SameOrderKey(order, orders[i]) {
      if i < o { assert !SameOrderKey(orders[i], orders[o]); } else { assert !SameOrderKey(orders[o], orders[i]); }
    }
    ChangedRow(orders, o, order, SameOrderKey);
  }

  lemma RefundIsStored(refunds: seq<Refund>, f: nat, refund: Refund)
    requires UniqueRefunds(refunds) && f <= |refunds|
    requires if f < |refunds| && refund.providerRefund == refunds[f].providerRefund then true
             else refund.providerRefund.Some? ==> !RefundIdElsewhere(refunds, f, refund.providerRefund.value)
    ensures UniqueRefunds(StoreRefund(refunds, f, refund))
  {
    if f < |refunds| {
      forall i | 0 <= i < |refunds| && i != f ensures !SameRefundId(refunds[i], refund) && !SameRefundId(refund, refunds[i]) {
        if i < f { assert !SameRefundId(refunds[i], refunds[f]); } else { assert !SameRefundId(refunds[f], refunds[i]); }
      }
      ChangedRow(refunds, f, refund, SameRefundId);
    } else {
      NewRow(refunds, refund, SameRefundId);
    }
  }

  // ------------------------------------------------------------------------- commands

  lemma MeterKeepsUnique(db: Tables, c: MeterCommand)
    requires UniqueRows(db)
    ensures UniqueRows(MeterStep(db, c).db)
  {
    if c.DoReserve? { ReserveKeepsUnique(db, c); }
    else { FinishKeepsUnique(db, c); }
  }

  lemma ReserveKeepsUnique(db: Tables, c: MeterCommand)
    requires UniqueRows(db) && c.DoReserve?
    ensures UniqueRows(MeterStep(db, c).db)
  {
    var after := MeterStep(db, c).db;
    if |after.requests| > |db.requests| {
      NewRow(db.requests, after.requests[|db.requests|], SameRequestKey);
    }
  }

  lemma FinishKeepsUnique(db: Tables, c: MeterCommand)
    requires UniqueRows(db) && !c.DoReserve?
    ensures UniqueRows(MeterStep(db, c).db)
  {
    var after := MeterStep(db, c).db;
    SameKeys(db, c);
    forall i, j | 0 <= i < j < |after.requests| ensures !SameRequestKey(after.requests[i], after.requests[j]) {
      assert !SameRequestKey(db.requests[i], db.requests[j]);
    }
  }

  /** No row's identity or key changes. */
  predicate SameIdentities(db: Tables, after: Tables) {
    && |after.requests| == |db.requests| && after.orders == db.orders && after.events == db.events
    && after.refunds == db.refunds
    && forall i | 0 <= i < |db.requests| ::
         after.requests[i].user == db.requests[i].user && after.requests[i].clientKey == db.requests[i].clientKey
  }

  lemma SettleSameKeys(db: Tables, c: MeterCommand)
    requires c.DoSettle?
    ensures SameIdentities(db, MeterStep(db, c).db)
  {
  }

  lemma SameKeys(db: Tables, c: MeterCommand)
    requires !c.DoReserve?
    ensures SameIdentities(db, MeterStep(db, c).db)
  {
    if c.DoSettle? { SettleSameKeys(db, c); }
  }

  lemma ReverseKeepsUnique(db: Tables, o: nat, f: nat, refund: Refund)
    requires UniqueRows(db) && o < |db.orders| && f <= |db.refunds| && db.orders[o].user < |db.wallets|
    requires refund.providerRefund.Some? && !RefundIdElsewhere(db.refunds, f, refund.providerRefund.value)
    ensures UniqueRows(Reverse(db, o, f, refund).db)
  {
    OrderIsPut(db.orders, o, db.orders[o].(status := Refunded, reconcileClaim := None));
    RefundIsStored(db.refunds, f, refund.(status := RefundDone));
    RefundIsStored(db.refunds, f, refund.(status := Risk));
  }

  lemma ApplyRefundKeepsUnique(db: Tables, o: nat, clientKey: string, refundId: string)
    requires UniqueRows(db)
    ensures UniqueRows(ApplyRefund(db, o, clientKey, refundId).db)
  {
    if o < |db.orders| && db.orders[o].user < |db.wallets| {
      var existing := RefundByKey(db.refunds, o, clientKey);
      var f := if existing.Some? then existing.value else |db.refunds|;
      var refund := if existing.Some? then db.refunds[f]
                    else Refund(o, db.orders[o].user, clientKey, None, db.orders[o].quote.credit, Requesting, 0);
      if !RefundIdElsewhere(db.refunds, f, refundId) { ReverseKeepsUnique(db, o, f, refund.(providerRefund := Some(refundId))); }
    }
  }

  lemma WebhookKeepsUnique(db: Tables, n: Notice)
    requires UniqueRows(db)
    ensures UniqueRows(ApplyWebhook(db, n).db)
  {
    if EventById(db.events, n.provider, n.eventId).None? && NoticeObstacle(db, n).None? {
      EventIsNew(db.events, WebhookEvent(n.provider, n.eventId, n.Nonce(), n.order, n.digest, n.eventType, false));
      EventIsNew(db.events, WebhookEvent(n.provider, n.eventId, n.Nonce(), n.order, n.digest, n.eventType, true));
      if n.status.NoticeRefunded? { RefundNoticeKeepsUnique(db, n); }
      else if n.status.NoticePaid? { PaymentNoticeKeepsUnique(db, n); }
      else { ProgressKeepsUnique(db, n); }
    }
  }

  lemma ProgressKeepsUnique(db: Tables, n: Notice)
    requires UniqueRows(db) && UniqueEvents(Recorded(db, n, false).events) && n.order < |db.orders|
    ensures UniqueRows(NoticeOfProgress(db, n).db)
  {
    var after := NoticeOfProgress(db, n).db;
    if after != db { OrderIsPut(db.orders, n.order, after.orders[n.order]); }
  }

  lemma PaymentNoticeKeepsUnique(db: Tables, n: Notice)
    requires UniqueRows(db) && UniqueEvents(Recorded(db, n, false).events) && n.order < |db.orders|
    ensures UniqueRows(NoticeOfPayment(db, n).db)
  {
    if !TxnElsewhere(db.orders, n.order, n.txn) { OrderIsPut(db.orders, n.order, Credited(db.orders[n.order], n.txn)); }
  }

  lemma RefundNoticeKeepsUnique(db: Tables, n: Notice)
    requires UniqueRows(db) && n.order < |db.orders| && n.providerRefund.Some?
    requires UniqueEvents(Recorded(db, n, false).events) && UniqueEvents(Recorded(db, n, true).events)
    ensures UniqueRows(NoticeOfRefund(db, n).db)
  {
    if db.orders[n.order].status.Refunding? {
      var f := InFlightRefund(db.refunds, n.order);
      if f.Some? { RefundWithEventKeepsUnique(db, n, db.refunds[f.value].clientKey); }
    } else if db.orders[n.order].status.Paid? {
      RefundWithEventKeepsUnique(db, n, "webhook:" + n.provider + ":" + n.eventId);
    }
  }

  lemma RefundWithEventKeepsUnique(db: Tables, n: Notice, clientKey: string)
    requires UniqueRows(db) && UniqueEvents(Recorded(db, n, false).events) && n.providerRefund.Some?
    ensures UniqueRows(WebhookRefund(db, n, clientKey).db)
  {
    ApplyRefundKeepsUnique(Recorded(db, n, false), n.order, clientKey, n.providerRefund.value);
  }

  lemma TestWebhookKeepsUnique(db: Tables, eventId: string, digest: string, o: nat, amount: int)
    requires UniqueRows(db)
    ensures UniqueRows(TestWebhook(db, eventId, digest, o, amount).db)
  {
    if o < |db.orders| && EventById(db.events, TEST_PROVIDER, eventId).None? && !NonceUsed(db.events, TEST_PROVIDER, eventId)
       && !TxnElsewhere(db.orders, o, eventId) {
      EventIsNew(db.events, WebhookEvent(TEST_PROVIDER, eventId, eventId, o, digest, EventTopup, false));
      OrderIsPut(db.orders, o, db.orders[o].(status := Paid, txn := Some(eventId)));
    }
  }

  lemma OrderWriteKeepsUnique(db: Tables, o: nat, after: Tables)
    requires UniqueRows(db) && o < |db.orders| == |after.orders|
    requires after == db || after == PutOrder(db, o, after.orders[o])
    requires after.orders[o].user == db.orders[o].user && after.orders[o].clientKey == db.orders[o].clientKey
    requires var txn := after.orders[o].txn; txn == db.orders[o].txn || (txn.Some? && !TxnElsewhere(db.orders, o, txn.value))
    ensures UniqueRows(after)
  {
    OrderIsPut(db.orders, o, after.orders[o]);
  }

  /** The remaining payment commands write at most one order and one refund row. */
  lemma PlainPaymentKeepsUnique(db: Tables, c: PaymentCommand)
    requires UniqueRows(db) && !c.DoWebhook? && !c.DoTestWebhook? && !c.DoApplyRefund? && !c.DoResolveRisk?
    ensures UniqueRows(PaymentStep(db, c).db)
  {
    var after := PaymentStep(db, c).db;
    match c
    case DoCreateOrder(_, _, _, _) => PlacementKeepsUnique(db, c);
    case DoCreateTestOrder(_, _) => PlacementKeepsUnique(db, c);
    case DoPrepareRefund(_, _, _, _) => PrepareKeepsUnique(db, c);
    case DoRefundUncertain(f) =>
      if f < |db.refunds| { RefundIsStored(db.refunds, f, db.refunds[f].(status := RefundReconciliation)); }
    case DoPrepareCheckout(o, _, _) => if o < |db.orders| { OrderWriteKeepsUnique(db, o, after); }
    case DoCheckoutResponse(o, _) => if o < |db.orders| { OrderWriteKeepsUnique(db, o, after); }
    case DoClaimReconciliation(o, _) => if o < |db.orders| { OrderWriteKeepsUnique(db, o, after); }
    case DoReconcileInconclusive(o) => if o < |db.orders| { OrderWriteKeepsUnique(db, o, after); }
    case DoClearReconciliation(o) => if o < |db.orders| { OrderWriteKeepsUnique(db, o, after); }
  }

  lemma PlacementKeepsUnique(db: Tables, c: PaymentCommand)
    requires UniqueRows(db) && (c.DoCreateOrder? || c.DoCreateTestOrder?)
    ensures UniqueRows(PaymentStep(db, c).db)
  {
    var after := PaymentStep(db, c).db;
    if after != db { NewRow(db.orders, after.orders[|db.orders|], SameOrderKey); }
  }

  lemma PrepareKeepsUnique(db: Tables, c: PaymentCommand)
    requires UniqueRows(db) && c.DoPrepareRefund?
    ensures UniqueRows(PaymentStep(db, c).db)
  {
    var after := PaymentStep(db, c).db;
    var o := c.refundOrder;
    if |after.refunds| > |db.refunds| {
      RefundIsStored(db.refunds, |db.refunds|, after.refunds[|db.refunds|]);
      OrderIsPut(db.orders, o, db.orders[o].(status := Refunding));
    } else if after != db {
      var f := RefundByKey(db.refunds, o, c.refundKey).value;
      RefundIsStored(db.refunds, f, after.refunds[f]);
    }
  }

  lemma ResolveKeepsUnique(db: Tables, f: nat, action: RiskAction, clientKey: string)
    requires UniqueRows(db)
    ensures UniqueRows(ResolveRisk(db, f, action, clientKey).db)
  {
    if f < |db.refunds| { RefundIsStored(db.refunds, f, db.refunds[f].(status := Resolved)); }
  }

  lemma PaymentKeepsUnique(db: Tables, c: PaymentCommand)
    requires UniqueRows(db)
    ensures UniqueRows(PaymentStep(db, c).db)
  {
    match c
    case DoWebhook(n) => WebhookKeepsUnique(db, n);
    case DoTestWebhook(e, d, o, a) => TestWebhookKeepsUnique(db, e, d, o, a);
    case DoApplyRefund(o, k, r) => ApplyRefundKeepsUnique(db, o, k, r);
    case DoResolveRisk(f, a, k) => ResolveKeepsUnique(db, f, a, k);
    case _ => PlainPaymentKeepsUnique(db, c);
  }

  lemma StepKeepsUnique(db: Tables, c: Command)
    requires UniqueRows(db)
    ensures UniqueRows(Step(db, c).db)
  {
    match c
    case OnAccount(a) => AccountFrame(db, a);
    case OnMeter(a) => MeterKeepsUnique(db, a);
    case OnPayment(a) => PaymentKeepsUnique(db, a);
  }

  lemma {:induction false} RunKeepsUnique(db: Tables, commands: seq<Command>)
    requires UniqueRows(db)
    ensures UniqueRows(Run(db, commands))
    decreases |commands|
  {
    if |commands| > 0 {
      StepKeepsUnique(db, commands[0]);
      RunKeepsUnique(Step(db, commands[0]).db, commands[1..]);
    }
  }

  /** In every reachable state events, nonces, transaction ids, provider refund ids and
      client keys are unique, and so is every journal key. */
  lemma ConstraintsHold(db: Tables)
    requires Reachable(db)
    ensures UniqueRows(db)
    ensures forall i, j | 0 <= i < j < |db.journal| :: db.journal[i].key != db.journal[j].key
  {
    ReachableInvariant(db);
    var commands :| Run(EMPTY, commands) == db;
    RunKeepsUnique(EMPTY, commands);
  }
}
