/** Each metering and payment command makes one of the moves: the long
    transactions are reduced to short ones, and every path through them is
    accounted for. */
module Classify {
  import opened Schema
  import opened Pricing
  import opened Budgets
  import opened JournalBooks
  import opened Identity
  import opened Billing
  import opened Payments
  import opened Machine
  import opened Moves

  /** The move `m` is legal and leaves exactly the tables `db'`. */
  ghost predicate Is(db: Tables, m: Move, db': Tables) {
    Legal(db, m) && Make(db, m) == db'
  }

  function Written(t: nat, kind: Kind, ref: Ref, key: JournalKey, entries: seq<Entry>): Transaction {
    Transaction(t, kind, ref, key, Normalize(entries))
  }

  // ------------------------------------------------------------------ metering

  lemma HoldPosts(user: nat, kind: Kind, ref: Ref, key: JournalKey, from: Account, to: Account, hold: Money)
    requires from != to && hold >= 1
    ensures var t := Written(user, kind, ref, key, Entries2(from, -hold, to, hold));
            && Balanced(t)
            && AccountTotal(t.entries, CustomerAvailable)
               == Amount(CustomerAvailable, Entry(from, -hold)) + Amount(CustomerAvailable, Entry(to, hold))
            && AccountTotal(t.entries, CustomerReserved)
               == Amount(CustomerReserved, Entry(from, -hold)) + Amount(CustomerReserved, Entry(to, hold))
  {
    var entries := Entries2(from, -hold, to, hold);
    TransferMoves(from, to, -hold, hold);
    NormalizeKeepsTotals(entries, CustomerAvailable);
  }

  lemma SettlementPosts(user: nat, ref: Ref, key: JournalKey, hold: Money, cost: Money, upstream: Money)
    requires hold >= 1 && cost >= 0
    ensures var t := Written(user, KindSettle, ref, key, SettlementEntries(hold, cost, upstream));
            Balanced(t) && Moved(t, hold - Min(cost, hold), -hold)
  {
    SettlementMoves(hold, cost, upstream);
    NormalizeKeepsTotals(SettlementEntries(hold, cost, upstream), CustomerAvailable);
  }

  lemma ReserveIs(db: Tables, user: nat, key: nat, d: Demand, clientKey: Option<string>, clock: Clock) returns (m: Move)
    requires Linked(db)
    ensures Is(db, m, Reserve(db, user, key, d, clientKey, clock).db)
  {
    m := Stay;
    if ReserveObstacle(db, user, key, d, clientKey, clock).None? && Reserve(db, user, key, d, clientKey, clock).out.Ok? {
      var hold: Money := HoldFor(d.price.value, d.value, d.text, d.maxOutput);
      var id := |db.requests|;
      var entries := Entries2(CustomerAvailable, -hold, CustomerReserved, hold);
      HoldPosts(user, KindReserve, RequestRef(id), ReserveKey(id), CustomerAvailable, CustomerReserved, hold);
      var request := Reserve(db, user, key, d, clientKey, clock).db.requests[id];
      m := PlaceHold(request, Written(user, KindReserve, RequestRef(id), ReserveKey(id), entries));
    }
  }

  lemma SettleIs(db: Tables, id: nat, usage: Usage, forced: bool, up: Upstream, caller: Caller) returns (m: Move)
    requires Linked(db)
    ensures Is(db, m, Settle(db, id, usage, forced, up, caller).db)
  {
    m := Stay;
    var reply := Settle(db, id, usage, forced, up, caller);
    if reply.out.Ok? {
      var r := db.requests[id];
      assert RequestLinked(r, db);
      var cost, upstream := CustomerCost(r, usage), UpstreamCost(r, usage, up);
      SettlementPosts(r.user, RequestRef(id), SettleKey(id), r.hold, cost, upstream);
      m := FinishHold(id, reply.db.requests[id], r.hold - Min(cost, r.hold),
                      Written(r.user, KindSettle, RequestRef(id), SettleKey(id), SettlementEntries(r.hold, cost, upstream)));
    }
  }

  lemma ReleaseIs(db: Tables, id: nat, caller: Caller) returns (m: Move)
    requires Linked(db)
    ensures Is(db, m, Release(db, id, caller).db)
  {
    m := Stay;
    var reply := Release(db, id, caller);
    if id < |db.requests| && db.requests[id].status == caller.Allowed() && reply.out.Ok? {
      var r := db.requests[id];
      assert RequestLinked(r, db);
      var kind := if caller.Gateway? then KindRelease else KindOperatorRelease;
      var entries := Entries2(CustomerReserved, -r.hold, CustomerAvailable, r.hold);
      HoldPosts(r.user, kind, RequestRef(id), ReleaseKey(id), CustomerReserved, CustomerAvailable, r.hold);
      m := FinishHold(id, reply.db.requests[id], r.hold, Written(r.user, kind, RequestRef(id), ReleaseKey(id), entries));
    }
  }

  lemma CreateBudgetIs(db: Tables, user: nat, amount: Money, now: Today) returns (m: Move)
    requires Linked(db)
    ensures Is(db, m, CreateBudget(db, user, amount, now).db)
  {
    m := Stay;
    var reply := CreateBudget(db, user, amount, now);
    if reply.out.Ok? {
      BoundsAreMonth(now);
      m := StartBudget(CurrentBudget(db.budgets, user, MonthBounds(now).0), reply.db.budgets[|db.budgets|]);
    }
  }

  lemma MeterIs(db: Tables, c: MeterCommand) returns (m: Move)
    requires Linked(db)
    ensures Is(db, m, MeterStep(db, c).db)
  {
    match c
    case DoCreateBudget(u, a, now) => m := CreateBudgetIs(db, u, a, now);
    case DoReserve(u, k, d, ck, clock) => m := ReserveIs(db, u, k, d, ck, clock);
    case DoSettle(r, u, e, up, caller) => m := SettleIs(db, r, u, e, up, caller);
    case DoRelease(r, caller) => m := ReleaseIs(db, r, caller);
    case DoMarkPending(r) => m := Suspend(MarkPending(db, r).db.requests);
    case DoSweep(l, now) => m := Suspend(Sweep(db, l, now).db.requests);
  }

  // ------------------------------------------------------------------ payments

  lemma PlacementIs(db: Tables, c: PaymentCommand) returns (m: Move)
    requires Linked(db)
    requires c.DoCreateOrder? || c.DoCreateTestOrder?
    ensures Is(db, m, PaymentStep(db, c).db) && !m.Credit?
  {
    var after := PaymentStep(db, c).db;
    m := if after == db then Stay else PlaceOrder(after.orders[|db.orders|]);
  }

  /** The row a checkout or reconciliation transaction may rewrite. */
  lemma AdjustmentIs(db: Tables, after: Tables, o: nat) returns (m: Move)
    requires after == db || (o < |db.orders| == |after.orders| && AdjustLegal(db, o, after.orders[o]) && after == PutOrder(db, o, after.orders[o]))
    ensures Is(db, m, after) && !m.Credit?
  {
    m := if after == db then Stay else Adjust(o, after.orders[o], []);
    assert db.events + [] == db.events;
  }

  lemma CheckoutIs(db: Tables, c: PaymentCommand) returns (m: Move)
    requires Linked(db)
    requires c.DoPrepareCheckout? || c.DoCheckoutResponse?
    ensures Is(db, m, PaymentStep(db, c).db) && !m.Credit?
  {
    match c
    case DoPrepareCheckout(o, now, lease) => m := AdjustmentIs(db, PrepareCheckout(db, o, now, lease).db, o);
    case DoCheckoutResponse(o, r) => m := AdjustmentIs(db, CheckoutResponse(db, o, r).db, o);
  }

  lemma ReconciliationIs(db: Tables, c: PaymentCommand) returns (m: Move)
    requires Linked(db)
    requires c.DoClaimReconciliation? || c.DoReconcileInconclusive? || c.DoClearReconciliation?
    ensures Is(db, m, PaymentStep(db, c).db) && !m.Credit?
  {
    match c
    case DoClaimReconciliation(o, now) => m := AdjustmentIs(db, ClaimReconciliation(db, o, now).db, o);
    case DoReconcileInconclusive(o) => m := AdjustmentIs(db, ReconcileInconclusive(db, o).db, o);
    case DoClearReconciliation(o) => m := AdjustmentIs(db, ClearReconciliation(db, o).db, o);
  }

  lemma CreditingPosts(user: nat, kind: Kind, ref: Ref, key: JournalKey, credit: Money)
    requires credit > 0
    ensures var es := Entries2(CustomerAvailable, credit, PlatformClearing, -credit);
            var t := Written(user, kind, ref, key, es);
            Postable(es) && Balanced(t) && Moved(t, credit, 0) && Booked(t, -credit, 0, 0)
  {
    TransferMoves(CustomerAvailable, PlatformClearing, credit, -credit);
    NormalizeKeepsTotals(Entries2(CustomerAvailable, credit, PlatformClearing, -credit), CustomerAvailable);
  }

  /** The posting of a paid notice's credit. */
  function NoticeCrediting(db: Tables, n: Notice): Transaction
    requires n.order < |db.orders|
  {
    var order := db.orders[n.order];
    Written(order.user, KindPaymentCredit, OrderRef(n.order), PaymentKey(n.provider, n.eventId),
            Entries2(CustomerAvailable, order.quote.credit, PlatformClearing, -order.quote.credit))
  }

  /** What an applied paid notice leaves. */
  function NoticeCredited(db: Tables, n: Notice): Tables
    requires n.order < |db.orders| && db.orders[n.order].user < |db.wallets|
  {
    var order := db.orders[n.order];
    var w := db.wallets[order.user];
    db.(orders := db.orders[n.order := Credited(order, n.txn)], events := Recorded(db, n, false).events,
        journal := db.journal + [NoticeCrediting(db, n)],
        wallets := db.wallets[order.user := w.(balance := w.balance + order.quote.credit)])
  }

  lemma PaymentNoticeCommits(db: Tables, n: Notice)
    requires n.order < |db.orders| && db.orders[n.order].user < |db.wallets| && db.orders[n.order].Open()
    requires NoticeOfPayment(db, n).out.Ok?
    ensures NoticeOfPayment(db, n).db == NoticeCredited(db, n) && !KeyUsed(db.journal, PaymentKey(n.provider, n.eventId))
  {
  }

  lemma NoticeCreditIs(db: Tables, n: Notice) returns (m: Move)
    requires n.order < |db.orders| && OrderLinked(db.orders[n.order], db) && db.orders[n.order].Open()
    requires db.orders[n.order].txn.Some? ==> db.orders[n.order].txn.value == n.txn
    requires EventById(db.events, n.provider, n.eventId).None? && !KeyUsed(db.journal, PaymentKey(n.provider, n.eventId))
    ensures Is(db, m, NoticeCredited(db, n)) && m.Credit? && m.crediting.kind.KindPaymentCredit?
  {
    var order := db.orders[n.order];
    CreditingPosts(order.user, KindPaymentCredit, OrderRef(n.order), PaymentKey(n.provider, n.eventId), order.quote.credit);
    m := Credit(n.order, Credited(order, n.txn), Recorded(db, n, false).events[|db.events|], NoticeCrediting(db, n));
  }

  lemma PaymentNoticeIs(db: Tables, n: Notice) returns (m: Move)
    requires Linked(db) && n.order < |db.orders| && NoticeObstacle(db, n).None?
    requires EventById(db.events, n.provider, n.eventId).None?
    ensures Is(db, m, NoticeOfPayment(db, n).db)
    ensures m.Credit? ==> m.crediting.kind.KindPaymentCredit?
  {
    m := Stay;
    if db.orders[n.order].Open() && NoticeOfPayment(db, n).out.Ok? {
      assert OrderLinked(db.orders[n.order], db);
      PaymentNoticeCommits(db, n);
      m := NoticeCreditIs(db, n);
    }
  }

  /** The posting of a test event's credit. */
  function TestCrediting(db: Tables, eventId: string, o: nat): Transaction
    requires o < |db.orders|
  {
    var order := db.orders[o];
    Written(order.user, KindCredit, OrderRef(o), PaymentKey(TEST_PROVIDER, eventId),
            Entries2(CustomerAvailable, order.quote.credit, PlatformClearing, -order.quote.credit))
  }

  /** What an applied test event leaves. */
  function TestCredited(db: Tables, eventId: string, digest: string, o: nat): Tables
    requires o < |db.orders| && db.orders[o].user < |db.wallets|
  {
    var order := db.orders[o];
    var w := db.wallets[order.user];
    db.(orders := db.orders[o := order.(status := Paid, txn := Some(eventId))],
        events := db.events + [WebhookEvent(TEST_PROVIDER, eventId, eventId, o, digest, EventTopup, false)],
        journal := db.journal + [TestCrediting(db, eventId, o)],
        wallets := db.wallets[order.user := w.(balance := w.balance + order.quote.credit)])
  }

  lemma TestEventCommits(db: Tables, eventId: string, digest: string, o: nat, amount: int)
    requires EventById(db.events, TEST_PROVIDER, eventId).None? && TestWebhook(db, eventId, digest, o, amount).out.Ok?
    requires o < |db.orders| ==> db.orders[o].user < |db.wallets|
    ensures o < |db.orders| && db.orders[o].quote.provider == TEST_PROVIDER && db.orders[o].status.Pending?
    ensures !KeyUsed(db.journal, PaymentKey(TEST_PROVIDER, eventId))
    ensures TestWebhook(db, eventId, digest, o, amount).db == TestCredited(db, eventId, digest, o)
  {
  }

  lemma TestWebhookIs(db: Tables, eventId: string, digest: string, o: nat, amount: int) returns (m: Move)
    requires Linked(db)
    ensures Is(db, m, TestWebhook(db, eventId, digest, o, amount).db)
  {
    m := Stay;
    if EventById(db.events, TEST_PROVIDER, eventId).None? && TestWebhook(db, eventId, digest, o, amount).out.Ok? {
      if o < |db.orders| { assert OrderLinked(db.orders[o], db); }
      TestEventCommits(db, eventId, digest, o, amount);
      m := TestCreditIs(db, eventId, digest, o);
    }
  }

  lemma TestCreditIs(db: Tables, eventId: string, digest: string, o: nat) returns (m: Move)
    requires o < |db.orders| && OrderLinked(db.orders[o], db)
    requires db.orders[o].quote.provider == TEST_PROVIDER && db.orders[o].status.Pending?
    requires EventById(db.events, TEST_PROVIDER, eventId).None? && !KeyUsed(db.journal, PaymentKey(TEST_PROVIDER, eventId))
    ensures Is(db, m, TestCredited(db, eventId, digest, o))
  {
    var order := db.orders[o];
    CreditingPosts(order.user, KindCredit, OrderRef(o), PaymentKey(TEST_PROVIDER, eventId), order.quote.credit);
    m := Credit(o, order.(status := Paid, txn := Some(eventId)),
                WebhookEvent(TEST_PROVIDER, eventId, eventId, o, digest, EventTopup, false), TestCrediting(db, eventId, o));
  }

  /** A reversal with some events written in the same transaction. */
  lemma ApplyRefundIs(db: Tables, noted: seq<WebhookEvent>, o: nat, clientKey: string, refundId: string) returns (m: Move)
    requires Linked(db)
    ensures var reply := ApplyRefund(db.(events := db.events + noted), o, clientKey, refundId);
            reply.out.Ok? ==> Is(db, m, reply.db) && !m.Credit?
                              && (reply.db != db.(events := db.events + noted) ==> Reverses(db, m, o, noted, refundId))
    ensures ApplyRefund(db.(events := db.events + noted), o, clientKey, refundId).out.Err?
            ==> ApplyRefund(db.(events := db.events + noted), o, clientKey, refundId).db == db.(events := db.events + noted)
  {
    m := Note(noted);
    var db1 := db.(events := db.events + noted);
    var reply := ApplyRefund(db1, o, clientKey, refundId);
    if reply.out.Ok? && reply.db != db1 {
      var order := db.orders[o];
      assert OrderLinked(order, db);
      var existing := RefundByKey(db.refunds, o, clientKey);
      var f := if existing.Some? then existing.value else |db.refunds|;
      assert existing.Some? ==> RefundLinked(db.refunds[f], db);
      var refund := if existing.Some? then db.refunds[f]
                    else Refund(o, order.user, clientKey, None, order.quote.credit, Requesting, 0);
      if db.wallets[order.user].balance >= order.quote.credit {
        m := FullReversalIs(db, noted, o, f, refund.(providerRefund := Some(refundId)));
      } else {
        m := ShortReversalIs(db, noted, o, f, refund.(providerRefund := Some(refundId)));
      }
    }
  }

  /** The move reverses order `o` under this provider id, with these events. */
  predicate Reverses(db: Tables, m: Move, o: nat, noted: seq<WebhookEvent>, refundId: string) {
    && m.Reversal? && m.o == o < |db.orders| && m.closed == db.orders[o].(status := Refunded, reconcileClaim := None)
    && m.noted == noted && m.done.providerRefund == Some(refundId)
  }

  lemma FullReversalPosts(user: nat, ref: Ref, key: JournalKey, credit: Money)
    requires credit > 0
    ensures var es := Entries2(CustomerAvailable, -credit, PlatformClearing, credit);
            var t := Written(user, KindPaymentRefund, ref, key, es);
            Postable(es) && Balanced(t) && Moved(t, -credit, 0) && Booked(t, credit, 0, 0)
  {
    TransferMoves(CustomerAvailable, PlatformClearing, -credit, credit);
    NormalizeKeepsTotals(Entries2(CustomerAvailable, -credit, PlatformClearing, credit), CustomerAvailable);
  }

  lemma ShortReversalPosts(user: nat, ref: Ref, key: JournalKey, recovered: Money, credit: Money)
    requires 0 <= recovered < credit
    ensures var es := Entries3(CustomerAvailable, -recovered, PlatformRisk, recovered - credit, PlatformClearing, credit);
            var t := Written(user, KindPaymentRefundRisk, ref, key, es);
            Postable(es) && Balanced(t) && Moved(t, -recovered, 0) && Booked(t, credit, recovered - credit, 0)
  {
    var es := Entries3(CustomerAvailable, -recovered, PlatformRisk, recovered - credit, PlatformClearing, credit);
    SplitMoves(CustomerAvailable, PlatformRisk, PlatformClearing, -recovered, recovered - credit, credit);
    NormalizeKeepsTotals(es, CustomerAvailable);
  }

  lemma DisposalPosts(user: nat, kind: Kind, ref: Ref, key: JournalKey, debt: Money, recovered: Money)
    requires debt > 0 && recovered <= debt
    ensures var es := Entries3(PlatformRisk, debt, CustomerAvailable, -recovered, PlatformLoss, recovered - debt);
            var t := Written(user, kind, ref, key, es);
            Postable(es) && Balanced(t) && Moved(t, -recovered, 0) && Booked(t, 0, debt, recovered - debt)
  {
    var es := Entries3(PlatformRisk, debt, CustomerAvailable, -recovered, PlatformLoss, recovered - debt);
    SplitMoves(PlatformRisk, CustomerAvailable, PlatformLoss, debt, -recovered, recovered - debt);
    NormalizeKeepsTotals(es, CustomerAvailable);
  }

  /** The rows `Reverse` is called with. */
  ghost predicate ReverseReady(db: Tables, o: nat, f: nat, refund: Refund) {
    && o < |db.orders| && db.orders[o].Credited() && OrderLinked(db.orders[o], db) && refund.providerRefund.Some?
    && f <= |db.refunds| && refund.order == o && refund.user == db.orders[o].user
    && refund.credit == db.orders[o].quote.credit
    && (if f < |db.refunds| then
          && SameRefund(db.refunds[f], refund) && db.refunds[f].InFlight()
          && db.refunds[f].providerRefund in {None, refund.providerRefund}
        else !OrderHasRefund(db.refunds, o))
  }

  lemma FullReversalIs(db: Tables, noted: seq<WebhookEvent>, o: nat, f: nat, refund: Refund) returns (m: Move)
    requires ReverseReady(db, o, f, refund)
    requires db.wallets[db.orders[o].user].balance >= db.orders[o].quote.credit
    requires !KeyUsed(db.journal, RefundKey(f))
    ensures Is(db, m, Reverse(db.(events := db.events + noted), o, f, refund).db)
    ensures Reverses(db, m, o, noted, refund.providerRefund.value)
  {
    var order := db.orders[o];
    var credit := order.quote.credit;
    FullReversalPosts(order.user, OrderRef(o), RefundKey(f), credit);
    m := Reversal(o, order.(status := Refunded, reconcileClaim := None), f, refund.(status := RefundDone), credit, noted,
                  Written(order.user, KindPaymentRefund, OrderRef(o), RefundKey(f),
                          Entries2(CustomerAvailable, -credit, PlatformClearing, credit)));
  }

  function ShortReversal(db: Tables, noted: seq<WebhookEvent>, o: nat, f: nat, refund: Refund): Move
    requires o < |db.orders| && db.orders[o].user < |db.wallets|
  {
    var order := db.orders[o];
    var credit := order.quote.credit;
    var recovered := Max(0, Min(db.wallets[order.user].balance, credit));
    Reversal(o, order.(status := Refunded, reconcileClaim := None), f, refund.(status := Risk), recovered, noted,
             Written(order.user, KindPaymentRefundRisk, OrderRef(o), RefundRiskKey(f),
                     Entries3(CustomerAvailable, -recovered, PlatformRisk, recovered - credit, PlatformClearing, credit)))
  }

  lemma ShortReversalIsLegal(db: Tables, noted: seq<WebhookEvent>, o: nat, f: nat, refund: Refund)
    requires ReverseReady(db, o, f, refund)
    requires db.wallets[db.orders[o].user].balance < db.orders[o].quote.credit
    requires !KeyUsed(db.journal, RefundRiskKey(f))
    ensures Legal(db, ShortReversal(db, noted, o, f, refund))
  {
    var order := db.orders[o];
    var credit := order.quote.credit;
    var recovered := Max(0, Min(db.wallets[order.user].balance, credit));
    ShortReversalPosts(order.user, OrderRef(o), RefundRiskKey(f), recovered, credit);
  }

  lemma ShortReversalIs(db: Tables, noted: seq<WebhookEvent>, o: nat, f: nat, refund: Refund) returns (m: Move)
    requires ReverseReady(db, o, f, refund)
    requires db.wallets[db.orders[o].user].balance < db.orders[o].quote.credit
    requires !KeyUsed(db.journal, RefundRiskKey(f))
    ensures Is(db, m, Reverse(db.(events := db.events + noted), o, f, refund).db)
    ensures Reverses(db, m, o, noted, refund.providerRefund.value)
  {
    ShortReversalIsLegal(db, noted, o, f, refund);
    m := ShortReversal(db, noted, o, f, refund);
    ShortReversalMakes(db, noted, o, f, refund);
  }

  lemma FreezeFrame(db: Tables, events: seq<WebhookEvent>, user: nat)
    ensures FreezeUser(db.(events := events), user) == FreezeUser(db, user).(events := events)
  {
  }

  /** A reversal the balance does not cover freezes the account and posts the shortfall. */
  lemma ShortReverse(db: Tables, o: nat, f: nat, refund: Refund)
    requires o < |db.orders| && f <= |db.refunds| && db.orders[o].user < |db.wallets|
    requires db.wallets[db.orders[o].user].balance < db.orders[o].quote.credit && db.orders[o].quote.credit > 0
    requires !KeyUsed(db.journal, RefundRiskKey(f))
    ensures var m := ShortReversal(db, [], o, f, refund); var user := db.orders[o].user; var w := db.wallets[user];
            Reverse(db, o, f, refund).db
            == FreezeUser(db, user).(orders := db.orders[o := m.closed], refunds := StoreRefund(db.refunds, f, m.done),
                                     wallets := db.wallets[user := w.(balance := w.balance - m.recovered)],
                                     journal := db.journal + [m.reversing])
  {
    var order := db.orders[o];
    var recovered := Max(0, Min(db.wallets[order.user].balance, order.quote.credit));
    ShortReversalPosts(order.user, OrderRef(o), RefundRiskKey(f), recovered, order.quote.credit);
  }

  lemma ShortReversalMakes(db: Tables, noted: seq<WebhookEvent>, o: nat, f: nat, refund: Refund)
    requires o < |db.orders| && f <= |db.refunds| && db.orders[o].user < |db.wallets|
    requires db.wallets[db.orders[o].user].balance < db.orders[o].quote.credit && db.orders[o].quote.credit > 0
    requires !KeyUsed(db.journal, RefundRiskKey(f))
    ensures var m := ShortReversal(db, noted, o, f, refund);
            Reversed(db, o, m.closed, f, m.done, m.recovered, noted, m.reversing)
            == Reverse(db.(events := db.events + noted), o, f, refund).db
  {
    ShortReverse(db.(events := db.events + noted), o, f, refund);
    FreezeFrame(db, db.events + noted, db.orders[o].user);
  }

  lemma RefundNoticeIs(db: Tables, n: Notice) returns (m: Move)
    requires Linked(db) && n.order < |db.orders| && n.providerRefund.Some? && NoticeOfRefund(db, n).out.Ok?
    ensures Is(db, m, NoticeOfRefund(db, n).db) && !m.Credit?
  {
    var event := WebhookEvent(n.provider, n.eventId, n.Nonce(), n.order, n.digest, n.eventType, false);
    if db.orders[n.order].status.Refunded? {
      m := Note([event.(duplicate := true)]);
    } else {
      var key := if db.orders[n.order].status.Paid? then "webhook:" + n.provider + ":" + n.eventId
                 else db.refunds[InFlightRefund(db.refunds, n.order).value].clientKey;
      m := ApplyRefundIs(db, [event], n.order, key, n.providerRefund.value);
    }
  }

  lemma WebhookIs(db: Tables, n: Notice) returns (m: Move)
    requires Linked(db)
    ensures Is(db, m, ApplyWebhook(db, n).db)
    ensures m.Credit? ==> m.crediting.kind.KindPaymentCredit?
  {
    m := Stay;
    var reply := ApplyWebhook(db, n);
    if EventById(db.events, n.provider, n.eventId).None? && NoticeObstacle(db, n).None? && reply.out.Ok? {
      if n.status.NoticePaid? {
        m := PaymentNoticeIs(db, n);
      } else if n.status.NoticeRefunded? {
        m := RefundNoticeIs(db, n);
      } else {
        m := Adjust(n.order, reply.db.orders[n.order], reply.db.events[|db.events|..]);
      }
    }
  }

  lemma ResolveRiskIs(db: Tables, f: nat, action: RiskAction, clientKey: string) returns (m: Move)
    requires Linked(db)
    ensures Is(db, m, ResolveRisk(db, f, action, clientKey).db) && !m.Credit?
  {
    m := Stay;
    if ResolveRisk(db, f, action, clientKey).out.Ok? && TransactionByKey(db.journal, DispositionKey(f, clientKey)).None? {
      m := DisposeRiskIs(db, f, action, clientKey);
    }
  }

  /** The posting of a disposition that takes back `recovered`. */
  function Disposing(db: Tables, f: nat, action: RiskAction, clientKey: string, recovered: Money): Transaction
    requires f < |db.refunds|
  {
    var refund := db.refunds[f];
    var debt := RiskDebt(db.journal, refund.order);
    Written(refund.user, action.KindOf(), OrderRef(refund.order), DispositionKey(f, clientKey),
            Entries3(PlatformRisk, debt, CustomerAvailable, -recovered, PlatformLoss, recovered - debt))
  }

  /** A refund at risk whose debt can be disposed of by taking back `recovered`. */
  ghost predicate Disposable(db: Tables, f: nat, action: RiskAction, clientKey: string, recovered: Money) {
    && f < |db.refunds| && !action.OtherAction?
    && var refund := db.refunds[f]; var debt := RiskDebt(db.journal, refund.order);
    && debt > 0 && refund.status.Risk? && refund.order < |db.orders| && db.orders[refund.order].status.Refunded?
    && refund.user < |db.wallets|
    && var wallet := db.wallets[refund.user];
    && wallet.reserved == 0 && !KeyUsed(db.journal, DispositionKey(f, clientKey))
    && recovered == (if action.RecoverAvailable? then debt else Min(wallet.balance, debt)) <= wallet.balance
  }

  function Disposed(db: Tables, f: nat, action: RiskAction, clientKey: string, recovered: Money): Tables
    requires f < |db.refunds| && db.refunds[f].user < |db.wallets|
  {
    var refund := db.refunds[f];
    var w := db.wallets[refund.user];
    db.(refunds := db.refunds[f := refund.(status := Resolved)],
        journal := db.journal + [Disposing(db, f, action, clientKey, recovered)],
        wallets := db.wallets[refund.user := w.(balance := w.balance - recovered)])
  }

  /** What a granted disposition found and leaves. */
  lemma DisposalCommits(db: Tables, f: nat, action: RiskAction, clientKey: string)
    requires f < |db.refunds| && !action.OtherAction? && DisposeRisk(db, f, action, clientKey).out.Ok?
    ensures var reply := DisposeRisk(db, f, action, clientKey);
            && reply.out.answer.Disposition?
            && var recovered := reply.out.answer.recovered;
            && Disposable(db, f, action, clientKey, recovered)
            && var debt := RiskDebt(db.journal, db.refunds[f].order);
            && reply.out.answer == Disposition(f, false, debt, recovered, debt - recovered)
            && reply.db == Disposed(db, f, action, clientKey, recovered)
  {
  }

  lemma DisposalIs(db: Tables, f: nat, action: RiskAction, clientKey: string, recovered: Money) returns (m: Move)
    requires Disposable(db, f, action, clientKey, recovered)
    ensures Is(db, m, Disposed(db, f, action, clientKey, recovered)) && m.Disposal?
  {
    var refund := db.refunds[f];
    DisposalPosts(refund.user, action.KindOf(), OrderRef(refund.order), DispositionKey(f, clientKey),
                  RiskDebt(db.journal, refund.order), recovered);
    m := Disposal(f, refund.(status := Resolved), recovered, Disposing(db, f, action, clientKey, recovered));
  }

  lemma DisposeRiskIs(db: Tables, f: nat, action: RiskAction, clientKey: string) returns (m: Move)
    requires f < |db.refunds| && !action.OtherAction?
    ensures Is(db, m, DisposeRisk(db, f, action, clientKey).db) && !m.Credit?
  {
    m := Stay;
    var reply := DisposeRisk(db, f, action, clientKey);
    if reply.out.Ok? {
      DisposalCommits(db, f, action, clientKey);
      m := DisposalIs(db, f, action, clientKey, reply.out.answer.recovered);
    }
  }

  lemma PrepareRefundIs(db: Tables, o: nat, clientKey: string, now: Time, lease: Time) returns (m: Move)
    requires Linked(db)
    ensures Is(db, m, PrepareRefund(db, o, clientKey, now, lease).db) && !m.Credit?
  {
    var after := PrepareRefund(db, o, clientKey, now, lease).db;
    if after == db {
      m := Stay;
    } else if |after.refunds| > |db.refunds| {
      m := OpenRefund(o, after.refunds[|db.refunds|]);
    } else {
      var f := RefundByKey(db.refunds, o, clientKey).value;
      m := Retouch(f, after.refunds[f]);
    }
  }

  lemma OtherPaymentIs(db: Tables, c: PaymentCommand) returns (m: Move)
    requires Linked(db) && !c.DoWebhook? && !c.DoTestWebhook?
    ensures Is(db, m, PaymentStep(db, c).db)
    ensures !m.Credit?
  {
    match c
    case DoPrepareRefund(o, k, now, lease) => m := PrepareRefundIs(db, o, k, now, lease);
    case DoRefundUncertain(f) =>
      m := if RefundUncertain(db, f).db == db then Stay else Retouch(f, RefundUncertain(db, f).db.refunds[f]);
    case DoApplyRefund(o, k, r) =>
      m := ApplyRefundIs(db, [], o, k, r);
      assert db.(events := db.events + []) == db;
      if ApplyRefund(db, o, k, r).out.Err? { m := Stay; }
    case DoResolveRisk(f, a, k) => m := ResolveRiskIs(db, f, a, k);
    case DoPrepareCheckout(_, _, _) => m := CheckoutIs(db, c);
    case DoCheckoutResponse(_, _) => m := CheckoutIs(db, c);
    case DoClaimReconciliation(_, _) => m := ReconciliationIs(db, c);
    case DoReconcileInconclusive(_) => m := ReconciliationIs(db, c);
    case DoClearReconciliation(_) => m := ReconciliationIs(db, c);
    case _ => m := PlacementIs(db, c);
  }

  lemma PaymentIs(db: Tables, c: PaymentCommand) returns (m: Move)
    requires Linked(db)
    ensures Is(db, m, PaymentStep(db, c).db)
  {
    match c
    case DoWebhook(n) => m := WebhookIs(db, n);
    case DoTestWebhook(e, d, o, a) => m := TestWebhookIs(db, e, d, o, a);
    case _ => m := OtherPaymentIs(db, c);
  }
}
