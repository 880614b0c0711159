/** What it takes for a payment event to be credited, and for a refund to be
    completed, in a reachable state: conditions on the rows alone. */
module Acceptance {
  import opened Schema
  import opened JournalBooks
  import opened Identity
  import opened Payments
  import opened Machine
  import opened Moves
  import opened Classify
  import opened Evolution
  import opened Orders
  import opened Reachability
  import opened History
  import opened Anomalies
  import opened Constraints

  lemma ReachableRows(db: Tables)
    requires Reachable(db)
    ensures Linked(db) && KeysOk(db) && Lockstep(db.orders, db.refunds)
  {
    ReachableInvariant(db);
  }

  // ------------------------------------------------------------------ provider events

  /** The event is about this order: its provider, its price and its transaction. */
  predicate AgreesWith(order: Order, n: Notice) {
    && order.quote.provider == n.provider
    && order.quote.cash == Some(n.cash) && order.quote.currency == Some(n.currency)
    && order.txn in {None, Some(n.txn)}
  }

  /** Neither the event id nor the nonce was recorded for the provider before. */
  predicate IsNews(events: seq<WebhookEvent>, n: Notice) {
    forall i | 0 <= i < |events| ::
      events[i].provider == n.provider ==> events[i].eventId != n.eventId && events[i].nonce != n.Nonce()
  }

  predicate NamedInFull(n: Notice) { n.eventId != "" && n.digest != "" && n.txn != "" }

  /** A paid event that is to be credited: news, about an open order, saying what its
      type says, with a transaction no other order has, and no refund. */
  predicate Creditable(db: Tables, n: Notice) {
    && NamedInFull(n) && IsNews(db.events, n)
    && n.order < |db.orders| && AgreesWith(db.orders[n.order], n) && db.orders[n.order].Open()
    && (n.eventType.EventSucceeded? || n.eventType.EventTopup?) && n.providerRefund.None?
    && forall i | 0 <= i < |db.orders| && i != n.order :: db.orders[i].txn != Some(n.txn)
  }

  lemma NewsIsUnrecorded(events: seq<WebhookEvent>, n: Notice)
    ensures IsNews(events, n) <==> EventById(events, n.provider, n.eventId).None? && !NonceUsed(events, n.provider, n.Nonce())
  {
  }

  lemma UnobstructedIff(db: Tables, n: Notice)
    requires n.status.NoticePaid? && NamedInFull(n)
    ensures EventById(db.events, n.provider, n.eventId).None? && NoticeObstacle(db, n).None?
            <==> && IsNews(db.events, n) && n.order < |db.orders| && AgreesWith(db.orders[n.order], n)
                 && (n.eventType.EventSucceeded? || n.eventType.EventTopup?) && n.providerRefund.None?
  {
    NewsIsUnrecorded(db.events, n);
  }

  /** The event row that is kept of an event. */
  function EventRow(n: Notice, duplicate: bool): WebhookEvent {
    WebhookEvent(n.provider, n.eventId, if n.nonceText.Some? && n.nonceText.value != "" then n.nonceText.value else n.eventId, n.order,
                 n.digest, n.eventType, duplicate)
  }

  lemma EventIsRecorded(db: Tables, n: Notice, duplicate: bool)
    ensures Recorded(db, n, duplicate) == db.(events := db.events + [EventRow(n, duplicate)])
  {
  }

  /** What a creditable event leaves, with its posting. */
  function PaidBy(db: Tables, n: Notice, t: Transaction): Tables
    requires n.order < |db.orders| && db.orders[n.order].user < |db.wallets|
  {
    var order := db.orders[n.order];
    var w := db.wallets[order.user];
    db.(orders := db.orders[n.order := order.(status := Paid, txn := Some(n.txn), checkoutClaim := None, reconcileClaim := None)],
        wallets := db.wallets[order.user := w.(balance := w.balance + order.quote.credit)],
        events := db.events + [EventRow(n, false)], journal := db.journal + [t])
  }

  /** A new event that says again what made the order paid. */
  predicate PaidAgain(db: Tables, n: Notice) {
    && IsNews(db.events, n) && n.order < |db.orders| && AgreesWith(db.orders[n.order], n)
    && (n.eventType.EventSucceeded? || n.eventType.EventTopup?) && n.providerRefund.None?
    && db.orders[n.order].status.Paid? && db.orders[n.order].txn == Some(n.txn)
  }

  /** The event was recorded with the same digest and nonce. */
  predicate Known(events: seq<WebhookEvent>, n: Notice) {
    var e := EventById(events, n.provider, n.eventId);
    e.Some? && events[e.value].digest == n.digest && events[e.value].nonce == n.Nonce()
  }

  /** What becomes of a paid event: credited, or nothing but an answer. */
  ghost predicate PaidOutcome(db: Tables, n: Notice, reply: Reply) {
    && (reply.out == Ok(Duplicate(false)) <==> Creditable(db, n))
    && (reply.out == Ok(Duplicate(true)) <==> NamedInFull(n) && (Known(db.events, n) || PaidAgain(db, n)))
    && (!Creditable(db, n) ==> reply.db == db)
    && (Creditable(db, n) ==>
          && db.orders[n.order].user < |db.wallets| && |reply.db.journal| == |db.journal| + 1
          && var t := reply.db.journal[|db.journal|];
          reply.db == PaidBy(db, n, t) && CreditsOrder(t, KindPaymentCredit, n.order, db.orders[n.order]))
  }

  /** In a reachable state a paid event is applied exactly when it is creditable; then
      the order is paid under its transaction, its owner has the credit, one balanced
      posting says so, and nothing else changes. */
  lemma PaymentIsCreditedIff(db: Tables, n: Notice)
    requires Reachable(db) && n.status.NoticePaid?
    ensures PaidOutcome(db, n, ApplyWebhook(db, n))
  {
    ReachableRows(db);
    if NamedInFull(n) {
      UnobstructedIff(db, n);
      if EventById(db.events, n.provider, n.eventId).None? && NoticeObstacle(db, n).None? { PaymentNoticeIff(db, n); }
    }
  }

  /** A posting of an order's whole credit against clearing. */
  ghost predicate CreditsOrder(t: Transaction, kind: Kind, o: nat, order: Order) {
    t.kind == kind && t.user == order.user && t.ref == OrderRef(o)
    && Moved(t, order.quote.credit, 0) && Booked(t, -order.quote.credit, 0, 0)
  }

  lemma PaymentNoticeIff(db: Tables, n: Notice)
    requires Linked(db) && KeysOk(db) && n.order < |db.orders| && EventById(db.events, n.provider, n.eventId).None?
    ensures var order := db.orders[n.order]; var reply := NoticeOfPayment(db, n);
            && order.user < |db.wallets|
            && (reply.out == Ok(Duplicate(false)) <==> order.Open() && !TxnElsewhere(db.orders, n.order, n.txn))
            && (reply.out == Ok(Duplicate(false)) ==>
                  reply.db == PaidBy(db, n, NoticeCrediting(db, n)) && CreditsOrder(NoticeCrediting(db, n), KindPaymentCredit, n.order, order))
            && (reply.out != Ok(Duplicate(false)) ==> reply.db == db)
            && (reply.out == Ok(Duplicate(true)) <==> order.status.Paid? && order.txn == Some(n.txn))
  {
    assert OrderLinked(db.orders[n.order], db);
    var order := db.orders[n.order];
    CreditPosts(db, n.order);
    UnusedKey(db, PaymentKey(n.provider, n.eventId));
    CreditingPosts(order.user, KindPaymentCredit, OrderRef(n.order), PaymentKey(n.provider, n.eventId), order.quote.credit);
    EventIsRecorded(db, n, false);
    if order.Open() && NoticeOfPayment(db, n).out.Ok? { PaymentNoticeCommits(db, n); }
  }

  // -- pending, failed and closed events

  /** What such an event says, by its type. */
  predicate SaysProgress(n: Notice) {
    || (n.eventType.EventPending? && n.status.NoticePending?)
    || (n.eventType.EventFailed? && n.status.NoticeFailed?)
    || (n.eventType.EventClosed? && n.status.NoticeClosed?)
  }

  /** An event that moves no money and is to be applied: news, about an open order,
      saying what its type says, with a transaction no other order has, and no refund. */
  predicate Progressive(db: Tables, n: Notice) {
    && NamedInFull(n) && IsNews(db.events, n) && SaysProgress(n) && n.providerRefund.None?
    && n.order < |db.orders| && AgreesWith(db.orders[n.order], n) && db.orders[n.order].Open()
    && forall i | 0 <= i < |db.orders| && i != n.order :: db.orders[i].txn != Some(n.txn)
  }

  /** A failed payment fails the order, a closed one closes it, and a pending one only
      takes back a checkout that is being requested. */
  function StatusAfter(order: Order, n: Notice): OrderStatus {
    match n.status
    case NoticeFailed => PaymentFailed
    case NoticeClosed => Closed
    case _ => if order.status.CheckoutRequesting? then OrderReconciliation else order.status
  }

  lemma ProgressUnobstructedIff(db: Tables, n: Notice)
    requires n.status in {NoticePending, NoticeFailed, NoticeClosed} && NamedInFull(n)
    ensures EventById(db.events, n.provider, n.eventId).None? && NoticeObstacle(db, n).None?
            <==> && IsNews(db.events, n) && n.order < |db.orders| && AgreesWith(db.orders[n.order], n)
                 && SaysProgress(n) && n.providerRefund.None?
  {
    NewsIsUnrecorded(db.events, n);
  }

  lemma ProgressNoticeIff(db: Tables, n: Notice)
    requires n.order < |db.orders| && NamedInFull(n) && db.orders[n.order].txn in {None, Some(n.txn)}
    requires n.status in {NoticePending, NoticeFailed, NoticeClosed}
    ensures var order := db.orders[n.order]; var reply := NoticeOfProgress(db, n); var status := StatusAfter(order, n);
            if order.Open() && !TxnElsewhere(db.orders, n.order, n.txn) then
              reply == Reply(db.(orders := db.orders[n.order := order.(status := status, txn := Some(n.txn), reconcileClaim := None,
                                                                       checkoutClaim := if status == order.status then order.checkoutClaim else None)],
                                 events := db.events + [EventRow(n, false)]),
                             Ok(Duplicate(false)))
            else reply.out.Err? && reply.db == db
  {
    EventIsRecorded(db, n, false);
  }

  /** Exactly when a pending, failed or closed event is applied, and what it leaves:
      the order in its new status under the event's transaction, the event row, and no
      other change, so no money moves. */
  lemma ProgressIsAppliedIff(db: Tables, n: Notice)
    requires n.status in {NoticePending, NoticeFailed, NoticeClosed}
    ensures ApplyWebhook(db, n).out == Ok(Duplicate(false)) <==> Progressive(db, n)
    ensures !Progressive(db, n) ==> ApplyWebhook(db, n).db == db
    ensures Progressive(db, n) ==>
              var order := db.orders[n.order]; var status := StatusAfter(order, n);
              ApplyWebhook(db, n).db
              == db.(orders := db.orders[n.order := order.(status := status, txn := Some(n.txn), reconcileClaim := None,
                                                           checkoutClaim := if status == order.status then order.checkoutClaim else None)],
                     events := db.events + [EventRow(n, false)])
  {
    if NamedInFull(n) {
      ProgressUnobstructedIff(db, n);
      if EventById(db.events, n.provider, n.eventId).None? && NoticeObstacle(db, n).None? { ProgressNoticeIff(db, n); }
    }
  }

  /** After an applied failed or closed event no run ever credits the order. */
  lemma FailedIsNeverCredited(db: Tables, n: Notice, commands: seq<Command>)
    requires Reachable(db) && n.status in {NoticeFailed, NoticeClosed} && ApplyWebhook(db, n).out == Ok(Duplicate(false))
    ensures var later := Run(ApplyWebhook(db, n).db, commands);
            && n.order < |later.orders| && later.orders[n.order].status == (if n.status.NoticeFailed? then PaymentFailed else Closed)
            && PositionOf(later.journal, n.order).credits == 0 && PositionOf(later.journal, n.order).clearing == 0
  {
    ProgressIsAppliedIff(db, n);
    var first := ApplyWebhook(db, n).db;
    ReachableStep(db, OnPayment(DoWebhook(n)));
    assert Final(first.orders[n.order]);
    FinalStatusesStay(first, commands);
    ReachableRun(first, commands);
    CreditedAndReversedOnce(Run(first, commands), n.order);
  }

  // -- test events

  /** A test event that is to be credited: with an id no event, nonce or other order
      carries, for the credit of a pending order of the test provider. */
  predicate TestCreditable(db: Tables, eventId: string, o: nat, amount: int) {
    && eventId != ""
    && (forall i | 0 <= i < |db.events| :: db.events[i].provider == TEST_PROVIDER ==>
          db.events[i].eventId != eventId && db.events[i].nonce != eventId)
    && o < |db.orders| && db.orders[o].quote.provider == TEST_PROVIDER && db.orders[o].status.Pending?
    && amount == db.orders[o].quote.credit
    && forall i | 0 <= i < |db.orders| && i != o :: db.orders[i].txn != Some(eventId)
  }

  /** What becomes of a test event: credited, or nothing but an answer. */
  ghost predicate TestOutcome(db: Tables, eventId: string, digest: string, o: nat, amount: int, reply: Reply) {
    && (reply.out == Ok(Duplicate(false)) <==> TestCreditable(db, eventId, o, amount))
    && (!TestCreditable(db, eventId, o, amount) ==> reply.db == db)
    && (TestCreditable(db, eventId, o, amount) ==>
          && db.orders[o].user < |db.wallets|
          && var after := reply.db; var order := db.orders[o]; var w := db.wallets[order.user];
          && |after.journal| == |db.journal| + 1
          && var t := after.journal[|db.journal|];
          && after == db.(orders := db.orders[o := order.(status := Paid, txn := Some(eventId))],
                          wallets := db.wallets[order.user := w.(balance := w.balance + amount)],
                          events := db.events + [WebhookEvent(TEST_PROVIDER, eventId, eventId, o, digest, EventTopup, false)],
                          journal := db.journal + [t])
          && CreditsOrder(t, KindCredit, o, order))
  }

  /** In a reachable state a test event is credited exactly when it is creditable;
      otherwise nothing changes. */
  lemma TestEventIsCreditedIff(db: Tables, eventId: string, digest: string, o: nat, amount: int)
    requires Reachable(db)
    ensures TestOutcome(db, eventId, digest, o, amount, TestWebhook(db, eventId, digest, o, amount))
  {
    TestKeysAreFree(db, eventId, o);
    TestEventIff(db, eventId, digest, o, amount);
  }

  lemma TestKeysAreFree(db: Tables, eventId: string, o: nat)
    requires Reachable(db)
    ensures o < |db.orders| ==> OrderLinked(db.orders[o], db)
    ensures EventById(db.events, TEST_PROVIDER, eventId).None? ==> !KeyUsed(db.journal, PaymentKey(TEST_PROVIDER, eventId))
  {
    ReachableRows(db);
    if o < |db.orders| { assert OrderLinked(db.orders[o], db); }
    if EventById(db.events, TEST_PROVIDER, eventId).None? { UnusedKey(db, PaymentKey(TEST_PROVIDER, eventId)); }
  }

  lemma TestEventIff(db: Tables, eventId: string, digest: string, o: nat, amount: int)
    requires o < |db.orders| ==> OrderLinked(db.orders[o], db)
    requires EventById(db.events, TEST_PROVIDER, eventId).None? ==> !KeyUsed(db.journal, PaymentKey(TEST_PROVIDER, eventId))
    ensures TestOutcome(db, eventId, digest, o, amount, TestWebhook(db, eventId, digest, o, amount))
  {
    TestNews(db.events, eventId);
    if o < |db.orders| && EventById(db.events, TEST_PROVIDER, eventId).None? { TestWebhookIff(db, eventId, digest, o, amount); }
  }

  lemma TestNews(events: seq<WebhookEvent>, eventId: string)
    ensures (forall i | 0 <= i < |events| :: events[i].provider == TEST_PROVIDER ==> events[i].eventId != eventId && events[i].nonce != eventId)
            <==> EventById(events, TEST_PROVIDER, eventId).None? && !NonceUsed(events, TEST_PROVIDER, eventId)
  {
  }

  lemma TestWebhookIff(db: Tables, eventId: string, digest: string, o: nat, amount: int)
    requires o < |db.orders| && OrderLinked(db.orders[o], db) && EventById(db.events, TEST_PROVIDER, eventId).None?
    requires !KeyUsed(db.journal, PaymentKey(TEST_PROVIDER, eventId))
    ensures var reply := TestWebhook(db, eventId, digest, o, amount);
            var granted := eventId != "" && db.orders[o].quote.provider == TEST_PROVIDER && amount == db.orders[o].quote.credit
                           && db.orders[o].status.Pending? && !NonceUsed(db.events, TEST_PROVIDER, eventId)
                           && !TxnElsewhere(db.orders, o, eventId);
            && (granted ==> reply == Reply(TestCredited(db, eventId, digest, o), Ok(Duplicate(false)))
                            && CreditsOrder(TestCrediting(db, eventId, o), KindCredit, o, db.orders[o]))
            && (!granted ==> reply.out.Err? && reply.db == db)
  {
    var order := db.orders[o];
    CreditingPosts(order.user, KindCredit, OrderRef(o), PaymentKey(TEST_PROVIDER, eventId), order.quote.credit);
  }

  // ----------------------------------------------------------------------- refunds

  /** Every refund the order has is the one asked for, and no other order's refund has
      the provider's id. */
  predicate OnlyRefund(refunds: seq<Refund>, o: nat, clientKey: string, refundId: string) {
    && (forall f | 0 <= f < |refunds| && refunds[f].order == o ::
          refunds[f].clientKey == clientKey && refunds[f].providerRefund in {None, Some(refundId)})
    && (forall f | 0 <= f < |refunds| && refunds[f].providerRefund == Some(refundId) :: refunds[f].order == o)
  }

  /** A refund that can be completed: of a priced order that holds its credit. */
  predicate Refundable(db: Tables, o: nat, clientKey: string, refundId: string) {
    && o < |db.orders| && db.orders[o].Credited()
    && db.orders[o].quote.cash.Some? && db.orders[o].quote.currency.Some?
    && OnlyRefund(db.refunds, o, clientKey, refundId)
  }

  /** With one refund for an order at most, the look-up by key finds it or there is none. */
  lemma RefundOfOrder(db: Tables, o: nat, clientKey: string, refundId: string)
    requires Lockstep(db.orders, db.refunds)
    ensures var existing := RefundByKey(db.refunds, o, clientKey);
            var f := if existing.Some? then existing.value else |db.refunds|;
            OnlyRefund(db.refunds, o, clientKey, refundId)
            <==> && (existing.None? ==> !OrderHasRefund(db.refunds, o))
                 && (existing.Some? ==> db.refunds[f].providerRefund in {None, Some(refundId)})
                 && !RefundIdElsewhere(db.refunds, f, refundId)
  {
    var existing := RefundByKey(db.refunds, o, clientKey);
    if existing.Some? {
      forall g | 0 <= g < |db.refunds| && db.refunds[g].order == o ensures g == existing.value {
      }
    }
  }

  /** The order's refund row is completed or put at risk, under the provider's id; the
      others stay. */
  ghost predicate RefundCompleted(refunds: seq<Refund>, after: seq<Refund>, o: nat, order: Order, refundId: string, status: RefundStatus) {
    exists f: nat ::
      && f < |after| == (if f < |refunds| then |refunds| else |refunds| + 1)
      && (forall i | 0 <= i < |after| && i != f :: after[i] == refunds[i])
      && after[f] == after[f].(order := o, user := order.user, providerRefund := Some(refundId), credit := order.quote.credit, status := status)
  }

  /** The order's credit was taken back: all of it, or what the balance still has, and
      then the account is frozen and the rest booked as risk. */
  ghost predicate GivenBack(db: Tables, after: Tables, o: nat, noted: seq<WebhookEvent>, refundId: string) {
    && o < |db.orders| && db.orders[o].user < |db.wallets| && |after.journal| == |db.journal| + 1
    && var order := db.orders[o]; var w := db.wallets[order.user]; var credit := order.quote.credit;
       var recovered := Max(0, Min(w.balance, credit)); var t := after.journal[|db.journal|];
    && after == (if recovered < credit then FreezeUser(db, order.user) else db)
                  .(orders := db.orders[o := order.(status := Refunded, reconcileClaim := None)],
                    refunds := after.refunds, events := db.events + noted, journal := db.journal + [t],
                    wallets := db.wallets[order.user := w.(balance := w.balance - recovered)])
    && RefundCompleted(db.refunds, after.refunds, o, order, refundId, if recovered < credit then Risk else RefundDone)
    && t.user == order.user && t.ref == OrderRef(o) && Moved(t, -recovered, 0) && Booked(t, credit, recovered - credit, 0)
  }

  lemma ReversalGivesBack(db: Tables, m: Move, o: nat, noted: seq<WebhookEvent>, refundId: string)
    requires Legal(db, m) && Reverses(db, m, o, noted, refundId) && db.orders[o].quote.credit > 0
    ensures GivenBack(db, Make(db, m), o, noted, refundId)
  {
    var order, w := db.orders[o], db.wallets[db.orders[o].user];
    var recovered := Max(0, Min(w.balance, order.quote.credit));
    assert m.recovered == recovered;
    RowCompleted(db, m, o, noted, refundId);
  }

  lemma RowCompleted(db: Tables, m: Move, o: nat, noted: seq<WebhookEvent>, refundId: string)
    requires Legal(db, m) && Reverses(db, m, o, noted, refundId)
    ensures RefundCompleted(db.refunds, StoreRefund(db.refunds, m.f, m.done), o, db.orders[o], refundId, m.done.status)
  {
    var after := StoreRefund(db.refunds, m.f, m.done);
    assert after[m.f] == m.done;
  }

  /** The order's refund under this key was completed, or put at risk, with this id. */
  predicate Completed(refunds: seq<Refund>, f: nat, o: nat, clientKey: string, refundId: string) {
    && f < |refunds| && refunds[f].order == o && refunds[f].clientKey == clientKey && refunds[f].providerRefund == Some(refundId)
    && (refunds[f].status.RefundDone? || refunds[f].status.Risk?)
  }

  lemma ReplayIff(db: Tables, o: nat, clientKey: string, refundId: string)
    requires Lockstep(db.orders, db.refunds)
    ensures var reply := ApplyRefund(db, o, clientKey, refundId);
            && (forall f: nat :: Completed(db.refunds, f, o, clientKey, refundId) ==> reply == Reply(db, Ok(Row(f))))
            && (o < |db.orders| && !db.orders[o].Credited() && reply.out.Ok? ==>
                  exists f: nat :: reply.out == Ok(Row(f)) && Completed(db.refunds, f, o, clientKey, refundId))
  {
    var existing := RefundByKey(db.refunds, o, clientKey);
    forall f: nat | Completed(db.refunds, f, o, clientKey, refundId) ensures existing == Some(f) {
    }
    if o < |db.orders| && !db.orders[o].Credited() && ApplyRefund(db, o, clientKey, refundId).out.Ok? {
      assert Completed(db.refunds, existing.value, o, clientKey, refundId);
    }
  }

  /** In a reachable state a refund reverses the credit exactly when it is refundable,
      and then gives it back; otherwise nothing changes, and only a refund completed
      under the same key and id is answered as before. */
  lemma RefundReversesIff(db: Tables, o: nat, clientKey: string, refundId: string)
    requires Reachable(db)
    ensures var reply := ApplyRefund(db, o, clientKey, refundId);
            && (Refundable(db, o, clientKey, refundId) ==> reply.out.Ok? && GivenBack(db, reply.db, o, [], refundId))
            && (!Refundable(db, o, clientKey, refundId) ==>
                  reply.db == db
                  && (reply.out.Ok? <==> exists f: nat :: reply.out == Ok(Row(f)) && Completed(db.refunds, f, o, clientKey, refundId)))
            && (forall f: nat :: Completed(db.refunds, f, o, clientKey, refundId) ==> reply == Reply(db, Ok(Row(f))))
  {
    ReachableRows(db);
    ReplayIff(db, o, clientKey, refundId);
    assert db.(events := db.events + []) == db;
    if o < |db.orders| && db.orders[o].Credited() { CreditedRefundIff(db, [], o, clientKey, refundId); }
  }

  /** A credited order is refunded, with some events written in the same transaction,
      exactly when it is refundable. */
  lemma CreditedRefundIff(db: Tables, noted: seq<WebhookEvent>, o: nat, clientKey: string, refundId: string)
    requires Linked(db) && KeysOk(db) && Lockstep(db.orders, db.refunds) && o < |db.orders| && db.orders[o].Credited()
    ensures var db1 := db.(events := db.events + noted); var reply := ApplyRefund(db1, o, clientKey, refundId);
            && (reply.out.Ok? <==> Refundable(db, o, clientKey, refundId))
            && (reply.out.Ok? ==> GivenBack(db, reply.db, o, noted, refundId))
            && (reply.out.Err? ==> reply.db == db1)
  {
    assert OrderLinked(db.orders[o], db);
    RefundIsGrantedIff(db, noted, o, clientKey, refundId);
    var m := ApplyRefundIs(db, noted, o, clientKey, refundId);
    if Refundable(db, o, clientKey, refundId) { ReversalGivesBack(db, m, o, noted, refundId); }
  }

  lemma RefundIsGrantedIff(db: Tables, noted: seq<WebhookEvent>, o: nat, clientKey: string, refundId: string)
    requires Linked(db) && KeysOk(db) && Lockstep(db.orders, db.refunds) && o < |db.orders| && db.orders[o].Credited()
    ensures var db1 := db.(events := db.events + noted); var reply := ApplyRefund(db1, o, clientKey, refundId);
            && (reply.out.Ok? <==> Refundable(db, o, clientKey, refundId))
            && (reply.out.Ok? ==> reply.db != db1)
  {
    var db1 := db.(events := db.events + noted);
    assert OrderLinked(db.orders[o], db);
    RefundOfOrder(db, o, clientKey, refundId);
    var existing := RefundByKey(db.refunds, o, clientKey);
    var f := if existing.Some? then existing.value else |db.refunds|;
    UnusedReversalKeys(db, o, f);
    var refund := if existing.Some? then db.refunds[f]
                  else Refund(o, db.orders[o].user, clientKey, None, db.orders[o].quote.credit, Requesting, 0);
    var done := refund.(providerRefund := Some(refundId));
    ReverseClean(db, db1, o, f, done);
    ReverseLeaves(db1, o, f, done);
    RefundPathIff(db1, o, clientKey, refundId, f, refund);
  }

  /** With its reversal sure to post, what can still refuse a credited order's refund. */
  lemma RefundPathIff(db: Tables, o: nat, clientKey: string, refundId: string, f: nat, refund: Refund)
    requires o < |db.orders| && db.orders[o].Credited() && db.orders[o].user < |db.wallets|
    requires var existing := RefundByKey(db.refunds, o, clientKey);
             if existing.Some? then f == existing.value && refund == db.refunds[f] && refund.InFlight()
             else f == |db.refunds|
                  && refund == Refund(o, db.orders[o].user, clientKey, None, db.orders[o].quote.credit, Requesting, 0)
    requires Reverse(db, o, f, refund.(providerRefund := Some(refundId))).out.Ok?
    ensures var reply := ApplyRefund(db, o, clientKey, refundId);
            var granted := db.orders[o].quote.cash.Some? && db.orders[o].quote.currency.Some?
                           && (f == |db.refunds| ==> !OrderHasRefund(db.refunds, o))
                           && (f < |db.refunds| ==> db.refunds[f].providerRefund in {None, Some(refundId)})
                           && !RefundIdElsewhere(db.refunds, f, refundId);
            && (reply.out.Ok? <==> granted)
            && (granted ==> reply == Reverse(db, o, f, refund.(providerRefund := Some(refundId))))
  {
  }

  lemma ReverseLeaves(db: Tables, o: nat, f: nat, refund: Refund)
    requires o < |db.orders| && f <= |db.refunds| && db.orders[o].user < |db.wallets| && Reverse(db, o, f, refund).out.Ok?
    ensures |Reverse(db, o, f, refund).db.journal| == |db.journal| + 1
  {
  }

  // -- refunded events

  /** A refund event that is in order: news, saying what its type says, about this
      order, and naming the provider's refund. */
  predicate RefundAnnounced(db: Tables, n: Notice) {
    && NamedInFull(n) && IsNews(db.events, n) && n.eventType.EventRefunded?
    && n.order < |db.orders| && AgreesWith(db.orders[n.order], n)
    && n.providerRefund.Some? && n.providerRefund.value != ""
  }

  /** The order's refund, if it has one, may have this provider id, and no other
      order's refund has it. */
  predicate RefundIdFits(refunds: seq<Refund>, o: nat, refundId: string) {
    && (forall f | 0 <= f < |refunds| && refunds[f].order == o :: refunds[f].providerRefund in {None, Some(refundId)})
    && (forall f | 0 <= f < |refunds| && refunds[f].providerRefund == Some(refundId) :: refunds[f].order == o)
  }

  lemma RefundUnobstructedIff(db: Tables, n: Notice)
    requires n.status.NoticeRefunded? && NamedInFull(n)
    ensures EventById(db.events, n.provider, n.eventId).None? && NoticeObstacle(db, n).None? <==> RefundAnnounced(db, n)
  {
    NewsIsUnrecorded(db.events, n);
  }

  /** In a reachable state a refund event is applied exactly when it is in order and
      its id fits the refund of a credited order, and then the credit is given back;
      for an order that was refunded under this id it is recorded as a duplicate, and
      in every other case nothing changes. */
  lemma RefundEventIff(db: Tables, n: Notice)
    requires Reachable(db) && n.status.NoticeRefunded?
    ensures var reply := ApplyWebhook(db, n);
            var fits := RefundAnnounced(db, n) && RefundIdFits(db.refunds, n.order, n.providerRefund.value);
            && (reply.out == Ok(Duplicate(false)) <==> fits && db.orders[n.order].Credited())
            && (reply.out == Ok(Duplicate(false)) ==> GivenBack(db, reply.db, n.order, [EventRow(n, false)], n.providerRefund.value))
            && (RefundAnnounced(db, n) && RefundedUnder(db, n.order, n.providerRefund.value) ==>
                  reply == Reply(db.(events := db.events + [EventRow(n, true)]), Ok(Duplicate(true))))
            && (!(fits && db.orders[n.order].Credited()) && !(RefundAnnounced(db, n) && RefundedUnder(db, n.order, n.providerRefund.value)) ==>
                  reply.db == db)
  {
    ReachableRows(db);
    RefundIds(db);
    if NamedInFull(n) {
      RefundUnobstructedIff(db, n);
      if RefundAnnounced(db, n) { RefundNoticeIff(db, n); }
    }
  }

  /** The order is refunded, and its refund has this provider id. */
  predicate RefundedUnder(db: Tables, o: nat, refundId: string) {
    && o < |db.orders| && db.orders[o].status.Refunded?
    && exists f :: 0 <= f < |db.refunds| && db.refunds[f].order == o && db.refunds[f].providerRefund == Some(refundId)
  }

  ghost predicate UniqueRefundIds(refunds: seq<Refund>) {
    forall f, g | 0 <= f < g < |refunds| :: refunds[f].providerRefund.Some? ==> refunds[f].providerRefund != refunds[g].providerRefund
  }

  lemma RefundIds(db: Tables)
    requires Reachable(db)
    ensures UniqueRefundIds(db.refunds)
  {
    ConstraintsHold(db);
    forall f, g | 0 <= f < g < |db.refunds| && db.refunds[f].providerRefund.Some?
      ensures db.refunds[f].providerRefund != db.refunds[g].providerRefund
    {
      assert !SameRefundId(db.refunds[f], db.refunds[g]);
    }
  }

  lemma RefundNoticeIff(db: Tables, n: Notice)
    requires Linked(db) && KeysOk(db) && Lockstep(db.orders, db.refunds) && UniqueRefundIds(db.refunds)
    requires n.order < |db.orders| && AgreesWith(db.orders[n.order], n) && n.providerRefund.Some?
    ensures var reply := NoticeOfRefund(db, n); var refundId := n.providerRefund.value; var order := db.orders[n.order];
            var granted := RefundIdFits(db.refunds, n.order, refundId) && order.Credited();
            && (reply.out == Ok(Duplicate(false)) <==> granted)
            && (granted ==> GivenBack(db, reply.db, n.order, [EventRow(n, false)], refundId))
            && (RefundedUnder(db, n.order, refundId) ==>
                  reply == Reply(db.(events := db.events + [EventRow(n, true)]), Ok(Duplicate(true))))
            && (!granted && !RefundedUnder(db, n.order, refundId) ==> reply.out.Err? && reply.db == db)
  {
    EventIsRecorded(db, n, false);
    EventIsRecorded(db, n, true);
    var o, refundId := n.order, n.providerRefund.value;
    if db.orders[o].Credited() { CreditedNoticeIff(db, n); }
    else if db.orders[o].status.Refunded? { RefundedNoticeIff(db, n); }
  }

  /** The reversal under an event, whatever key it goes by. */
  lemma ReversalNoticeIff(db: Tables, n: Notice, clientKey: string)
    requires Linked(db) && KeysOk(db) && Lockstep(db.orders, db.refunds)
    requires n.order < |db.orders| && n.providerRefund.Some? && db.orders[n.order].Credited()
    ensures var reply := WebhookRefund(db, n, clientKey); var refundId := n.providerRefund.value;
            && (Refundable(db, n.order, clientKey, refundId) ==>
                  reply.out == Ok(Duplicate(false)) && GivenBack(db, reply.db, n.order, [EventRow(n, false)], refundId))
            && (!Refundable(db, n.order, clientKey, refundId) ==> reply.out.Err? && reply.db == db)
  {
    EventIsRecorded(db, n, false);
    CreditedRefundIff(db, [EventRow(n, false)], n.order, clientKey, n.providerRefund.value);
  }

  lemma CreditedNoticeIff(db: Tables, n: Notice)
    requires Linked(db) && KeysOk(db) && Lockstep(db.orders, db.refunds)
    requires n.order < |db.orders| && AgreesWith(db.orders[n.order], n) && n.providerRefund.Some? && db.orders[n.order].Credited()
    ensures var reply := NoticeOfRefund(db, n); var refundId := n.providerRefund.value;
            && (RefundIdFits(db.refunds, n.order, refundId) ==>
                  reply.out == Ok(Duplicate(false)) && GivenBack(db, reply.db, n.order, [EventRow(n, false)], refundId))
            && (!RefundIdFits(db.refunds, n.order, refundId) ==> reply.out.Err? && reply.db == db)
  {
    var o := n.order;
    if db.orders[o].status.Refunding? {
      RefundingHasOneCommand(db, o);
      var f := InFlightRefund(db.refunds, o).value;
      ReversalNoticeIff(db, n, db.refunds[f].clientKey);
    } else {
      ReversalNoticeIff(db, n, "webhook:" + n.provider + ":" + n.eventId);
    }
  }

  lemma RefundedNoticeIff(db: Tables, n: Notice)
    requires UniqueRefundIds(db.refunds) && n.order < |db.orders| && n.providerRefund.Some? && db.orders[n.order].status.Refunded?
    ensures NoticeOfRefund(db, n)
            == if RefundedUnder(db, n.order, n.providerRefund.value)
               then Reply(db.(events := db.events + [EventRow(n, true)]), Ok(Duplicate(true)))
               else Refuse(db, RefundIdMismatch)
  {
    EventIsRecorded(db, n, true);
  }

  // ------------------------------------------------------------------ dispositions

  /** What the refund booked as risk, and so what is still owed while it is at risk. */
  function Owed(db: Tables, f: nat): Money
    requires f < |db.refunds|
  {
    PositionOf(db.journal, db.refunds[f].order).shortfall
  }

  /** A refund at risk whose owner holds nothing, and for a recovery can pay all of it. */
  ghost predicate CanDispose(db: Tables, f: nat, action: RiskAction) {
    && f < |db.refunds| && db.refunds[f].status.Risk? && db.refunds[f].user < |db.wallets|
    && var w := db.wallets[db.refunds[f].user];
    && w.reserved == 0 && (action.WriteOff? || (action.RecoverAvailable? && Owed(db, f) <= w.balance))
  }

  predicate KeySpent(journal: Journal, f: nat, clientKey: string, action: RiskAction) {
    exists i | 0 <= i < |journal| ::
      journal[i].key == DispositionKey(f, clientKey) && journal[i].kind == if action.RecoverAvailable? then KindRiskRecover else KindRiskWriteOff
  }

  /** The disposition took back what it answers, wrote the rest off, and resolved the
      refund; nothing else changed. */
  ghost predicate DisposedOf(db: Tables, after: Tables, f: nat, action: RiskAction, clientKey: string, recovered: Money) {
    && f < |db.refunds| && db.refunds[f].user < |db.wallets| && |after.journal| == |db.journal| + 1
    && var refund := db.refunds[f]; var w := db.wallets[refund.user]; var t := after.journal[|db.journal|];
    && after == db.(refunds := db.refunds[f := refund.(status := Resolved)], journal := db.journal + [t],
                    wallets := db.wallets[refund.user := w.(balance := w.balance - recovered)])
    && t.key == DispositionKey(f, clientKey) && t.user == refund.user && t.ref == OrderRef(refund.order)
    && t.kind == (if action.RecoverAvailable? then KindRiskRecover else KindRiskWriteOff)
    && Moved(t, -recovered, 0) && Booked(t, 0, Owed(db, f), recovered - Owed(db, f))
  }

  /** In a reachable state a disposition is new exactly when the refund can be disposed
      of, and then it takes back all that is owed, or of a write-off what the balance
      has. It is a repetition exactly when its key was spent on the same action.
      Everything else is refused, and only a new disposition changes anything. */
  lemma DispositionIsGrantedIff(db: Tables, f: nat, action: RiskAction, clientKey: string)
    requires Reachable(db)
    ensures var reply := ResolveRisk(db, f, action, clientKey);
            && (reply.out.Ok? ==> reply.out.answer.Disposition?)
            && (reply.out.Ok? && !reply.out.answer.repeated <==> CanDispose(db, f, action))
            && (reply.out.Ok? && reply.out.answer.repeated
                <==> f < |db.refunds| && !action.OtherAction? && KeySpent(db.journal, f, clientKey, action))
            && (CanDispose(db, f, action) ==>
                  var owed := Owed(db, f);
                  var recovered := if action.RecoverAvailable? then owed else Min(db.wallets[db.refunds[f].user].balance, owed);
                  && reply.out.answer == Disposition(f, false, owed, recovered, owed - recovered)
                  && DisposedOf(db, reply.db, f, action, clientKey, recovered))
            && (!CanDispose(db, f, action) ==> reply.db == db)
  {
    DebtsAreShortfalls(db, f);
    KeysAreSpentOnce(db, f, clientKey);
    if f < |db.refunds| && !action.OtherAction? {
      if TransactionByKey(db.journal, DispositionKey(f, clientKey)).None? { FirstDispositionIff(db, f, action, clientKey); }
    }
  }

  /** A refund at risk owes its shortfall, and its order is refunded. */
  ghost predicate DebtStands(db: Tables, f: nat) {
    f < |db.refunds| && db.refunds[f].status.Risk? ==>
      && RiskDebt(db.journal, db.refunds[f].order) == Owed(db, f) > 0
      && db.refunds[f].order < |db.orders| && db.orders[db.refunds[f].order].status.Refunded?
      && db.refunds[f].user < |db.wallets|
  }

  lemma DebtsAreShortfalls(db: Tables, f: nat)
    requires Reachable(db)
    ensures DebtStands(db, f)
  {
    ReachableInvariant(db);
    if f < |db.refunds| && db.refunds[f].status.Risk? {
      assert RefundBook(db.refunds[f], PositionOf(db.journal, db.refunds[f].order));
      assert RefundLinked(db.refunds[f], db);
    }
  }

  lemma KeysAreSpentOnce(db: Tables, f: nat, clientKey: string)
    requires Reachable(db)
    ensures var t := TransactionByKey(db.journal, DispositionKey(f, clientKey));
            && (f < |db.refunds| && db.refunds[f].status.Risk? ==> t.None?)
            && forall i | 0 <= i < |db.journal| && db.journal[i].key == DispositionKey(f, clientKey) :: t == Some(i)
  {
    ReachableRows(db);
    var t := TransactionByKey(db.journal, DispositionKey(f, clientKey));
    if t.Some? { assert KeyOk(db, db.journal[t.value].key); }
  }

  lemma FirstDispositionIff(db: Tables, f: nat, action: RiskAction, clientKey: string)
    requires DebtStands(db, f) && f < |db.refunds| && !action.OtherAction?
    requires TransactionByKey(db.journal, DispositionKey(f, clientKey)).None?
    ensures var reply := DisposeRisk(db, f, action, clientKey);
            && (reply.out.Ok? <==> CanDispose(db, f, action))
            && (reply.out.Err? ==> reply.db == db)
            && (reply.out.Ok? ==>
                  var owed := Owed(db, f);
                  var recovered := if action.RecoverAvailable? then owed else Min(db.wallets[db.refunds[f].user].balance, owed);
                  && reply.out.answer == Disposition(f, false, owed, recovered, owed - recovered)
                  && DisposedOf(db, reply.db, f, action, clientKey, recovered))
  {
    if DisposeRisk(db, f, action, clientKey).out.Ok? {
      DisposalCommits(db, f, action, clientKey);
      DisposableIsDisposedOf(db, f, action, clientKey, DisposeRisk(db, f, action, clientKey).out.answer.recovered);
    } else if CanDispose(db, f, action) {
      DisposalWouldPost(db, f, action, clientKey);
    }
  }

  lemma DisposableIsDisposedOf(db: Tables, f: nat, action: RiskAction, clientKey: string, recovered: Money)
    requires DebtStands(db, f) && Disposable(db, f, action, clientKey, recovered)
    ensures CanDispose(db, f, action)
    ensures recovered == if action.RecoverAvailable? then Owed(db, f) else Min(db.wallets[db.refunds[f].user].balance, Owed(db, f))
    ensures DisposedOf(db, Disposed(db, f, action, clientKey, recovered), f, action, clientKey, recovered)
  {
    var refund := db.refunds[f];
    DisposalPosts(refund.user, action.KindOf(), OrderRef(refund.order), DispositionKey(f, clientKey), Owed(db, f), recovered);
  }

  lemma DisposalWouldPost(db: Tables, f: nat, action: RiskAction, clientKey: string)
    requires DebtStands(db, f) && CanDispose(db, f, action)
    requires TransactionByKey(db.journal, DispositionKey(f, clientKey)).None?
    ensures DisposeRisk(db, f, action, clientKey).out.Ok?
  {
    var refund := db.refunds[f];
    var debt, w := Owed(db, f), db.wallets[refund.user];
    var recovered := if action.RecoverAvailable? then debt else Min(w.balance, debt);
    assert !KeyUsed(db.journal, DispositionKey(f, clientKey));
    SplitMoves(PlatformRisk, CustomerAvailable, PlatformLoss, debt, -recovered, recovered - debt);
  }
}
