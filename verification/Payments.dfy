/** Payment orders, provider events and refunds (app/services/payment_domain.py,
    app/services/payments.py and the payment routes of app/__init__.py). */
module Payments {
  import opened Schema
  import opened JournalBooks
  import opened Identity

  const MINUTE: Time := 60_000_000
  const LEASE: Time := 5 * MINUTE
  const TEST_PROVIDER := "test_hmac"

  predicate Truthy(text: Option<string>) { text.Some? && text.value != "" }

  // ------------------------------------------------------------------- orders

  predicate IsUpper(text: string) {
    (exists c :: c in text && 'A' <= c <= 'Z') && forall c :: c in text ==> !('a' <= c <= 'z')
  }

  /** The checks `create_order` makes on a quote before it reads anything. */
  predicate QuoteValid(q: Quote) {
    && q.cash.Some? && q.cash.value > 0 && q.credit > 0
    && q.currency.Some? && |q.currency.value| == 3 && IsUpper(q.currency.value)
    && q.provider != "" && Truthy(q.quoteId) && q.numerator > 0 && q.denominator > 0
  }

  function OrderByKey(orders: seq<Order>, user: nat, clientKey: string): Option<nat> {
    Find(orders, (o: Order) => o.user == user && o.clientKey == Some(clientKey))
  }

  function OpenOrders(orders: seq<Order>, user: nat): nat {
    CountRows(orders, (o: Order) => o.user == user && o.Open())
  }

  function NewOrder(user: nat, quote: Quote, clientKey: Option<string>): Order {
    Order(user, quote, clientKey, Pending, None, None, None, None)
  }

  /** `create_order`. */
  function CreateOrder(db: Tables, user: nat, quote: Quote, clientKey: string, maxOpen: Option<int>): Reply {
    if !QuoteValid(quote) then Refuse(db, QuoteInvalid)
    else if user >= |db.users| then Refuse(db, UserMissing)
    else if !db.users[user].status.Active? then Refuse(db, AccountUnavailable)
    else
      match OrderByKey(db.orders, user, clientKey)
      case Some(o) => if db.orders[o].quote == quote then Reply(db, Ok(Row(o))) else Refuse(db, QuoteMismatch)
      case None =>
        if maxOpen.Some? && maxOpen.value < 1 then Refuse(db, OpenOrderCapInvalid)
        else if maxOpen.Some? && OpenOrders(db.orders, user) >= maxOpen.value then Refuse(db, TooManyOpenOrders)
        else Reply(db.(orders := db.orders + [NewOrder(user, quote, Some(clientKey))]), Ok(Row(|db.orders|)))
  }

  /** `create_test_order`; the foreign key refuses an unknown owner. */
  function CreateTestOrder(db: Tables, user: nat, amount: Money): Reply {
    if !(100 <= amount <= 100_000_000) then Refuse(db, TestAmountOutOfRange)
    else if user >= |db.users| then Refuse(db, UserMissing)
    else
      var quote := Quote(TEST_PROVIDER, None, None, amount, None, 1, 1);
      Reply(db.(orders := db.orders + [NewOrder(user, quote, None)]), Ok(Row(|db.orders|)))
  }

  // ----------------------------------------------------------------- checkout

  function PutOrder(db: Tables, o: nat, order: Order): Tables
    requires o < |db.orders|
  {
    db.(orders := db.orders[o := order])
  }

  /** `prepare_checkout`. An expired claim is turned over to an operator and the
      caller is refused all the same. */
  function PrepareCheckout(db: Tables, o: nat, now: Time, lease: Time): Reply {
    if o >= |db.orders| then Refuse(db, OrderMissing)
    else
      var order := db.orders[o];
      if !IsActive(db, order.user) then Refuse(db, AccountUnavailable)
      else if Truthy(order.url) && Truthy(order.txn) then Reply(db, Ok(Claim(o, false)))
      else if order.status.CheckoutRequesting? then
        if order.checkoutClaim.Some? && order.checkoutClaim.value > now - lease then Refuse(db, CheckoutInProgress)
        else Reply(PutOrder(db, o, order.(status := OrderReconciliation)), Err(CheckoutExpired))
      else if !order.status.Pending? || order.txn.Some? || order.url.Some? then Refuse(db, OrderNotClaimable)
      else
        Reply(PutOrder(db, o, order.(status := CheckoutRequesting, checkoutClaim := Some(now))), Ok(Claim(o, true)))
  }

  predicate TxnElsewhere(orders: seq<Order>, o: nat, txn: string) {
    exists i | 0 <= i < |orders| :: i != o && orders[i].txn == Some(txn)
  }

  datatype CheckoutResult =
    | CheckoutBridgeError
    | CheckoutAnswer(pending: bool, txn: string, url: string)

  /** What `create_live_checkout` records once the provider has answered. */
  function CheckoutResponse(db: Tables, o: nat, result: CheckoutResult): Reply {
    if o >= |db.orders| || !db.orders[o].status.CheckoutRequesting? then
      if result.CheckoutBridgeError? then Reply(db, Ok(Nothing)) else Refuse(db, OrderChanged)
    else
      var order := db.orders[o];
      match result
      case CheckoutBridgeError =>
        Reply(PutOrder(db, o, order.(status := OrderReconciliation, checkoutClaim := None)), Ok(Nothing))
      case CheckoutAnswer(pending, txn, url) =>
        if order.txn.Some? then Refuse(db, OrderChanged)
        else if TxnElsewhere(db.orders, o, txn) then Refuse(db, TransactionConflict)
        else
          var status := if pending then Pending else OrderReconciliation;
          Reply(PutOrder(db, o, order.(status := status, txn := Some(txn), url := Some(url), checkoutClaim := None)),
                Ok(Nothing))
  }

  /** `reconcile_live_payment` up to its first commit: an operator's lease. */
  function ClaimReconciliation(db: Tables, o: nat, now: Time): Reply {
    if o >= |db.orders| || db.orders[o].quote.cash.None? || db.orders[o].quote.currency.None? then
      Refuse(db, OrderMissing)
    else
      var order := db.orders[o];
      if !order.Open() then Refuse(db, OrderNotReconcilable)
      else if order.status.CheckoutRequesting? && order.checkoutClaim.Some?
              && order.checkoutClaim.value > now - LEASE then
        Refuse(db, CheckoutInProgress)
      else if order.reconcileClaim.Some? && order.reconcileClaim.value > now - LEASE then
        Refuse(db, ReconcileInProgress)
      else
        var claim := if order.status.CheckoutRequesting? then None else order.checkoutClaim;
        Reply(PutOrder(db, o, order.(status := OrderReconciliation, checkoutClaim := claim,
                                     reconcileClaim := Some(now))),
              Ok(Nothing))
  }

  /** The provider's answer settled nothing: the order stays with the operators. */
  function ReconcileInconclusive(db: Tables, o: nat): Reply {
    if o >= |db.orders| || !(db.orders[o].status.Pending? || db.orders[o].status.OrderReconciliation?) then
      Reply(db, Ok(Nothing))
    else
      Reply(PutOrder(db, o, db.orders[o].(status := OrderReconciliation)), Ok(Nothing))
  }

  /** The last write of `reconcile_live_payment`, unconditional. */
  function ClearReconciliation(db: Tables, o: nat): Reply {
    if o >= |db.orders| then Reply(db, Ok(Nothing))
    else Reply(PutOrder(db, o, db.orders[o].(reconcileClaim := None)), Ok(Nothing))
  }

  // ------------------------------------------------------------------- events

  datatype NoticeStatus =
    | NoticePending
    | NoticeFailed
    | NoticeClosed
    | NoticePaid
    | NoticeRefunded
    | NoticeOther

  /** An authenticated provider event, or an operator's finding in its form. */
  datatype Notice = Notice(
    provider: string, eventId: string, nonceText: Option<string>, digest: string, order: nat,
    eventType: EventType, status: NoticeStatus, cash: int, currency: string,
    txn: string, providerRefund: Option<string>)
  {
    function Nonce(): string { if nonceText.None? || nonceText.value == "" then eventId else nonceText.value }
  }

  function StatusOf(t: EventType): Option<NoticeStatus> {
    match t
    case EventPending => Some(NoticePending)
    case EventFailed => Some(NoticeFailed)
    case EventClosed => Some(NoticeClosed)
    case EventSucceeded => Some(NoticePaid)
    case EventTopup => Some(NoticePaid)
    case EventRefunded => Some(NoticeRefunded)
    case EventOther => None
  }

  function EventById(events: seq<WebhookEvent>, provider: string, eventId: string): Option<nat> {
    Find(events, (e: WebhookEvent) => e.provider == provider && e.eventId == eventId)
  }

  predicate NonceUsed(events: seq<WebhookEvent>, provider: string, nonce: string) {
    Any(events, (e: WebhookEvent) => e.provider == provider && e.nonce == nonce)
  }

  /** Why a new event is refused before any row is touched. */
  function NoticeObstacle(db: Tables, n: Notice): Option<Error> {
    if NonceUsed(db.events, n.provider, n.Nonce()) then Some(NonceReused)
    else if n.order >= |db.orders| || db.orders[n.order].quote.provider != n.provider then Some(OrderMissing)
    else
      var order := db.orders[n.order];
      if order.quote.cash != Some(n.cash) || order.quote.currency != Some(n.currency) then Some(AmountMismatch)
      else if order.txn.Some? && order.txn.value != n.txn then Some(TransactionMismatch)
      else if StatusOf(n.eventType) != Some(n.status) then Some(EventTypeMismatch)
      else if n.status.NoticeRefunded? && !Truthy(n.providerRefund) then Some(RefundIdMissing)
      else if !n.status.NoticeRefunded? && n.providerRefund.Some? then Some(RefundIdUnexpected)
      else None
  }

  /** `apply_webhook`. */
  function ApplyWebhook(db: Tables, n: Notice): Reply {
    if n.eventId == "" || n.digest == "" || n.txn == "" then Refuse(db, EventIncomplete)
    else
      match EventById(db.events, n.provider, n.eventId)
      case Some(e) =>
        if db.events[e].digest != n.digest || db.events[e].nonce != n.Nonce() then Refuse(db, EventBodyConflict)
        else Reply(db, Ok(Duplicate(true)))
      case None =>
        if NoticeObstacle(db, n).Some? then Refuse(db, NoticeObstacle(db, n).value)
        else if n.status.NoticeRefunded? then NoticeOfRefund(db, n)
        else if n.status.NoticePaid? then NoticeOfPayment(db, n)
        else NoticeOfProgress(db, n)
  }

  function Recorded(db: Tables, n: Notice, duplicate: bool): Tables {
    db.(events := db.events + [WebhookEvent(n.provider, n.eventId, n.Nonce(), n.order, n.digest, n.eventType, duplicate)])
  }

  /** pending, failed and closed: no money moves. */
  function NoticeOfProgress(db: Tables, n: Notice): Reply
    requires n.order < |db.orders|
  {
    var order := db.orders[n.order];
    if !order.Open() then Refuse(db, OrderNotUpdatable)
    else
      var txn := if Truthy(order.txn) then order.txn else Some(n.txn);
      if TxnElsewhere(db.orders, n.order, txn.value) then Refuse(db, TransactionConflict)
      else
        var known := order.(txn := txn, reconcileClaim := None);
        var next :=
          if n.status.NoticeFailed? then known.(status := PaymentFailed, checkoutClaim := None)
          else if n.status.NoticeClosed? then known.(status := Closed, checkoutClaim := None)
          else if order.status.CheckoutRequesting? then known.(status := OrderReconciliation, checkoutClaim := None)
          else known;
        Reply(PutOrder(Recorded(db, n, false), n.order, next), Ok(Duplicate(false)))
  }

  function Credited(order: Order, txn: string): Order {
    order.(status := Paid, txn := Some(txn), checkoutClaim := None, reconcileClaim := None)
  }

  /** paid: credit the wallet once. */
  function NoticeOfPayment(db: Tables, n: Notice): Reply
    requires n.order < |db.orders|
  {
    var order := db.orders[n.order];
    if !order.Open() then
      if order.txn == Some(n.txn) && order.status.Paid? then Reply(db, Ok(Duplicate(true)))
      else Refuse(db, OrderStateConflict)
    else if TxnElsewhere(db.orders, n.order, n.txn) then Refuse(db, TransactionConflict)
    else if order.user >= |db.wallets| then Refuse(db, WalletMissing)
    else
      var wallet := db.wallets[order.user];
      Commit(db,
             PutOrder(Recorded(db, n, false), n.order, Credited(order, n.txn))
               .(wallets := db.wallets[order.user := wallet.(balance := wallet.balance + order.quote.credit)]),
             Post(db.journal, order.user, KindPaymentCredit, OrderRef(n.order), PaymentKey(n.provider, n.eventId),
                  Entries2(CustomerAvailable, order.quote.credit, PlatformClearing, -order.quote.credit)),
             Duplicate(false))
  }

  function InFlightRefunds(refunds: seq<Refund>, o: nat): nat {
    CountRows(refunds, (r: Refund) => r.order == o && r.InFlight())
  }

  function InFlightRefund(refunds: seq<Refund>, o: nat): Option<nat> {
    Find(refunds, (r: Refund) => r.order == o && r.InFlight())
  }

  /** refunded: complete the one command in flight, or reverse a paid order. */
  function NoticeOfRefund(db: Tables, n: Notice): Reply
    requires n.order < |db.orders| && n.providerRefund.Some?
  {
    var order := db.orders[n.order];
    var refundId := n.providerRefund.value;
    if order.status.Refunded? then
      match Find(db.refunds, (r: Refund) => r.providerRefund == Some(refundId))
      case None => Refuse(db, RefundIdMismatch)
      case Some(f) =>
        if db.refunds[f].order != n.order then Refuse(db, RefundIdMismatch)
        else Reply(Recorded(db, n, true), Ok(Duplicate(true)))
    else if order.status.Refunding? then
      match InFlightRefund(db.refunds, n.order)
      case None => Refuse(db, RefundCommandAnomaly)
      case Some(f) =>
        if InFlightRefunds(db.refunds, n.order) != 1 then Refuse(db, RefundCommandAnomaly)
        else if db.refunds[f].providerRefund !in {None, Some(refundId)} then Refuse(db, RefundIdMismatch)
        else WebhookRefund(db, n, db.refunds[f].clientKey)
    else if order.status.Paid? then
      WebhookRefund(db, n, "webhook:" + n.provider + ":" + n.eventId)
    else Refuse(db, OrderNotRefundable)
  }

  /** The event and the reversal are committed together or not at all. */
  function WebhookRefund(db: Tables, n: Notice, clientKey: string): Reply
    requires n.providerRefund.Some?
  {
    var reply := ApplyRefund(Recorded(db, n, false), n.order, clientKey, n.providerRefund.value);
    if reply.out.Err? then Refuse(db, reply.out.error) else Reply(reply.db, Ok(Duplicate(false)))
  }

  /** `process_test_webhook` after the signature and JSON checks. */
  function TestWebhook(db: Tables, eventId: string, digest: string, o: nat, amount: int): Reply {
    if eventId == "" then Refuse(db, EventIncomplete)
    else
      match EventById(db.events, TEST_PROVIDER, eventId)
      case Some(e) =>
        if db.events[e].digest != digest then Refuse(db, EventBodyConflict) else Reply(db, Ok(Duplicate(true)))
      case None =>
        if o >= |db.orders| || db.orders[o].quote.provider != TEST_PROVIDER then Refuse(db, OrderMissing)
        else
          var order := db.orders[o];
          if amount != order.quote.credit then Refuse(db, AmountMismatch)
          else if !order.status.Pending? then Refuse(db, TestOrderNotCreditable)
          else if NonceUsed(db.events, TEST_PROVIDER, eventId) || TxnElsewhere(db.orders, o, eventId) then
            Refuse(db, OrderStateConflict)
          else
            var event := WebhookEvent(TEST_PROVIDER, eventId, eventId, o, digest, EventTopup, false);
            var wallets := if order.user >= |db.wallets| then db.wallets
                           else
                             var w := db.wallets[order.user];
                             db.wallets[order.user := w.(balance := w.balance + amount)];
            Commit(db,
                   PutOrder(db, o, order.(status := Paid, txn := Some(eventId)))
                     .(events := db.events + [event], wallets := wallets),
                   Post(db.journal, order.user, KindCredit, OrderRef(o), PaymentKey(TEST_PROVIDER, eventId),
                        Entries2(CustomerAvailable, amount, PlatformClearing, -amount)),
                   Duplicate(false))
  }

  // ------------------------------------------------------------------ refunds

  function RefundByKey(refunds: seq<Refund>, o: nat, clientKey: string): Option<nat> {
    Find(refunds, (r: Refund) => r.order == o && r.clientKey == clientKey)
  }

  predicate OrderHasRefund(refunds: seq<Refund>, o: nat) {
    exists i | 0 <= i < |refunds| :: refunds[i].order == o
  }

  predicate RefundIdElsewhere(refunds: seq<Refund>, f: nat, refundId: string) {
    exists i | 0 <= i < |refunds| :: i != f && refunds[i].providerRefund == Some(refundId)
  }

  function PutRefund(db: Tables, f: nat, refund: Refund): Tables
    requires f < |db.refunds|
  {
    db.(refunds := db.refunds[f := refund])
  }

  /** `prepare_refund`: leave to contact the provider, for one caller at a time. */
  function PrepareRefund(db: Tables, o: nat, clientKey: string, now: Time, lease: Time): Reply {
    if clientKey == "" then Refuse(db, ClientKeyEmpty)
    else
      match RefundByKey(db.refunds, o, clientKey)
      case Some(f) =>
        var refund := db.refunds[f];
        if refund.status.RefundDone? || refund.status.Risk? then Reply(db, Ok(RefundClaim(f, false)))
        else if (refund.status.Requesting? || refund.status.Retrying?) && refund.claimedAt > now - lease then
          Refuse(db, RefundInProgress)
        else if refund.status.Resolved? then Refuse(db, RefundNeedsReview)
        else
          var next := if refund.status.Requesting? then Retrying else Requesting;
          Reply(PutRefund(db, f, refund.(status := next, claimedAt := now)), Ok(RefundClaim(f, true)))
      case None =>
        if o >= |db.orders| || !db.orders[o].status.Paid? then Refuse(db, OrderNotRefundable)
        else if db.orders[o].quote.cash.None? || db.orders[o].quote.currency.None? then Refuse(db, QuoteIncomplete)
        else if OrderHasRefund(db.refunds, o) then Refuse(db, RefundConflict)
        else
          var order := db.orders[o];
          var refund := Refund(o, order.user, clientKey, None, order.quote.credit, Requesting, now);
          Reply(PutOrder(db.(refunds := db.refunds + [refund]), o, order.(status := Refunding)),
                Ok(RefundClaim(|db.refunds|, true)))
  }

  /** The provider's answer to a claimed refund was an error or not final. */
  function RefundUncertain(db: Tables, f: nat): Reply {
    if f >= |db.refunds| || !(db.refunds[f].status.Requesting? || db.refunds[f].status.Retrying?) then
      Reply(db, Ok(Nothing))
    else Reply(PutRefund(db, f, db.refunds[f].(status := RefundReconciliation)), Ok(Nothing))
  }

  /** `apply_refund`: reverse the credit, or what is left of it. The claim time of
      a row created here is never read, because the row is completed at once. */
  function ApplyRefund(db: Tables, o: nat, clientKey: string, refundId: string): Reply {
    if o >= |db.orders| then Refuse(db, OrderNotRefundable)
    else
      var order := db.orders[o];
      var existing := RefundByKey(db.refunds, o, clientKey);
      if existing.Some? && (db.refunds[existing.value].status.RefundDone? || db.refunds[existing.value].status.Risk?) then
        if db.refunds[existing.value].providerRefund != Some(refundId) then Refuse(db, RefundIdMismatch)
        else Reply(db, Ok(Row(existing.value)))
      else if order.status.Refunded? then Refuse(db, OrderAlreadyRefunded)
      else if !order.Credited() then Refuse(db, OrderNotRefundable)
      else if order.quote.cash.None? || order.quote.currency.None? then Refuse(db, QuoteIncomplete)
      else if existing.None? && OrderHasRefund(db.refunds, o) then Refuse(db, RefundConflict)
      else if existing.Some? && !db.refunds[existing.value].InFlight() then Refuse(db, RefundNotCompletable)
      else if existing.Some? && db.refunds[existing.value].providerRefund !in {None, Some(refundId)} then
        Refuse(db, RefundIdMismatch)
      else if RefundIdElsewhere(db.refunds, if existing.Some? then existing.value else |db.refunds|, refundId) then
        Refuse(db, RefundConflict)
      else if order.user >= |db.wallets| then Refuse(db, WalletMissing)
      else
        var f := if existing.Some? then existing.value else |db.refunds|;
        var refund := if existing.Some? then db.refunds[f]
                      else Refund(o, order.user, clientKey, None, order.quote.credit, Requesting, 0);
        Reverse(db, o, f, refund.(providerRefund := Some(refundId)))
  }

  function StoreRefund(refunds: seq<Refund>, f: nat, refund: Refund): seq<Refund>
    requires f <= |refunds|
  {
    if f < |refunds| then refunds[f := refund] else refunds + [refund]
  }

  /** The money of a refund: all of the credit, or the whole balance with the
      account frozen and the rest booked as platform risk. */
  function Reverse(db: Tables, o: nat, f: nat, refund: Refund): Reply
    requires o < |db.orders| && f <= |db.refunds| && db.orders[o].user < |db.wallets|
  {
    var order := db.orders[o];
    var user, credit := order.user, order.quote.credit;
    var wallet := db.wallets[user];
    var closed := order.(status := Refunded, reconcileClaim := None);
    if wallet.balance >= credit then
      Commit(db,
             PutOrder(db, o, closed)
               .(refunds := StoreRefund(db.refunds, f, refund.(status := RefundDone)),
                 wallets := db.wallets[user := wallet.(balance := wallet.balance - credit)]),
             Post(db.journal, user, KindPaymentRefund, OrderRef(o), RefundKey(f),
                  Entries2(CustomerAvailable, -credit, PlatformClearing, credit)),
             Row(f))
    else
      var recovered := Max(0, Min(wallet.balance, credit));
      Commit(db,
             PutOrder(FreezeUser(db, user), o, closed)
               .(refunds := StoreRefund(db.refunds, f, refund.(status := Risk)),
                 wallets := db.wallets[user := wallet.(balance := wallet.balance - recovered)]),
             Post(db.journal, user, KindPaymentRefundRisk, OrderRef(o), RefundRiskKey(f),
                  Entries3(CustomerAvailable, -recovered, PlatformRisk, recovered - credit, PlatformClearing, credit)),
             Row(f))
  }

  // -------------------------------------------------------------- refund risk

  datatype RiskAction = RecoverAvailable | WriteOff | OtherAction {
    function KindOf(): Kind { if RecoverAvailable? then KindRiskRecover else KindRiskWriteOff }
  }

  const RISK_KINDS: set<Kind> := {KindPaymentRefundRisk, KindRiskRecover, KindRiskWriteOff}

  function RiskDebt(journal: Journal, o: nat): Money { -Sum(OfOrderKinds(o, PlatformRisk, RISK_KINDS), journal) }

  function TransactionByKey(journal: Journal, key: JournalKey): Option<nat> {
    Find(journal, (t: Transaction) => t.key == key)
  }

  /** `resolve_refund_risk` with the commit its route makes. */
  function ResolveRisk(db: Tables, f: nat, action: RiskAction, clientKey: string): Reply {
    if action.OtherAction? then Refuse(db, ActionInvalid)
    else if f >= |db.refunds| then Refuse(db, RefundMissing)
    else
      match TransactionByKey(db.journal, DispositionKey(f, clientKey))
      case Some(t) =>
        var tx := db.journal[t];
        if tx.kind != action.KindOf() then Refuse(db, DispositionKeyReused)
        else
          var recovered := -AccountTotal(tx.entries, CustomerAvailable);
          var writtenOff := -AccountTotal(tx.entries, PlatformLoss);
          Reply(db, Ok(Disposition(f, true, recovered + writtenOff, recovered, writtenOff)))
      case None => DisposeRisk(db, f, action, clientKey)
  }

  function DisposeRisk(db: Tables, f: nat, action: RiskAction, clientKey: string): Reply
    requires f < |db.refunds|
  {
    var refund := db.refunds[f];
    if !refund.status.Risk? then Refuse(db, RefundNotAtRisk)
    else if refund.order >= |db.orders| || !db.orders[refund.order].status.Refunded? then Refuse(db, RefundOrderAnomaly)
    else
      var debt := RiskDebt(db.journal, refund.order);
      if debt <= 0 then Refuse(db, RiskAlreadySettled)
      else if refund.user >= |db.wallets| then Refuse(db, WalletMissing)
      else
        var wallet := db.wallets[refund.user];
        if wallet.reserved != 0 then Refuse(db, HoldsOutstanding)
        else if action.RecoverAvailable? && wallet.balance < debt then Refuse(db, BalanceBelowDebt)
        else
          var recovered := if action.RecoverAvailable? then debt else Min(wallet.balance, debt);
          var writtenOff := debt - recovered;
          Commit(db,
                 PutRefund(db, f, refund.(status := Resolved))
                   .(wallets := db.wallets[refund.user := wallet.(balance := wallet.balance - recovered)]),
                 Post(db.journal, refund.user, action.KindOf(), OrderRef(refund.order), DispositionKey(f, clientKey),
                      Entries3(PlatformRisk, debt, CustomerAvailable, -recovered, PlatformLoss, recovered - debt)),
                 Disposition(f, false, debt, recovered, writtenOff))
  }
}
