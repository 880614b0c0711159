/** The payment services as they run: `PaymentDomainService` over one session, and
    the test provider's order and event handlers
    (app/services/payment_domain.py, app/services/payments.py). */
module PaymentServices {
  import opened Schema
  import opened JournalBooks
  import opened Identity
  import opened Payments
  import opened Store
  import opened IdentityServices

  class PaymentDomainService {
    const session: Session

    constructor (session: Session)
      ensures this.session == session
    {
      this.session := session;
    }

    // ------------------------------------------------------------------- orders

    /** `create_order`. */
    method PlaceOrder(user: nat, quote: Quote, clientKey: string, maxOpen: Option<int>) returns (out: Outcome)
      requires session.Clean()
      modifies session
      ensures session.Clean()
      ensures Reply(session.committed, out) == CreateOrder(old(session.committed), user, quote, clientKey, maxOpen)
    {
      if !QuoteValid(quote) { return Err(QuoteInvalid); }
      if user >= |session.users| {
        out := session.Reject(UserMissing);
        return;
      }
      if !session.users[user].status.Active? {
        out := session.Reject(AccountUnavailable);
        return;
      }
      var existing := OrderByKey(session.orders, user, clientKey);
      if existing.Some? {
        if session.orders[existing.value].quote != quote { return Err(QuoteMismatch); }
        return Ok(Row(existing.value));
      }
      if maxOpen.Some? {
        if maxOpen.value < 1 { return Err(OpenOrderCapInvalid); }
        if OpenOrders(session.orders, user) >= maxOpen.value {
          out := session.Reject(TooManyOpenOrders);
          return;
        }
      }
      out := Ok(Row(|session.orders|));
      session.orders := session.orders + [NewOrder(user, quote, Some(clientKey))];
      session.Commit();
    }

    /** Write one order row back. */
    method Put(o: nat, order: Order)
      requires o < |session.orders|
      modifies session`orders
      ensures session.orders == old(session.orders)[o := order]
    {
      session.orders := session.orders[o := order];
    }

    /** `prepare_checkout`. */
    method ClaimCheckout(o: nat, now: Time, lease: Time) returns (out: Outcome)
      requires session.Clean()
      modifies session
      ensures session.Clean()
      ensures Reply(session.committed, out) == PrepareCheckout(old(session.committed), o, now, lease)
    {
      if o >= |session.orders| { return Err(OrderMissing); }
      var order := session.orders[o];
      if order.user >= |session.users| || !session.users[order.user].status.Active? {
        out := session.Reject(AccountUnavailable);
        return;
      }
      if Truthy(order.url) && Truthy(order.txn) {
        session.Rollback();
        return Ok(Claim(o, false));
      }
      if order.status.CheckoutRequesting? {
        if order.checkoutClaim.Some? && order.checkoutClaim.value > now - lease {
          out := session.Reject(CheckoutInProgress);
          return;
        }
        Put(o, order.(status := OrderReconciliation));
        session.Commit();
        return Err(CheckoutExpired);
      }
      if !order.status.Pending? || order.txn.Some? || order.url.Some? {
        out := session.Reject(OrderNotClaimable);
        return;
      }
      Put(o, order.(status := CheckoutRequesting, checkoutClaim := Some(now)));
      session.Commit();
      out := Ok(Claim(o, true));
    }

    // ------------------------------------------------------------------- events

    /** `apply_webhook`. */
    method ReceiveWebhook(n: Notice) returns (out: Outcome)
      requires session.Clean()
      modifies session
      ensures session.Clean()
      ensures Reply(session.committed, out) == ApplyWebhook(old(session.committed), n)
    {
      var nonce := n.Nonce();
      if n.eventId == "" || nonce == "" || n.digest == "" || n.txn == "" { return Err(EventIncomplete); }
      var existing := EventById(session.events, n.provider, n.eventId);
      if existing.Some? {
        if session.events[existing.value].digest != n.digest || session.events[existing.value].nonce != nonce {
          return Err(EventBodyConflict);
        }
        session.Rollback();
        return Ok(Duplicate(true));
      }
      var obstacle := CheckNotice(n);
      if obstacle.Some? { return Err(obstacle.value); }
      session.events := session.events + [WebhookEvent(n.provider, n.eventId, nonce, n.order, n.digest, n.eventType, false)];
      if n.status.NoticeRefunded? {
        out := ReceiveRefund(n, old(session.committed));
      } else if n.status.NoticePaid? {
        out := ReceivePayment(n, old(session.committed));
      } else {
        out := ReceiveProgress(n, old(session.committed));
      }
    }

    /** The checks between the look-up of the event and its insertion. */
    method CheckNotice(n: Notice) returns (obstacle: Option<Error>)
      ensures obstacle == NoticeObstacle(session.View(), n)
    {
      if NonceUsed(session.events, n.provider, n.Nonce()) { return Some(NonceReused); }
      if n.order >= |session.orders| || session.orders[n.order].quote.provider != n.provider { return Some(OrderMissing); }
      var order := session.orders[n.order];
      if Some(n.cash) != order.quote.cash || Some(n.currency) != order.quote.currency { return Some(AmountMismatch); }
      if order.txn.Some? && order.txn.value != n.txn { return Some(TransactionMismatch); }
      if StatusOf(n.eventType) != Some(n.status) { return Some(EventTypeMismatch); }
      if n.status.NoticeRefunded? && !Truthy(n.providerRefund) { return Some(RefundIdMissing); }
      if !n.status.NoticeRefunded? && n.providerRefund.Some? { return Some(RefundIdUnexpected); }
      obstacle := None;
    }

    /** The event row of `n` is the session's one pending write over `db`. */
    ghost predicate Pending(db: Tables, n: Notice)
      reads this, session
    {
      session.committed == db && session.View() == Recorded(db, n, false)
    }

    method ReceiveProgress(n: Notice, ghost db: Tables) returns (out: Outcome)
      requires Pending(db, n) && n.order < |db.orders|
      modifies session
      ensures session.Clean()
      ensures Reply(session.committed, out) == NoticeOfProgress(db, n)
    {
      var order := session.orders[n.order];
      if !(order.status.Pending? || order.status.OrderReconciliation? || order.status.CheckoutRequesting?) {
        out := session.Reject(OrderNotUpdatable);
        return;
      }
      order := order.(txn := if Truthy(order.txn) then order.txn else Some(n.txn), reconcileClaim := None);
      if n.status.NoticeFailed? || n.status.NoticeClosed? {
        order := order.(status := if n.status.NoticeFailed? then PaymentFailed else Closed, checkoutClaim := None);
      } else if order.status.CheckoutRequesting? {
        order := order.(status := OrderReconciliation, checkoutClaim := None);
      }
      // the commit fails on the unique transaction id
      if TxnElsewhere(session.orders, n.order, order.txn.value) {
        out := session.Reject(TransactionConflict);
        return;
      }
      Put(n.order, order);
      session.Commit();
      out := Ok(Duplicate(false));
    }

    method ReceivePayment(n: Notice, ghost db: Tables) returns (out: Outcome)
      requires Pending(db, n) && n.order < |db.orders|
      modifies session
      ensures session.Clean()
      ensures Reply(session.committed, out) == NoticeOfPayment(db, n)
    {
      var order := session.orders[n.order];
      if !(order.status.Pending? || order.status.OrderReconciliation? || order.status.CheckoutRequesting?) {
        if order.txn == Some(n.txn) && order.status.Paid? {
          session.Rollback();
          return Ok(Duplicate(true));
        }
        out := session.Reject(OrderStateConflict);
        return;
      }
      if TxnElsewhere(session.orders, n.order, n.txn) {
        out := session.Reject(TransactionConflict);
        return;
      }
      Put(n.order, order.(status := Paid, txn := Some(n.txn), checkoutClaim := None, reconcileClaim := None));
      if order.user >= |session.wallets| {
        out := session.Reject(WalletMissing);
        return;
      }
      var wallet, credit := session.wallets[order.user], order.quote.credit;
      session.wallets := session.wallets[order.user := wallet.(balance := wallet.balance + credit)];
      out := session.PostAndCommit(order.user, KindPaymentCredit, OrderRef(n.order), PaymentKey(n.provider, n.eventId),
                                   [Entry(CustomerAvailable, credit), Entry(PlatformClearing, -credit)], Duplicate(false));
    }

    method ReceiveRefund(n: Notice, ghost db: Tables) returns (out: Outcome)
      requires Pending(db, n) && n.order < |db.orders| && n.providerRefund.Some?
      modifies session
      ensures session.Clean()
      ensures Reply(session.committed, out) == NoticeOfRefund(db, n)
    {
      var order := session.orders[n.order];
      var refundId := n.providerRefund.value;
      if order.status.Refunded? {
        var known := Find(session.refunds, (r: Refund) => r.providerRefund == Some(refundId));
        if known.None? || session.refunds[known.value].order != n.order {
          out := session.Reject(RefundIdMismatch);
          return;
        }
        var e := |session.events| - 1;
        session.events := session.events[e := session.events[e].(duplicate := true)];
        session.Commit();
        return Ok(Duplicate(true));
      }
      var clientKey := "webhook:" + n.provider + ":" + n.eventId;
      if order.status.Refunding? {
        if InFlightRefunds(session.refunds, n.order) != 1 {
          out := session.Reject(RefundCommandAnomaly);
          return;
        }
        OneInFlight(session.refunds, n.order);
        var active := session.refunds[InFlightRefund(session.refunds, n.order).value];
        if active.providerRefund != None && active.providerRefund != Some(refundId) {
          out := session.Reject(RefundIdMismatch);
          return;
        }
        clientKey := active.clientKey;
      } else if !order.status.Paid? {
        out := session.Reject(OrderNotRefundable);
        return;
      }
      out := ReverseCredit(n.order, clientKey, refundId);
      if out.Ok? {
        session.Commit();
        out := Ok(Duplicate(false));
      }
    }

    // ------------------------------------------------------------------ refunds

    /** `prepare_refund`, its read and its guarded write in one transaction. */
    method ClaimRefund(o: nat, clientKey: string, now: Time, lease: Time) returns (out: Outcome)
      requires session.Clean()
      modifies session
      ensures session.Clean()
      ensures Reply(session.committed, out) == PrepareRefund(old(session.committed), o, clientKey, now, lease)
    {
      if clientKey == "" { return Err(ClientKeyEmpty); }
      var existing := RefundByKey(session.refunds, o, clientKey);
      if existing.Some? {
        var f := existing.value;
        var refund := session.refunds[f];
        if refund.status.RefundDone? || refund.status.Risk? {
          session.Rollback();
          return Ok(RefundClaim(f, false));
        }
        var next := Requesting;
        if refund.status.Requesting? || refund.status.Retrying? {
          if refund.claimedAt > now - lease {
            out := session.Reject(RefundInProgress);
            return;
          }
          next := if refund.status.Requesting? then Retrying else Requesting;
        } else if !refund.status.RefundReconciliation? {
          out := session.Reject(RefundNeedsReview);
          return;
        }
        session.refunds := session.refunds[f := refund.(status := next, claimedAt := now)];
        session.Commit();
        return Ok(RefundClaim(f, true));
      }
      if o >= |session.orders| || !session.orders[o].status.Paid? { return Err(OrderNotRefundable); }
      var order := session.orders[o];
      if order.quote.cash.None? || order.quote.currency.None? { return Err(QuoteIncomplete); }
      if OrderHasRefund(session.refunds, o) {
        out := session.Reject(RefundConflict);
        return;
      }
      out := Ok(RefundClaim(|session.refunds|, true));
      session.refunds := session.refunds + [Refund(o, order.user, clientKey, None, order.quote.credit, Requesting, now)];
      Put(o, order.(status := Refunding));
      session.Commit();
    }

    /** `apply_refund`, also when a webhook's event row is still pending. */
    method ReverseCredit(o: nat, clientKey: string, refundId: string) returns (out: Outcome)
      modifies session
      ensures out == ApplyRefund(old(session.View()), o, clientKey, refundId).out
      ensures out.Ok? ==> session.View() == ApplyRefund(old(session.View()), o, clientKey, refundId).db
      ensures out.Ok? ==> session.Clean() || session.committed == old(session.committed)
      ensures out.Err? ==> session.Clean() && session.committed == old(session.committed)
    {
      if o >= |session.orders| {
        out := session.Reject(OrderNotRefundable);
        return;
      }
      var order := session.orders[o];
      var existing := RefundByKey(session.refunds, o, clientKey);
      if existing.Some? && (session.refunds[existing.value].status.RefundDone? || session.refunds[existing.value].status.Risk?) {
        if session.refunds[existing.value].providerRefund != Some(refundId) {
          out := session.Reject(RefundIdMismatch);
          return;
        }
        return Ok(Row(existing.value));
      }
      var obstacle := CheckReversal(o, existing, refundId);
      if obstacle.Some? {
        out := session.Reject(obstacle.value);
        return;
      }
      var f := if existing.Some? then existing.value else |session.refunds|;
      var refund := if existing.Some? then session.refunds[f]
                    else Refund(o, order.user, clientKey, None, order.quote.credit, Requesting, 0);
      out := WriteReversal(o, f, refund.(providerRefund := Some(refundId)));
    }

    /** Why a refund of this order cannot be completed, if it cannot. */
    method CheckReversal(o: nat, existing: Option<nat>, refundId: string) returns (obstacle: Option<Error>)
      requires o < |session.orders| && (existing.Some? ==> existing.value < |session.refunds|)
      ensures var db := session.View(); var order := db.orders[o];
              obstacle ==
                if order.status.Refunded? then Some(OrderAlreadyRefunded)
                else if !order.Credited() then Some(OrderNotRefundable)
                else if order.quote.cash.None? || order.quote.currency.None? then Some(QuoteIncomplete)
                else if existing.None? && OrderHasRefund(db.refunds, o) then Some(RefundConflict)
                else if existing.Some? && !db.refunds[existing.value].InFlight() then Some(RefundNotCompletable)
                else if existing.Some? && db.refunds[existing.value].providerRefund !in {None, Some(refundId)} then
                  Some(RefundIdMismatch)
                else if RefundIdElsewhere(db.refunds, if existing.Some? then existing.value else |db.refunds|, refundId) then
                  Some(RefundConflict)
                else if order.user >= |db.wallets| then Some(WalletMissing)
                else None
    {
      var order := session.orders[o];
      if !order.status.Paid? && !order.status.Refunding? && !order.status.Refunded? { return Some(OrderNotRefundable); }
      if order.status.Refunded? { return Some(OrderAlreadyRefunded); }
      if order.quote.cash.None? || order.quote.currency.None? { return Some(QuoteIncomplete); }
      var f := |session.refunds|;
      if existing.None? {
        if OrderHasRefund(session.refunds, o) { return Some(RefundConflict); }
      } else {
        f := existing.value;
        var refund := session.refunds[f];
        if !refund.InFlight() { return Some(RefundNotCompletable); }
        if refund.providerRefund != None && refund.providerRefund != Some(refundId) { return Some(RefundIdMismatch); }
      }
      // the flush, or the commit at the latest, fails on the unique refund id
      if RefundIdElsewhere(session.refunds, f, refundId) { return Some(RefundConflict); }
      if order.user >= |session.wallets| { return Some(WalletMissing); }
      obstacle := None;
    }

    /** The money of a refund, the freeze if it falls short, both rows, commit. */
    method WriteReversal(o: nat, f: nat, refund: Refund) returns (out: Outcome)
      requires o < |session.orders| && f <= |session.refunds| && session.orders[o].user < |session.wallets|
      modifies session
      ensures session.Clean()
      ensures out == Reverse(old(session.View()), o, f, refund).out
      ensures session.committed == if out.Ok? then Reverse(old(session.View()), o, f, refund).db else old(session.committed)
    {
      var order := session.orders[o];
      if session.wallets[order.user].balance >= order.quote.credit {
        out := TakeCredit(o, f, refund);
      } else {
        out := TakeBalance(o, f, refund);
      }
    }

    /** The whole credit goes back. */
    method TakeCredit(o: nat, f: nat, refund: Refund) returns (out: Outcome)
      requires o < |session.orders| && f <= |session.refunds| && session.orders[o].user < |session.wallets|
      requires session.wallets[session.orders[o].user].balance >= session.orders[o].quote.credit
      modifies session
      ensures session.Clean()
      ensures out == Reverse(old(session.View()), o, f, refund).out
      ensures session.committed == if out.Ok? then Reverse(old(session.View()), o, f, refund).db else old(session.committed)
    {
      var user, credit := session.orders[o].user, session.orders[o].quote.credit;
      var wallet := session.wallets[user];
      session.wallets := session.wallets[user := wallet.(balance := wallet.balance - credit)];
      CloseRefund(o, f, refund.(status := RefundDone));
      out := session.PostAndCommit(user, KindPaymentRefund, OrderRef(o), RefundKey(f),
                                   [Entry(CustomerAvailable, -credit), Entry(PlatformClearing, credit)], Row(f));
    }

    /** What is left goes back, the rest is booked as risk and the account is frozen. */
    method TakeBalance(o: nat, f: nat, refund: Refund) returns (out: Outcome)
      requires o < |session.orders| && f <= |session.refunds| && session.orders[o].user < |session.wallets|
      requires session.wallets[session.orders[o].user].balance < session.orders[o].quote.credit
      modifies session
      ensures session.Clean()
      ensures out == Reverse(old(session.View()), o, f, refund).out
      ensures session.committed == if out.Ok? then Reverse(old(session.View()), o, f, refund).db else old(session.committed)
    {
      var user, credit := session.orders[o].user, session.orders[o].quote.credit;
      var wallet := session.wallets[user];
      var recovered := Max(0, Min(wallet.balance, credit));
      var shortfall := credit - recovered;
      TakeAndFreeze(user, recovered);
      CloseRefund(o, f, refund.(status := Risk));
      out := session.PostAndCommit(user, KindPaymentRefundRisk, OrderRef(o), RefundRiskKey(f),
                                   [Entry(CustomerAvailable, -recovered), Entry(PlatformRisk, -shortfall),
                                    Entry(PlatformClearing, credit)], Row(f));
    }

    method TakeAndFreeze(user: nat, recovered: Money)
      requires user < |session.wallets|
      modifies session`wallets, session`users, session`keys, session`sessions, session`verifications, session`resets
      ensures session.View() == FreezeUser(old(session.View()), user)
                .(wallets := old(session.wallets)[user := old(session.wallets[user])
                    .(balance := old(session.wallets[user]).balance - recovered)])
    {
      var wallet := session.wallets[user];
      session.wallets := session.wallets[user := wallet.(balance := wallet.balance - recovered)];
      var _ := ApplyUserFreeze(session, user);
    }

    /** The order and refund rows of a completed refund. */
    method CloseRefund(o: nat, f: nat, done: Refund)
      requires o < |session.orders| && f <= |session.refunds|
      modifies session`orders, session`refunds
      ensures session.orders == old(session.orders)[o := old(session.orders[o]).(status := Refunded, reconcileClaim := None)]
      ensures session.refunds == StoreRefund(old(session.refunds), f, done)
    {
      Put(o, session.orders[o].(status := Refunded, reconcileClaim := None));
      session.refunds := if f < |session.refunds| then session.refunds[f := done] else session.refunds + [done];
    }

    /** `resolve_refund_risk` and the commit of the route that calls it. */
    method DisposeRefundRisk(f: nat, action: RiskAction, clientKey: string) returns (out: Outcome)
      requires session.Clean()
      modifies session
      ensures session.Clean()
      ensures Reply(session.committed, out) == ResolveRisk(old(session.committed), f, action, clientKey)
    {
      if action.OtherAction? { return Err(ActionInvalid); }
      if f >= |session.refunds| { return Err(RefundMissing); }
      var existing := TransactionByKey(session.journal, DispositionKey(f, clientKey));
      if existing.Some? {
        var tx := session.journal[existing.value];
        if tx.kind != action.KindOf() { return Err(DispositionKeyReused); }
        var recovered := SumOfAccount(tx.entries, CustomerAvailable);
        var writtenOff := SumOfAccount(tx.entries, PlatformLoss);
        return Ok(Disposition(f, true, -recovered - writtenOff, -recovered, -writtenOff));
      }
      out := DisposeFirst(f, action, clientKey);
    }

    /** A disposition under a key that was not used before. */
    method DisposeFirst(f: nat, action: RiskAction, clientKey: string) returns (out: Outcome)
      requires session.Clean() && f < |session.refunds| && !action.OtherAction?
      modifies session
      ensures session.Clean()
      ensures Reply(session.committed, out) == DisposeRisk(old(session.committed), f, action, clientKey)
    {
      var refund := session.refunds[f];
      if !refund.status.Risk? { return Err(RefundNotAtRisk); }
      if refund.order >= |session.orders| || !session.orders[refund.order].status.Refunded? { return Err(RefundOrderAnomaly); }
      var outstanding := RiskDebt(session.journal, refund.order);
      if outstanding <= 0 { return Err(RiskAlreadySettled); }
      if refund.user >= |session.wallets| { return Err(WalletMissing); }
      var wallet := session.wallets[refund.user];
      if wallet.reserved != 0 { return Err(HoldsOutstanding); }
      if action.RecoverAvailable? && wallet.balance < outstanding { return Err(BalanceBelowDebt); }
      var recovered := if action.RecoverAvailable? then outstanding else Min(wallet.balance, outstanding);
      out := WriteDisposition(f, action, clientKey, outstanding, recovered);
    }

    /** The wallet, the journal and the refund row of a disposition. */
    method WriteDisposition(f: nat, action: RiskAction, clientKey: string, outstanding: Money, recovered: Money)
      returns (out: Outcome)
      requires session.Clean() && f < |session.refunds| && session.refunds[f].user < |session.wallets|
      modifies session
      ensures session.Clean()
      ensures Reply(session.committed, out)
              == var db := old(session.committed); var refund := db.refunds[f]; var wallet := db.wallets[refund.user];
                 Commit(db,
                        PutRefund(db, f, refund.(status := Resolved))
                          .(wallets := db.wallets[refund.user := wallet.(balance := wallet.balance - recovered)]),
                        Post(db.journal, refund.user, action.KindOf(), OrderRef(refund.order), DispositionKey(f, clientKey),
                             Entries3(PlatformRisk, outstanding, CustomerAvailable, -recovered,
                                      PlatformLoss, recovered - outstanding)),
                        Disposition(f, false, outstanding, recovered, outstanding - recovered))
    {
      var refund := session.refunds[f];
      var wallet := session.wallets[refund.user];
      var writtenOff := outstanding - recovered;
      session.wallets := session.wallets[refund.user := wallet.(balance := wallet.balance - recovered)];
      var entries := ListDisposition(outstanding, recovered);
      session.refunds := session.refunds[f := refund.(status := Resolved)];
      out := session.PostAndCommit(refund.user, action.KindOf(), OrderRef(refund.order), DispositionKey(f, clientKey), entries,
                                   Disposition(f, false, outstanding, recovered, writtenOff));
    }
  }

  /** The entry list of a disposition, grown conditionally. */
  method ListDisposition(outstanding: Money, recovered: Money) returns (entries: seq<Entry>)
    ensures Normalize(entries)
            == Normalize(Entries3(PlatformRisk, outstanding, CustomerAvailable, -recovered, PlatformLoss, recovered - outstanding))
  {
    var writtenOff := outstanding - recovered;
    ghost var a, b := [Entry(PlatformRisk, outstanding)], Entry(CustomerAvailable, -recovered);
    entries := [Entry(PlatformRisk, outstanding)];
    entries := AppendIf(recovered != 0, entries, CustomerAvailable, -recovered, a);
    entries := AppendIf(writtenOff != 0, entries, PlatformLoss, -writtenOff, a + [b]);
    assert Entries3(PlatformRisk, outstanding, CustomerAvailable, -recovered, PlatformLoss, recovered - outstanding)
           == a + [b] + [Entry(PlatformLoss, -writtenOff)];
  }

  /** A list summed up for one account. */
  method SumOfAccount(entries: seq<Entry>, account: Account) returns (total: Money)
    ensures total == AccountTotal(entries, account)
  {
    total := 0;
    for i := 0 to |entries|
      invariant total == AccountTotal(entries[..i], account)
    {
      assert entries[..i + 1] == entries[..i] + [entries[i]];
      TotalsConcat(entries[..i], [entries[i]], account);
      if entries[i].account == account { total := total + entries[i].amount; }
    }
    assert entries[..|entries|] == entries;
  }

  /** One command in flight is a command in flight. */
  lemma {:induction false} OneInFlight(refunds: seq<Refund>, o: nat)
    ensures InFlightRefunds(refunds, o) >= 1 ==> InFlightRefund(refunds, o).Some?
    ensures InFlightRefund(refunds, o).None? ==> InFlightRefunds(refunds, o) == 0
  {
    NoneCounted(refunds, (r: Refund) => r.order == o && r.InFlight());
  }

  lemma {:induction false} NoneCounted<T>(rows: seq<T>, p: T -> bool)
    ensures Find(rows, p).None? ==> CountRows(rows, p) == 0
  {
    if |rows| > 0 { NoneCounted(rows[..|rows| - 1], p); }
  }

  // -------------------------------------------------------------- test payments

  /** `create_test_order`. */
  method PlaceTestOrder(session: Session, user: nat, amount: Money) returns (out: Outcome)
    requires session.Clean()
    modifies session
    ensures session.Clean()
    ensures Reply(session.committed, out) == CreateTestOrder(old(session.committed), user, amount)
  {
    if amount < 100 || amount > 100_000_000 { return Err(TestAmountOutOfRange); }
    if user >= |session.users| { return Err(UserMissing); }
    out := Ok(Row(|session.orders|));
    session.orders := session.orders + [NewOrder(user, Quote(TEST_PROVIDER, None, None, amount, None, 1, 1), None)];
    session.Commit();
  }

  /** `process_test_webhook` after the signature and JSON checks. */
  method ProcessTestWebhook(session: Session, eventId: string, digest: string, o: nat, amount: int) returns (out: Outcome)
    requires session.Clean()
    modifies session
    ensures session.Clean()
    ensures Reply(session.committed, out) == TestWebhook(old(session.committed), eventId, digest, o, amount)
  {
    if eventId == "" { return Err(EventIncomplete); }
    var existing := EventById(session.events, TEST_PROVIDER, eventId);
    if existing.Some? {
      if session.events[existing.value].digest != digest { return Err(EventBodyConflict); }
      return Ok(Duplicate(true));
    }
    if o >= |session.orders| || session.orders[o].quote.provider != TEST_PROVIDER { return Err(OrderMissing); }
    var order := session.orders[o];
    if amount != order.quote.credit { return Err(AmountMismatch); }
    if !order.status.Pending? {
      out := session.Reject(TestOrderNotCreditable);
      return;
    }
    // the flush fails on the unique nonce or the unique transaction id
    if NonceUsed(session.events, TEST_PROVIDER, eventId) || TxnElsewhere(session.orders, o, eventId) {
      out := session.Reject(OrderStateConflict);
      return;
    }
    out := CreditTestOrder(session, eventId, digest, o, amount);
  }

  method CreditTestOrder(session: Session, eventId: string, digest: string, o: nat, amount: int) returns (out: Outcome)
    requires session.Clean() && o < |session.orders|
    modifies session
    ensures session.Clean()
    ensures Reply(session.committed, out)
            == var db := old(session.committed); var order := db.orders[o];
               var event := WebhookEvent(TEST_PROVIDER, eventId, eventId, o, digest, EventTopup, false);
               var wallets := if order.user >= |db.wallets| then db.wallets
                              else
                                var w := db.wallets[order.user];
                                db.wallets[order.user := w.(balance := w.balance + amount)];
               Commit(db,
                      PutOrder(db, o, order.(status := Paid, txn := Some(eventId)))
                        .(events := db.events + [event], wallets := wallets),
                      Post(db.journal, order.user, KindCredit, OrderRef(o), PaymentKey(TEST_PROVIDER, eventId),
                           Entries2(CustomerAvailable, amount, PlatformClearing, -amount)),
                      Duplicate(false))
  {
    var order := session.orders[o];
    session.events := session.events + [WebhookEvent(TEST_PROVIDER, eventId, eventId, o, digest, EventTopup, false)];
    session.orders := session.orders[o := order.(status := Paid, txn := Some(eventId))];
    if order.user < |session.wallets| {
      var w := session.wallets[order.user];
      session.wallets := session.wallets[order.user := w.(balance := w.balance + amount)];
    }
    out := session.PostAndCommit(order.user, KindCredit, OrderRef(o), PaymentKey(TEST_PROVIDER, eventId),
                                 [Entry(CustomerAvailable, amount), Entry(PlatformClearing, -amount)], Duplicate(false));
  }
}
