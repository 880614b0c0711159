/** The rejections that report a broken database are unreachable. */
module Anomalies {
  import opened Schema
  import opened Pricing
  import opened JournalBooks
  import opened Billing
  import opened Payments
  import opened Machine
  import opened Moves
  import opened Books
  import opened Orders
  import opened Reachability

  /** Rejections that no correct history should ever produce. */
  predicate Anomalous(error: Error) {
    || error.JournalUnbalanced?       // post_transaction: entries do not balance
    || error.JournalConflict?         // a journal key used twice
    || error.WalletHoldAnomaly?       // the wallet lost a hold
    || error.BudgetHoldAnomaly?       // the budget lost a hold
    || error.RefundCommandAnomaly?    // a refunding order without exactly one command
    || error.RefundOrderAnomaly?      // a refund at risk whose order is not refunded
    || error.RiskAlreadySettled?      // a refund at risk without a debt
    || error.RefundNotCompletable?    // a command of a credited order that is not in flight
  }

  predicate Clean(out: Outcome) { out.Err? ==> !Anomalous(out.error) }

  lemma UnusedKey(db: Tables, key: JournalKey)
    requires KeysOk(db) && !KeyOk(db, key)
    ensures !KeyUsed(db.journal, key)
  {
    forall i | 0 <= i < |db.journal| ensures db.journal[i].key != key {
      assert KeyOk(db, db.journal[i].key);
    }
  }

  // ------------------------------------------------------------------ metering

  lemma ReserveClean(db: Tables, user: nat, key: nat, d: Demand, clientKey: Option<string>, clock: Clock)
    requires KeysOk(db)
    ensures Clean(Reserve(db, user, key, d, clientKey, clock).out)
  {
    UnusedKey(db, ReserveKey(|db.requests|));
    if ReserveObstacle(db, user, key, d, clientKey, clock).None? {
      var hold: Money := HoldFor(d.price.value, d.value, d.text, d.maxOutput);
      TransferMoves(CustomerAvailable, CustomerReserved, -hold, hold);
    }
  }

  lemma FinishClean(db: Tables, id: nat)
    requires Sound(db) && KeysOk(db) && id < |db.requests| && db.requests[id].Live()
    ensures HoldAnomaly(db, db.requests[id]).None? && db.requests[id].hold >= 1
    ensures !KeyUsed(db.journal, SettleKey(id)) && !KeyUsed(db.journal, ReleaseKey(id))
  {
    LiveHoldIsCovered(db, id);
    assert RequestLinked(db.requests[id], db);
    UnusedKey(db, SettleKey(id));
    UnusedKey(db, ReleaseKey(id));
  }

  lemma SettleClean(db: Tables, id: nat, usage: Usage, forced: bool, up: Upstream, caller: Caller)
    requires Sound(db) && KeysOk(db)
    ensures Clean(Settle(db, id, usage, forced, up, caller).out)
  {
    if id < |db.requests| && db.requests[id].status == caller.Allowed() {
      FinishClean(db, id);
      var r := db.requests[id];
      SettlementMoves(r.hold, CustomerCost(r, usage), UpstreamCost(r, usage, up));
    }
  }

  lemma ReleaseClean(db: Tables, id: nat, caller: Caller)
    requires Sound(db) && KeysOk(db)
    ensures Clean(Release(db, id, caller).out)
  {
    if id < |db.requests| && db.requests[id].status == caller.Allowed() {
      FinishClean(db, id);
      var r := db.requests[id];
      TransferMoves(CustomerReserved, CustomerAvailable, -r.hold, r.hold);
    }
  }

  // ------------------------------------------------------------------ payments

  lemma {:induction false} CountNone<T>(rows: seq<T>, p: T -> bool)
    requires forall i | 0 <= i < |rows| :: !p(rows[i])
    ensures CountRows(rows, p) == 0
  {
    if |rows| > 0 { CountNone(rows[..|rows| - 1], p); }
  }

  lemma {:induction false} CountOne<T>(rows: seq<T>, p: T -> bool, k: nat)
    requires k < |rows| && p(rows[k]) && forall i | 0 <= i < |rows| && i != k :: !p(rows[i])
    ensures CountRows(rows, p) == 1
  {
    var init := rows[..|rows| - 1];
    if k == |rows| - 1 { CountNone(init, p); } else { CountOne(init, p, k); }
  }

  /** While an order is refunding, exactly one command for it is in flight. */
  lemma RefundingHasOneCommand(db: Tables, o: nat)
    requires Lockstep(db.orders, db.refunds) && o < |db.orders| && db.orders[o].status.Refunding?
    ensures InFlightRefund(db.refunds, o).Some? && InFlightRefunds(db.refunds, o) == 1
  {
    var f :| 0 <= f < |db.refunds| && db.refunds[f].order == o;
    CountOne(db.refunds, (r: Refund) => r.order == o && r.InFlight(), f);
  }

  lemma ReverseClean(db: Tables, db1: Tables, o: nat, f: nat, refund: Refund)
    requires Linked(db) && db1 == db.(events := db1.events) && o < |db.orders| && f <= |db.refunds|
    requires !KeyUsed(db.journal, RefundKey(f)) && !KeyUsed(db.journal, RefundRiskKey(f))
    requires db.orders[o].user < |db.wallets|
    ensures Reverse(db1, o, f, refund).out.Ok?
  {
    ReversalPosts(db, o);
  }

  lemma ApplyRefundClean(db: Tables, noted: seq<WebhookEvent>, o: nat, clientKey: string, refundId: string)
    requires Linked(db) && KeysOk(db) && Lockstep(db.orders, db.refunds)
    ensures Clean(ApplyRefund(db.(events := db.events + noted), o, clientKey, refundId).out)
  {
    if o < |db.orders| && db.orders[o].Credited() {
      var existing := RefundByKey(db.refunds, o, clientKey);
      var f := if existing.Some? then existing.value else |db.refunds|;
      UnusedReversalKeys(db, o, f);
      assert OrderLinked(db.orders[o], db);
      var refund := if existing.Some? then db.refunds[f]
                    else Refund(o, db.orders[o].user, clientKey, None, db.orders[o].quote.credit, Requesting, 0);
      ReverseClean(db, db.(events := db.events + noted), o, f, refund.(providerRefund := Some(refundId)));
      ReversedIsClean(db.(events := db.events + noted), o, clientKey, refundId, f, refund);
    }
  }

  /** With its command in flight, a refund reports no more than its reversal does. */
  lemma ReversedIsClean(db: Tables, o: nat, clientKey: string, refundId: string, f: nat, refund: Refund)
    requires o < |db.orders| && db.orders[o].user < |db.wallets|
    requires var existing := RefundByKey(db.refunds, o, clientKey);
             if existing.Some? then f == existing.value && refund == db.refunds[f] && refund.InFlight()
             else f == |db.refunds|
                  && refund == Refund(o, db.orders[o].user, clientKey, None, db.orders[o].quote.credit, Requesting, 0)
    requires Reverse(db, o, f, refund.(providerRefund := Some(refundId))).out.Ok?
    ensures Clean(ApplyRefund(db, o, clientKey, refundId).out)
  {
  }

  lemma UnusedReversalKeys(db: Tables, o: nat, f: nat)
    requires KeysOk(db) && Lockstep(db.orders, db.refunds) && o < |db.orders| && db.orders[o].Credited()
    requires f < |db.refunds| ==> db.refunds[f].order == o
    requires f <= |db.refunds|
    ensures f < |db.refunds| ==> db.refunds[f].InFlight()
    ensures !KeyUsed(db.journal, RefundKey(f)) && !KeyUsed(db.journal, RefundRiskKey(f))
  {
    UnusedKey(db, RefundKey(f));
    UnusedKey(db, RefundRiskKey(f));
  }

  lemma ReversalPosts(db: Tables, o: nat)
    requires Linked(db) && o < |db.orders|
    ensures var credit := db.orders[o].quote.credit; var balance := db.wallets[db.orders[o].user].balance;
            var recovered := Max(0, Min(balance, credit));
            && Postable(Entries2(CustomerAvailable, -credit, PlatformClearing, credit))
            && (balance < credit ==> Postable(Entries3(CustomerAvailable, -recovered, PlatformRisk, recovered - credit,
                                                       PlatformClearing, credit)))
  {
    assert OrderLinked(db.orders[o], db);
    var credit, balance := db.orders[o].quote.credit, db.wallets[db.orders[o].user].balance;
    var recovered := Max(0, Min(balance, credit));
    TransferMoves(CustomerAvailable, PlatformClearing, -credit, credit);
    if balance < credit {
      SplitMoves(CustomerAvailable, PlatformRisk, PlatformClearing, -recovered, recovered - credit, credit);
    }
  }

  lemma CreditPosts(db: Tables, o: nat)
    requires Linked(db) && o < |db.orders|
    ensures var credit := db.orders[o].quote.credit; Postable(Entries2(CustomerAvailable, credit, PlatformClearing, -credit))
  {
    assert OrderLinked(db.orders[o], db);
    TransferMoves(CustomerAvailable, PlatformClearing, db.orders[o].quote.credit, -db.orders[o].quote.credit);
  }

  lemma RefundNoticeClean(db: Tables, n: Notice)
    requires Linked(db) && KeysOk(db) && Lockstep(db.orders, db.refunds) && n.order < |db.orders| && n.providerRefund.Some?
    ensures Clean(NoticeOfRefund(db, n).out)
  {
    var event := WebhookEvent(n.provider, n.eventId, n.Nonce(), n.order, n.digest, n.eventType, false);
    if db.orders[n.order].status.Refunding? {
      RefundingHasOneCommand(db, n.order);
      var f := InFlightRefund(db.refunds, n.order).value;
      ApplyRefundClean(db, [event], n.order, db.refunds[f].clientKey, n.providerRefund.value);
    } else {
      ApplyRefundClean(db, [event], n.order, "webhook:" + n.provider + ":" + n.eventId, n.providerRefund.value);
    }
  }

  lemma WebhookClean(db: Tables, n: Notice)
    requires Linked(db) && KeysOk(db) && Lockstep(db.orders, db.refunds)
    ensures Clean(ApplyWebhook(db, n).out)
  {
    if EventById(db.events, n.provider, n.eventId).None? && NoticeObstacle(db, n).None? {
      if n.status.NoticeRefunded? {
        RefundNoticeClean(db, n);
      } else if n.status.NoticePaid? {
        CreditPosts(db, n.order);
        UnusedKey(db, PaymentKey(n.provider, n.eventId));
      }
    }
  }

  lemma TestWebhookClean(db: Tables, eventId: string, digest: string, o: nat, amount: int)
    requires Linked(db) && KeysOk(db)
    ensures Clean(TestWebhook(db, eventId, digest, o, amount).out)
  {
    if EventById(db.events, TEST_PROVIDER, eventId).None? && o < |db.orders| {
      CreditPosts(db, o);
      UnusedKey(db, PaymentKey(TEST_PROVIDER, eventId));
    }
  }

  /** At the disposition of a refund at risk, the order is refunded and the debt
      the ledger yields is positive. */
  lemma ResolveRiskClean(db: Tables, f: nat, action: RiskAction, clientKey: string)
    requires Linked(db) && OrdersBooked(db.orders, db.refunds, db.journal) && Lockstep(db.orders, db.refunds)
    ensures Clean(ResolveRisk(db, f, action, clientKey).out)
  {
    if f < |db.refunds| && TransactionByKey(db.journal, DispositionKey(f, clientKey)).None? {
      DisposeRiskClean(db, f, action, clientKey);
    }
  }

  lemma DisposeRiskClean(db: Tables, f: nat, action: RiskAction, clientKey: string)
    requires OrdersBooked(db.orders, db.refunds, db.journal) && Lockstep(db.orders, db.refunds)
    requires f < |db.refunds| && TransactionByKey(db.journal, DispositionKey(f, clientKey)).None?
    ensures Clean(DisposeRisk(db, f, action, clientKey).out)
  {
    var key := DispositionKey(f, clientKey);
    if db.refunds[f].status.Risk? && db.refunds[f].user < |db.wallets| {
      var refund := db.refunds[f];
      assert RefundBook(refund, PositionOf(db.journal, refund.order));
      var debt, wallet := RiskDebt(db.journal, refund.order), db.wallets[refund.user];
      var recovered := if action.RecoverAvailable? then debt else Min(wallet.balance, debt);
      assert !KeyUsed(db.journal, key);
      SplitMoves(PlatformRisk, CustomerAvailable, PlatformLoss, debt, -recovered, recovered - debt);
    }
  }

  /** A budget is asked for on behalf of nobody. */
  predicate UnknownOwner(db: Tables, c: Command) {
    c.OnMeter? && c.meter.DoCreateBudget? && c.meter.budgetUser >= |db.users|
  }

  /** In no reachable state does any command of anyone report an anomaly, or miss the
      wallet of an account that exists. */
  lemma NoAnomaly(db: Tables, c: Command)
    requires Reachable(db)
    ensures Clean(Step(db, c).out)
    ensures Step(db, c).out == Err(WalletMissing) ==> UnknownOwner(db, c)
  {
    ReachableInvariant(db);
    match c
    case OnAccount(a) => AccountClean(db, a);
    case OnMeter(a) =>
      MeterClean(db, a);
      MeterFindsWallet(db, a);
    case OnPayment(a) =>
      PaymentClean(db, a);
      PaymentFindsWallet(db, a);
  }

  lemma MeterFindsWallet(db: Tables, c: MeterCommand)
    requires Linked(db)
    ensures MeterStep(db, c).out == Err(WalletMissing) ==> UnknownOwner(db, OnMeter(c))
  {
  }

  lemma PaymentFindsWallet(db: Tables, c: PaymentCommand)
    requires Linked(db)
    ensures PaymentStep(db, c).out != Err(WalletMissing)
  {
    match c
    case DoWebhook(n) =>
      if n.order < |db.orders| { assert OrderLinked(db.orders[n.order], db); }
      WebhookFindsWallet(db, n);
    case DoApplyRefund(o, k, r) =>
      if o < |db.orders| { assert OrderLinked(db.orders[o], db); }
      RefundFindsWallet(db, o, k, r);
    case DoResolveRisk(f, a, k) =>
      if f < |db.refunds| { assert RefundLinked(db.refunds[f], db); }
      DispositionFindsWallet(db, f, a, k);
    case _ => PlainPaymentFindsWallet(db, c);
  }

  lemma RefundFindsWallet(db: Tables, o: nat, clientKey: string, refundId: string)
    requires o < |db.orders| ==> db.orders[o].user < |db.wallets|
    ensures ApplyRefund(db, o, clientKey, refundId).out != Err(WalletMissing)
  {
  }

  lemma DispositionFindsWallet(db: Tables, f: nat, action: RiskAction, clientKey: string)
    requires f < |db.refunds| ==> db.refunds[f].user < |db.wallets|
    ensures ResolveRisk(db, f, action, clientKey).out != Err(WalletMissing)
  {
  }

  lemma PlainPaymentFindsWallet(db: Tables, c: PaymentCommand)
    requires !c.DoWebhook? && !c.DoApplyRefund? && !c.DoResolveRisk?
    ensures PaymentStep(db, c).out != Err(WalletMissing)
  {
  }

  lemma WebhookFindsWallet(db: Tables, n: Notice)
    requires n.order < |db.orders| ==> db.orders[n.order].user < |db.wallets|
    ensures ApplyWebhook(db, n).out != Err(WalletMissing)
  {
    if n.order < |db.orders| {
      PaymentNoticeFindsWallet(db, n);
      if n.providerRefund.Some? { RefundNoticeFindsWallet(db, n); }
    }
  }

  lemma PaymentNoticeFindsWallet(db: Tables, n: Notice)
    requires n.order < |db.orders| && db.orders[n.order].user < |db.wallets|
    ensures NoticeOfPayment(db, n).out != Err(WalletMissing)
  {
  }

  lemma RefundNoticeFindsWallet(db: Tables, n: Notice)
    requires n.order < |db.orders| && db.orders[n.order].user < |db.wallets| && n.providerRefund.Some?
    ensures NoticeOfRefund(db, n).out != Err(WalletMissing)
  {
    var key := if db.orders[n.order].status.Paid? then "webhook:" + n.provider + ":" + n.eventId
               else if InFlightRefund(db.refunds, n.order).None? then ""
               else db.refunds[InFlightRefund(db.refunds, n.order).value].clientKey;
    RefundFindsWallet(Payments.Recorded(db, n, false), n.order, key, n.providerRefund.value);
  }

  lemma AccountClean(db: Tables, c: AccountCommand)
    ensures Clean(AccountStep(db, c).out) && AccountStep(db, c).out != Err(WalletMissing)
  {
  }

  lemma MeterClean(db: Tables, c: MeterCommand)
    requires Invariant(db)
    ensures Clean(MeterStep(db, c).out)
  {
    match c
    case DoReserve(u, k, d, ck, clock) => ReserveClean(db, u, k, d, ck, clock);
    case DoSettle(r, u, e, up, caller) => SettleClean(db, r, u, e, up, caller);
    case DoRelease(r, caller) => ReleaseClean(db, r, caller);
    case _ =>
  }

  lemma PaymentClean(db: Tables, c: PaymentCommand)
    requires Invariant(db)
    ensures Clean(PaymentStep(db, c).out)
  {
    match c
    case DoWebhook(n) => WebhookClean(db, n);
    case DoTestWebhook(e, d, o, a) => TestWebhookClean(db, e, d, o, a);
    case DoApplyRefund(o, k, r) =>
      assert db.(events := db.events + []) == db;
      ApplyRefundClean(db, [], o, k, r);
    case DoResolveRisk(f, a, k) => ResolveRiskClean(db, f, a, k);
    case _ => PlainPaymentClean(db, c);
  }

  /** The payment commands that post nothing report no anomaly in any state. */
  lemma PlainPaymentClean(db: Tables, c: PaymentCommand)
    requires !c.DoWebhook? && !c.DoTestWebhook? && !c.DoApplyRefund? && !c.DoResolveRisk?
    ensures Clean(PaymentStep(db, c).out)
  {
  }
}
