/** Orders and refunds as their callers meet them, one call after another: placing the
    same order again, the lease of a checkout and what its answer leaves, the lease of
    an operator, and the lease of a refund command. */
module Claiming {
  import opened Schema
  import opened Identity
  import opened Payments
  import opened Machine
  import opened Evolution
  import opened Reachability
  import opened History

  const FIVE_MINUTES: Time := 300_000_000

  // ---------------------------------------------------------------------- placing

  /** No order of the user has this key. */
  predicate KeyFree(orders: seq<Order>, user: nat, clientKey: string) {
    forall o | 0 <= o < |orders| :: orders[o].user != user || orders[o].clientKey != Some(clientKey)
  }

  /** The cap on the user's open orders, if there is one, leaves room. */
  predicate RoomFor(orders: seq<Order>, user: nat, maxOpen: Option<int>) {
    maxOpen.Some? ==> 1 <= maxOpen.value && CountRows(orders, (o: Order) => o.user == user && o.Open()) < maxOpen.value
  }

  /** Cash and credit are positive, the currency is three letters in capitals, provider
      and quote are named, and the rate is a fraction. */
  predicate Sellable(q: Quote) {
    && q.cash.Some? && 1 <= q.cash.value && 1 <= q.credit && 1 <= q.numerator && 1 <= q.denominator
    && q.currency.Some? && |q.currency.value| == 3
    && (exists i :: 0 <= i < 3 && 'A' <= q.currency.value[i] <= 'Z')
    && (forall i | 0 <= i < 3 :: !('a' <= q.currency.value[i] <= 'z'))
    && |q.provider| > 0 && q.quoteId.Some? && |q.quoteId.value| > 0
  }

  lemma SellableIff(q: Quote)
    ensures QuoteValid(q) <==> Sellable(q)
  {
    if q.currency.Some? && |q.currency.value| == 3 {
      var c := q.currency.value;
      assert c[0] in c && c[1] in c && c[2] in c;
    }
  }

  /** A new order is placed exactly for a valid quote of an active account under a free
      key and with room; it knows nothing of any provider yet. */
  lemma OrderIsPlacedIff(db: Tables, user: nat, quote: Quote, clientKey: string, maxOpen: Option<int>)
    ensures var reply := CreateOrder(db, user, quote, clientKey, maxOpen);
            var granted := Sellable(quote) && IsActive(db, user) && KeyFree(db.orders, user, clientKey)
                           && RoomFor(db.orders, user, maxOpen);
            && (granted ==>
                  && reply.out == Ok(Row(|db.orders|))
                  && reply.db == db.(orders := db.orders + [Order(user, quote, Some(clientKey), Pending, None, None, None, None)]))
            && (!granted ==> reply.db == db && reply.out != Ok(Row(|db.orders|)))
  {
    SellableIff(quote);
    var found := OrderByKey(db.orders, user, clientKey);
    assert found.None? <==> KeyFree(db.orders, user, clientKey);
    assert OpenOrders(db.orders, user) == CountRows(db.orders, (o: Order) => o.user == user && o.Open());
  }

  /** A test order is placed exactly for an existing account and an amount from a
      hundred micro-dollars to a hundred dollars. */
  lemma TestOrderIsPlacedIff(db: Tables, user: nat, amount: Money)
    ensures var reply := CreateTestOrder(db, user, amount);
            && (reply.out.Ok? <==> user < |db.users| && 100 <= amount <= 100_000_000)
            && (reply.out.Ok? ==>
                  && reply.out == Ok(Row(|db.orders|))
                  && reply.db == db.(orders := db.orders + [Order(user, Quote("test_hmac", None, None, amount, None, 1, 1), None,
                                                                  Pending, None, None, None, None)]))
            && (reply.out.Err? ==> reply.db == db)
  {
  }

  /** Rows that keep what a query looks at keep their first match. */
  lemma FindKept<T>(rows: seq<T>, later: seq<T>, p: T -> bool)
    requires |rows| <= |later| && Find(rows, p).Some?
    requires forall i | 0 <= i < |rows| :: p(later[i]) == p(rows[i])
    ensures Find(later, p) == Find(rows, p)
  {
    var i, j := Find(rows, p).value, Find(later, p);
    assert p(later[i]);
    assert forall k | 0 <= k < i :: p(later[k]) == p(rows[k]);
  }

  /** However much later an order is placed again under its key, the same quote gets
      the same order and any other is refused, and nothing is placed. */
  lemma PlacementRepeats(db: Tables, user: nat, quote: Quote, clientKey: string, maxOpen: Option<int>, o: nat,
                         commands: seq<Command>, again: Quote, nowOpen: Option<int>)
    requires Reachable(db) && CreateOrder(db, user, quote, clientKey, maxOpen).out == Ok(Row(o))
    ensures var later := Run(CreateOrder(db, user, quote, clientKey, maxOpen).db, commands);
            var reply := CreateOrder(later, user, again, clientKey, nowOpen);
            && reply.db == later
            && (QuoteValid(again) && IsActive(later, user) ==> reply.out == if again == quote then Ok(Row(o)) else Err(QuoteMismatch))
            && (!QuoteValid(again) || !IsActive(later, user) ==> reply.out.Err?)
  {
    var first := CreateOrder(db, user, quote, clientKey, maxOpen).db;
    PlacedUnderKey(db, user, quote, clientKey, maxOpen, o);
    PlacementReachable(db, user, quote, clientKey, maxOpen);
    OrdersKeepTerms(first, commands);
    FindKept(first.orders, Run(first, commands).orders, (r: Order) => r.user == user && r.clientKey == Some(clientKey));
  }

  lemma PlacementReachable(db: Tables, user: nat, quote: Quote, clientKey: string, maxOpen: Option<int>)
    requires Reachable(db)
    ensures Reachable(CreateOrder(db, user, quote, clientKey, maxOpen).db)
  {
    ReachableStep(db, OnPayment(DoCreateOrder(user, quote, clientKey, maxOpen)));
  }

  lemma PlacedUnderKey(db: Tables, user: nat, quote: Quote, clientKey: string, maxOpen: Option<int>, o: nat)
    requires CreateOrder(db, user, quote, clientKey, maxOpen).out == Ok(Row(o))
    ensures var first := CreateOrder(db, user, quote, clientKey, maxOpen).db;
            && o < |first.orders| && first.orders[o].quote == quote && OrderByKey(first.orders, user, clientKey) == Some(o)
  {
    if OrderByKey(db.orders, user, clientKey).None? { NewKeyIsFound(db.orders, NewOrder(user, quote, Some(clientKey)), clientKey); }
  }

  lemma NewKeyIsFound(orders: seq<Order>, order: Order, clientKey: string)
    requires OrderByKey(orders, order.user, clientKey).None? && order.clientKey == Some(clientKey)
    ensures OrderByKey(orders + [order], order.user, clientKey) == Some(|orders|)
  {
    assert (orders + [order])[|orders|] == order;
    assert forall i | 0 <= i < |orders| :: (orders + [order])[i] == orders[i];
  }

  /** Owner, quote and key of an order never change. */
  lemma OrdersKeepTerms(db: Tables, commands: seq<Command>)
    requires Reachable(db)
    ensures var later := Run(db, commands);
            && |db.orders| <= |later.orders|
            && forall o | 0 <= o < |db.orders| ::
                 && later.orders[o].user == db.orders[o].user && later.orders[o].quote == db.orders[o].quote
                 && later.orders[o].clientKey == db.orders[o].clientKey
  {
    ReachableInvariant(db);
    RunEvolves(db, commands);
    forall o | 0 <= o < |db.orders| ensures OrderNext(db.orders[o], Run(db, commands).orders[o]) {
    }
  }

  // --------------------------------------------------------------------- checkouts

  /** A checkout can be claimed: an active owner's pending order that no provider
      knows. */
  predicate Claimable(db: Tables, o: nat) {
    && o < |db.orders| && IsActive(db, db.orders[o].user)
    && db.orders[o].status.Pending? && db.orders[o].txn.None? && db.orders[o].url.None?
  }

  function Requested(order: Order, at: Time): Order { order.(status := CheckoutRequesting, checkoutClaim := Some(at)) }

  lemma CheckoutIsClaimedIff(db: Tables, o: nat, now: Time, lease: Time)
    ensures var reply := PrepareCheckout(db, o, now, lease);
            && (reply.out == Ok(Claim(o, true)) <==> Claimable(db, o))
            && (reply.out == Ok(Claim(o, false))
                <==> o < |db.orders| && IsActive(db, db.orders[o].user)
                     && db.orders[o].url !in {None, Some("")} && db.orders[o].txn !in {None, Some("")})
            && (Claimable(db, o) ==> reply.db == db.(orders := db.orders[o := Requested(db.orders[o], now)]))
  {
  }

  /** The order as the claim left it, however much later and whatever else happened. */
  ghost predicate StillRequested(db: Tables, later: Tables, o: nat, at: Time) {
    && Claimable(db, o) && o < |later.orders| && later.orders[o] == Requested(db.orders[o], at) && IsActive(later, later.orders[o].user)
  }

  /** While the claim is younger than the lease nobody else gets one and nothing
      changes; from then on the next caller hands the order to the operators, and is
      refused all the same. */
  lemma CheckoutIsLeased(db: Tables, later: Tables, o: nat, at: Time, now: Time, lease: Time)
    requires StillRequested(db, later, o, at)
    ensures PrepareCheckout(later, o, now, lease)
            == if now - at < lease then Refuse(later, CheckoutInProgress)
               else Reply(later.(orders := later.orders[o := later.orders[o].(status := OrderReconciliation)]), Err(CheckoutExpired))
  {
  }

  /** A pending answer gives the order back with its transaction and address, and from
      then on every caller is sent to that address; any other answer, or none, leaves
      the order to the operators. Nobody can claim it again. */
  lemma CheckoutAnswerIsKept(db: Tables, later: Tables, o: nat, at: Time, result: CheckoutResult, now: Time, lease: Time)
    requires StillRequested(db, later, o, at)
    requires result.CheckoutAnswer? ==>
               result.txn != "" && result.url != "" && forall i | 0 <= i < |later.orders| && i != o :: later.orders[i].txn != Some(result.txn)
    ensures var reply := CheckoutResponse(later, o, result); var order := db.orders[o];
            && reply.out == Ok(Nothing)
            && reply.db.orders == later.orders[o :=
                 match result
                 case CheckoutAnswer(pending, txn, url) =>
                   order.(status := if pending then Pending else OrderReconciliation, txn := Some(txn), url := Some(url), checkoutClaim := None)
                 case CheckoutBridgeError => order.(status := OrderReconciliation, checkoutClaim := None)]
            && PrepareCheckout(reply.db, o, now, lease)
               == if result.CheckoutAnswer? then Reply(reply.db, Ok(Claim(o, false))) else Refuse(reply.db, OrderNotClaimable)
  {
    if result.CheckoutAnswer? { assert !TxnElsewhere(later.orders, o, result.txn); }
  }

  /** An answer that comes after the order moved on, or for a transaction another order
      has, changes nothing. */
  lemma LateAnswerChangesNothing(db: Tables, o: nat, result: CheckoutResult)
    requires o >= |db.orders| || !db.orders[o].status.CheckoutRequesting?
             || (result.CheckoutAnswer? && exists i :: 0 <= i < |db.orders| && i != o && db.orders[i].txn == Some(result.txn))
    ensures CheckoutResponse(db, o, result).db == db
  {
    if result.CheckoutAnswer? && o < |db.orders| {
      if i :| 0 <= i < |db.orders| && i != o && db.orders[i].txn == Some(result.txn) {
        assert TxnElsewhere(db.orders, o, result.txn);
      }
    }
  }

  // --------------------------------------------------------------------- operators

  /** A claim recorded at this time is older than five minutes. */
  predicate Lapsed(claim: Option<Time>, now: Time) { claim.Some? ==> now - claim.value >= FIVE_MINUTES }

  /** An operator gets an open, priced order that no younger checkout or operator has. */
  predicate Reconcilable(db: Tables, o: nat, now: Time) {
    && o < |db.orders| && db.orders[o].quote.cash.Some? && db.orders[o].quote.currency.Some? && db.orders[o].Open()
    && (db.orders[o].status.CheckoutRequesting? ==> Lapsed(db.orders[o].checkoutClaim, now))
    && Lapsed(db.orders[o].reconcileClaim, now)
  }

  lemma ReconciliationIsLeasedIff(db: Tables, o: nat, now: Time)
    ensures var reply := ClaimReconciliation(db, o, now);
            && (reply.out.Ok? <==> Reconcilable(db, o, now))
            && (reply.out.Err? ==> reply.db == db)
            && (reply.out.Ok? ==>
                  var order := db.orders[o];
                  reply.db == db.(orders := db.orders[o :=
                    order.(status := OrderReconciliation, reconcileClaim := Some(now),
                           checkoutClaim := if order.status.CheckoutRequesting? then None else order.checkoutClaim)]))
  {
  }

  /** As long as nothing ends the lease, another operator waits five minutes for it. */
  lemma OperatorsTakeTurns(db: Tables, later: Tables, o: nat, at: Time, now: Time)
    requires ClaimReconciliation(db, o, at).out.Ok? && o < |later.orders|
    requires later.orders[o] == ClaimReconciliation(db, o, at).db.orders[o]
    ensures ClaimReconciliation(later, o, now).out.Ok? <==> now - at >= FIVE_MINUTES
  {
  }

  /** An answer that settles nothing keeps a pending order with the operators; ending
      the lease lets the next operator in at once, and touches nothing else. */
  lemma LeaseEnds(db: Tables, o: nat, now: Time)
    ensures var kept := ReconcileInconclusive(db, o); var ended := ClearReconciliation(db, o);
            && kept.out == Ok(Nothing) && ended.out == Ok(Nothing)
            && (o >= |db.orders| ==> kept.db == db && ended.db == db)
            && (o < |db.orders| ==>
                  var order := db.orders[o];
                  && kept.db == db.(orders := db.orders[o := if order.status.Pending? then order.(status := OrderReconciliation) else order])
                  && ended.db == db.(orders := db.orders[o := order.(reconcileClaim := None)])
                  && (ClaimReconciliation(ended.db, o, now).out.Ok?
                      <==> order.quote.cash.Some? && order.quote.currency.Some? && order.Open()
                           && (order.status.CheckoutRequesting? ==> Lapsed(order.checkoutClaim, now))))
  {
    if o < |db.orders| { assert db.orders[o := db.orders[o]] == db.orders; }
  }

  // ----------------------------------------------------------------------- refunds

  /** The order's command under this key. */
  predicate CommandOf(refunds: seq<Refund>, f: nat, o: nat, clientKey: string) {
    f < |refunds| && refunds[f].order == o && refunds[f].clientKey == clientKey
  }

  /** The command may be claimed: nobody knows how it stands, or its last claim is as
      old as the lease. */
  predicate Retakeable(refund: Refund, now: Time, lease: Time) {
    match refund.status
    case RefundReconciliation => true
    case Requesting => now - refund.claimedAt >= lease
    case Retrying => now - refund.claimedAt >= lease
    case _ => false
  }

  /** A paid, priced order that has no refund yet. */
  predicate Startable(db: Tables, o: nat) {
    && o < |db.orders| && db.orders[o].status.Paid? && db.orders[o].quote.cash.Some? && db.orders[o].quote.currency.Some?
    && forall f | 0 <= f < |db.refunds| :: db.refunds[f].order != o
  }

  /** In a reachable state leave to contact the provider for a refund is given exactly
      for a command that may be claimed, or for a first command of an order that may be
      refunded; a command whose refund is applied is answered without leave. The row
      records the claim; a first claim also opens the refund. */
  lemma RefundIsClaimedIff(db: Tables, o: nat, clientKey: string, now: Time, lease: Time, f: nat)
    requires Reachable(db)
    ensures var reply := PrepareRefund(db, o, clientKey, now, lease);
            var again := CommandOf(db.refunds, f, o, clientKey) && Retakeable(db.refunds[f], now, lease);
            var first := f == |db.refunds| && Startable(db, o);
            && (reply.out == Ok(RefundClaim(f, true)) <==> clientKey != "" && (again || first))
            && (reply.out == Ok(RefundClaim(f, false))
                <==> clientKey != "" && CommandOf(db.refunds, f, o, clientKey)
                     && (db.refunds[f].status.RefundDone? || db.refunds[f].status.Risk?))
            && (reply.out.Ok? ==> reply.out.answer.RefundClaim? && (reply.out.answer.claimed || reply.db == db))
            && (reply.out.Err? ==> reply.db == db)
            && (clientKey != "" && again ==>
                  reply.db == db.(refunds := db.refunds[f := db.refunds[f]
                                .(status := if db.refunds[f].status.Requesting? then Retrying else Requesting, claimedAt := now)]))
            && (clientKey != "" && first ==>
                  var order := db.orders[o];
                  reply.db == db.(refunds := db.refunds + [Refund(o, order.user, clientKey, None, order.quote.credit, Requesting, now)],
                                  orders := db.orders[o := order.(status := Refunding)]))
  {
    OneCommandEach(db);
    RefundClaimIff(db, o, clientKey, now, lease, f);
  }

  /** An order has one refund at most. */
  ghost predicate OneRefundEach(refunds: seq<Refund>) {
    forall f, g | 0 <= f < g < |refunds| :: refunds[f].order != refunds[g].order
  }

  lemma OneCommandEach(db: Tables)
    requires Reachable(db)
    ensures OneRefundEach(db.refunds)
  {
    ReachableInvariant(db);
  }

  lemma RefundClaimIff(db: Tables, o: nat, clientKey: string, now: Time, lease: Time, f: nat)
    requires OneRefundEach(db.refunds)
    ensures var reply := PrepareRefund(db, o, clientKey, now, lease);
            var again := CommandOf(db.refunds, f, o, clientKey) && Retakeable(db.refunds[f], now, lease);
            var first := f == |db.refunds| && Startable(db, o);
            && (reply.out == Ok(RefundClaim(f, true)) <==> clientKey != "" && (again || first))
            && (reply.out == Ok(RefundClaim(f, false))
                <==> clientKey != "" && CommandOf(db.refunds, f, o, clientKey)
                     && (db.refunds[f].status.RefundDone? || db.refunds[f].status.Risk?))
            && (reply.out.Ok? ==> reply.out.answer.RefundClaim? && (reply.out.answer.claimed || reply.db == db))
            && (reply.out.Err? ==> reply.db == db)
            && (clientKey != "" && again ==>
                  reply.db == db.(refunds := db.refunds[f := db.refunds[f]
                                .(status := if db.refunds[f].status.Requesting? then Retrying else Requesting, claimedAt := now)]))
            && (clientKey != "" && first ==>
                  var order := db.orders[o];
                  reply.db == db.(refunds := db.refunds + [Refund(o, order.user, clientKey, None, order.quote.credit, Requesting, now)],
                                  orders := db.orders[o := order.(status := Refunding)]))
  {
    var found := RefundByKey(db.refunds, o, clientKey);
    if CommandOf(db.refunds, f, o, clientKey) { assert found == Some(f); }
  }

  /** A claim that is not answered holds for the lease; once its answer was uncertain
      the next caller has it at once. */
  lemma RefundIsLeased(db: Tables, later: Tables, o: nat, clientKey: string, at: Time, lease: Time, f: nat, now: Time)
    requires Reachable(db) && Reachable(later) && PrepareRefund(db, o, clientKey, at, lease).out == Ok(RefundClaim(f, true))
    requires f < |later.refunds| && later.refunds[f] == PrepareRefund(db, o, clientKey, at, lease).db.refunds[f]
    ensures PrepareRefund(later, o, clientKey, now, lease).out
            == if now - at < lease then Err(RefundInProgress) else Ok(RefundClaim(f, true))
    ensures PrepareRefund(RefundUncertain(later, f).db, o, clientKey, now, lease).out == Ok(RefundClaim(f, true))
  {
    OneCommandEach(db);
    OneCommandEach(later);
    RefundClaimIff(db, o, clientKey, at, lease, f);
    LeasedRow(later, o, clientKey, at, lease, f, now);
  }

  lemma LeasedRow(later: Tables, o: nat, clientKey: string, at: Time, lease: Time, f: nat, now: Time)
    requires OneRefundEach(later.refunds) && CommandOf(later.refunds, f, o, clientKey) && clientKey != ""
    requires (later.refunds[f].status.Requesting? || later.refunds[f].status.Retrying?) && later.refunds[f].claimedAt == at
    ensures PrepareRefund(later, o, clientKey, now, lease).out
            == if now - at < lease then Err(RefundInProgress) else Ok(RefundClaim(f, true))
    ensures PrepareRefund(RefundUncertain(later, f).db, o, clientKey, now, lease).out == Ok(RefundClaim(f, true))
  {
    var uncertain := RefundUncertain(later, f).db;
    assert RefundByKey(later.refunds, o, clientKey) == Some(f);
    assert forall g | 0 <= g < |later.refunds| :: uncertain.refunds[g].order == later.refunds[g].order;
    RefundClaimIff(uncertain, o, clientKey, now, lease, f);
  }
}
