/** The payment and reconciliation routes around the services: what they record of
    a provider's answer, and in which order (app/__init__.py). */
module RouteServices {
  import opened Schema
  import opened Identity
  import opened Billing
  import opened Payments
  import opened Machine
  import opened Reachability
  import opened History
  import opened Store
  import opened Interleaving
  import opened GatewayServices
  import opened PaymentServices

  // ----------------------------------------------------------- recorded answers

  /** What `create_live_checkout` writes once the provider has answered. */
  method RecordCheckout(session: Session, o: nat, result: CheckoutResult) returns (out: Outcome)
    requires session.Clean()
    modifies session
    ensures session.Clean()
    ensures Reply(session.committed, out) == CheckoutResponse(old(session.committed), o, result)
  {
    var requesting := o < |session.orders| && session.orders[o].status.CheckoutRequesting?;
    match result
    case CheckoutBridgeError =>
      if requesting {
        session.orders := session.orders[o := session.orders[o].(status := OrderReconciliation, checkoutClaim := None)];
      }
      session.Commit();
      out := Ok(Nothing);
    case CheckoutAnswer(pending, txn, url) =>
      if !requesting || session.orders[o].txn.Some? {
        out := session.Reject(OrderChanged);
        return;
      }
      // the update fails on the unique transaction id
      if TxnElsewhere(session.orders, o, txn) {
        out := session.Reject(TransactionConflict);
        return;
      }
      var status := if pending then Pending else OrderReconciliation;
      session.orders := session.orders[o := session.orders[o].(status := status, txn := Some(txn), url := Some(url), checkoutClaim := None)];
      session.Commit();
      out := Ok(Nothing);
  }

  /** The operator's lease in `reconcile_live_payment`. */
  method LeaseReconciliation(session: Session, o: nat, now: Time) returns (out: Outcome)
    requires session.Clean()
    modifies session
    ensures session.Clean()
    ensures Reply(session.committed, out) == ClaimReconciliation(old(session.committed), o, now)
  {
    if o >= |session.orders| || session.orders[o].quote.cash.None? || session.orders[o].quote.currency.None? {
      return Err(OrderMissing);
    }
    var order := session.orders[o];
    if order.status.CheckoutRequesting? {
      if order.checkoutClaim.Some? && order.checkoutClaim.value > now - LEASE {
        out := session.Reject(CheckoutInProgress);
        return;
      }
      order := order.(status := OrderReconciliation, checkoutClaim := None);
    } else if !order.status.Pending? && !order.status.OrderReconciliation? {
      return Err(OrderNotReconcilable);
    }
    if order.reconcileClaim.Some? && order.reconcileClaim.value > now - LEASE {
      out := session.Reject(ReconcileInProgress);
      return;
    }
    session.orders := session.orders[o := order.(status := OrderReconciliation, reconcileClaim := Some(now))];
    session.Commit();
    out := Ok(Nothing);
  }

  /** A reconciliation that settled nothing. */
  method RecordInconclusive(session: Session, o: nat) returns (out: Outcome)
    requires session.Clean()
    modifies session
    ensures session.Clean()
    ensures Reply(session.committed, out) == ReconcileInconclusive(old(session.committed), o)
  {
    if o < |session.orders| && (session.orders[o].status.Pending? || session.orders[o].status.OrderReconciliation?) {
      session.orders := session.orders[o := session.orders[o].(status := OrderReconciliation)];
    }
    session.Commit();
    out := Ok(Nothing);
  }

  /** The provider's answer to a claimed refund was not final. */
  method RecordRefundUncertain(session: Session, f: nat) returns (out: Outcome)
    requires session.Clean()
    modifies session
    ensures session.Clean()
    ensures Reply(session.committed, out) == RefundUncertain(old(session.committed), f)
  {
    if f < |session.refunds| && (session.refunds[f].status.Requesting? || session.refunds[f].status.Retrying?) {
      session.refunds := session.refunds[f := session.refunds[f].(status := RefundReconciliation)];
    }
    session.Commit();
    out := Ok(Nothing);
  }

  /** `reconcile_request`: an operator finishes a request that awaits it. */
  method ReconcileRequest(session: Session, id: nat, release: bool, prompt: nat, completion: nat, upstreamCost: Option<int>)
    returns (out: Outcome)
    requires session.Clean()
    modifies session
    ensures session.Clean()
    ensures Reply(session.committed, out)
            == var db := old(session.committed);
               if id >= |db.requests| || !db.requests[id].status.PendingReconciliation? then Refuse(db, RequestNotLive)
               else if release then Release(db, id, Operator)
               else Settle(db, id, Reported(prompt, completion), false, Upstream(upstreamCost, None, None), Operator)
  {
    if id >= |session.requests| || !session.requests[id].status.PendingReconciliation? { return Err(RequestNotLive); }
    if release {
      out := ReleaseModelRequest(session, id, Operator);
    } else {
      out := SettleModelRequest(session, id, Reported(prompt, completion), false, Upstream(upstreamCost, None, None), Operator);
    }
  }

  // ------------------------------------------------- calls to the payment provider

  lemma PaymentRuns(start: Tables, run: seq<Command>, db: Tables, c: PaymentCommand)
    requires db == Run(start, run)
    ensures PaymentStep(db, c).db == Run(start, run + [OnPayment(c)])
  {
    RunSnoc(start, run, OnPayment(c));
  }

  lemma {:induction false} ClaimsConcat(db: Tables, a: seq<Command>, b: seq<Command>, o: nat)
    ensures History.Claims(db, a + b, o) == History.Claims(db, a, o) + History.Claims(Run(db, a), b, o)
    decreases |a|
  {
    if |a| == 0 {
      assert a + b == b;
    } else {
      assert (a + b)[0] == a[0] && (a + b)[1..] == a[1..] + b;
      ClaimsConcat(Step(db, a[0]).db, a[1..], b, o);
    }
  }

  /** A granted claim counts, wherever in a run it is. */
  lemma ClaimCounts(start: Tables, run: seq<Command>, c: PaymentCommand, rest: seq<Command>, o: nat)
    requires PaymentStep(Run(start, run), c).out == Ok(Claim(o, true))
    ensures History.Claims(start, run + [OnPayment(c)] + rest, o) >= 1
  {
    FirstClaimCounts(Run(start, run), OnPayment(c), rest, o);
    ClaimsConcat(start, run, [OnPayment(c)] + rest, o);
    assert run + [OnPayment(c)] + rest == run + ([OnPayment(c)] + rest);
  }

  lemma FirstClaimCounts(db: Tables, c: Command, rest: seq<Command>, o: nat)
    requires Step(db, c).out == Ok(Claim(o, true))
    ensures History.Claims(db, [c] + rest, o) >= 1
  {
    assert ([c] + rest)[0] == c;
  }

  /** `run` holds the only claim of every history it is a part of. */
  ghost predicate OnlyClaim(start: Tables, run: seq<Command>, o: nat) {
    forall origin, before, after ::
      Reachable(origin) && Run(origin, before) == start ==> History.Claims(origin, before + run + after, o) == 1
  }

  lemma OneClaimIsTheOnly(start: Tables, run: seq<Command>, o: nat)
    requires History.Claims(start, run, o) >= 1
    ensures OnlyClaim(start, run, o)
  {
    forall origin, before, after | Reachable(origin) && Run(origin, before) == start
      ensures History.Claims(origin, before + run + after, o) == 1
    {
      ReachableInvariant(origin);
      ClaimedAtMostOnce(origin, before + run + after, o);
      ClaimsConcat(origin, before + run, after, o);
      ClaimsConcat(origin, before, run, o);
    }
  }

  /** The claim, the call and its recorded answer. */
  method ClaimAndCall(session: Session, o: nat, now: Time, result: CheckoutResult, others: seq<Command>,
                      ghost start: Tables, ghost run: seq<Command>)
    returns (called: bool, out: Outcome, ghost run': seq<Command>)
    requires Tracks(session, start, run)
    modifies session
    ensures Tracks(session, start, run')
    ensures var claim := DoPrepareCheckout(o, now, LEASE);
            && (called <==> PrepareCheckout(old(session.committed), o, now, LEASE).out == Ok(Claim(o, true)))
            && (called ==> run' == run + [OnPayment(claim)] + (others + [OnPayment(DoCheckoutResponse(o, result))]))
            && (!called ==> run' == run + [OnPayment(claim)] && out == PrepareCheckout(old(session.committed), o, now, LEASE).out)
  {
    PaymentRuns(start, run, session.committed, DoPrepareCheckout(o, now, LEASE));
    var service := new PaymentDomainService(session);
    out := service.ClaimCheckout(o, now, LEASE);
    run' := run + [OnPayment(DoPrepareCheckout(o, now, LEASE))];
    called := out == Ok(Claim(o, true));
    if called { out, run' := AnswerCheckout(session, o, result, others, start, run'); }
  }

  /** Everyone else runs while the provider is called; then its answer is recorded. */
  method AnswerCheckout(session: Session, o: nat, result: CheckoutResult, others: seq<Command>,
                        ghost start: Tables, ghost run: seq<Command>)
    returns (out: Outcome, ghost run': seq<Command>)
    requires Tracks(session, start, run)
    modifies session
    ensures run' == run + (others + [OnPayment(DoCheckoutResponse(o, result))])
    ensures Tracks(session, start, run')
  {
    LetOthersRun(session, others, start, run);
    run' := run + others;
    PaymentRuns(start, run', session.committed, DoCheckoutResponse(o, result));
    out := RecordCheckout(session, o, result);
    assert run' + [OnPayment(DoCheckoutResponse(o, result))] == run + (others + [OnPayment(DoCheckoutResponse(o, result))]);
    run' := run' + [OnPayment(DoCheckoutResponse(o, result))];
  }

  predicate Verified(db: Tables, user: nat) { IsActive(db, user) && db.users[user].verified }

  /** `create_live_checkout`: a verified user's order is found or made, its checkout is
      claimed, and exactly then the provider is called. Whatever everyone else does
      before, in between and after, this is the only claim in the order's history. */
  method CreateLiveCheckout(session: Session, user: nat, quote: Quote, clientKey: string, maxOpen: Option<int>, now: Time,
                            result: CheckoutResult, between: seq<Command>, others: seq<Command>)
    returns (called: bool, out: Outcome, ghost run: seq<Command>)
    requires session.Clean() && Reachable(session.committed)
    modifies session
    ensures Tracks(session, old(session.committed), run)
    ensures var db := old(session.committed); var placed := CreateOrder(db, user, quote, clientKey, maxOpen);
            && (!Verified(db, user) ==> !called && run == [] && out == Err(Unverified))
            && (Verified(db, user) && placed.out.Err? ==> !called && out == placed.out)
            && (Verified(db, user) && placed.out.Ok? ==>
                  && placed.out.answer.Row?
                  && var claim := PrepareCheckout(Run(placed.db, between), placed.out.answer.id, now, LEASE).out;
                  && (called <==> claim == Ok(Claim(placed.out.answer.id, true)))
                  && (!called ==> out == claim)
                  && (called ==> OnlyClaim(db, run, placed.out.answer.id)))
  {
    ghost var start := session.committed;
    assert Run(start, []) == start;
    run, called := [], false;
    if user >= |session.users| || !session.users[user].status.Active? || !session.users[user].verified {
      return false, Err(Unverified), run;
    }
    ghost var place := DoCreateOrder(user, quote, clientKey, maxOpen);
    PaymentRuns(start, [], start, place);
    var service := new PaymentDomainService(session);
    out := service.PlaceOrder(user, quote, clientKey, maxOpen);
    run := [] + [OnPayment(place)];
    if out.Err? { return; }
    var o := out.answer.id;
    LetOthersRun(session, between, start, run);
    run := run + between;
    ghost var before := run;
    assert session.committed == Run(CreateOrder(start, user, quote, clientKey, maxOpen).db, between) by {
      RunConcat(start, [OnPayment(place)], between);
      assert before == [OnPayment(place)] + between;
    }
    called, out, run := ClaimAndCall(session, o, now, result, others, start, run);
    if called {
      ClaimCounts(start, before, DoPrepareCheckout(o, now, LEASE), others + [OnPayment(DoCheckoutResponse(o, result))], o);
      OneClaimIsTheOnly(start, run, o);
    }
  }

  datatype RefundResult = RefundBridgeError | RefundAnswer(refunded: bool, refundId: string)

  /** What `refund_live_payment` does with the provider's answer to refund `f`. */
  function AfterRefundCall(o: nat, clientKey: string, f: nat, result: RefundResult): PaymentCommand {
    if result.RefundAnswer? && result.refunded then DoApplyRefund(o, clientKey, result.refundId) else DoRefundUncertain(f)
  }

  method RecordRefund(session: Session, o: nat, clientKey: string, f: nat, result: RefundResult) returns (out: Outcome)
    requires session.Clean()
    modifies session
    ensures session.Clean()
    ensures Reply(session.committed, out) == PaymentStep(old(session.committed), AfterRefundCall(o, clientKey, f, result))
  {
    if result.RefundAnswer? && result.refunded {
      RefusedRefundKeepsAll(session.committed, o, clientKey, result.refundId);
      var service := new PaymentDomainService(session);
      out := service.ReverseCredit(o, clientKey, result.refundId);
      if out.Ok? { session.Commit(); }
    } else {
      out := RecordRefundUncertain(session, f);
    }
  }

  lemma RefusedRefundKeepsAll(db: Tables, o: nat, clientKey: string, refundId: string)
    ensures ApplyRefund(db, o, clientKey, refundId).out.Err? ==> ApplyRefund(db, o, clientKey, refundId).db == db
  {
  }

  /** `refund_live_payment`: the provider is called exactly when the claim was
      granted for an order it knows, and only its final answer reverses the credit. */
  method RefundLivePayment(session: Session, o: nat, clientKey: string, now: Time, result: RefundResult, others: seq<Command>)
    returns (called: bool, out: Outcome, ghost run: seq<Command>)
    requires session.Clean() && Reachable(session.committed)
    modifies session
    ensures Tracks(session, old(session.committed), run)
    ensures var db := old(session.committed); var claim := PrepareRefund(db, o, clientKey, now, LEASE).out;
            && (called <==> RefundCallable(db, o) && claim.Ok? && claim.answer.RefundClaim? && claim.answer.claimed)
            && (called ==> run == [OnPayment(DoPrepareRefund(o, clientKey, now, LEASE))] + others
                                  + [OnPayment(AfterRefundCall(o, clientKey, claim.answer.refund, result))])
            && (!called ==> run <= [OnPayment(DoPrepareRefund(o, clientKey, now, LEASE))])
  {
    ghost var start := session.committed;
    assert Run(start, []) == start;
    run, called := [], false;
    if o >= |session.orders| || session.orders[o].txn.None?
       || session.orders[o].quote.cash.None? || session.orders[o].quote.currency.None? {
      return false, Err(OrderNotRefundable), run;
    }
    PaymentRuns(start, [], start, DoPrepareRefund(o, clientKey, now, LEASE));
    var service := new PaymentDomainService(session);
    out := service.ClaimRefund(o, clientKey, now, LEASE);
    run := [] + [OnPayment(DoPrepareRefund(o, clientKey, now, LEASE))];
    if out.Err? || !out.answer.RefundClaim? || !out.answer.claimed { return; }
    called := true;
    var f := out.answer.refund;
    out, run := AnswerRefund(session, o, clientKey, f, result, others, start, run);
  }

  /** Everyone else runs while the provider is asked; then its answer is recorded. */
  method AnswerRefund(session: Session, o: nat, clientKey: string, f: nat, result: RefundResult, others: seq<Command>,
                      ghost start: Tables, ghost run: seq<Command>)
    returns (out: Outcome, ghost run': seq<Command>)
    requires Tracks(session, start, run)
    modifies session
    ensures run' == run + others + [OnPayment(AfterRefundCall(o, clientKey, f, result))]
    ensures Tracks(session, start, run')
  {
    LetOthersRun(session, others, start, run);
    run' := run + others;
    ghost var after := AfterRefundCall(o, clientKey, f, result);
    PaymentRuns(start, run', session.committed, after);
    out := RecordRefund(session, o, clientKey, f, result);
    run' := run' + [OnPayment(after)];
  }

  predicate RefundCallable(db: Tables, o: nat) {
    o < |db.orders| && db.orders[o].txn.Some? && db.orders[o].quote.cash.Some? && db.orders[o].quote.currency.Some?
  }
}
