/** What no step, and so no run, ever undoes: journal and event history, final
    statuses, write-once columns, and the answers given to repeated commands. */
module History {
  import opened Schema
  import opened Payments
  import opened Machine
  import opened Moves
  import opened Evolution
  import opened Classify
  import opened Orders
  import opened Reachability

  // --------------------------------------------------------- steps and runs

  lemma MeterEvolves(db: Tables, c: MeterCommand)
    requires Linked(db)
    ensures Evolves(db, MeterStep(db, c).db)
  {
    var m := MeterIs(db, c);
    MoveEvolves(db, m);
  }

  lemma PaymentEvolves(db: Tables, c: PaymentCommand)
    requires Linked(db)
    ensures Evolves(db, PaymentStep(db, c).db)
  {
    var m := PaymentIs(db, c);
    MoveEvolves(db, m);
  }

  lemma StepEvolves(db: Tables, c: Command)
    requires Invariant(db)
    ensures Evolves(db, Step(db, c).db)
  {
    match c
    case OnAccount(a) => AccountFrame(db, a);
    case OnMeter(a) => MeterEvolves(db, a);
    case OnPayment(a) => PaymentEvolves(db, a);
  }

  /** Over any run: a failed, closed or refunded order keeps its status, a refund
      keeps its provider id and its outcome, a finished request keeps its whole
      row, and the journal and the event log only grow. */
  lemma {:induction false} RunEvolves(db: Tables, commands: seq<Command>)
    requires Invariant(db)
    ensures Evolves(db, Run(db, commands)) && Invariant(Run(db, commands))
    decreases |commands|
  {
    if |commands| > 0 {
      var next := Step(db, commands[0]).db;
      StepKeeps(db, commands[0]);
      StepEvolves(db, commands[0]);
      RunEvolves(next, commands[1..]);
      EvolvesTransitive(db, next, Run(next, commands[1..]));
    }
  }

  /** A failed, closed or refunded order stays what it is, and a refund that has its
      provider id keeps it, over any run. */
  lemma FinalStatusesStay(db: Tables, commands: seq<Command>)
    requires Reachable(db)
    ensures var later := Run(db, commands);
            && |db.orders| <= |later.orders| && |db.refunds| <= |later.refunds|
            && (forall o | 0 <= o < |db.orders| :: Final(db.orders[o]) ==> later.orders[o].status == db.orders[o].status)
            && (forall f | 0 <= f < |db.refunds| :: db.refunds[f].providerRefund.Some? ==>
                  later.refunds[f].providerRefund == db.refunds[f].providerRefund)
            && (forall f | 0 <= f < |db.refunds| :: !db.refunds[f].InFlight() ==> !later.refunds[f].InFlight())
  {
    ReachableInvariant(db);
    RunEvolves(db, commands);
    FinalRowsStay(db, Run(db, commands));
  }

  lemma FinalRowsStay(db: Tables, later: Tables)
    requires Evolves(db, later)
    ensures forall o | 0 <= o < |db.orders| :: Final(db.orders[o]) ==> later.orders[o].status == db.orders[o].status
    ensures forall f | 0 <= f < |db.refunds| :: db.refunds[f].providerRefund.Some? ==>
              later.refunds[f].providerRefund == db.refunds[f].providerRefund
    ensures forall f | 0 <= f < |db.refunds| :: !db.refunds[f].InFlight() ==> !later.refunds[f].InFlight()
  {
    forall o | 0 <= o < |db.orders| ensures Final(db.orders[o]) ==> later.orders[o].status == db.orders[o].status {
      assert OrderNext(db.orders[o], later.orders[o]);
    }
    forall f | 0 <= f < |db.refunds|
      ensures db.refunds[f].providerRefund.Some? ==> later.refunds[f].providerRefund == db.refunds[f].providerRefund
      ensures !db.refunds[f].InFlight() ==> !later.refunds[f].InFlight()
    {
      assert RefundNext(db.refunds[f], later.refunds[f]);
    }
  }

  /** The provider's transaction id of an order is written once, unless the order
      was placed under the test provider's name. */
  lemma TransactionIdIsWriteOnce(db: Tables, commands: seq<Command>, o: nat)
    requires Reachable(db) && o < |db.orders| && db.orders[o].txn.Some?
    requires db.orders[o].quote.provider != TEST_PROVIDER
    ensures o < |Run(db, commands).orders| && Run(db, commands).orders[o].txn == db.orders[o].txn
  {
    ReachableInvariant(db);
    RunEvolves(db, commands);
  }

  /** A priced order under the test provider's name whose checkout was answered. */
  function AnsweredOrder(): Order {
    Order(0, Quote(TEST_PROVIDER, Some(100), Some("CNY"), 500, Some("q"), 1, 1), Some("key"), Pending, Some("txn"), Some("url"), None, None)
  }

  function AnsweredTables(): Tables { EMPTY.(users := [User(Active, true)], wallets := [Wallet(0, 0)], orders := [AnsweredOrder()]) }

  lemma AnsweredIsReachable()
    ensures Reachable(AnsweredTables())
  {
    var quote := AnsweredOrder().quote;
    assert 'C' in "CNY";
    var c0, c1 := OnAccount(DoRegister(false)), OnPayment(DoCreateOrder(0, quote, "key", None));
    var c2 := OnPayment(DoPrepareCheckout(0, 0, LEASE));
    var c3 := OnPayment(DoCheckoutResponse(0, CheckoutAnswer(true, "txn", "url")));
    var d1 := Step(EMPTY, c0).db;
    var d2 := Step(d1, c1).db;
    var d3 := Step(d2, c2).db;
    assert d2 == d1.(orders := [NewOrder(0, quote, Some("key"))]);
    assert !TxnElsewhere(d3.orders, 0, "txn");
    assert Step(d3, c3).db == AnsweredTables();
    RunOne(d3, c3, []);
    RunOne(d2, c2, [c3]);
    RunOne(d1, c1, [c2] + [c3]);
    RunOne(EMPTY, c0, [c1] + ([c2] + [c3]));
    assert [c3] + [] == [c3];
    assert Run(EMPTY, [c0] + ([c1] + ([c2] + [c3]))) == AnsweredTables();
  }

  /** Under the test provider's name it is not: a priced order whose checkout was
      answered can still be credited by a test event, which rewrites the id. */
  lemma TransactionIdRewritten()
    ensures exists db :: Reachable(db) && TxnIs(db, "txn") && TxnIs(TestWebhook(db, "event", "digest", 0, 500).db, "event")
  {
    var db := AnsweredTables();
    AnsweredIsReachable();
    TransferMoves(CustomerAvailable, PlatformClearing, 500, -500);
    assert !TxnElsewhere(db.orders, 0, "event");
    assert TxnIs(TestWebhook(db, "event", "digest", 0, 500).db, "event");
  }

  predicate TxnIs(db: Tables, txn: string) { |db.orders| == 1 && db.orders[0].txn == Some(txn) }

  lemma RunOne(db: Tables, c: Command, rest: seq<Command>)
    ensures Run(db, [c] + rest) == Run(Step(db, c).db, rest)
  {
    assert ([c] + rest)[1..] == rest;
  }

  // -------------------------------------------------------- checkout claims

  /** How often a run lets someone contact the provider for an order's checkout. */
  function Claims(db: Tables, commands: seq<Command>, o: nat): nat
    decreases |commands|
  {
    if |commands| == 0 then 0
    else
      var reply := Step(db, commands[0]);
      (if reply.out == Ok(Claim(o, true)) then 1 else 0) + Claims(reply.db, commands[1..], o)
  }

  lemma OnlyPaymentsClaim(db: Tables, c: Command, o: nat)
    requires Step(db, c).out == Ok(Claim(o, true))
    ensures c.OnPayment?
  {
  }

  lemma OnlyCheckoutClaims(db: Tables, c: PaymentCommand, o: nat)
    requires PaymentStep(db, c).out == Ok(Claim(o, true))
    ensures c.DoPrepareCheckout? && c.checkoutOrder == o
  {
  }

  /** A granted claim found the order claimable and leaves it unclaimable. */
  lemma ClaimIsCheckout(db: Tables, c: Command, o: nat)
    requires Invariant(db) && Step(db, c).out == Ok(Claim(o, true))
    ensures o < |db.orders| <= |Step(db, c).db.orders|
    ensures !Unclaimable(db.orders[o]) && Unclaimable(Step(db, c).db.orders[o])
  {
    OnlyPaymentsClaim(db, c, o);
    OnlyCheckoutClaims(db, c.payment, o);
  }

  lemma {:induction false} NeverClaimedAgain(db: Tables, commands: seq<Command>, o: nat)
    requires Invariant(db) && o < |db.orders| && Unclaimable(db.orders[o])
    ensures Claims(db, commands, o) == 0
    decreases |commands|
  {
    if |commands| > 0 {
      StepKeeps(db, commands[0]);
      StepEvolves(db, commands[0]);
      if Step(db, commands[0]).out == Ok(Claim(o, true)) { ClaimIsCheckout(db, commands[0], o); }
      NeverClaimedAgain(Step(db, commands[0]).db, commands[1..], o);
    }
  }

  /** Over any run, with crashes, expired leases, early callbacks and operators,
      an order's checkout is claimed at most once. */
  lemma {:induction false} ClaimedAtMostOnce(db: Tables, commands: seq<Command>, o: nat)
    requires Invariant(db)
    ensures Claims(db, commands, o) <= 1
    decreases |commands|
  {
    if |commands| > 0 {
      var reply := Step(db, commands[0]);
      StepKeeps(db, commands[0]);
      if reply.out == Ok(Claim(o, true)) {
        ClaimIsCheckout(db, commands[0], o);
        StepEvolves(db, commands[0]);
        NeverClaimedAgain(reply.db, commands[1..], o);
      } else {
        ClaimedAtMostOnce(reply.db, commands[1..], o);
      }
    }
  }

  /** No run returns an order to `Pending` without a transaction id. */
  lemma PendingAgainHasTransaction(db: Tables, commands: seq<Command>, o: nat)
    requires Reachable(db) && o < |db.orders| && !Untouched(db.orders[o])
    ensures o < |Run(db, commands).orders| && !Untouched(Run(db, commands).orders[o])
  {
    ReachableInvariant(db);
    RunEvolves(db, commands);
  }

  // ------------------------------------------------------------------ replays

  /** The first match stays the first match while rows are only appended. */
  lemma FindStable<T>(rows: seq<T>, longer: seq<T>, p: T -> bool)
    requires rows <= longer && Find(rows, p).Some?
    ensures Find(longer, p) == Find(rows, p)
  {
    var i, j := Find(rows, p), Find(longer, p);
    assert longer[i.value] == rows[i.value];
    if j.value < |rows| { assert rows[j.value] == longer[j.value]; }
  }

  /** An event that was recorded is, at any later time, a duplicate under the same
      digest and nonce and refused under any other, and changes nothing. */
  lemma RecordedEventIsDuplicate(db: Tables, commands: seq<Command>, n: Notice)
    requires Reachable(db)
    requires EventById(db.events, n.provider, n.eventId).Some?
    requires n.eventId != "" && n.digest != "" && n.txn != ""
    ensures var e := db.events[EventById(db.events, n.provider, n.eventId).value]; var later := Run(db, commands);
            ApplyWebhook(later, n)
            == Reply(later, if e.digest == n.digest && e.nonce == n.Nonce() then Ok(Duplicate(true)) else Err(EventBodyConflict))
  {
    EventsGrow(db, commands);
    FindStable(db.events, Run(db, commands).events,
               (e: WebhookEvent) => e.provider == n.provider && e.eventId == n.eventId);
  }

  lemma EventsGrow(db: Tables, commands: seq<Command>)
    requires Reachable(db)
    ensures db.events <= Run(db, commands).events
  {
    ReachableInvariant(db);
    RunEvolves(db, commands);
  }

  /** The same for the test provider's events, which carry no nonce of their own. */
  lemma RecordedTestEventIsDuplicate(db: Tables, commands: seq<Command>, eventId: string, digest: string, o: nat, amount: int)
    requires Reachable(db) && eventId != ""
    requires EventById(db.events, TEST_PROVIDER, eventId).Some?
    ensures var e := db.events[EventById(db.events, TEST_PROVIDER, eventId).value]; var later := Run(db, commands);
            TestWebhook(later, eventId, digest, o, amount)
            == Reply(later, if e.digest == digest then Ok(Duplicate(true)) else Err(EventBodyConflict))
  {
    EventsGrow(db, commands);
    FindStable(db.events, Run(db, commands).events, (e: WebhookEvent) => e.provider == TEST_PROVIDER && e.eventId == eventId);
  }

  /** Whatever an event under a recorded id says, no row changes. */
  lemma ReusedEventChangesNothing(db: Tables, n: Notice)
    requires EventById(db.events, n.provider, n.eventId).Some?
    ensures ApplyWebhook(db, n).db == db
  {
  }

  /** A new event that is applied is recorded. */
  lemma AppliedEventIsRecorded(db: Tables, n: Notice)
    requires Linked(db) && ApplyWebhook(db, n).out == Ok(Duplicate(false))
    ensures var after := ApplyWebhook(db, n).db;
            && EventById(after.events, n.provider, n.eventId).Some?
            && var e := after.events[EventById(after.events, n.provider, n.eventId).value];
               e.digest == n.digest && e.nonce == n.Nonce()
  {
    var event := WebhookEvent(n.provider, n.eventId, n.Nonce(), n.order, n.digest, n.eventType, false);
    var after := ApplyWebhook(db, n).db;
    if n.status.NoticeRefunded? { RefundKeepsEvents(db, n); }
    assert after.events == db.events + [event];
    EventRecorded(db.events, event);
    assert forall i | 0 <= i < |db.events| :: after.events[i] == db.events[i];
  }

  lemma RefundKeepsEvents(db: Tables, n: Notice)
    requires n.order < |db.orders| && n.providerRefund.Some?
    requires NoticeOfRefund(db, n).out == Ok(Duplicate(false))
    ensures NoticeOfRefund(db, n).db.events == Recorded(db, n, false).events
  {
  }
}
