/** What the invariants and the histories mean for callers: repeated
    dispositions, debtors, settlements, the sweep and rewritten ids. */
module Consequences {
  import opened Schema
  import opened Pricing
  import opened Budgets
  import opened JournalBooks
  import opened Identity
  import opened Billing
  import opened Payments
  import opened Machine
  import opened Moves
  import opened Evolution
  import opened Classify
  import opened Books
  import opened BudgetSpend
  import opened Orders
  import opened Reachability
  import opened History
  import opened Anomalies

  // ---------------------------------------------------- repeated dispositions

  /** The journal answers a disposition under this key with answer `a`. */
  predicate Answers(journal: Journal, f: nat, action: RiskAction, clientKey: string, a: Answer) {
    var t := TransactionByKey(journal, DispositionKey(f, clientKey));
    && t.Some? && journal[t.value].kind == action.KindOf()
    && var recovered := -AccountTotal(journal[t.value].entries, CustomerAvailable);
       var writtenOff := -AccountTotal(journal[t.value].entries, PlatformLoss);
       a == Disposition(f, true, recovered + writtenOff, recovered, writtenOff)
  }

  /** Right after a disposition its transaction answers for it. */
  lemma DispositionIsPosted(db: Tables, f: nat, action: RiskAction, clientKey: string)
    requires ResolveRisk(db, f, action, clientKey).out.Ok?
    ensures var reply := ResolveRisk(db, f, action, clientKey);
            && f < |db.refunds| && !action.OtherAction? && reply.out.answer.Disposition?
            && Answers(reply.db.journal, f, action, clientKey, reply.out.answer.(repeated := true))
  {
    if TransactionByKey(db.journal, DispositionKey(f, clientKey)).None? { DisposalIsPosted(db, f, action, clientKey); }
  }

  lemma DisposalIsPosted(db: Tables, f: nat, action: RiskAction, clientKey: string)
    requires f < |db.refunds| && !action.OtherAction? && TransactionByKey(db.journal, DispositionKey(f, clientKey)).None?
    requires DisposeRisk(db, f, action, clientKey).out.Ok?
    ensures var reply := DisposeRisk(db, f, action, clientKey);
            && reply.out.answer.Disposition?
            && Answers(reply.db.journal, f, action, clientKey, reply.out.answer.(repeated := true))
  {
    DisposalCommits(db, f, action, clientKey);
    PostedAnswers(db, f, action, clientKey, DisposeRisk(db, f, action, clientKey).out.answer.recovered);
  }

  /** A disposition's posting reads as its debt and what was recovered of it. */
  lemma PostedAnswers(db: Tables, f: nat, action: RiskAction, clientKey: string, recovered: Money)
    requires Disposable(db, f, action, clientKey, recovered) && TransactionByKey(db.journal, DispositionKey(f, clientKey)).None?
    ensures var debt := RiskDebt(db.journal, db.refunds[f].order);
            Answers(db.journal + [Disposing(db, f, action, clientKey, recovered)], f, action, clientKey,
                    Disposition(f, true, debt, recovered, debt - recovered))
  {
    var refund := db.refunds[f];
    DisposalPosts(refund.user, action.KindOf(), OrderRef(refund.order), DispositionKey(f, clientKey),
                  RiskDebt(db.journal, refund.order), recovered);
    FirstWithKey(db.journal, Disposing(db, f, action, clientKey, recovered));
  }

  lemma FirstWithKey(journal: Journal, t: Transaction)
    requires TransactionByKey(journal, t.key).None?
    ensures TransactionByKey(journal + [t], t.key) == Some(|journal|)
  {
    var i := TransactionByKey(journal + [t], t.key);
    assert (journal + [t])[|journal|] == t;
    assert forall k | 0 <= k < |journal| :: (journal + [t])[k] == journal[k];
  }

  /** A disposition that is already in the journal is read back from it. */
  lemma DispositionIsReadBack(db: Tables, earlier: Journal, f: nat, action: RiskAction, clientKey: string, a: Answer)
    requires f < |db.refunds| && !action.OtherAction?
    requires earlier <= db.journal && Answers(earlier, f, action, clientKey, a)
    ensures ResolveRisk(db, f, action, clientKey) == Reply(db, Ok(a))
  {
    FindStable(earlier, db.journal, (t: Transaction) => t.key == DispositionKey(f, clientKey));
  }

  /** However much later it is repeated with the same key and action, a
      disposition reads the same three amounts back and changes nothing. */
  lemma DispositionRepeats(db: Tables, f: nat, action: RiskAction, clientKey: string, commands: seq<Command>)
    requires Reachable(db) && ResolveRisk(db, f, action, clientKey).out.Ok?
    ensures ResolveRisk(db, f, action, clientKey).out.answer.Disposition?
    ensures var first := ResolveRisk(db, f, action, clientKey); var later := Run(first.db, commands);
            ResolveRisk(later, f, action, clientKey) == Reply(later, Ok(first.out.answer.(repeated := true)))
  {
    var first := ResolveRisk(db, f, action, clientKey);
    DispositionIsPosted(db, f, action, clientKey);
    DispositionRemembered(db, f, action, clientKey, commands);
    DispositionIsReadBack(Run(first.db, commands), first.db.journal, f, action, clientKey, first.out.answer.(repeated := true));
  }

  lemma DispositionRemembered(db: Tables, f: nat, action: RiskAction, clientKey: string, commands: seq<Command>)
    requires Reachable(db)
    ensures var first := ResolveRisk(db, f, action, clientKey).db; var later := Run(first, commands);
            first.journal <= later.journal && |db.refunds| <= |later.refunds|
  {
    StepRemembers(db, OnPayment(DoResolveRisk(f, action, clientKey)), commands);
  }

  /** A step and a run after it keep every row and every posting. */
  lemma StepRemembers(db: Tables, c: Command, commands: seq<Command>)
    requires Reachable(db)
    ensures var first := Step(db, c).db; var later := Run(first, commands);
            first.journal <= later.journal && |db.refunds| <= |later.refunds|
  {
    ReachableInvariant(db);
    StepKeeps(db, c);
    StepEvolves(db, c);
    RunEvolves(Step(db, c).db, commands);
  }

  /** No key disposed of a refund that is still at risk. */
  lemma NotDisposedYet(db: Tables, f: nat, clientKey: string)
    requires KeysOk(db) && f < |db.refunds| && db.refunds[f].status.Risk?
    ensures TransactionByKey(db.journal, DispositionKey(f, clientKey)).None?
  {
    forall i | 0 <= i < |db.journal| ensures db.journal[i].key != DispositionKey(f, clientKey) {
      assert KeyOk(db, db.journal[i].key);
    }
  }

  lemma FirstDisposition(db: Tables, f: nat, action: RiskAction, clientKey: string)
    requires KeysOk(db) && f < |db.refunds| && db.refunds[f].status.Risk?
    requires ResolveRisk(db, f, action, clientKey).out.Ok?
    ensures var reply := ResolveRisk(db, f, action, clientKey); var a := reply.out.answer;
            && a.Disposition? && !a.repeated && a.outstanding == RiskDebt(db.journal, db.refunds[f].order)
            && reply.db.refunds == db.refunds[f := db.refunds[f].(status := Resolved)]
  {
    NotDisposedYet(db, f, clientKey);
  }

  /** A first disposition settles exactly the shortfall of the refund. */
  lemma DispositionSettlesShortfall(db: Tables, f: nat, action: RiskAction, clientKey: string)
    requires Reachable(db) && f < |db.refunds| && db.refunds[f].status.Risk?
    requires ResolveRisk(db, f, action, clientKey).out.Ok?
    ensures var reply := ResolveRisk(db, f, action, clientKey); var a := reply.out.answer;
            && a.Disposition? && !a.repeated
            && a.outstanding == PositionOf(db.journal, db.refunds[f].order).shortfall > 0
            && f < |reply.db.refunds| && reply.db.refunds[f].status.Resolved?
            && PositionOf(reply.db.journal, db.refunds[f].order).debt == 0
  {
    ReachableOrders(db);
    FirstDisposition(db, f, action, clientKey);
    RiskOwesShortfall(db, f);
    ReachableDisposition(db, f, action, clientKey);
    ReachableOrders(ResolveRisk(db, f, action, clientKey).db);
    ResolvedOwesNothing(ResolveRisk(db, f, action, clientKey).db, f);
  }

  lemma ReachableDisposition(db: Tables, f: nat, action: RiskAction, clientKey: string)
    requires Reachable(db)
    ensures Reachable(ResolveRisk(db, f, action, clientKey).db)
  {
    ReachableStep(db, OnPayment(DoResolveRisk(f, action, clientKey)));
    DispositionIsStep(db, f, action, clientKey);
  }

  lemma DispositionIsStep(db: Tables, f: nat, action: RiskAction, clientKey: string)
    ensures Step(db, OnPayment(DoResolveRisk(f, action, clientKey))) == ResolveRisk(db, f, action, clientKey)
  {
  }

  lemma ReachableOrders(db: Tables)
    requires Reachable(db)
    ensures Linked(db) && KeysOk(db) && OrdersBooked(db.orders, db.refunds, db.journal) && Lockstep(db.orders, db.refunds)
  {
    ReachableInvariant(db);
  }

  lemma RiskOwesShortfall(db: Tables, f: nat)
    requires OrdersBooked(db.orders, db.refunds, db.journal) && f < |db.refunds| && db.refunds[f].status.Risk?
    ensures RiskDebt(db.journal, db.refunds[f].order) == PositionOf(db.journal, db.refunds[f].order).shortfall > 0
  {
    assert RefundBook(db.refunds[f], PositionOf(db.journal, db.refunds[f].order));
  }

  lemma ResolvedOwesNothing(db: Tables, f: nat)
    requires OrdersBooked(db.orders, db.refunds, db.journal) && f < |db.refunds| && db.refunds[f].status.Resolved?
    ensures PositionOf(db.journal, db.refunds[f].order).debt == 0
  {
    assert RefundBook(db.refunds[f], PositionOf(db.journal, db.refunds[f].order));
  }

  /** Once nothing is held, a refund at risk can be written off under any key. */
  lemma WriteOffSucceeds(db: Tables, f: nat, clientKey: string)
    requires Reachable(db) && f < |db.refunds| && db.refunds[f].status.Risk?
    requires db.refunds[f].user < |db.wallets| && db.wallets[db.refunds[f].user].reserved == 0
    ensures ResolveRisk(db, f, WriteOff, clientKey).out.Ok?
  {
    ReachableOrders(db);
    NotDisposedYet(db, f, clientKey);
    ResolveRiskClean(db, f, WriteOff, clientKey);
  }

  // ------------------------------------------------------------------- debtors

  /** Nothing was added on a user's side between two states. */
  ghost predicate OnlyWoundDown(a: Tables, b: Tables, u: nat)
    requires u < |a.wallets|
  {
    && |a.wallets| <= |b.wallets| && |a.requests| <= |b.requests|
    && b.wallets[u].reserved <= a.wallets[u].reserved
    && Total(LiveOf(u), b.requests) <= Total(LiveOf(u), a.requests)
    && (forall i | |a.requests| <= i < |b.requests| :: b.requests[i].user != u)
  }

  lemma FrozenHold(db: Tables, r: Request, t: Transaction, u: nat)
    requires HoldLegal(db, r, t) && IsFrozen(db, u) && u < |db.wallets|
    ensures OnlyWoundDown(db, Make(db, PlaceHold(r, t)), u)
  {
    TotalAppend(LiveOf(u), db.requests, r);
  }

  lemma FrozenFinish(db: Tables, id: nat, done: Request, back: Money, t: Transaction, u: nat)
    requires FinishLegal(db, id, done, back, t) && u < |db.wallets| && db.requests[id].hold >= 1
    ensures OnlyWoundDown(db, Make(db, FinishHold(id, done, back, t)), u)
  {
    TotalUpdate(LiveOf(u), db.requests, id, done);
  }

  lemma FrozenMove(db: Tables, m: Move, u: nat)
    requires Linked(db) && Legal(db, m) && IsFrozen(db, u)
    ensures OnlyWoundDown(db, Make(db, m), u)
  {
    match m
    case PlaceHold(r, t) => FrozenHold(db, r, t, u);
    case FinishHold(id, done, back, t) =>
      assert RequestLinked(db.requests[id], db);
      FrozenFinish(db, id, done, back, t, u);
    case Suspend(rows) => TotalSame(LiveOf(u), db.requests, LiveOf(u), rows);
    case _ =>
  }

  lemma FrozenStep(db: Tables, c: Command, u: nat)
    requires Linked(db) && IsFrozen(db, u)
    ensures OnlyWoundDown(db, Step(db, c).db, u)
  {
    match c
    case OnAccount(a) => AccountFrame(db, a);
    case OnMeter(a) =>
      var m := MeterIs(db, a);
      FrozenMove(db, m, u);
    case OnPayment(a) =>
      var m := PaymentIs(db, a);
      FrozenMove(db, m, u);
  }

  lemma FrozenClaimsNothing(db: Tables, c: Command, o: nat)
    requires o < |db.orders| ==> IsFrozen(db, db.orders[o].user)
    ensures Step(db, c).out != Ok(Claim(o, true))
  {
    if Step(db, c).out == Ok(Claim(o, true)) {
      OnlyPaymentsClaim(db, c, o);
      OnlyCheckoutClaims(db, c.payment, o);
    }
  }

  /** A step keeps the owners of orders and refunds, and a debtor stays frozen. */
  lemma DebtorIsFrozen(db: Tables, f: nat)
    requires Reachable(db) && f < |db.refunds| && db.refunds[f].status.Risk?
    ensures Linked(db) && db.refunds[f].user < |db.wallets| && IsFrozen(db, db.refunds[f].user)
  {
    ReachableInvariant(db);
    assert RefundLinked(db.refunds[f], db);
  }

  lemma RefundOwnerStays(db: Tables, commands: seq<Command>, f: nat)
    requires Reachable(db) && f < |db.refunds|
    ensures var later := Run(db, commands);
            && f < |later.refunds| && later.refunds[f].user == db.refunds[f].user
            && (db.refunds[f].status.Resolved? ==> later.refunds[f].status.Resolved?)
            && (db.refunds[f].status.Risk? ==> later.refunds[f].status.Risk? || later.refunds[f].status.Resolved?)
  {
    ReachableInvariant(db);
    RunEvolves(db, commands);
    assert RefundNext(db.refunds[f], Run(db, commands).refunds[f]);
  }

  lemma OrderOwnerStays(db: Tables, commands: seq<Command>, o: nat)
    requires Reachable(db) && o < |db.orders|
    ensures o < |Run(db, commands).orders| && Run(db, commands).orders[o].user == db.orders[o].user
  {
    ReachableInvariant(db);
    RunEvolves(db, commands);
    assert OrderNext(db.orders[o], Run(db, commands).orders[o]);
  }

  /** The first step of a run at whose end the refund is still at risk. */
  lemma DebtorStep(db: Tables, c: Command, rest: seq<Command>, f: nat)
    requires Reachable(db) && f < |db.refunds| && db.refunds[f].status.Risk?
    requires f < |Run(Step(db, c).db, rest).refunds| && Run(Step(db, c).db, rest).refunds[f].status.Risk?
    ensures var next := Step(db, c).db;
            && Reachable(next) && f < |next.refunds| && next.refunds[f].status.Risk?
            && next.refunds[f].user == db.refunds[f].user
  {
    ReachableStep(db, c);
    RefundOwnerStays(db, [c], f);
    assert [c][1..] == [] && Run(db, [c]) == Run(Step(db, c).db, []);
    RefundOwnerStays(Step(db, c).db, rest, f);
  }

  /** While a refund stays at risk, its owner reserves nothing, claims no checkout of
      any order, those placed meanwhile included, and what is held can only shrink:
      the way to the disposition's condition that nothing is held. */
  lemma {:induction false} DebtorOnlyWindsDown(db: Tables, commands: seq<Command>, f: nat, o: nat)
    requires Reachable(db) && f < |db.refunds| && db.refunds[f].status.Risk?
    requires f < |Run(db, commands).refunds| && Run(db, commands).refunds[f].status.Risk?
    requires o < |Run(db, commands).orders| ==> Run(db, commands).orders[o].user == db.refunds[f].user
    ensures db.refunds[f].user < |db.wallets| && OnlyWoundDown(db, Run(db, commands), db.refunds[f].user)
    ensures Claims(db, commands, o) == 0
    decreases |commands|
  {
    var u := db.refunds[f].user;
    DebtorHasWallet(db, f);
    if |commands| > 0 {
      var next := Step(db, commands[0]).db;
      if o < |db.orders| { OrderOwnerStays(db, commands, o); }
      DebtorStep(db, commands[0], commands[1..], f);
      DebtorFirst(db, commands[0], f, o);
      DebtorOnlyWindsDown(next, commands[1..], f, o);
      RequestOwnersStay(next, commands[1..]);
      WindsDownOn(db, next, Run(next, commands[1..]), u);
    }
  }

  lemma DebtorHasWallet(db: Tables, f: nat)
    requires Reachable(db) && f < |db.refunds| && db.refunds[f].status.Risk?
    ensures db.refunds[f].user < |db.wallets|
  {
    DebtorIsFrozen(db, f);
  }

  lemma DebtorFirst(db: Tables, c: Command, f: nat, o: nat)
    requires Reachable(db) && f < |db.refunds| && db.refunds[f].status.Risk? && db.refunds[f].user < |db.wallets|
    requires o < |db.orders| ==> db.orders[o].user == db.refunds[f].user
    ensures OnlyWoundDown(db, Step(db, c).db, db.refunds[f].user) && Step(db, c).out != Ok(Claim(o, true))
  {
    DebtorIsFrozen(db, f);
    FrozenStep(db, c, db.refunds[f].user);
    FrozenClaimsNothing(db, c, o);
  }

  lemma WindsDownOn(a: Tables, b: Tables, c: Tables, u: nat)
    requires u < |a.wallets| <= |b.wallets| && OnlyWoundDown(a, b, u) && OnlyWoundDown(b, c, u)
    requires SameOwners(b, c)
    ensures OnlyWoundDown(a, c, u)
  {
  }

  ghost predicate SameOwners(a: Tables, b: Tables) {
    forall i | 0 <= i < |a.requests| :: i < |b.requests| && b.requests[i].user == a.requests[i].user
  }

  lemma RequestOwnersStay(db: Tables, commands: seq<Command>)
    requires Reachable(db)
    ensures SameOwners(db, Run(db, commands))
  {
    ReachableInvariant(db);
    RunEvolves(db, commands);
    forall i | 0 <= i < |db.requests| ensures Run(db, commands).requests[i].user == db.requests[i].user {
      assert RequestNext(db.requests[i], Run(db, commands).requests[i]);
    }
  }

  // ---------------------------------------------------------------- settlement

  /** A settlement that charged the whole cost and booked no platform risk. */
  ghost predicate ChargedInFull(db: Tables, id: nat, usage: Usage, reply: Reply) {
    && id < |db.requests| && reply.out.Ok? && reply.out.answer.Charge?
    && var cost := CustomerCost(db.requests[id], usage);
    && reply.out.answer.charged == cost
    && id < |reply.db.requests| && reply.db.requests[id].status.Settled? && reply.db.requests[id].charged == cost
    && |reply.db.journal| == |db.journal| + 1
    && AccountTotal(reply.db.journal[|db.journal|].entries, PlatformRisk) == 0
  }

  /** A cost within the hold is charged in full and books no platform risk. */
  lemma CoveredCostIsCharged(db: Tables, id: nat, usage: Usage, forced: bool, up: Upstream, caller: Caller)
    requires Linked(db) && id < |db.requests| && CustomerCost(db.requests[id], usage) <= db.requests[id].hold
    requires Settle(db, id, usage, forced, up, caller).out.Ok?
    ensures ChargedInFull(db, id, usage, Settle(db, id, usage, forced, up, caller))
  {
    var r := db.requests[id];
    assert RequestLinked(r, db);
    SettlementMoves(r.hold, CustomerCost(r, usage), UpstreamCost(r, usage, up));
  }

  /** The prices, the input estimate and the hold a demand was priced at. */
  predicate PricedFor(r: Request, d: Demand) {
    && d.price.Some? && r.inputPrice == d.price.value.input && r.outputPrice == d.price.value.output
    && r.inputTokens == EstimateTokens(d.text)
    && r.hold == HoldFor(d.price.value, d.value, d.text, d.maxOutput)
  }

  lemma ReservedAsPriced(db: Tables, user: nat, key: nat, d: Demand, clientKey: Option<string>, clock: Clock)
    ensures var id := |db.requests|; var first := Reserve(db, user, key, d, clientKey, clock);
            first.out.Ok? ==> id < |first.db.requests| && PricedFor(first.db.requests[id], d)
  {
  }

  lemma ReserveKeeps(db: Tables, user: nat, key: nat, d: Demand, clientKey: Option<string>, clock: Clock)
    requires Invariant(db)
    ensures Invariant(Reserve(db, user, key, d, clientKey, clock).db)
  {
    StepKeeps(db, OnMeter(DoReserve(user, key, d, clientKey, clock)));
  }

  /** What a request was priced at does not change while it is live. */
  lemma PriceStays(db: Tables, commands: seq<Command>, id: nat, d: Demand)
    requires Invariant(db) && id < |db.requests|
    ensures var later := Run(db, commands);
            && Invariant(later) && id < |later.requests|
            && (PricedFor(db.requests[id], d) && later.requests[id].Live() ==> PricedFor(later.requests[id], d))
  {
    RunEvolves(db, commands);
    assert RequestNext(db.requests[id], Run(db, commands).requests[id]);
  }

  /** Prices, hold and input estimate of a request stay what they were when it was
      reserved, for as long as it is live. */
  lemma ReservedTermsStay(db: Tables, user: nat, key: nat, d: Demand, clientKey: Option<string>, clock: Clock,
                          commands: seq<Command>)
    requires Invariant(db)
    ensures var id := |db.requests|; var first := Reserve(db, user, key, d, clientKey, clock); var later := Run(first.db, commands);
            first.out.Ok? ==>
              Invariant(later) && id < |later.requests| && (later.requests[id].Live() ==> PricedFor(later.requests[id], d))
  {
    ReserveKeeps(db, user, key, d, clientKey, clock);
    ReservedAsPriced(db, user, key, d, clientKey, clock);
    var first := Reserve(db, user, key, d, clientKey, clock);
    if first.out.Ok? { PriceStays(first.db, commands, |db.requests|, d); }
  }

  /** A request settled, by anyone and at any time after it was reserved, for usage
      within the bounds it was priced for is charged in full: it ends `Settled`,
      and its settlement books no platform risk. */
  lemma UsageWithinBoundsIsFullyCharged(
      db: Tables, user: nat, key: nat, d: Demand, clientKey: Option<string>, clock: Clock,
      commands: seq<Command>, usage: Usage, forced: bool, up: Upstream, caller: Caller)
    requires Invariant(db)
    requires usage.Input(EstimateTokens(d.text)) <= InputUpperBound(d.value, d.text) && usage.Output() <= d.maxOutput
    ensures var id := |db.requests|; var first := Reserve(db, user, key, d, clientKey, clock); var later := Run(first.db, commands);
            var reply := Settle(later, id, usage, forced, up, caller);
            first.out.Ok? && reply.out.Ok? ==> ChargedInFull(later, id, usage, reply)
  {
    var id := |db.requests|;
    var first := Reserve(db, user, key, d, clientKey, clock);
    var later := Run(first.db, commands);
    ReservedTermsStay(db, user, key, d, clientKey, clock, commands);
    if first.out.Ok? && Settle(later, id, usage, forced, up, caller).out.Ok? {
      HoldCoversUsage(d.price.value, d.value, d.text, d.maxOutput, usage.Input(EstimateTokens(d.text)), usage.Output());
      CoveredCostIsCharged(later, id, usage, forced, up, caller);
    }
  }

  /** The customer is never charged more than the hold, and what exceeds it is
      booked as platform risk, which is nonzero exactly for `UnderReserved`. */
  lemma SettlementSplitsTheCost(db: Tables, id: nat, usage: Usage, forced: bool, up: Upstream, caller: Caller)
    requires Invariant(db) && Settle(db, id, usage, forced, up, caller).out.Ok?
    ensures var reply := Settle(db, id, usage, forced, up, caller);
            && id < |db.requests| == |reply.db.requests| && |reply.db.journal| == |db.journal| + 1
            && var entries := reply.db.journal[|db.journal|].entries; var done := reply.db.requests[id];
            && 0 <= done.charged <= done.hold
            && CustomerCost(db.requests[id], usage) == done.charged - AccountTotal(entries, PlatformRisk)
            && AccountTotal(entries, PlatformRevenue) == CustomerCost(db.requests[id], usage)
            && AccountTotal(entries, ProviderExpense) == -AccountTotal(entries, ProviderPayable) == done.upstreamCost >= 0
            && (done.status.UnderReserved? <==> AccountTotal(entries, PlatformRisk) != 0)
  {
    var r := db.requests[id];
    assert RequestLinked(r, db);
    SettlementMoves(r.hold, CustomerCost(r, usage), UpstreamCost(r, usage, up));
  }

  // ---------------------------------------------------------------------- sweep

  /** The sweep suspends exactly the reservations as old as the lease or older, counts
      them, and touches nothing else. */
  lemma SweepSuspendsStale(db: Tables, leaseSeconds: int, now: Time)
    ensures var reply := Sweep(db, leaseSeconds, now); var after := reply.db;
            if 60 <= leaseSeconds <= 86_400 then
              && after == db.(requests := after.requests) && |after.requests| == |db.requests|
              && (forall i | 0 <= i < |db.requests| ::
                    var r := db.requests[i];
                    after.requests[i] == if r.status.Reserved? && now - r.createdAt >= leaseSeconds * 1_000_000
                                         then r.(status := PendingReconciliation) else r)
              && reply.out == Ok(Counted(CountRows(db.requests, (r: Request) => r.status.Reserved? && r.createdAt <= now - leaseSeconds * 1_000_000)))
            else reply == Refuse(db, LeaseOutOfRange)
  {
    var cutoff := now - leaseSeconds * SECOND;
    SameCount(db.requests, (r: Request) => Stale(r, cutoff), (r: Request) => r.status.Reserved? && r.createdAt <= now - leaseSeconds * 1_000_000);
  }

  lemma {:induction false} SameCount<T>(rows: seq<T>, p: T -> bool, q: T -> bool)
    requires forall i | 0 <= i < |rows| :: p(rows[i]) == q(rows[i])
    ensures CountRows(rows, p) == CountRows(rows, q)
  {
    if |rows| > 0 { SameCount(rows[..|rows| - 1], p, q); }
  }

  // ----------------------------------------------------------------------- budgets

  /** The user's active budgets of the month. */
  predicate Current(b: Budget, user: nat, start: Time) { b.user == user && b.active && b.start == start }

  /** In a reachable state a budget is set exactly for an existing account and a positive
      amount, when the month's budget holds nothing and has not spent more. It starts
      with everything charged in the month so far, takes the place of the month's
      earlier budget, and changes nothing else. */
  lemma BudgetIsSetIff(db: Tables, user: nat, amount: Money, now: Today)
    requires Reachable(db)
    ensures var reply := CreateBudget(db, user, amount, now); var (start, end) := MonthBounds(now);
            && (reply.out.Ok? <==> amount > 0 && user < |db.users|
                                   && forall b | 0 <= b < |db.budgets| && Current(db.budgets[b], user, start) ::
                                        db.budgets[b].reserved == 0 && db.budgets[b].spent <= amount)
            && (reply.out.Err? ==> reply.db == db)
            && (reply.out.Ok? ==>
                  var n := |db.budgets|; var after := reply.db.budgets;
                  && reply.out == Ok(Row(n)) && |after| == n + 1 && reply.db == db.(budgets := after)
                  && after[n] == Budget(user, amount, Total(ChargedIn(user, start, after), db.requests), 0, true, start, end)
                  && forall b | 0 <= b < n ::
                       after[b] == if Current(db.budgets[b], user, start) then db.budgets[b].(active := false) else db.budgets[b])
  {
    BudgetsNow(db);
    OneCurrent(db, user, MonthBounds(now).0);
    ReplacedBudgets(db, user, amount, now);
    if CreateBudget(db, user, amount, now).out.Ok? { NewBudgetHasSpent(db, user, amount, now); }
  }

  lemma BudgetsNow(db: Tables)
    requires Reachable(db)
    ensures BudgetsSound(db) && |db.wallets| == |db.users|
  {
    ReachableInvariant(db);
  }

  lemma OneCurrent(db: Tables, user: nat, start: Time)
    requires BudgetsSound(db)
    ensures forall i, j | 0 <= i < |db.budgets| && 0 <= j < |db.budgets| ::
              Current(db.budgets[i], user, start) && Current(db.budgets[j], user, start) ==> i == j
  {
    forall i, j | 0 <= i < j < |db.budgets| && Current(db.budgets[i], user, start) && Current(db.budgets[j], user, start) ensures false {
      assert SameMonth(db.budgets[i], db.budgets[j]);
    }
  }

  lemma ReplacedBudgets(db: Tables, user: nat, amount: Money, now: Today)
    requires BudgetsSound(db) && |db.wallets| == |db.users|
    requires forall i, j | 0 <= i < |db.budgets| && 0 <= j < |db.budgets| ::
               Current(db.budgets[i], user, MonthBounds(now).0) && Current(db.budgets[j], user, MonthBounds(now).0) ==> i == j
    ensures var reply := CreateBudget(db, user, amount, now); var (start, end) := MonthBounds(now);
            && (reply.out.Ok? <==> amount > 0 && user < |db.users|
                                   && forall b | 0 <= b < |db.budgets| && Current(db.budgets[b], user, start) ::
                                        db.budgets[b].reserved == 0 && db.budgets[b].spent <= amount)
            && (reply.out.Err? ==> reply.db == db)
            && (reply.out.Ok? ==>
                  var n := |db.budgets|; var after := reply.db.budgets;
                  && reply.out == Ok(Row(n)) && |after| == n + 1 && reply.db == db.(budgets := after)
                  && after[n] == Budget(user, amount, after[n].spent, 0, true, start, end)
                  && forall b | 0 <= b < n ::
                       after[b] == if Current(db.budgets[b], user, start) then db.budgets[b].(active := false) else db.budgets[b])
  {
    var found := CurrentBudget(db.budgets, user, MonthBounds(now).0);
    forall b | 0 <= b < |db.budgets| ensures Current(db.budgets[b], user, MonthBounds(now).0) <==> found == Some(b) {
      assert BudgetRow(db.budgets[b]);
    }
    if found.Some? { assert BudgetRow(db.budgets[found.value]); }
  }

  lemma NewBudgetHasSpent(db: Tables, user: nat, amount: Money, now: Today)
    requires Reachable(db) && CreateBudget(db, user, amount, now).out.Ok?
    ensures var after := CreateBudget(db, user, amount, now).db;
            && |after.budgets| == |db.budgets| + 1 && after.requests == db.requests
            && var b := after.budgets[|db.budgets|];
               b.spent == Total(ChargedIn(user, MonthBounds(now).0, after.budgets), after.requests)
  {
    ReachableStep(db, OnMeter(DoCreateBudget(user, amount, now)));
    BudgetsNow(CreateBudget(db, user, amount, now).db);
  }

  // ------------------------------------------------------------- rewritten ids

  function LongestId(db: Tables): nat { Max(LongestTxn(db.orders), LongestEvent(db.events)) }

  function LongestTxn(orders: seq<Order>): nat {
    if |orders| == 0 then 0
    else Max(LongestTxn(orders[..|orders| - 1]), if orders[|orders| - 1].txn.Some? then |orders[|orders| - 1].txn.value| else 0)
  }

  function LongestEvent(events: seq<WebhookEvent>): nat {
    if |events| == 0 then 0
    else Max(LongestEvent(events[..|events| - 1]), Max(|events[|events| - 1].eventId|, |events[|events| - 1].nonce|))
  }

  lemma {:induction false} TxnBound(orders: seq<Order>, i: nat)
    requires i < |orders| && orders[i].txn.Some?
    ensures |orders[i].txn.value| <= LongestTxn(orders)
  {
    if i < |orders| - 1 { TxnBound(orders[..|orders| - 1], i); }
  }

  lemma {:induction false} EventBound(events: seq<WebhookEvent>, i: nat)
    requires i < |events|
    ensures |events[i].eventId| <= LongestEvent(events) && |events[i].nonce| <= LongestEvent(events)
  {
    if i < |events| - 1 { EventBound(events[..|events| - 1], i); }
  }

  /** An id no row of the database carries. */
  lemma UnusedId(db: Tables) returns (id: string)
    ensures id != "" && EventById(db.events, TEST_PROVIDER, id).None? && !NonceUsed(db.events, TEST_PROVIDER, id)
    ensures forall i | 0 <= i < |db.orders| :: db.orders[i].txn != Some(id)
  {
    id := seq(LongestId(db) + 1, i => 'e');
    forall i | 0 <= i < |db.orders| ensures db.orders[i].txn != Some(id) {
      if db.orders[i].txn.Some? { TxnBound(db.orders, i); }
    }
    forall i | 0 <= i < |db.events| ensures db.events[i].eventId != id && db.events[i].nonce != id {
      EventBound(db.events, i);
    }
  }

  /** Some command would change the transaction id the order has. */
  ghost predicate Rewritable(db: Tables, o: nat) {
    exists c :: o < |db.orders| <= |Step(db, c).db.orders| && Step(db, c).db.orders[o].txn != db.orders[o].txn
  }

  /** Exactly when a known transaction id can be rewritten by the next step: the
      order is pending and was placed under the test provider's name. */
  lemma TransactionIdIsRewritable(db: Tables, o: nat)
    requires Reachable(db) && o < |db.orders| && db.orders[o].txn.Some?
    ensures Rewritable(db, o) <==> db.orders[o].quote.provider == TEST_PROVIDER && db.orders[o].status.Pending?
  {
    ReachableOrders(db);
    if db.orders[o].quote.provider == TEST_PROVIDER && db.orders[o].status.Pending? {
      TestEventRewrites(db, o);
    } else {
      NothingRewrites(db, o);
    }
  }

  lemma TestEventRewrites(db: Tables, o: nat)
    requires Linked(db) && KeysOk(db) && o < |db.orders| && db.orders[o].txn.Some?
    requires db.orders[o].quote.provider == TEST_PROVIDER && db.orders[o].status.Pending?
    ensures Rewritable(db, o)
  {
    var id := UnusedId(db);
    var c := OnPayment(DoTestWebhook(id, "digest", o, db.orders[o].quote.credit));
    TestEventCredits(db, id, o);
    assert Step(db, c).db.orders[o].txn != db.orders[o].txn;
  }

  lemma NothingRewrites(db: Tables, o: nat)
    requires Linked(db) && o < |db.orders| && db.orders[o].txn.Some?
    requires !(db.orders[o].quote.provider == TEST_PROVIDER && db.orders[o].status.Pending?)
    ensures !Rewritable(db, o)
  {
    forall c ensures o < |Step(db, c).db.orders| && Step(db, c).db.orders[o].txn == db.orders[o].txn {
      KeepsTransactionId(db, c, o);
    }
  }

  lemma TestEventCredits(db: Tables, id: string, o: nat)
    requires Linked(db) && KeysOk(db) && o < |db.orders| && db.orders[o].quote.provider == TEST_PROVIDER
    requires db.orders[o].status.Pending? && id != "" && EventById(db.events, TEST_PROVIDER, id).None?
    requires !NonceUsed(db.events, TEST_PROVIDER, id) && forall i | 0 <= i < |db.orders| :: db.orders[i].txn != Some(id)
    ensures var reply := TestWebhook(db, id, "digest", o, db.orders[o].quote.credit);
            reply.out.Ok? && |reply.db.orders| == |db.orders| && reply.db.orders[o].txn == Some(id)
  {
    UnusedKey(db, PaymentKey(TEST_PROVIDER, id));
    CreditPosts(db, o);
  }

  lemma KeepsTransactionId(db: Tables, c: Command, o: nat)
    requires Linked(db) && o < |db.orders| && db.orders[o].txn.Some?
    requires db.orders[o].quote.provider == TEST_PROVIDER ==> !db.orders[o].status.Pending?
    ensures o < |Step(db, c).db.orders| && Step(db, c).db.orders[o].txn == db.orders[o].txn
  {
    match c
    case OnAccount(a) => AccountFrame(db, a);
    case OnMeter(a) => MeterKeepsTransactionId(db, a, o);
    case OnPayment(a) =>
      if a.DoTestWebhook? { TestKeepsTransactionId(db, a, o); }
      else if a.DoWebhook? { WebhookKeepsTransactionId(db, a.notice, o); }
      else { OtherPaymentKeepsTransactionId(db, a, o); }
  }

  lemma MeterKeepsOrderRows(db: Tables, c: MeterCommand)
    ensures MeterStep(db, c).db.orders == db.orders
  {
  }

  lemma MeterKeepsTransactionId(db: Tables, c: MeterCommand, o: nat)
    requires Linked(db) && o < |db.orders| && db.orders[o].txn.Some?
    ensures o < |MeterStep(db, c).db.orders| && MeterStep(db, c).db.orders[o].txn == db.orders[o].txn
  {
    MeterKeepsOrderRows(db, c);
  }

  lemma WebhookKeepsTransactionId(db: Tables, n: Notice, o: nat)
    requires Linked(db) && o < |db.orders| && db.orders[o].txn.Some?
    ensures o < |ApplyWebhook(db, n).db.orders| && ApplyWebhook(db, n).db.orders[o].txn == db.orders[o].txn
  {
    var m := WebhookIs(db, n);
    MoveKeepsTransactionId(db, m, o);
  }

  lemma TestKeepsTransactionId(db: Tables, c: PaymentCommand, o: nat)
    requires c.DoTestWebhook? && o < |db.orders|
    requires db.orders[o].quote.provider == TEST_PROVIDER ==> !db.orders[o].status.Pending?
    ensures |PaymentStep(db, c).db.orders| == |db.orders| && PaymentStep(db, c).db.orders[o].txn == db.orders[o].txn
  {
  }

  lemma MoveKeepsTransactionId(db: Tables, m: Move, o: nat)
    requires Legal(db, m) && o < |db.orders| && db.orders[o].txn.Some?
    requires m.Credit? ==> m.crediting.kind.KindPaymentCredit?
    ensures o < |Make(db, m).orders| && Make(db, m).orders[o].txn == db.orders[o].txn
  {
  }

  lemma OtherPaymentKeepsTransactionId(db: Tables, c: PaymentCommand, o: nat)
    requires Linked(db) && o < |db.orders| && db.orders[o].txn.Some? && !c.DoTestWebhook? && !c.DoWebhook?
    ensures o < |PaymentStep(db, c).db.orders| && PaymentStep(db, c).db.orders[o].txn == db.orders[o].txn
  {
    var m := OtherPaymentIs(db, c);
    MoveKeepsTransactionId(db, m, o);
  }
}
