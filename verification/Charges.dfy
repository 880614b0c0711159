/** What requests are charged, in tokens and prices: the hold of a reservation, and
    the rows, columns and entries that a settlement and a release leave. Stated
    against the exact ceilings, not through the cost functions of the model. */
module Charges {
  import opened Schema
  import opened Json
  import opened Pricing
  import opened Budgets
  import opened JournalBooks
  import opened Billing
  import opened Machine
  import opened Moves
  import opened Classify
  import opened BudgetSpend
  import opened Orders
  import opened Reachability
  import opened Anomalies

  // ---------------------------------------------------------------- exact prices

  /** Tokens at a price per million, rounded up: no price for no tokens. */
  function Exact(tokens: int, price: int): int {
    if tokens <= 0 || price <= 0 then 0 else
      assert tokens * price > 0;
      CeilDiv(tokens * price, MILLION)
  }

  /** The exact price is the least whole one that covers the tokens. */
  lemma ExactIsLeast(tokens: int, price: int)
    requires tokens > 0 && price > 0
    ensures (Exact(tokens, price) - 1) * MILLION < tokens * price <= Exact(tokens, price) * MILLION
  {
    assert tokens * price > 0;
    var a := tokens * price + MILLION - 1;
    Division(a, MILLION);
  }

  /** The product is small enough for the float quotient to be exact. */
  predicate Precise(tokens: int, price: int) { tokens <= 0 || price <= 0 || tokens * price <= BOUND * MILLION }

  lemma TokenCostIsPrice(tokens: int, price: int)
    requires Precise(tokens, price)
    ensures TokenCost(tokens, price) == Exact(tokens, price)
  {
    if tokens > 0 && price > 0 {
      assert tokens * price > 0;
      TokenCostIsExact(tokens, price);
    }
  }

  // ------------------------------------------------------------------ settlement

  function InputOf(r: Request, usage: Usage): int {
    match usage
    case Reported(prompt, _) => prompt
    case Unreported(_) => r.inputTokens
  }

  function OutputOf(usage: Usage): int {
    match usage
    case Reported(_, completion) => completion
    case Unreported(output) => output
  }

  /** Both products of a usage are precise at these prices. */
  predicate PreciseAt(r: Request, usage: Usage, inputPrice: int, outputPrice: int) {
    Precise(InputOf(r, usage), inputPrice) && Precise(OutputOf(usage), outputPrice)
  }

  function PriceAt(r: Request, usage: Usage, inputPrice: int, outputPrice: int): int {
    Exact(InputOf(r, usage), inputPrice) + Exact(OutputOf(usage), outputPrice)
  }

  /** The provider's price, or the customer's where the provider names none. */
  function Or(price: Option<int>, otherwise: int): int { if price.Some? then price.value else otherwise }

  /** The row of a request settled for a usage: its tokens are the reported counts, or
      the stored input estimate and the estimated output; it is charged input and
      output at its own prices, up to its hold, and owes the provider theirs. */
  predicate SettledFor(before: Request, after: Request, usage: Usage, forced: bool, up: Upstream) {
    && after == before.(status := after.status, charged := after.charged, upstreamCost := after.upstreamCost,
                        inputTokens := InputOf(before, usage), outputTokens := OutputOf(usage),
                        estimated := usage.Unreported? || forced)
    && (PreciseAt(before, usage, before.inputPrice, before.outputPrice) ==>
          var cost := PriceAt(before, usage, before.inputPrice, before.outputPrice);
          && after.charged == Min(cost, before.hold)
          && after.status == if cost <= before.hold then Settled else UnderReserved)
    && (up.cost.Some? ==> after.upstreamCost == up.cost.value)
    && (up.cost.None? && PreciseAt(before, usage, Or(up.inputPrice, before.inputPrice), Or(up.outputPrice, before.outputPrice)) ==>
          after.upstreamCost == PriceAt(before, usage, Or(up.inputPrice, before.inputPrice), Or(up.outputPrice, before.outputPrice)))
  }

  lemma CustomerCostIsPrice(r: Request, usage: Usage)
    requires PreciseAt(r, usage, r.inputPrice, r.outputPrice)
    ensures CustomerCost(r, usage) == PriceAt(r, usage, r.inputPrice, r.outputPrice)
  {
    TokenCostIsPrice(InputOf(r, usage), r.inputPrice);
    TokenCostIsPrice(OutputOf(usage), r.outputPrice);
  }

  lemma UpstreamCostIsPrice(r: Request, usage: Usage, up: Upstream)
    requires up.cost.None? && PreciseAt(r, usage, Or(up.inputPrice, r.inputPrice), Or(up.outputPrice, r.outputPrice))
    ensures UpstreamCost(r, usage, up) == PriceAt(r, usage, Or(up.inputPrice, r.inputPrice), Or(up.outputPrice, r.outputPrice))
  {
    TokenCostIsPrice(InputOf(r, usage), Or(up.inputPrice, r.inputPrice));
    TokenCostIsPrice(OutputOf(usage), Or(up.outputPrice, r.outputPrice));
  }

  /** A granted settlement writes the row of the usage it was given, and answers with
      its charge. */
  lemma SettlementIsPriced(db: Tables, id: nat, usage: Usage, forced: bool, up: Upstream, caller: Caller)
    requires Settle(db, id, usage, forced, up, caller).out.Ok?
    ensures var reply := Settle(db, id, usage, forced, up, caller);
            && id < |db.requests| == |reply.db.requests|
            && SettledFor(db.requests[id], reply.db.requests[id], usage, forced, up)
            && reply.out.answer == Charge(reply.db.requests[id].charged, usage.Unreported? || forced)
  {
    var r := db.requests[id];
    if PreciseAt(r, usage, r.inputPrice, r.outputPrice) { CustomerCostIsPrice(r, usage); }
    var inputPrice, outputPrice := Or(up.inputPrice, r.inputPrice), Or(up.outputPrice, r.outputPrice);
    if up.cost.None? && PreciseAt(r, usage, inputPrice, outputPrice) { UpstreamCostIsPrice(r, usage, up); }
  }

  /** The budget a request is bound to gives the hold up and has the charge added to
      its spend; the others stay. */
  predicate BudgetGivesUp(budgets: seq<Budget>, after: seq<Budget>, bound: Option<nat>, hold: Money, charged: Money) {
    match bound
    case None => after == budgets
    case Some(b) =>
      && b < |budgets|
      && after == budgets[b := budgets[b].(reserved := budgets[b].reserved - hold, spent := budgets[b].spent + charged)]
  }
  /** What a granted settlement found and leaves. */
  lemma SettlementCommits(db: Tables, id: nat, usage: Usage, forced: bool, up: Upstream, caller: Caller)
    requires Settle(db, id, usage, forced, up, caller).out.Ok?
    ensures id < |db.requests| && db.requests[id].user < |db.wallets|
    ensures var reply := Settle(db, id, usage, forced, up, caller); var r := db.requests[id]; var w := db.wallets[r.user];
            && id < |reply.db.requests|
            && var done := reply.db.requests[id];
            && done.charged == Min(CustomerCost(r, usage), r.hold) && done.upstreamCost == UpstreamCost(r, usage, up)
            && BudgetGivesUp(db.budgets, reply.db.budgets, r.budget, r.hold, done.charged)
            && reply.db == db.(wallets := db.wallets[r.user := Wallet(w.balance + r.hold - done.charged, w.reserved - r.hold)],
                               budgets := reply.db.budgets, requests := db.requests[id := done],
                               journal := db.journal + [Settling(r, id, CustomerCost(r, usage), UpstreamCost(r, usage, up))])
  {
  }

  function Settling(r: Request, id: nat, cost: Money, upstream: Money): Transaction {
    Transaction(r.user, KindSettle, RequestRef(id), SettleKey(id), Normalize(SettlementEntries(r.hold, cost, upstream)))
  }

  /** The columns of a granted settlement: the hold leaves the wallet and the budget,
      what is not charged returns to the balance, and the charge is spent. */
  lemma SettlementMovesHold(db: Tables, id: nat, usage: Usage, forced: bool, up: Upstream, caller: Caller)
    requires Settle(db, id, usage, forced, up, caller).out.Ok?
    ensures id < |db.requests| && db.requests[id].user < |db.wallets|
    ensures var reply := Settle(db, id, usage, forced, up, caller); var r := db.requests[id]; var w := db.wallets[r.user];
            && id < |reply.db.requests|
            && var done := reply.db.requests[id];
            && BudgetGivesUp(db.budgets, reply.db.budgets, r.budget, r.hold, done.charged)
            && reply.db == db.(wallets := db.wallets[r.user := Wallet(w.balance + r.hold - done.charged, w.reserved - r.hold)],
                               budgets := reply.db.budgets, requests := db.requests[id := done], journal := reply.db.journal)
  {
    SettlementCommits(db, id, usage, forced, up, caller);
  }

  /** The entries of a granted settlement: the revenue is the whole price, whatever
      part of it was charged, the rest is platform risk, and the provider's price is
      expense and payable. */
  lemma SettlementBooksPrice(db: Tables, id: nat, usage: Usage, forced: bool, up: Upstream, caller: Caller)
    requires Linked(db) && Settle(db, id, usage, forced, up, caller).out.Ok?
    ensures var after := Settle(db, id, usage, forced, up, caller).db;
            && id < |db.requests| && |after.journal| == |db.journal| + 1 && db.journal <= after.journal && id < |after.requests|
            && var r := db.requests[id]; var done := after.requests[id]; var t := after.journal[|db.journal|];
            && t.kind == KindSettle && t.user == r.user && t.ref == RequestRef(id)
            && AccountTotal(t.entries, CustomerAvailable) == r.hold - done.charged
            && AccountTotal(t.entries, CustomerReserved) == -r.hold
            && AccountTotal(t.entries, ProviderExpense) == done.upstreamCost == -AccountTotal(t.entries, ProviderPayable)
            && (PreciseAt(r, usage, r.inputPrice, r.outputPrice) ==>
                  var price := PriceAt(r, usage, r.inputPrice, r.outputPrice);
                  && AccountTotal(t.entries, PlatformRevenue) == price
                  && AccountTotal(t.entries, PlatformRisk) == done.charged - price)
  {
    SettlementCommits(db, id, usage, forced, up, caller);
    var r := db.requests[id];
    assert RequestLinked(r, db);
    SettlementMoves(r.hold, CustomerCost(r, usage), UpstreamCost(r, usage, up));
    if PreciseAt(r, usage, r.inputPrice, r.outputPrice) { CustomerCostIsPrice(r, usage); }
  }

  /** In a reachable state a settlement is granted exactly to the caller whose turn it
      is, unless an operator states a negative cost; refused, it changes nothing. */
  lemma SettlementIsGrantedIff(db: Tables, id: nat, usage: Usage, forced: bool, up: Upstream, caller: Caller)
    requires Reachable(db)
    ensures var reply := Settle(db, id, usage, forced, up, caller);
            && (reply.out.Ok? <==> TurnOf(db, id, caller) && (up.cost.Some? ==> up.cost.value >= 0))
            && (reply.out.Err? ==> reply.db == db)
  {
    SettlementIsClean(db, id, usage, forced, up, caller);
    CleanSettlementIff(db, id, usage, forced, up, caller);
  }

  lemma SettlementIsClean(db: Tables, id: nat, usage: Usage, forced: bool, up: Upstream, caller: Caller)
    requires Reachable(db)
    ensures Clean(Settle(db, id, usage, forced, up, caller).out)
  {
    ReachableInvariant(db);
    SettleClean(db, id, usage, forced, up, caller);
  }

  lemma CleanSettlementIff(db: Tables, id: nat, usage: Usage, forced: bool, up: Upstream, caller: Caller)
    requires Clean(Settle(db, id, usage, forced, up, caller).out)
    ensures var reply := Settle(db, id, usage, forced, up, caller);
            && (reply.out.Ok? <==> TurnOf(db, id, caller) && (up.cost.Some? ==> up.cost.value >= 0))
            && (reply.out.Err? ==> reply.db == db)
  {
  }

  /** A reserved request is the gateway's to finish, one in reconciliation an operator's. */
  predicate TurnOf(db: Tables, id: nat, caller: Caller) {
    && id < |db.requests|
    && match caller
       case Gateway => db.requests[id].status.Reserved?
       case Operator => db.requests[id].status.PendingReconciliation?
  }

  // --------------------------------------------------------------------- release

  lemma ReleaseCommits(db: Tables, id: nat, caller: Caller)
    requires TurnOf(db, id, caller) && db.requests[id].hold >= 1
    requires HoldAnomaly(db, db.requests[id]).None? && !KeyUsed(db.journal, ReleaseKey(id))
    ensures db.requests[id].user < |db.wallets|
    ensures var r := db.requests[id]; var w := db.wallets[r.user]; var reply := Release(db, id, caller);
            var kind := if caller.Gateway? then KindRelease else KindOperatorRelease;
            && reply.out == Ok(Nothing) && BudgetGivesUp(db.budgets, reply.db.budgets, r.budget, r.hold, 0)
            && reply.db == db.(wallets := db.wallets[r.user := Wallet(w.balance + r.hold, w.reserved - r.hold)],
                               budgets := reply.db.budgets,
                               requests := db.requests[id := r.(status := if caller.Gateway? then Failed else ReconciledReleased)],
                               journal := db.journal + [Written(r.user, kind, RequestRef(id), ReleaseKey(id),
                                                                Entries2(CustomerReserved, -r.hold, CustomerAvailable, r.hold))])
  {
    var r := db.requests[id];
    TransferMoves(CustomerReserved, CustomerAvailable, -r.hold, r.hold);
  }

  /** In a reachable state a release by the caller whose turn it is gives the whole
      hold back and charges nothing; any other changes nothing. */
  lemma ReleaseGivesBack(db: Tables, id: nat, caller: Caller)
    requires Reachable(db)
    ensures var reply := Release(db, id, caller);
            && reply.out == Ok(Nothing)
            && (!TurnOf(db, id, caller) ==> reply.db == db)
            && (TurnOf(db, id, caller) ==>
                  && db.requests[id].user < |db.wallets| && |reply.db.journal| == |db.journal| + 1
                  && var r := db.requests[id]; var w := db.wallets[r.user]; var t := reply.db.journal[|db.journal|];
                  && BudgetGivesUp(db.budgets, reply.db.budgets, r.budget, r.hold, 0)
                  && reply.db == db.(wallets := db.wallets[r.user := Wallet(w.balance + r.hold, w.reserved - r.hold)],
                                     budgets := reply.db.budgets,
                                     requests := db.requests[id := r.(status := if caller.Gateway? then Failed else ReconciledReleased)],
                                     journal := db.journal + [t])
                  && t.user == r.user && t.ref == RequestRef(id) && t.kind in {KindRelease, KindOperatorRelease})
  {
    ReachableInvariant(db);
    if TurnOf(db, id, caller) {
      FinishClean(db, id);
      ReleaseCommits(db, id, caller);
    }
  }

  // ----------------------------------------------------------------- reservation

  lemma {:induction false} BytesByWidth(text: string)
    ensures Utf8Length(text) == |text| + CountRows(text, (c: char) => c as int >= 0x80)
                                + CountRows(text, (c: char) => c as int >= 0x800) + CountRows(text, (c: char) => c as int >= 0x10000)
  {
    if |text| > 0 { BytesByWidth(text[..|text| - 1]); }
  }

  /** Four characters to the token, and never no token. */
  lemma EstimateIs(text: string)
    ensures var n := EstimateTokens(text); if text == "" then n == 1 else 4 * (n - 1) < |text| <= 4 * n
  {
  }

  function Items(value: Json, field: string): nat {
    if value.JObject? && field in value.fields && value.fields[field].JList? then |value.fields[field].items| else 0
  }

  /** The hold is the exact price of the request's bytes with a fixed margin, and of
      all the output it may ask for, but never nothing. */
  lemma HoldIs(price: Price, value: Json, text: string, maxOutput: int)
    ensures var input := Utf8Length(text) + 4096 + 32 * (Items(value, "messages") + Items(value, "tools"));
            Precise(input, price.input) && Precise(maxOutput, price.output) ==>
              HoldFor(price, value, text, maxOutput) == Max(1, Exact(input, price.input) + Exact(maxOutput, price.output))
  {
    var input := Utf8Length(text) + 4096 + 32 * (Items(value, "messages") + Items(value, "tools"));
    assert InputUpperBound(value, text) == input;
    if Precise(input, price.input) { TokenCostIsPrice(input, price.input); }
    if Precise(maxOutput, price.output) { TokenCostIsPrice(maxOutput, price.output); }
  }

  /** Every budget of the user that covers the look-up still covers the update and has
      room for the hold. */
  ghost predicate BudgetsAllow(budgets: seq<Budget>, user: nat, clock: Clock, hold: Money) {
    forall b | 0 <= b < |budgets| && budgets[b].user == user && budgets[b].active && budgets[b].start <= clock.lookup < budgets[b].end ::
      budgets[b].spent + budgets[b].reserved + hold <= budgets[b].limit && budgets[b].start <= clock.update < budgets[b].end
  }

  /** A priced demand within the model's limit, under a key the user has not used, of
      an active account with an active key of its own, that can pay the hold. */
  ghost predicate Admissible(db: Tables, user: nat, key: nat, d: Demand, clientKey: Option<string>, clock: Clock) {
    && d.price.Some? && d.maxOutput <= d.price.value.maxOutput
    && (forall i | 0 <= i < |db.requests| && clientKey.Some? :: db.requests[i].user != user || db.requests[i].clientKey != clientKey)
    && user < |db.users| && db.users[user].status.Active? && key < |db.keys| && db.keys[key] == ApiKey(user, true)
    && var hold: Money := HoldFor(d.price.value, d.value, d.text, d.maxOutput);
    && user < |db.wallets| && hold <= db.wallets[user].balance && BudgetsAllow(db.budgets, user, clock, hold)
  }

  /** The same of the one budget the reservation looks up. */
  predicate GoverningAllows(budgets: seq<Budget>, user: nat, clock: Clock, hold: Money) {
    match ActiveBudget(budgets, user, clock.lookup)
    case None => true
    case Some(b) => budgets[b].limit - budgets[b].spent - budgets[b].reserved >= hold && Governs(budgets[b], user, clock.update)
  }

  lemma GoverningBudget(db: Tables, user: nat, clock: Clock, hold: Money)
    requires BudgetsSound(db)
    ensures BudgetsAllow(db.budgets, user, clock, hold) <==> GoverningAllows(db.budgets, user, clock, hold)
  {
    var found := ActiveBudget(db.budgets, user, clock.lookup);
    if found.Some? {
      forall b | 0 <= b < |db.budgets| && Governs(db.budgets[b], user, clock.lookup) ensures b == found.value {
        OneBudgetGoverns(db, user, clock.lookup, b, found.value);
      }
    }
  }

  lemma FreeClientKey(requests: seq<Request>, user: nat, clientKey: Option<string>)
    requires clientKey.Some?
    ensures ClientKeyTaken(requests, user, clientKey.value)
            <==> exists i | 0 <= i < |requests| :: requests[i].user == user && requests[i].clientKey == clientKey
  {
  }

  lemma ObstacleIff(db: Tables, user: nat, key: nat, d: Demand, clientKey: Option<string>, clock: Clock)
    requires |db.wallets| == |db.users|
    requires d.price.Some? ==>
               var hold: Money := HoldFor(d.price.value, d.value, d.text, d.maxOutput);
               BudgetsAllow(db.budgets, user, clock, hold) <==> GoverningAllows(db.budgets, user, clock, hold)
    ensures ReserveObstacle(db, user, key, d, clientKey, clock).None? <==> Admissible(db, user, key, d, clientKey, clock)
  {
    if clientKey.Some? { FreeClientKey(db.requests, user, clientKey); }
  }

  lemma ReservationRows(db: Tables, user: nat, d: Demand, clock: Clock)
    requires Reachable(db)
    ensures |db.wallets| == |db.users| && KeysOk(db)
    ensures d.price.Some? ==>
              var hold: Money := HoldFor(d.price.value, d.value, d.text, d.maxOutput);
              BudgetsAllow(db.budgets, user, clock, hold) <==> GoverningAllows(db.budgets, user, clock, hold)
  {
    ReachableInvariant(db);
    if d.price.Some? { GoverningBudget(db, user, clock, HoldFor(d.price.value, d.value, d.text, d.maxOutput)); }
  }

  /** In a reachable state a reservation is granted exactly to an admissible demand;
      refused, it changes nothing. */
  lemma ReservationIsGrantedIff(db: Tables, user: nat, key: nat, d: Demand, clientKey: Option<string>, clock: Clock)
    requires Reachable(db)
    ensures var reply := Reserve(db, user, key, d, clientKey, clock);
            && (reply.out.Ok? <==> Admissible(db, user, key, d, clientKey, clock))
            && (reply.out.Err? ==> reply.db == db)
  {
    ReservationRows(db, user, d, clock);
    ObstacleIff(db, user, key, d, clientKey, clock);
    ReservationPosts(db, user, key, d, clientKey, clock);
  }

  lemma ReservationPosts(db: Tables, user: nat, key: nat, d: Demand, clientKey: Option<string>, clock: Clock)
    requires KeysOk(db)
    ensures Reserve(db, user, key, d, clientKey, clock).out.Ok? <==> ReserveObstacle(db, user, key, d, clientKey, clock).None?
  {
    UnusedKey(db, ReserveKey(|db.requests|));
    if ReserveObstacle(db, user, key, d, clientKey, clock).None? {
      var hold: Money := HoldFor(d.price.value, d.value, d.text, d.maxOutput);
      TransferMoves(CustomerAvailable, CustomerReserved, -hold, hold);
    }
  }

  /** A granted reservation sets the hold aside in the wallet and in the budget that
      covers the look-up, and records what it was priced at and when. */
  lemma ReservationSetsAside(db: Tables, user: nat, key: nat, d: Demand, clientKey: Option<string>, clock: Clock)
    ensures var reply := Reserve(db, user, key, d, clientKey, clock);
            reply.out.Ok? ==>
            && reply.out.answer == Row(|db.requests|) && |reply.db.requests| == |db.requests| + 1
            && d.price.Some? && user < |db.wallets| && |reply.db.journal| == |db.journal| + 1
            && var hold: Money := HoldFor(d.price.value, d.value, d.text, d.maxOutput); var w := db.wallets[user];
               var bound := reply.db.requests[|db.requests|].budget; var t := reply.db.journal[|db.journal|];
            && reply.db == db.(wallets := db.wallets[user := Wallet(w.balance - hold, w.reserved + hold)],
                               budgets := reply.db.budgets, journal := db.journal + [t],
                               requests := db.requests + [Request(user, key, bound, clientKey, Reserved, d.price.value.input, d.price.value.output,
                                                                  hold, 0, 0, EstimateTokens(d.text), 0, true, clock.created)])
            && t.kind == KindReserve && t.user == user && t.ref == RequestRef(|db.requests|)
            && BoundTo(db.budgets, user, clock.lookup, bound)
            && BudgetGivesUp(db.budgets, reply.db.budgets, bound, -hold, 0)
  {
    ReservationCommits(db, user, key, d, clientKey, clock);
    GoverningIsBound(db.budgets, user, clock.lookup);
  }

  lemma ReservationCommits(db: Tables, user: nat, key: nat, d: Demand, clientKey: Option<string>, clock: Clock)
    ensures var reply := Reserve(db, user, key, d, clientKey, clock); var id := |db.requests|;
            reply.out.Ok? ==>
            && d.price.Some? && user < |db.wallets|
            && var hold: Money := HoldFor(d.price.value, d.value, d.text, d.maxOutput); var w := db.wallets[user];
            var bound := ActiveBudget(db.budgets, user, clock.lookup);
            && reply.out.answer == Row(id)
            && BudgetGivesUp(db.budgets, reply.db.budgets, bound, -hold, 0)
            && reply.db == db.(wallets := db.wallets[user := Wallet(w.balance - hold, w.reserved + hold)],
                               budgets := reply.db.budgets,
                               requests := db.requests + [Request(user, key, bound, clientKey, Reserved, d.price.value.input, d.price.value.output,
                                                                  hold, 0, 0, EstimateTokens(d.text), 0, true, clock.created)],
                               journal := db.journal + [Written(user, KindReserve, RequestRef(id), ReserveKey(id),
                                                                Entries2(CustomerAvailable, -hold, CustomerReserved, hold))])
  {
  }

  lemma GoverningIsBound(budgets: seq<Budget>, user: nat, now: Time)
    ensures BoundTo(budgets, user, now, ActiveBudget(budgets, user, now))
  {
    var found := ActiveBudget(budgets, user, now);
    if found.None? {
      forall b | 0 <= b < |budgets| ensures !(budgets[b].user == user && budgets[b].active && budgets[b].start <= now < budgets[b].end) {
        assert !Governs(budgets[b], user, now);
      }
    }
  }

  /** The budget a request is bound to: one of the user's that covers the instant, and
      none only when there is none. */
  ghost predicate BoundTo(budgets: seq<Budget>, user: nat, now: Time, bound: Option<nat>) {
    match bound
    case Some(b) => b < |budgets| && budgets[b].user == user && budgets[b].active && budgets[b].start <= now < budgets[b].end
    case None => forall b | 0 <= b < |budgets| :: !(budgets[b].user == user && budgets[b].active && budgets[b].start <= now < budgets[b].end)
  }
}
