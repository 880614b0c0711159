/** The inductive invariant, and what it says of every state of every run. */
module Reachability {
  import opened Schema
  import opened Budgets
  import opened JournalBooks
  import opened Identity
  import opened Payments
  import opened Machine
  import opened Moves
  import opened Classify
  import opened Books
  import opened BudgetSpend
  import opened Orders
  import opened Access

  ghost predicate Invariant(db: Tables) {
    Sound(db) && BudgetsSound(db) && OrdersSound(db) && AccessSound(db)
  }

  lemma EmptyInvariant()
    ensures Invariant(EMPTY)
  {
  }

  /** An account command touches accounts and credentials only. */
  lemma AccountFrame(db: Tables, c: AccountCommand)
    ensures var db' := AccountStep(db, c).db;
            && db'.budgets == db.budgets && db'.requests == db.requests && db'.orders == db.orders
            && db'.refunds == db.refunds && db'.events == db.events && db'.journal == db.journal
            && (db'.wallets == db.wallets || db'.wallets == db.wallets + [Wallet(0, 0)])
  {
  }

  lemma AccountKeeps(db: Tables, c: AccountCommand)
    requires Invariant(db)
    ensures Invariant(AccountStep(db, c).db)
  {
    AccountFrame(db, c);
    AccountSoundKept(db, c);
    AccountKeepsAccess(db, c);
    assert OrdersSound(AccountStep(db, c).db) by { KeysFrame(db, AccountStep(db, c).db); }
  }

  lemma KeysFrame(db: Tables, db': Tables)
    requires KeysOk(db)
    requires db'.requests == db.requests && db'.refunds == db.refunds && db'.events == db.events && db'.journal == db.journal
    ensures KeysOk(db')
  {
    forall i | 0 <= i < |db'.journal| ensures KeyOk(db', db'.journal[i].key) {
      assert KeyOk(db, db.journal[i].key);
    }
  }

  lemma MoveKeeps(db: Tables, m: Move)
    requires Invariant(db) && Legal(db, m)
    ensures Invariant(Make(db, m))
  {
    SoundKept(db, m);
    BudgetsKept(db, m);
    OrdersSoundKept(db, m);
    AccessKept(db, m);
  }

  /** Every transaction keeps the invariant, whoever commits it and whenever. */
  lemma StepKeeps(db: Tables, c: Command)
    requires Invariant(db)
    ensures Invariant(Step(db, c).db)
  {
    match c
    case OnAccount(a) => AccountKeeps(db, a);
    case OnMeter(a) =>
      var m := MeterIs(db, a);
      MoveKeeps(db, m);
    case OnPayment(a) =>
      var m := PaymentIs(db, a);
      MoveKeeps(db, m);
  }

  lemma {:induction false} RunKeeps(db: Tables, commands: seq<Command>)
    requires Invariant(db)
    ensures Invariant(Run(db, commands))
    decreases |commands|
  {
    if |commands| > 0 {
      StepKeeps(db, commands[0]);
      RunKeeps(Step(db, commands[0]).db, commands[1..]);
    }
  }

  lemma ReachableInvariant(db: Tables)
    requires Reachable(db)
    ensures Invariant(db)
  {
    var commands :| Run(EMPTY, commands) == db;
    EmptyInvariant();
    RunKeeps(EMPTY, commands);
  }

  lemma {:induction false} RunConcat(db: Tables, a: seq<Command>, b: seq<Command>)
    ensures Run(db, a + b) == Run(Run(db, a), b)
    decreases |a|
  {
    if |a| == 0 {
      assert a + b == b;
    } else {
      assert (a + b)[1..] == a[1..] + b && (a + b)[0] == a[0];
      RunConcat(Step(db, a[0]).db, a[1..], b);
    }
  }

  /** Runs lead from reachable states to reachable states. */
  lemma ReachableRun(db: Tables, commands: seq<Command>)
    requires Reachable(db)
    ensures Reachable(Run(db, commands))
  {
    var before :| Run(EMPTY, before) == db;
    RunConcat(EMPTY, before, commands);
    assert Run(EMPTY, before + commands) == Run(db, commands);
  }

  lemma ReachableStep(db: Tables, c: Command)
    requires Reachable(db)
    ensures Reachable(Step(db, c).db)
  {
    ReachableRun(db, [c]);
    assert [c][1..] == [];
    assert Run(db, [c]) == Run(Step(db, c).db, []);
  }

  // ------------------------------------------------------------- wallet books

  /** In every reachable state each wallet equals its journal, neither column is
      negative, and every transaction ever posted is balanced. */
  lemma WalletsMatchJournal(db: Tables, u: nat)
    requires Reachable(db) && u < |db.wallets|
    ensures db.wallets[u].balance == Sum(OfUser(u, CustomerAvailable), db.journal) >= 0
    ensures db.wallets[u].reserved == Sum(OfUser(u, CustomerReserved), db.journal) >= 0
    ensures forall i | 0 <= i < |db.journal| :: Balanced(db.journal[i])
  {
    ReachableInvariant(db);
    assert WalletBooked(db.wallets, db.journal, u);
    forall i | 0 <= i < |db.journal| ensures Balanced(db.journal[i]) {
      assert TransactionLinked(db.journal[i], db);
    }
  }

  /** Holds: what the wallet and the budget set aside is what live requests hold. */
  lemma ReservedIsHeld(db: Tables)
    requires Reachable(db)
    ensures forall u | 0 <= u < |db.wallets| :: db.wallets[u].reserved == Total(HoldsOf(u), db.requests)
    ensures forall b | 0 <= b < |db.budgets| :: db.budgets[b].reserved == Total(HoldsOn(b), db.requests)
  {
    ReachableInvariant(db);
  }

  /** Each request is settled or released at most once, exactly when it left the
      two live statuses. */
  lemma FinishedAtMostOnce(db: Tables, r: nat)
    requires Reachable(db) && r < |db.requests|
    ensures Sum(Postings(RequestRef(r), FINISH_KINDS), db.journal) == (if db.requests[r].Live() then 0 else 1)
  {
    ReachableInvariant(db);
  }

  // ------------------------------------------------------------------- orders

  /** Clearing nets to minus the credit while the order is paid or refunding and
      to zero otherwise; one credit and one reversal at most. */
  lemma CreditedAndReversedOnce(db: Tables, o: nat)
    requires Reachable(db) && o < |db.orders|
    ensures var order := db.orders[o]; var p := PositionOf(db.journal, o);
            && (order.Credited() <==> p.clearing == -order.quote.credit)
            && (!order.Credited() <==> p.clearing == 0)
            && p.credits == (if order.Credited() || order.status.Refunded? then 1 else 0)
            && p.reversals == (if order.status.Refunded? then 1 else 0)
  {
    ReachableInvariant(db);
    assert OrderLinked(db.orders[o], db);
    assert OrderBook(db.orders[o], PositionOf(db.journal, o));
  }

  /** A completed refund's credit is recovered, written off or still owed, to the
      last unit; the debt the disposition recomputes is the original shortfall. */
  lemma RefundIsAccountedFor(db: Tables, f: nat)
    requires Reachable(db) && f < |db.refunds| && !db.refunds[f].InFlight()
    ensures var refund := db.refunds[f]; var p := PositionOf(db.journal, refund.order);
            && refund.credit == p.atRefund + p.later + p.writtenOff + p.debt
            && p.atRefund >= 0 && p.later >= 0 && p.writtenOff >= 0 && p.debt >= 0
            && (refund.status.Risk? ==> p.debt == p.shortfall == refund.credit - p.atRefund > 0)
            && (!refund.status.Risk? ==> p.debt == 0)
  {
    ReachableInvariant(db);
    assert RefundBook(db.refunds[f], PositionOf(db.journal, db.refunds[f].order));
  }

  /** Orders and refunds in lockstep, one refund for an order at most. */
  lemma RefundsFollowOrders(db: Tables, o: nat)
    requires Reachable(db) && o < |db.orders|
    ensures OrderHasRefund(db.refunds, o) <==> db.orders[o].status.Refunding? || db.orders[o].status.Refunded?
    ensures forall f, g | 0 <= f < |db.refunds| && 0 <= g < |db.refunds| ::
              db.refunds[f].order == o && db.refunds[g].order == o ==> f == g
    ensures forall f | 0 <= f < |db.refunds| && db.refunds[f].order == o ::
              db.refunds[f].InFlight() <==> db.orders[o].status.Refunding?
  {
    ReachableInvariant(db);
    assert Lockstep(db.orders, db.refunds);
  }

  // ------------------------------------------------------------------ budgets

  /** At most one active budget of a user covers an instant, its limit holds, and
      its spend is everything charged to the month's requests under any of the
      month's budgets. */
  lemma ActiveBudgetIsExact(db: Tables, user: nat, now: Time, b: nat)
    requires Reachable(db) && b < |db.budgets| && Governs(db.budgets[b], user, now)
    ensures ActiveBudget(db.budgets, user, now) == Some(b)
    ensures var budget := db.budgets[b];
            && 0 <= budget.spent && 0 <= budget.reserved && budget.spent + budget.reserved <= budget.limit
            && budget.spent == Total(ChargedIn(user, budget.start, db.budgets), db.requests)
  {
    ReachableInvariant(db);
    assert BudgetRow(db.budgets[b]);
    var found := ActiveBudget(db.budgets, user, now);
    assert found.Some?;
    OneBudgetGoverns(db, user, now, b, found.value);
  }

  /** A superseded budget holds nothing, and no live request is bound to it. */
  lemma SupersededHoldsNothing(db: Tables, b: nat)
    requires Reachable(db) && b < |db.budgets| && !db.budgets[b].active
    ensures db.budgets[b].reserved == 0
    ensures forall r | 0 <= r < |db.requests| && db.requests[r].budget == Some(b) :: !db.requests[r].Live()
  {
    ReachableInvariant(db);
    assert BudgetRow(db.budgets[b]);
    forall r | 0 <= r < |db.requests| && db.requests[r].budget == Some(b) ensures !db.requests[r].Live() {
      SupersededIsEmpty(db, b, r);
    }
  }

  // ------------------------------------------------------------------- access

  /** A refund at risk keeps its owner frozen, and a frozen owner has no live
      credential of any kind that could spend. */
  lemma RiskFreezes(db: Tables, f: nat)
    requires Reachable(db) && f < |db.refunds| && db.refunds[f].status.Risk?
    ensures var u := db.refunds[f].user;
            && IsFrozen(db, u)
            && (forall k | 0 <= k < |db.keys| :: db.keys[k].user == u ==> !db.keys[k].active)
            && (forall s | 0 <= s < |db.sessions| :: db.sessions[s].user == u ==> db.sessions[s].revoked)
            && (forall t | 0 <= t < |db.resets| :: db.resets[t].user == u ==> db.resets[t].consumed)
  {
    ReachableInvariant(db);
  }
}
