/** The wallet columns, the request and budget columns and the journal agree, in
    every state a run can reach. */
module Books {
  import opened Schema
  import opened JournalBooks
  import opened Billing
  import opened Machine
  import opened Moves

  // ------------------------------------------------------ sums over requests

  /** What is added up over the request rows. */
  datatype Tally =
    | HoldsOf(user: nat)
    | LiveOf(counted: nat)
    | HoldsOn(budget: nat)
    | ChargedIn(owner: nat, start: Time, budgets: seq<Budget>)

  function Share(t: Tally, r: Request): int {
    match t
    case HoldsOf(u) => if r.user == u && r.Live() then r.hold else 0
    case LiveOf(u) => if r.user == u && r.Live() then 1 else 0
    case HoldsOn(b) => if r.budget == Some(b) && r.Live() then r.hold else 0
    case ChargedIn(u, start, budgets) =>
      if r.budget.Some? && r.budget.value < |budgets| && budgets[r.budget.value].user == u
         && budgets[r.budget.value].start == start
      then r.charged else 0
  }

  function Total(t: Tally, rows: seq<Request>): int {
    if |rows| == 0 then 0 else Total(t, rows[..|rows| - 1]) + Share(t, rows[|rows| - 1])
  }

  lemma TotalAppend(t: Tally, rows: seq<Request>, r: Request)
    ensures Total(t, rows + [r]) == Total(t, rows) + Share(t, r)
  {
    assert (rows + [r])[..|rows|] == rows;
  }

  lemma {:induction false} TotalUpdate(t: Tally, rows: seq<Request>, i: nat, r: Request)
    requires i < |rows|
    ensures Total(t, rows[i := r]) == Total(t, rows) - Share(t, rows[i]) + Share(t, r)
  {
    var init := rows[..|rows| - 1];
    if i == |rows| - 1 {
      assert rows[i := r][..i] == init;
    } else {
      TotalUpdate(t, init, i, r);
      assert rows[i := r][..|rows| - 1] == init[i := r];
    }
  }

  /** Rows with equal shares add up alike, also for a changed tally. */
  lemma {:induction false} TotalSame(t: Tally, rows: seq<Request>, t': Tally, rows': seq<Request>)
    requires |rows| == |rows'|
    requires forall i | 0 <= i < |rows| :: Share(t, rows[i]) == Share(t', rows'[i])
    ensures Total(t, rows) == Total(t', rows')
  {
    if |rows| > 0 {
      TotalSame(t, rows[..|rows| - 1], t', rows'[..|rows'| - 1]);
    }
  }

  lemma {:induction false} TotalNonNegative(t: Tally, rows: seq<Request>)
    requires forall i | 0 <= i < |rows| :: Share(t, rows[i]) >= 0
    ensures Total(t, rows) >= 0
  {
    if |rows| > 0 { TotalNonNegative(t, rows[..|rows| - 1]); }
  }

  /** A row's share is within the total. */
  lemma ShareWithinTotal(t: Tally, rows: seq<Request>, i: nat)
    requires i < |rows| && forall j | 0 <= j < |rows| :: Share(t, rows[j]) >= 0
    ensures Share(t, rows[i]) <= Total(t, rows)
    decreases |rows|
  {
    var init := rows[..|rows| - 1];
    TotalNonNegative(t, init);
    if i < |rows| - 1 { ShareWithinTotal(t, init, i); }
  }

  // ---------------------------------------------------------------- invariants

  /** Wallet columns against the journal. */
  ghost predicate WalletBooked(wallets: seq<Wallet>, journal: Journal, u: nat)
    requires u < |wallets|
  {
    && wallets[u].balance == Sum(OfUser(u, CustomerAvailable), journal) >= 0
    && wallets[u].reserved == Sum(OfUser(u, CustomerReserved), journal) >= 0
  }

  ghost predicate WalletsBooked(wallets: seq<Wallet>, journal: Journal) {
    && (forall u | 0 <= u < |wallets| :: WalletBooked(wallets, journal, u))
    && (forall i | 0 <= i < |journal| :: journal[i].user < |wallets|)
  }

  /** Wallet and budget columns against the live requests. */
  ghost predicate HoldsAgree(wallets: seq<Wallet>, budgets: seq<Budget>, requests: seq<Request>) {
    && (forall u | 0 <= u < |wallets| :: wallets[u].reserved == Total(HoldsOf(u), requests))
    && (forall b | 0 <= b < |budgets| :: budgets[b].reserved == Total(HoldsOn(b), requests))
  }

  /** The state invariant of accounts, holds and budgets. */
  ghost predicate Sound(db: Tables) {
    && Linked(db)
    && WalletsBooked(db.wallets, db.journal)
    && HoldsAgree(db.wallets, db.budgets, db.requests)
  }

  // -------------------------------------------------------- links are preserved

  lemma HoldLinksKept(db: Tables, m: Move)
    requires Linked(db) && Legal(db, m) && m.PlaceHold?
    ensures Linked(Make(db, m))
  {
  }

  lemma FinishLinksKept(db: Tables, m: Move)
    requires Linked(db) && Legal(db, m) && m.FinishHold?
    ensures Linked(Make(db, m))
  {
  }

  lemma MeteringLinksKept(db: Tables, m: Move)
    requires Linked(db) && Legal(db, m) && (m.Suspend? || m.StartBudget?)
    ensures Linked(Make(db, m))
  {
  }

  lemma OrderingLinksKept(db: Tables, m: Move)
    requires Linked(db) && Legal(db, m) && IsOrdering(m)
    ensures Linked(Make(db, m))
  {
  }

  lemma ReversalLinksKept(db: Tables, m: Move)
    requires Linked(db) && Legal(db, m) && m.Reversal?
    ensures Linked(Make(db, m))
  {
  }

  lemma RefundLinksKept(db: Tables, m: Move)
    requires Linked(db) && Legal(db, m) && !IsMetering(m) && !IsOrdering(m) && !m.Reversal?
    ensures Linked(Make(db, m))
  {
  }

  lemma LinksKept(db: Tables, m: Move)
    requires Linked(db) && Legal(db, m)
    ensures Linked(Make(db, m))
  {
    if m.PlaceHold? { HoldLinksKept(db, m); }
    else if m.FinishHold? { FinishLinksKept(db, m); }
    else if IsMetering(m) { MeteringLinksKept(db, m); }
    else if IsOrdering(m) { OrderingLinksKept(db, m); }
    else if m.Reversal? { ReversalLinksKept(db, m); }
    else { RefundLinksKept(db, m); }
  }

  lemma AccountLinksKept(db: Tables, c: AccountCommand)
    requires Linked(db)
    ensures Linked(AccountStep(db, c).db)
  {
  }

  // ------------------------------------------------------- wallets and journal

  /** One posting that moves a wallet by what it says keeps all wallets booked. */
  lemma PostingKeepsBooks(wallets: seq<Wallet>, journal: Journal, u: nat, w: Wallet, t: Transaction)
    requires WalletsBooked(wallets, journal)
    requires u < |wallets| && t.user == u && w.balance >= 0 && w.reserved >= 0
    requires Moved(t, w.balance - wallets[u].balance, w.reserved - wallets[u].reserved)
    ensures WalletsBooked(wallets[u := w], journal + [t])
  {
    var after := wallets[u := w];
    forall v | 0 <= v < |after|
      ensures WalletBooked(after, journal + [t], v)
    {
      assert WalletBooked(wallets, journal, v);
      SumAppend(OfUser(v, CustomerAvailable), journal, t);
      SumAppend(OfUser(v, CustomerReserved), journal, t);
    }
  }

  lemma NewWalletBooked(wallets: seq<Wallet>, journal: Journal)
    requires WalletsBooked(wallets, journal)
    ensures WalletsBooked(wallets + [Wallet(0, 0)], journal)
  {
    var u := |wallets|;
    SumZero(OfUser(u, CustomerAvailable), journal);
    SumZero(OfUser(u, CustomerReserved), journal);
    forall v | 0 <= v <= u ensures WalletBooked(wallets + [Wallet(0, 0)], journal, v) {
      if v < u { assert WalletBooked(wallets, journal, v); }
    }
  }

  lemma HoldBooked(db: Tables, r: Request, t: Transaction)
    requires WalletsBooked(db.wallets, db.journal) && HoldLegal(db, r, t)
    ensures WalletsBooked(db.wallets[r.user := Hold(db.wallets[r.user], r.hold)], db.journal + [t])
  {
    assert WalletBooked(db.wallets, db.journal, r.user);
    PostingKeepsBooks(db.wallets, db.journal, r.user, Hold(db.wallets[r.user], r.hold), t);
  }

  lemma FinishBooked(db: Tables, id: nat, done: Request, back: Money, t: Transaction)
    requires WalletsBooked(db.wallets, db.journal) && FinishLegal(db, id, done, back, t)
    ensures WalletsBooked(db.wallets[done.user := Unhold(db.wallets[done.user], done.hold, back)], db.journal + [t])
  {
    assert WalletBooked(db.wallets, db.journal, done.user);
    PostingKeepsBooks(db.wallets, db.journal, done.user, Unhold(db.wallets[done.user], done.hold, back), t);
  }

  /** A posting that moves the spendable balance only. */
  lemma BalanceBooked(wallets: seq<Wallet>, journal: Journal, u: nat, delta: Money, t: Transaction)
    requires WalletsBooked(wallets, journal) && u < |wallets| && t.user == u && Moved(t, delta, 0)
    requires wallets[u].balance + delta >= 0
    ensures WalletsBooked(wallets[u := wallets[u].(balance := wallets[u].balance + delta)], journal + [t])
  {
    assert WalletBooked(wallets, journal, u);
    PostingKeepsBooks(wallets, journal, u, wallets[u].(balance := wallets[u].balance + delta), t);
  }

  lemma MeteringBooksKept(db: Tables, m: Move)
    requires WalletsBooked(db.wallets, db.journal) && Legal(db, m) && IsMetering(m)
    ensures WalletsBooked(Make(db, m).wallets, Make(db, m).journal)
  {
    if m.PlaceHold? { HoldBooked(db, m.request, m.placing); }
    if m.FinishHold? { FinishBooked(db, m.id, m.finished, m.back, m.finishing); }
  }

  lemma CreditBooksKept(db: Tables, m: Move)
    requires WalletsBooked(db.wallets, db.journal) && Legal(db, m) && m.Credit? && db.orders[m.o].quote.credit > 0
    ensures WalletsBooked(Make(db, m).wallets, Make(db, m).journal)
  {
    assert WalletBooked(db.wallets, db.journal, m.paid.user);
    BalanceBooked(db.wallets, db.journal, m.paid.user, m.paid.quote.credit, m.crediting);
  }

  lemma ReversalBooksKept(db: Tables, m: Move)
    requires WalletsBooked(db.wallets, db.journal) && Legal(db, m) && m.Reversal? && db.orders[m.o].quote.credit > 0
    ensures WalletsBooked(Make(db, m).wallets, Make(db, m).journal)
  {
    assert WalletBooked(db.wallets, db.journal, db.orders[m.o].user);
    BalanceBooked(db.wallets, db.journal, db.orders[m.o].user, -m.recovered, m.reversing);
  }

  lemma DisposalBooksKept(db: Tables, m: Move)
    requires WalletsBooked(db.wallets, db.journal) && Legal(db, m) && m.Disposal?
    ensures WalletsBooked(Make(db, m).wallets, Make(db, m).journal)
  {
    BalanceBooked(db.wallets, db.journal, m.resolved.user, -m.recovered, m.disposing);
  }

  lemma BooksKept(db: Tables, m: Move)
    requires Linked(db) && WalletsBooked(db.wallets, db.journal) && Legal(db, m)
    ensures WalletsBooked(Make(db, m).wallets, Make(db, m).journal)
  {
    if IsMetering(m) {
      MeteringBooksKept(db, m);
    } else if m.Credit? {
      assert OrderLinked(db.orders[m.o], db);
      CreditBooksKept(db, m);
    } else if m.Reversal? {
      assert OrderLinked(db.orders[m.o], db);
      ReversalBooksKept(db, m);
    } else if m.Disposal? {
      DisposalBooksKept(db, m);
    }
  }

  lemma AccountBooksKept(db: Tables, c: AccountCommand)
    requires Sound(db)
    ensures WalletsBooked(AccountStep(db, c).db.wallets, AccountStep(db, c).db.journal)
  {
    if c.DoRegister? { NewWalletBooked(db.wallets, db.journal); }
  }

  // --------------------------------------------------------- holds and columns

  lemma PlacedInWallet(wallets: seq<Wallet>, requests: seq<Request>, r: Request)
    requires r.user < |wallets| && r.Live()
    requires forall u | 0 <= u < |wallets| :: wallets[u].reserved == Total(HoldsOf(u), requests)
    ensures var after := wallets[r.user := Hold(wallets[r.user], r.hold)];
            forall u | 0 <= u < |after| :: after[u].reserved == Total(HoldsOf(u), requests + [r])
  {
    forall u | 0 <= u < |wallets|
      ensures Total(HoldsOf(u), requests + [r]) == wallets[u].reserved + if r.user == u then r.hold else 0
    {
      TotalAppend(HoldsOf(u), requests, r);
    }
  }

  lemma PlacedInBudget(budgets: seq<Budget>, requests: seq<Request>, r: Request)
    requires r.Live() && (r.budget.Some? ==> r.budget.value < |budgets|)
    requires forall b | 0 <= b < |budgets| :: budgets[b].reserved == Total(HoldsOn(b), requests)
    ensures var after := if r.budget.None? then budgets else budgets[r.budget.value := HoldBudget(budgets[r.budget.value], r.hold)];
            forall b | 0 <= b < |after| :: after[b].reserved == Total(HoldsOn(b), requests + [r])
  {
    forall b | 0 <= b < |budgets|
      ensures Total(HoldsOn(b), requests + [r]) == budgets[b].reserved + if r.budget == Some(b) then r.hold else 0
    {
      TotalAppend(HoldsOn(b), requests, r);
    }
  }

  lemma PlacedHoldAgrees(db: Tables, m: Move)
    requires HoldsAgree(db.wallets, db.budgets, db.requests) && Legal(db, m) && m.PlaceHold?
    ensures HoldsAgree(Make(db, m).wallets, Make(db, m).budgets, Make(db, m).requests)
  {
    PlacedInWallet(db.wallets, db.requests, m.request);
    PlacedInBudget(db.budgets, db.requests, m.request);
  }

  lemma FinishedInWallet(wallets: seq<Wallet>, requests: seq<Request>, id: nat, done: Request, back: Money)
    requires id < |requests| && requests[id].Live() && !done.Live() && done.user == requests[id].user < |wallets|
    requires forall u | 0 <= u < |wallets| :: wallets[u].reserved == Total(HoldsOf(u), requests)
    ensures var after := wallets[done.user := Unhold(wallets[done.user], requests[id].hold, back)];
            forall u | 0 <= u < |after| :: after[u].reserved == Total(HoldsOf(u), requests[id := done])
  {
    forall u | 0 <= u < |wallets|
      ensures Total(HoldsOf(u), requests[id := done])
              == wallets[u].reserved - if done.user == u then requests[id].hold else 0
    {
      TotalUpdate(HoldsOf(u), requests, id, done);
    }
  }

  lemma FinishedInBudget(budgets: seq<Budget>, requests: seq<Request>, id: nat, done: Request, spent: Money)
    requires id < |requests| && requests[id].Live() && !done.Live() && done.budget == requests[id].budget
    requires done.budget.Some? ==> done.budget.value < |budgets|
    requires forall b | 0 <= b < |budgets| :: budgets[b].reserved == Total(HoldsOn(b), requests)
    ensures var after := if done.budget.None? then budgets
                         else budgets[done.budget.value := UnholdBudget(budgets[done.budget.value], requests[id].hold, spent)];
            forall b | 0 <= b < |after| :: after[b].reserved == Total(HoldsOn(b), requests[id := done])
  {
    forall b | 0 <= b < |budgets|
      ensures Total(HoldsOn(b), requests[id := done])
              == budgets[b].reserved - if done.budget == Some(b) then requests[id].hold else 0
    {
      TotalUpdate(HoldsOn(b), requests, id, done);
    }
  }

  lemma FinishedHoldAgrees(db: Tables, m: Move)
    requires HoldsAgree(db.wallets, db.budgets, db.requests) && Legal(db, m) && m.FinishHold?
    ensures HoldsAgree(Make(db, m).wallets, Make(db, m).budgets, Make(db, m).requests)
  {
    FinishedInWallet(db.wallets, db.requests, m.id, m.finished, m.back);
    FinishedInBudget(db.budgets, db.requests, m.id, m.finished, m.finished.charged);
  }

  lemma SuspendedHoldsAgree(db: Tables, rows: seq<Request>)
    requires Sound(db) && Legal(db, Suspend(rows))
    ensures HoldsAgree(db.wallets, db.budgets, rows)
  {
    forall u | 0 <= u < |db.wallets| ensures db.wallets[u].reserved == Total(HoldsOf(u), rows) {
      TotalSame(HoldsOf(u), db.requests, HoldsOf(u), rows);
    }
    forall b | 0 <= b < |db.budgets| ensures db.budgets[b].reserved == Total(HoldsOn(b), rows) {
      TotalSame(HoldsOn(b), db.requests, HoldsOn(b), rows);
    }
  }

  /** No row refers to a budget or a user that does not exist yet. */
  lemma NothingHeldYet(db: Tables)
    requires Linked(db)
    ensures Total(HoldsOn(|db.budgets|), db.requests) == 0
    ensures Total(HoldsOf(|db.wallets|), db.requests) == 0
  {
    AllZero(HoldsOn(|db.budgets|), db.requests);
    AllZero(HoldsOf(|db.wallets|), db.requests);
  }

  lemma {:induction false} AllZero(t: Tally, rows: seq<Request>)
    requires forall i | 0 <= i < |rows| :: Share(t, rows[i]) == 0
    ensures Total(t, rows) == 0
  {
    if |rows| > 0 { AllZero(t, rows[..|rows| - 1]); }
  }

  lemma StartedBudgetAgrees(db: Tables, m: Move)
    requires Linked(db) && HoldsAgree(db.wallets, db.budgets, db.requests) && Legal(db, m) && m.StartBudget?
    ensures HoldsAgree(Make(db, m).wallets, Make(db, m).budgets, Make(db, m).requests)
  {
    NothingHeldYet(db);
  }

  lemma PaymentHoldsAgree(db: Tables, m: Move)
    requires HoldsAgree(db.wallets, db.budgets, db.requests) && Legal(db, m) && !IsMetering(m)
    ensures HoldsAgree(Make(db, m).wallets, Make(db, m).budgets, Make(db, m).requests)
  {
  }

  lemma HoldsKept(db: Tables, m: Move)
    requires Sound(db) && Legal(db, m)
    ensures HoldsAgree(Make(db, m).wallets, Make(db, m).budgets, Make(db, m).requests)
  {
    if m.PlaceHold? { PlacedHoldAgrees(db, m); }
    else if m.FinishHold? { FinishedHoldAgrees(db, m); }
    else if m.Suspend? { SuspendedHoldsAgree(db, m.suspended); }
    else if m.StartBudget? { StartedBudgetAgrees(db, m); }
    else { PaymentHoldsAgree(db, m); }
  }

  lemma SoundKept(db: Tables, m: Move)
    requires Sound(db) && Legal(db, m)
    ensures Sound(Make(db, m))
  {
    LinksKept(db, m);
    BooksKept(db, m);
    HoldsKept(db, m);
  }

  lemma AccountSoundKept(db: Tables, c: AccountCommand)
    requires Sound(db)
    ensures Sound(AccountStep(db, c).db)
  {
    AccountLinksKept(db, c);
    AccountBooksKept(db, c);
    NothingHeldYet(db);
  }

  // ------------------------------------------------- what soundness rules out

  /** A live request's hold is covered by its wallet and its budget: settling or
      releasing it cannot find the pre-authorization missing. */
  lemma LiveHoldIsCovered(db: Tables, id: nat)
    requires Sound(db) && id < |db.requests| && db.requests[id].Live()
    ensures HoldAnomaly(db, db.requests[id]).None?
  {
    var r := db.requests[id];
    assert RequestLinked(r, db);
    forall i | 0 <= i < |db.requests|
      ensures Share(HoldsOf(r.user), db.requests[i]) >= 0
      ensures r.budget.Some? ==> Share(HoldsOn(r.budget.value), db.requests[i]) >= 0
    {
      assert RequestLinked(db.requests[i], db);
    }
    ShareWithinTotal(HoldsOf(r.user), db.requests, id);
    if r.budget.Some? { ShareWithinTotal(HoldsOn(r.budget.value), db.requests, id); }
  }
}
