/** Monthly budgets: one active per user and month, never exceeded, and charged
    with everything the month's requests were charged. */
module BudgetSpend {
  import opened Schema
  import opened Budgets
  import opened Billing
  import opened Moves
  import opened Books

  ghost predicate BudgetRow(b: Budget) {
    && b.limit > 0 && b.spent >= 0 && b.reserved >= 0 && b.spent + b.reserved <= b.limit
    && (!b.active ==> b.reserved == 0)
  }

  predicate SameMonth(a: Budget, b: Budget) { a.user == b.user && a.start == b.start }

  ghost predicate OneActive(budgets: seq<Budget>) {
    forall i, j | 0 <= i < j < |budgets| ::
      !(budgets[i].active && budgets[j].active && SameMonth(budgets[i], budgets[j]))
  }

  /** The month of a budget always has an active one. */
  ghost predicate MonthCovered(budgets: seq<Budget>, i: nat)
    requires i < |budgets|
  {
    exists j | 0 <= j < |budgets| :: budgets[j].active && SameMonth(budgets[i], budgets[j])
  }

  ghost predicate SpendAgrees(budgets: seq<Budget>, requests: seq<Request>) {
    forall b | 0 <= b < |budgets| ::
      budgets[b].active ==> budgets[b].spent == Total(ChargedIn(budgets[b].user, budgets[b].start, budgets), requests)
  }

  /** Every budget runs over one calendar month. */
  ghost predicate Monthly(budgets: seq<Budget>) {
    forall b | 0 <= b < |budgets| :: IsMonth(budgets[b].start, budgets[b].end)
  }

  ghost predicate MonthsSound(budgets: seq<Budget>) {
    OneActive(budgets) && forall b | 0 <= b < |budgets| :: MonthCovered(budgets, b)
  }

  ghost predicate RowsSound(budgets: seq<Budget>, requests: seq<Request>) {
    && (forall b | 0 <= b < |budgets| :: BudgetRow(budgets[b]))
    && (forall i | 0 <= i < |requests| :: requests[i].budget.Some? ==> requests[i].budget.value < |budgets|)
    && SpendAgrees(budgets, requests)
  }

  ghost predicate BudgetsSound(db: Tables) {
    Monthly(db.budgets) && MonthsSound(db.budgets) && RowsSound(db.budgets, db.requests)
  }

  /** Budgets that keep their owner and month give every request the same share. */
  lemma ChargedSame(u: nat, start: Time, budgets: seq<Budget>, budgets': seq<Budget>, rows: seq<Request>)
    requires |budgets| <= |budgets'|
    requires forall i | 0 <= i < |budgets| :: SameMonth(budgets[i], budgets'[i])
    requires forall i | 0 <= i < |rows| :: rows[i].budget.Some? ==> rows[i].budget.value < |budgets|
    ensures Total(ChargedIn(u, start, budgets), rows) == Total(ChargedIn(u, start, budgets'), rows)
  {
    TotalSame(ChargedIn(u, start, budgets), rows, ChargedIn(u, start, budgets'), rows);
  }

  /** Changing amounts only leaves months and activity as they were. */
  lemma MonthsUnchanged(budgets: seq<Budget>, i: nat, b: Budget)
    requires MonthsSound(budgets) && i < |budgets|
    requires SameMonth(b, budgets[i]) && b.active == budgets[i].active
    ensures MonthsSound(budgets[i := b])
  {
    var after := budgets[i := b];
    forall k | 0 <= k < |after| ensures MonthCovered(after, k) {
      assert MonthCovered(budgets, k);
      var j :| 0 <= j < |budgets| && budgets[j].active && SameMonth(budgets[k], budgets[j]);
      assert after[j].active && SameMonth(after[k], after[j]);
    }
  }

  lemma MonthStarted(budgets: seq<Budget>, s: Option<nat>, started: Budget)
    requires MonthsSound(budgets) && started.active
    requires s.Some? ==> s.value < |budgets| && budgets[s.value].active && SameMonth(budgets[s.value], started)
    requires s.None? ==> forall i | 0 <= i < |budgets| :: !(budgets[i].active && SameMonth(budgets[i], started))
    ensures MonthsSound(Started(budgets, s, started))
  {
    var n := |budgets|;
    var after := Started(budgets, s, started);
    forall k | 0 <= k <= n ensures MonthCovered(after, k) {
      if k == n {
        assert after[n].active && SameMonth(after[n], after[n]);
      } else {
        assert MonthCovered(budgets, k);
        var j :| 0 <= j < n && budgets[j].active && SameMonth(budgets[k], budgets[j]);
        var l := if s == Some(j) then n else j;
        assert after[l].active && SameMonth(after[k], after[l]);
      }
    }
  }

  function Started(budgets: seq<Budget>, s: Option<nat>, started: Budget): seq<Budget>
    requires s.Some? ==> s.value < |budgets|
  {
    (if s.None? then budgets else budgets[s.value := budgets[s.value].(active := false)]) + [started]
  }

  // ------------------------------------------------------------ budget columns

  function Held(budgets: seq<Budget>, bound: Option<nat>, hold: Money): seq<Budget>
    requires bound.Some? ==> bound.value < |budgets|
  {
    if bound.None? then budgets else budgets[bound.value := HoldBudget(budgets[bound.value], hold)]
  }

  function Unheld(budgets: seq<Budget>, bound: Option<nat>, hold: Money, spent: Money): seq<Budget>
    requires bound.Some? ==> bound.value < |budgets|
  {
    if bound.None? then budgets else budgets[bound.value := UnholdBudget(budgets[bound.value], hold, spent)]
  }

  lemma PlacedRowsKept(budgets: seq<Budget>, requests: seq<Request>, r: Request)
    requires RowsSound(budgets, requests) && r.hold >= 0 && r.charged == 0
    requires r.budget.Some? ==>
               && r.budget.value < |budgets| && budgets[r.budget.value].active
               && budgets[r.budget.value].spent + budgets[r.budget.value].reserved + r.hold <= budgets[r.budget.value].limit
    ensures RowsSound(Held(budgets, r.budget, r.hold), requests + [r])
  {
    var after := Held(budgets, r.budget, r.hold);
    forall b | 0 <= b < |after| && after[b].active
      ensures after[b].spent == Total(ChargedIn(after[b].user, after[b].start, after), requests + [r])
    {
      var t := ChargedIn(after[b].user, after[b].start, after);
      ChargedSame(after[b].user, after[b].start, budgets, after, requests);
      TotalAppend(t, requests, r);
    }
  }

  lemma FinishedRowsKept(budgets: seq<Budget>, requests: seq<Request>, id: nat, done: Request)
    requires RowsSound(budgets, requests) && OneActive(budgets) && id < |requests|
    requires done.budget == requests[id].budget && requests[id].charged == 0 <= done.charged <= done.hold
    requires done.budget.Some? ==> budgets[done.budget.value].active && done.hold <= budgets[done.budget.value].reserved
    ensures RowsSound(Unheld(budgets, done.budget, done.hold, done.charged), requests[id := done])
  {
    var after := Unheld(budgets, done.budget, done.hold, done.charged);
    forall b | 0 <= b < |after| && after[b].active
      ensures after[b].spent == Total(ChargedIn(after[b].user, after[b].start, after), requests[id := done])
    {
      var t := ChargedIn(after[b].user, after[b].start, after);
      ChargedSame(after[b].user, after[b].start, budgets, after, requests);
      TotalUpdate(t, requests, id, done);
    }
  }

  lemma SuspendedRowsKept(budgets: seq<Budget>, requests: seq<Request>, rows: seq<Request>)
    requires RowsSound(budgets, requests) && |rows| == |requests|
    requires forall i | 0 <= i < |rows| :: rows[i].budget == requests[i].budget && rows[i].charged == requests[i].charged
    ensures RowsSound(budgets, rows)
  {
    forall b | 0 <= b < |budgets| && budgets[b].active
      ensures budgets[b].spent == Total(ChargedIn(budgets[b].user, budgets[b].start, budgets), rows)
    {
      var t := ChargedIn(budgets[b].user, budgets[b].start, budgets);
      TotalSame(t, requests, t, rows);
    }
  }

  lemma StartedRowsKept(budgets: seq<Budget>, requests: seq<Request>, s: Option<nat>, started: Budget)
    requires RowsSound(budgets, requests) && MonthsSound(budgets) && BudgetRow(started)
    requires s.Some? ==>
               && s.value < |budgets| && budgets[s.value].active && SameMonth(budgets[s.value], started)
               && budgets[s.value].reserved == 0 && started.spent == budgets[s.value].spent
    requires s.None? ==>
               && started.spent == 0
               && forall i | 0 <= i < |budgets| :: !(budgets[i].active && SameMonth(budgets[i], started))
    ensures RowsSound(Started(budgets, s, started), requests)
  {
    var n := |budgets|;
    var after := Started(budgets, s, started);
    forall b | 0 <= b < |after| && after[b].active
      ensures after[b].spent == Total(ChargedIn(after[b].user, after[b].start, after), requests)
    {
      ChargedSame(after[b].user, after[b].start, budgets, after, requests);
      if b == n && s.None? { NothingChargedYet(budgets, requests, started); }
    }
  }

  /** A month that never had a budget was charged nothing. */
  lemma NothingChargedYet(budgets: seq<Budget>, requests: seq<Request>, started: Budget)
    requires MonthsSound(budgets)
    requires forall i | 0 <= i < |budgets| :: !(budgets[i].active && SameMonth(budgets[i], started))
    ensures Total(ChargedIn(started.user, started.start, budgets), requests) == 0
  {
    var t := ChargedIn(started.user, started.start, budgets);
    forall i | 0 <= i < |requests| ensures Share(t, requests[i]) == 0 {
      var bound := requests[i].budget;
      if bound.Some? && bound.value < |budgets| { assert MonthCovered(budgets, bound.value); }
    }
    AllZero(t, requests);
  }

  lemma BudgetsKept(db: Tables, m: Move)
    requires Sound(db) && BudgetsSound(db) && Legal(db, m)
    ensures BudgetsSound(Make(db, m))
  {
    match m
    case PlaceHold(r, t) => HoldKeepsBudgets(db, r, t);
    case FinishHold(id, done, back, t) => FinishKeepsBudgets(db, id, done, back, t);
    case Suspend(rows) => SuspendedRowsKept(db.budgets, db.requests, rows);
    case StartBudget(s, started) => StartKeepsBudgets(db, s, started);
    case _ =>
  }

  lemma HoldKeepsBudgets(db: Tables, r: Request, t: Transaction)
    requires Sound(db) && BudgetsSound(db) && HoldLegal(db, r, t)
    ensures BudgetsSound(Make(db, PlaceHold(r, t)))
  {
    PlacedRowsKept(db.budgets, db.requests, r);
    if r.budget.Some? {
      MonthsUnchanged(db.budgets, r.budget.value, HoldBudget(db.budgets[r.budget.value], r.hold));
    }
  }

  lemma FinishKeepsBudgets(db: Tables, id: nat, done: Request, back: Money, t: Transaction)
    requires Sound(db) && BudgetsSound(db) && FinishLegal(db, id, done, back, t)
    ensures BudgetsSound(Make(db, FinishHold(id, done, back, t)))
  {
    assert RequestLinked(db.requests[id], db);
    if done.budget.Some? {
      var own := done.budget.value;
      assert BudgetRow(db.budgets[own]);
      MonthsUnchanged(db.budgets, own, UnholdBudget(db.budgets[own], done.hold, done.charged));
    }
    FinishedRowsKept(db.budgets, db.requests, id, done);
  }

  lemma StartKeepsBudgets(db: Tables, s: Option<nat>, started: Budget)
    requires Sound(db) && BudgetsSound(db) && BudgetLegal(db, s, started)
    ensures BudgetsSound(Make(db, StartBudget(s, started)))
  {
    if s.Some? { assert BudgetRow(db.budgets[s.value]); }
    MonthStarted(db.budgets, s, started);
    StartedRowsKept(db.budgets, db.requests, s, started);
    MonthlyStarted(db.budgets, s, started);
  }

  lemma MonthlyStarted(budgets: seq<Budget>, s: Option<nat>, started: Budget)
    requires Monthly(budgets) && IsMonth(started.start, started.end) && (s.Some? ==> s.value < |budgets|)
    ensures Monthly(Started(budgets, s, started))
  {
  }

  // ------------------------------------------------------------- consequences

  /** At most one active budget of a user covers any instant. */
  lemma OneBudgetGoverns(db: Tables, user: nat, now: Time, i: nat, j: nat)
    requires BudgetsSound(db) && i < |db.budgets| && j < |db.budgets|
    requires Governs(db.budgets[i], user, now) && Governs(db.budgets[j], user, now)
    ensures i == j
  {
    var a, b := db.budgets[i], db.budgets[j];
    MonthsTile(a.start, a.end, b.start, b.end, now);
  }

  /** A superseded budget holds nothing and no live request is bound to it. */
  lemma SupersededIsEmpty(db: Tables, b: nat, id: nat)
    requires Sound(db) && BudgetsSound(db) && b < |db.budgets| && !db.budgets[b].active
    requires id < |db.requests| && db.requests[id].budget == Some(b)
    ensures db.budgets[b].reserved == 0 && !db.requests[id].Live()
  {
    assert BudgetRow(db.budgets[b]);
    assert RequestLinked(db.requests[id], db);
    if db.requests[id].Live() { LiveHoldIsCovered(db, id); }
  }
}
