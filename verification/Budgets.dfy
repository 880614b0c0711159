/** Calendar-month budgets (app/services/budget.py). */
module Budgets {
  import opened Schema

  // ----------------------------------------------------------------- calendar

  const DAY: Time := 86_400_000_000

  /** Days before 1 January of a year, in the proleptic Gregorian calendar. */
  function DaysBeforeYear(year: int): int {
    (year - 1) * 365 + (year - 1) / 4 - (year - 1) / 100 + (year - 1) / 400
  }

  predicate Leap(year: int) { year % 4 == 0 && (year % 100 != 0 || year % 400 == 0) }

  function DaysBeforeMonth(year: int, month: int): int {
    (if month <= 1 then 0
     else if month == 2 then 31
     else if month == 3 then 59
     else if month == 4 then 90
     else if month == 5 then 120
     else if month == 6 then 151
     else if month == 7 then 181
     else if month == 8 then 212
     else if month == 9 then 243
     else if month == 10 then 273
     else if month == 11 then 304
     else 334)
    + if month > 2 && Leap(year) then 1 else 0
  }

  function MonthStart(year: int, month: int): Time {
    (DaysBeforeYear(year) + DaysBeforeMonth(year, month)) * DAY
  }

  /** A clock reading, by calendar month and time since the month began. */
  datatype Date = Date(year: int, month: int, since: Time) {
    predicate Valid() {
      1 <= month <= 12 && 0 <= since && Instant() < MonthBounds(this).1
    }
    function Instant(): Time { MonthStart(year, month) + since }
  }

  /** `month_bounds`: where the month of `now` starts and the next one starts. */
  function MonthBounds(now: Date): (Time, Time) {
    (MonthStart(now.year, now.month),
     if now.month == 12 then MonthStart(now.year + 1, 1) else MonthStart(now.year, now.month + 1))
  }

  /** Months counted from year 0, so that consecutive months are consecutive. */
  function NthMonthStart(k: int): Time { MonthStart(k / 12, k % 12 + 1) }

  ghost predicate IsStep(f: int -> int, start: int, end: int) {
    exists k :: start == f(k) && end == f(k + 1)
  }

  ghost predicate IsMonth(start: Time, end: Time) { IsStep(NthMonthStart, start, end) }

  lemma YearGrows(year: int)
    ensures DaysBeforeYear(year + 1) == DaysBeforeYear(year) + 365 + if Leap(year) then 1 else 0
  {
    assert year / 4 == (year - 1) / 4 + if year % 4 == 0 then 1 else 0;
    assert year / 100 == (year - 1) / 100 + if year % 100 == 0 then 1 else 0;
    assert year / 400 == (year - 1) / 400 + if year % 400 == 0 then 1 else 0;
  }

  lemma MonthGrowsBy(year: int, month: int)
    requires 1 <= month < 12
    ensures DaysBeforeMonth(year, month) + 28 <= DaysBeforeMonth(year, month + 1) <= 335
  {
  }

  lemma MonthGrows(k: int)
    ensures NthMonthStart(k) < NthMonthStart(k + 1)
  {
    var year, month := k / 12, k % 12 + 1;
    YearGrows(year);
    if month == 12 {
      assert (k + 1) / 12 == year + 1 && (k + 1) % 12 + 1 == 1;
      MonthGrowsBy(year, 11);
    } else {
      assert (k + 1) / 12 == year && (k + 1) % 12 + 1 == month + 1;
      MonthGrowsBy(year, month);
    }
  }

  predicate Grows(f: int -> int, i: int) { f(i) < f(i + 1) }

  /** A function that grows at every step orders its arguments. */
  lemma {:induction false} StepsIncrease(f: int -> int, j: int, k: int)
    requires j < k
    requires forall i :: Grows(f, i)
    ensures f(j) < f(j + 1) <= f(k)
    decreases k - j
  {
    assert Grows(f, j);
    if j + 1 < k {
      StepsIncrease(f, j, k - 1);
      assert Grows(f, k - 1);
    }
  }

  lemma StepsTile(f: int -> int, s: int, e: int, s': int, e': int, at: int)
    requires forall i :: Grows(f, i)
    requires IsStep(f, s, e) && IsStep(f, s', e')
    requires (s <= at < e && s' <= at < e') || s == s'
    ensures s == s' && e == e'
  {
    var j :| s == f(j) && e == f(j + 1);
    var k :| s' == f(k) && e' == f(k + 1);
    if j < k { StepsIncrease(f, j, k); }
    if k < j { StepsIncrease(f, k, j); }
  }

  lemma CalendarGrows()
    ensures forall i :: Grows(NthMonthStart, i)
  {
    forall i ensures Grows(NthMonthStart, i) { MonthGrows(i); }
  }

  lemma BoundsAreMonth(now: Date)
    requires 1 <= now.month <= 12
    ensures IsMonth(MonthBounds(now).0, MonthBounds(now).1)
  {
    var k := 12 * now.year + now.month - 1;
    assert k / 12 == now.year && k % 12 == now.month - 1;
    assert NthMonthStart(k) == MonthBounds(now).0;
    if now.month == 12 {
      assert (k + 1) / 12 == now.year + 1 && (k + 1) % 12 == 0;
    } else {
      assert (k + 1) / 12 == now.year && (k + 1) % 12 == now.month;
    }
    assert NthMonthStart(k + 1) == MonthBounds(now).1;
    var f := NthMonthStart;
    assert MonthBounds(now).0 == f(k) && MonthBounds(now).1 == f(k + 1);
  }

  /** Every month has its length: thirty days hath September. */
  lemma MonthLengths(now: Date)
    requires 1 <= now.month <= 12
    ensures var days := match now.month
                        case 2 => if now.year % 4 == 0 && (now.year % 100 != 0 || now.year % 400 == 0) then 29 else 28
                        case 4 => 30
                        case 6 => 30
                        case 9 => 30
                        case 11 => 30
                        case _ => 31;
            MonthBounds(now).1 - MonthBounds(now).0 == days * (24 * 3_600_000_000)
    ensures MonthStart(1, 1) == 0
  {
    YearGrows(now.year);
  }

  /** Months tile time: two of them that share an instant, or a start, are the
      same month. */
  lemma MonthsTile(s: Time, e: Time, s': Time, e': Time, at: Time)
    requires IsMonth(s, e) && IsMonth(s', e')
    requires (s <= at < e && s' <= at < e') || s == s'
    ensures s == s' && e == e'
  {
    CalendarGrows();
    StepsTile(NthMonthStart, s, e, s', e', at);
  }

  // ------------------------------------------------------------------ queries

  /** `active_budget`'s condition at one instant. */
  predicate Governs(b: Budget, user: nat, now: Time) {
    b.user == user && b.active && b.start <= now < b.end
  }

  function ActiveBudget(budgets: seq<Budget>, user: nat, now: Time): Option<nat> {
    FindLast(budgets, (b: Budget) => Governs(b, user, now))
  }

  function CurrentBudget(budgets: seq<Budget>, user: nat, start: Time): Option<nat> {
    FindLast(budgets, (b: Budget) => b.user == user && b.active && b.start == start)
  }

  // --------------------------------------------------------------- replacement

  /** `create_budget`. */
  function CreateBudget(db: Tables, user: nat, amount: Money, now: Date): Reply {
    var (start, end) := MonthBounds(now);
    if amount <= 0 then Refuse(db, BudgetNotPositive)
    else if user >= |db.wallets| then Refuse(db, WalletMissing)
    else
      match CurrentBudget(db.budgets, user, start)
      case None =>
        Reply(db.(budgets := db.budgets + [Budget(user, amount, 0, 0, true, start, end)]), Ok(Row(|db.budgets|)))
      case Some(b) =>
        var current := db.budgets[b];
        if current.reserved > 0 then Refuse(db, BudgetBusy)
        else if amount < current.spent then Refuse(db, BudgetBelowSpend)
        else
          var superseded := db.budgets[b := current.(active := false)];
          Reply(db.(budgets := superseded + [Budget(user, amount, current.spent, 0, true, start, end)]),
                Ok(Row(|db.budgets|)))
  }
}
