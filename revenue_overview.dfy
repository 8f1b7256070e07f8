/**
 * The dashboard's revenue overview: the running balance before today and the day's
 * revenue and expenditure compared with the day before.
 */
module RevenueOverview {
  import opened Basics
  import opened FinancialModels
  import FinancialViews

  /** Amounts of the payments dated strictly before `day`, signed. */
  function AmountsBefore(payments: seq<Payment>, day: int): seq<int> {
    if payments == [] then []
    else
      var last := payments[|payments| - 1];
      AmountsBefore(payments[..|payments| - 1], day) + (if last.date < day then [last.amount] else [])
  }

  /** Amounts below zero among the payments dated `day` (refunds and booked expenditures). */
  function Spending(payments: seq<Payment>, day: int): (r: seq<int>)
    ensures |r| <= |payments|
    ensures forall i :: 0 <= i < |r| ==> r[i] < 0
    ensures forall p :: p in payments && p.date == day && p.amount < 0 ==> p.amount in r
    ensures forall x :: x in r ==> exists p :: p in payments && p.date == day && p.amount == x
  {
    if payments == [] then []
    else
      var last := payments[|payments| - 1];
      Spending(payments[..|payments| - 1], day) + (if last.date == day && last.amount < 0 then [last.amount] else [])
  }

  /** Spending is the amounts of the negative payments dated that day, in table order, and nothing else. */
  lemma {:induction false} SpendingIsFilter(payments: seq<Payment>, day: int)
    ensures Spending(payments, day)
      == MapSeq(Filter(payments, (p: Payment) => p.date == day && p.amount < 0), (p: Payment) => p.amount)
    decreases |payments|
  {
    if payments != [] {
      var init, last := payments[..|payments| - 1], payments[|payments| - 1];
      SpendingIsFilter(init, day);
      var kept := Filter(init, (p: Payment) => p.date == day && p.amount < 0);
      assert (kept + [last])[..|kept|] == kept;
    }
  }

  lemma {:induction false} SumNonPositive(xs: seq<int>)
    requires forall i :: 0 <= i < |xs| ==> xs[i] < 0
    ensures Sum(xs) <= 0
    ensures xs != [] ==> Sum(xs) < 0
    decreases |xs|
  {
    if xs != [] { SumNonPositive(xs[..|xs| - 1]); }
  }

  /**
   * The percentage change from `before` to `now`: exact when `before` is non-zero,
   * and exactly 100 otherwise, even when both are zero.
   */
  function Change(now: int, before: int): (r: real)
    ensures before != 0 ==> r * (before as real) == ((now - before) * 100) as real
    ensures before == 0 ==> r == 100.0
    ensures before != 0 && now == before ==> r == 0.0
  {
    if before != 0 then ((now - before) as real / before as real) * 100.0 else 100.0
  }

  datatype Overview = Overview(
    openingBalance: int,
    todayRevenue: int,
    dayOverDayChange: real,
    todayExpenditure: int,
    expenditureChange: real)

  /**
   * `revenue_overview`: the signed sum of every payment dated before today, today's
   * positive payments against yesterday's, and today's negative payments (reported as
   * an absolute value) against yesterday's.
   */
  function RevenueOverview(payments: seq<Payment>, today: int): (o: Overview)
    ensures o.openingBalance == Sum(AmountsBefore(payments, today))
    ensures o.todayRevenue >= 0 && o.todayExpenditure >= 0
    ensures o.todayRevenue == Sum(FinancialViews.Revenue(payments, today))
    ensures o.todayExpenditure == -Sum(Spending(payments, today))
    ensures o.dayOverDayChange == Change(o.todayRevenue, Sum(FinancialViews.Revenue(payments, today - 1)))
    ensures o.expenditureChange == Change(Sum(Spending(payments, today)), Sum(Spending(payments, today - 1)))
    ensures Sum(FinancialViews.Revenue(payments, today - 1)) == 0 ==> o.dayOverDayChange == 100.0
    ensures Spending(payments, today - 1) == [] ==> o.expenditureChange == 100.0
  {
    var revenue := Sum(FinancialViews.Revenue(payments, today));
    var revenueBefore := Sum(FinancialViews.Revenue(payments, today - 1));
    var spent := Sum(Spending(payments, today));
    var spentBefore := Sum(Spending(payments, today - 1));
    SumNonNegative(FinancialViews.Revenue(payments, today));
    SumNonPositive(Spending(payments, today));
    Overview(Sum(AmountsBefore(payments, today)), revenue, Change(revenue, revenueBefore),
      if spent < 0 then -spent else spent, Change(spent, spentBefore))
  }

  /**
   * The opening balance of tomorrow is today's opening balance plus today's revenue
   * and today's (negative) expenditure: zero-amount payments change nothing, and every
   * other payment of the day is in exactly one of the two sums.
   */
  lemma {:induction false} OpeningBalanceAdvances(payments: seq<Payment>, today: int)
    ensures Sum(AmountsBefore(payments, today + 1))
      == Sum(AmountsBefore(payments, today))
         + Sum(FinancialViews.Revenue(payments, today)) + Sum(Spending(payments, today))
    decreases |payments|
  {
    if payments != [] {
      var init := payments[..|payments| - 1];
      var last := payments[|payments| - 1];
      OpeningBalanceAdvances(init, today);
      var extra := if last.date < today + 1 then [last.amount] else [];
      var before := if last.date < today then [last.amount] else [];
      var rev := if last.date == today && last.amount > 0 then [last.amount] else [];
      var spend := if last.date == today && last.amount < 0 then [last.amount] else [];
      SumAppend(AmountsBefore(init, today + 1), extra);
      SumAppend(AmountsBefore(init, today), before);
      SumAppend(FinancialViews.Revenue(init, today), rev);
      SumAppend(Spending(init, today), spend);
      if extra != [] { SumSingle(last.amount); }
    }
  }

  /** A day with no revenue yesterday always reports a 100% change, even with no revenue today. */
  lemma QuietDaysReportHundred(payments: seq<Payment>, today: int)
    requires FinancialViews.Revenue(payments, today) == [] && FinancialViews.Revenue(payments, today - 1) == []
    ensures RevenueOverview(payments, today).todayRevenue == 0
    ensures RevenueOverview(payments, today).dayOverDayChange == 100.0
  {
  }

  /** Recording an expenditure today raises the reported expenditure by its amount. */
  lemma {:induction false} ExpenditureRaisesFigure(payments: seq<Payment>, p: Payment, today: int)
    requires p.date == today && p.amount < 0
    ensures RevenueOverview(payments + [p], today).todayExpenditure
      == RevenueOverview(payments, today).todayExpenditure - p.amount
    ensures RevenueOverview(payments + [p], today).todayRevenue == RevenueOverview(payments, today).todayRevenue
  {
    var ps := payments + [p];
    assert ps[..|payments|] == payments;
    assert FinancialViews.Revenue(ps, today) == FinancialViews.Revenue(payments, today);
    assert Spending(ps, today) == Spending(payments, today) + [p.amount];
    SumAppend(Spending(payments, today), [p.amount]);
    SumSingle(p.amount);
    var before := RevenueOverview(payments, today);
    var after := RevenueOverview(ps, today);
    assert after.todayExpenditure == -Sum(Spending(ps, today));
    assert before.todayExpenditure == -Sum(Spending(payments, today));
  }
}
