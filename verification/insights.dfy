/** `getSpendingInsights`: up to three hints about this month's spending —
    budget alerts first, then the top category, then the trend against the
    previous month. */
module Insights {
  import opened Text
  import opened Records
  import opened Aggregation
  import opened Sorting
  import opened CategoryExpenses
  import Calendar
  import Money

  datatype InsightType = Warning | Success | Info

  /** The figures each insight's description is built from. */
  datatype Insight =
    | BudgetAlert(category: string, percentage: real)
    | TopCategory(category: string, amount: int)
    | IncreasedSpending(change: real)
    | GreatSavings(reduction: real)

  function TypeOf(i: Insight): InsightType {
    match i
    case BudgetAlert(_, _) => Warning
    case TopCategory(_, _) => Info
    case IncreasedSpending(_) => Warning
    case GreatSavings(_) => Success
  }

  function Title(i: Insight): string {
    match i
    case BudgetAlert(c, _) => c + " Budget Alert"
    case TopCategory(_, _) => "Top Spending Category"
    case IncreasedSpending(_) => "Increased Spending"
    case GreatSavings(_) => "Great Savings!"
  }

  /** The insights never show more than this many hints. */
  const MaxInsights := 3

  /** An expense of the month with a positive amount (the category may be
      blank). */
  predicate MonthExpense(t: Txn, month: string) {
    t.kind == Expense && StartsWith(t.date, month) && t.amount > 0
  }

  function ThisMonthExpenses(txs: seq<Txn>, month: string): (r: seq<Txn>)
    ensures |r| <= |txs|
    ensures forall i :: 0 <= i < |r| ==> MonthExpense(r[i], month)
    ensures forall i :: 0 <= i < |txs| && MonthExpense(txs[i], month) ==> txs[i] in r
  {
    if txs == [] then []
    else
      var rest := ThisMonthExpenses(txs[1..], month);
      assert forall i :: 1 <= i < |txs| ==> txs[i] == txs[1..][i - 1];
      if MonthExpense(txs[0], month) then [txs[0]] + rest else rest
  }

  /** The sum of the month's positive expenses. */
  function MonthTotal(txs: seq<Txn>, month: string): (r: int)
    ensures r >= 0
  {
    if txs == [] then 0
    else (if MonthExpense(txs[0], month) then txs[0].amount else 0) + MonthTotal(txs[1..], month)
  }

  /** Filtering to the month first and then applying the client rule with
      every date accepted counts exactly what the client rule counts for
      the month. */
  lemma FilteredSpent(txs: seq<Txn>, month: string, c: string)
    ensures SpentSpec(ClientRule, ThisMonthExpenses(txs, month), "", c) == SpentSpec(ClientRule, txs, month, c)
    ensures HasSpending(ClientRule, ThisMonthExpenses(txs, month), "", c) <==> HasSpending(ClientRule, txs, month, c)
  {
    FilteredSums(txs, month, c);
    FilteredKeys(txs, month, c);
  }

  lemma FilterHits(t: Txn, month: string, c: string)
    ensures Hits(ClientRule, t, month, c) <==> MonthExpense(t, month) && Hits(ClientRule, t, "", c)
  {
    assert t.date[..0] == "";
  }

  lemma {:induction false} FilteredSums(txs: seq<Txn>, month: string, c: string)
    ensures SpentSpec(ClientRule, ThisMonthExpenses(txs, month), "", c) == SpentSpec(ClientRule, txs, month, c)
  {
    if txs != [] {
      var t := txs[0];
      FilteredSums(txs[1..], month, c);
      FilterHits(t, month, c);
      if MonthExpense(t, month) {
        var r := [t] + ThisMonthExpenses(txs[1..], month);
        assert r[1..] == ThisMonthExpenses(txs[1..], month);
      }
    }
  }

  lemma {:induction false} FilteredKeys(txs: seq<Txn>, month: string, c: string)
    ensures HasSpending(ClientRule, ThisMonthExpenses(txs, month), "", c) <==> HasSpending(ClientRule, txs, month, c)
  {
    if txs != [] {
      var t := txs[0];
      var rest := ThisMonthExpenses(txs[1..], month);
      FilteredKeys(txs[1..], month, c);
      FilterHits(t, month, c);
      if MonthExpense(t, month) {
        HasSpendingCons(ClientRule, t, rest, "", c);
      }
      HasSpendingCons(ClientRule, t, txs[1..], month, c);
      assert txs == [t] + txs[1..];
    }
  }

  lemma HasSpendingCons(rule: Rule, t: Txn, txs: seq<Txn>, month: string, c: string)
    ensures HasSpending(rule, [t] + txs, month, c) <==> Hits(rule, t, month, c) || HasSpending(rule, txs, month, c)
  {
    var s := [t] + txs;
    if HasSpending(rule, txs, month, c) {
      var i :| 0 <= i < |txs| && Hits(rule, txs[i], month, c);
      assert s[i + 1] == txs[i];
    }
    if Hits(rule, t, month, c) {
      assert s[0] == t;
    }
    if HasSpending(rule, s, month, c) && !Hits(rule, t, month, c) {
      var i :| 0 <= i < |s| && Hits(rule, s[i], month, c);
      assert i > 0 && txs[i - 1] == s[i];
    }
  }

  /** One alert per budget whose status is above 90 %, in budget order. */
  function Alerts(status: seq<Budget>): (r: seq<Insight>)
    ensures |r| <= |status|
    ensures forall i :: 0 <= i < |r| ==> r[i].BudgetAlert? && r[i].percentage > 90.0
  {
    if status == [] then []
    else
      var rest := Alerts(status[1..]);
      if status[0].percentage > 90.0 then [BudgetAlert(status[0].category, status[0].percentage)] + rest
      else rest
  }

  /** How many budgets are above 90 %. */
  function OverCount(status: seq<Budget>): nat {
    if status == [] then 0
    else (if status[0].percentage > 90.0 then 1 else 0) + OverCount(status[1..])
  }

  /** Alert `a` is the one for budget `status[j]`, which is above 90 %. */
  predicate AlertFor(a: Insight, status: seq<Budget>, j: int) {
    0 <= j < |status| && status[j].percentage > 90.0
    && a == BudgetAlert(status[j].category, status[j].percentage)
  }

  /** Alert `a` names some budget of `status` that is above 90 %. */
  ghost predicate ForSomeBudget(a: Insight, status: seq<Budget>) {
    exists j :: AlertFor(a, status, j)
  }

  /** There is one alert per budget above 90 %, and each alert names a
      budget above 90 % with its percentage. */
  lemma AlertsMatchBudgets(status: seq<Budget>)
    ensures |Alerts(status)| == OverCount(status)
    ensures forall i :: 0 <= i < |Alerts(status)| ==> ForSomeBudget(Alerts(status)[i], status)
  {
    AlertsCount(status);
    forall i | 0 <= i < |Alerts(status)|
      ensures ForSomeBudget(Alerts(status)[i], status)
    {
      AlertAt(status, i);
    }
  }

  lemma {:induction false} AlertsCount(status: seq<Budget>)
    ensures |Alerts(status)| == OverCount(status)
  {
    if status != [] {
      AlertsCount(status[1..]);
    }
  }

  lemma {:induction false} AlertAt(status: seq<Budget>, i: int)
    requires 0 <= i < |Alerts(status)|
    ensures exists j :: AlertFor(Alerts(status)[i], status, j)
  {
    var r := Alerts(status);
    var rest := Alerts(status[1..]);
    if status[0].percentage > 90.0 && i == 0 {
      assert AlertFor(r[0], status, 0);
    } else {
      var k := if status[0].percentage > 90.0 then i - 1 else i;
      assert r[i] == rest[k];
      AlertAt(status[1..], k);
      var j :| AlertFor(rest[k], status[1..], j);
      assert status[j + 1] == status[1..][j];
      assert AlertFor(r[i], status, j + 1);
    }
  }

  /** The category with the largest spend this month, if any. */
  function Top(txs: seq<Txn>, month: string): (r: seq<Insight>)
    ensures |r| <= 1
    ensures forall i :: 0 <= i < |r| ==> r[i].TopCategory?
  {
    var ce := GetCategoryExpenses(ThisMonthExpenses(txs, month));
    if |ce| > 0 then [TopCategory(ce[0].category, ce[0].amount)] else []
  }

  /** The top category is present exactly when something was counted this
      month. */
  lemma TopPresent(txs: seq<Txn>, month: string)
    ensures |Top(txs, month)| == 1 <==> exists c :: HasSpending(ClientRule, txs, month, c)
  {
    var f := ThisMonthExpenses(txs, month);
    var ce := GetCategoryExpenses(f);
    if exists c :: HasSpending(ClientRule, txs, month, c) {
      var c :| HasSpending(ClientRule, txs, month, c);
      FilteredKeys(txs, month, c);
      CategoryExpensesListed(f, c);
    }
    if |ce| > 0 {
      assert Listed(ce, ce[0].category);
      CategoryExpensesListed(f, ce[0].category);
      FilteredKeys(txs, month, ce[0].category);
    }
  }

  /** The top category carries that category's sum for the month, which is
      positive, and no category was spent on more. */
  lemma TopIsLargest(txs: seq<Txn>, month: string)
    requires |Top(txs, month)| == 1
    ensures var top := Top(txs, month)[0];
      && top.amount == SpentSpec(ClientRule, txs, month, top.category)
      && top.amount > 0
      && forall c :: SpentSpec(ClientRule, txs, month, c) <= top.amount
  {
    var f := ThisMonthExpenses(txs, month);
    var ce := GetCategoryExpenses(f);
    CategoryExpensesAmounts(f);
    var top := ce[0];
    FilteredSums(txs, month, top.category);
    forall c
      ensures SpentSpec(ClientRule, txs, month, c) <= top.amount
    {
      FilteredSums(txs, month, c);
      CategoryExpensesListed(f, c);
      if HasSpending(ClientRule, f, "", c) {
        var i :| 0 <= i < |ce| && ce[i].category == c;
        assert ExpenseAmount(ce[0]) >= ExpenseAmount(ce[i]);
      } else {
        NoSpendingIsZero(ClientRule, f, "");
      }
    }
  }

  /** `(thisTotal - lastTotal) / lastTotal * 100`. */
  function Change(thisTotal: int, lastTotal: int): real
    requires lastTotal > 0
  {
    (thisTotal - lastTotal) as real / lastTotal as real * 100.0
  }

  /** The trend hint: only with spending last month, and only for a change
      of more than 10 % either way. */
  function Trend(thisTotal: int, lastTotal: int): (r: seq<Insight>)
    ensures |r| <= 1
    ensures |r| == 1 <==> lastTotal > 0 && (Change(thisTotal, lastTotal) > 10.0 || Change(thisTotal, lastTotal) < -10.0)
    ensures |r| == 1 && r[0].IncreasedSpending? ==> r[0].change > 10.0 && 10 * thisTotal > 11 * lastTotal
    ensures |r| == 1 && r[0].GreatSavings? ==> r[0].reduction > 10.0 && 10 * thisTotal < 9 * lastTotal
    ensures forall i :: 0 <= i < |r| ==> r[i].IncreasedSpending? || r[i].GreatSavings?
  {
    if lastTotal > 0 then
      var change := Change(thisTotal, lastTotal);
      ChangeBounds(thisTotal, lastTotal);
      if change > 10.0 then [IncreasedSpending(change)]
      else if change < -10.0 then [GreatSavings(-change)]
      else []
    else []
  }

  lemma ChangeBounds(thisTotal: int, lastTotal: int)
    requires lastTotal > 0
    ensures Change(thisTotal, lastTotal) > 10.0 <==> 10 * thisTotal > 11 * lastTotal
    ensures Change(thisTotal, lastTotal) < -10.0 <==> 10 * thisTotal < 9 * lastTotal
  {
    var ch := Change(thisTotal, lastTotal);
    ChangeTimesLast(thisTotal, lastTotal);
    Money.ScaledAbove(ch, thisTotal - lastTotal, lastTotal, 10);
    Money.ScaledBelow(ch, thisTotal - lastTotal, lastTotal, -10);
  }

  lemma ChangeTimesLast(thisTotal: int, lastTotal: int)
    requires lastTotal > 0
    ensures Change(thisTotal, lastTotal) * lastTotal as real == 100.0 * (thisTotal - lastTotal) as real
  {
    var l := lastTotal as real;
    var d := (thisTotal - lastTotal) as real / l;
    assert d * l == (thisTotal - lastTotal) as real;
  }

  /** Every hint, before the cut to three. */
  function AllInsights(txs: seq<Txn>, budgets: seq<Budget>, month: string, lastMonth: string): seq<Insight> {
    Alerts(CalculateBudgetStatus(budgets, txs, month))
      + Top(txs, month)
      + Trend(MonthTotal(txs, month), MonthTotal(txs, lastMonth))
  }

  /** The insights for the month keyed `month`, comparing with the month
      keyed `lastMonth`. */
  function SpendingInsights(txs: seq<Txn>, budgets: seq<Budget>, month: string, lastMonth: string): (r: seq<Insight>)
    ensures |r| <= MaxInsights
    ensures r <= AllInsights(txs, budgets, month, lastMonth)
    ensures |r| == MaxInsights || r == AllInsights(txs, budgets, month, lastMonth)
  {
    var all := AllInsights(txs, budgets, month, lastMonth);
    if |all| <= MaxInsights then all else all[..MaxInsights]
  }

  /** Alerts come first: with three budgets above 90 % there is no room for
      anything else. */
  lemma AlertsCrowdOut(txs: seq<Txn>, budgets: seq<Budget>, month: string, lastMonth: string)
    requires OverCount(CalculateBudgetStatus(budgets, txs, month)) >= MaxInsights
    ensures var r := SpendingInsights(txs, budgets, month, lastMonth);
      |r| == MaxInsights && forall i :: 0 <= i < |r| ==> r[i].BudgetAlert?
  {
    var st := CalculateBudgetStatus(budgets, txs, month);
    var a := Alerts(st);
    AlertsCount(st);
    var rest := Top(txs, month) + Trend(MonthTotal(txs, month), MonthTotal(txs, lastMonth));
    assert AllInsights(txs, budgets, month, lastMonth) == a + rest;
    AlertPrefix(a, rest, SpendingInsights(txs, budgets, month, lastMonth));
  }

  /** A prefix of at most `MaxInsights` insights that starts with at least
      that many alerts holds only alerts. */
  lemma AlertPrefix(a: seq<Insight>, rest: seq<Insight>, r: seq<Insight>)
    requires |a| >= MaxInsights && forall i :: 0 <= i < |a| ==> a[i].BudgetAlert?
    requires r <= a + rest && |r| <= MaxInsights
    requires |r| == MaxInsights || r == a + rest
    ensures |r| == MaxInsights && forall i :: 0 <= i < |r| ==> r[i].BudgetAlert?
  {
    assert |r| == MaxInsights;
    forall i | 0 <= i < |r|
      ensures r[i].BudgetAlert?
    {
      assert r[i] == (a + rest)[i] == a[i];
    }
  }

  /** With room left, the top category follows the alerts whenever the
      month has counted spending. */
  lemma TopFollowsAlerts(txs: seq<Txn>, budgets: seq<Budget>, month: string, lastMonth: string, c: string)
    requires OverCount(CalculateBudgetStatus(budgets, txs, month)) < MaxInsights
    requires HasSpending(ClientRule, txs, month, c)
    ensures var r := SpendingInsights(txs, budgets, month, lastMonth);
      var n := OverCount(CalculateBudgetStatus(budgets, txs, month));
      n < |r| && r[n].TopCategory?
  {
    AlertsMatchBudgets(CalculateBudgetStatus(budgets, txs, month));
    TopPresent(txs, month);
  }

  /** Spending that did not change never gives a trend hint. */
  lemma FlatSpendingHasNoTrend(total: int)
    ensures Trend(total, total) == []
  {
    if total > 0 {
      ChangeBounds(total, total);
    }
  }

  /** 200.00 last month and 240.00 this month: spending rose by 20 %. */
  lemma RiseExample()
    ensures Trend(24000, 20000) == [IncreasedSpending(20.0)]
  {
    ChangeBounds(24000, 20000);
  }

  /** 200.00 last month and 150.00 this month: spending fell by 25 %. */
  lemma SavingsExample()
    ensures Trend(15000, 20000) == [GreatSavings(25.0)]
  {
    ChangeBounds(15000, 20000);
  }

  /** The insights for a given day, with the previous-month key computed as
      the source computes it. */
  function SpendingInsightsAsWritten(txs: seq<Txn>, budgets: seq<Budget>, today: Calendar.Date): (r: seq<Insight>)
    requires Calendar.Valid(today)
    ensures today.day <= Calendar.DaysIn(Calendar.PrevYear(today.year, today.month), Calendar.PrevMonth(today.month))
      ==> r == SpendingInsightsOn(txs, budgets, today)
  {
    SpendingInsights(txs, budgets, Calendar.CurrentMonthKey(today), Calendar.LastMonthKeyAsWritten(today))
  }

  /** The insights for a given day, compared with the calendar month before. */
  function SpendingInsightsOn(txs: seq<Txn>, budgets: seq<Budget>, today: Calendar.Date): seq<Insight>
    requires Calendar.Valid(today)
  {
    SpendingInsights(txs, budgets, Calendar.CurrentMonthKey(today), Calendar.LastMonthKey(today))
  }

  /** On a day the previous month does not have (31 March, say) the source
      compares the month with itself, so no trend hint can ever appear. */
  lemma AsWrittenTrendVanishes(txs: seq<Txn>, today: Calendar.Date)
    requires Calendar.Valid(today)
    requires today.day > Calendar.DaysIn(Calendar.PrevYear(today.year, today.month), Calendar.PrevMonth(today.month))
    ensures Trend(MonthTotal(txs, Calendar.CurrentMonthKey(today)), MonthTotal(txs, Calendar.LastMonthKeyAsWritten(today))) == []
  {
    Calendar.AsWrittenOverflows(today);
    FlatSpendingHasNoTrend(MonthTotal(txs, Calendar.CurrentMonthKey(today)));
  }

  /** With the calendar month before, the trend does appear: 200.00 of
      spending dated February and 240.00 dated March give a 20 % rise on
      31 March 2024. */
  lemma CorrectedTrendOnMarch31()
    ensures var today := Calendar.Date(2024, 3, 31);
      var txs := [SampleExpense(20000, "2024-02-10", "Food"), SampleExpense(24000, "2024-03-10", "Food")];
      && Calendar.Valid(today)
      && Trend(MonthTotal(txs, Calendar.CurrentMonthKey(today)), MonthTotal(txs, Calendar.LastMonthKey(today)))
        == [IncreasedSpending(20.0)]
  {
    Calendar.March31Overflows();
    Calendar.MonthKey2024(3);
    var today := Calendar.Date(2024, 3, 31);
    assert Calendar.CurrentMonthKey(today) == "2024-03";
    var x := SampleExpense(20000, "2024-02-10", "Food");
    var y := SampleExpense(24000, "2024-03-10", "Food");
    assert "2024-02-10"[..7] == "2024-02" && "2024-03-10"[..7] == "2024-03";
    PairTotal(x, y, "2024-03");
    PairTotal(x, y, "2024-02");
    RiseExample();
  }

  /** The month total of two transactions. */
  lemma PairTotal(x: Txn, y: Txn, month: string)
    ensures MonthTotal([x, y], month)
      == (if MonthExpense(x, month) then x.amount else 0) + (if MonthExpense(y, month) then y.amount else 0)
  {
    assert [x, y][1..] == [y];
    assert [y][1..] == [];
    assert MonthTotal([y], month) == (if MonthExpense(y, month) then y.amount else 0) + MonthTotal([], month);
  }
}
