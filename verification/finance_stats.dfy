/** The dashboard's summary figures: all-time income, expenses and balance,
    this month's income and expenses, the average daily spending, the
    savings rate and its badge. Money is in cents. */
module FinanceStats {
  import opened Text
  import opened Records
  import Money

  /** The sum of the amounts of the transactions of kind `k`. */
  function SumOf(txs: seq<Txn>, k: Kind): (r: int)
    ensures (forall i :: 0 <= i < |txs| ==> txs[i].kind != k) ==> r == 0
  {
    if txs == [] then 0
    else (if txs[0].kind == k then txs[0].amount else 0) + SumOf(txs[1..], k)
  }

  /** The sum of the amounts of the transactions of kind `k` whose date
      starts with `month`. */
  function MonthSumOf(txs: seq<Txn>, k: Kind, month: string): (r: int)
    ensures (forall i :: 0 <= i < |txs| ==> !StartsWith(txs[i].date, month)) ==> r == 0
  {
    if txs == [] then 0
    else
      var here := if txs[0].kind == k && StartsWith(txs[0].date, month) then txs[0].amount else 0;
      here + MonthSumOf(txs[1..], k, month)
  }

  /** Income minus expenses over every transaction. */
  function Balance(txs: seq<Txn>): (r: int)
    ensures r == SignedSum(txs)
  {
    BalanceIsSignedSum(txs);
    SumOf(txs, Income) - SumOf(txs, Expense)
  }

  /** The reference balance: every income adds its amount, every expense
      takes it away. */
  function Signed(t: Txn): int {
    if t.kind == Income then t.amount else -t.amount
  }

  function SignedSum(txs: seq<Txn>): int {
    if txs == [] then 0 else Signed(txs[0]) + SignedSum(txs[1..])
  }

  /** The balance is the signed sum of the transactions. */
  lemma {:induction false} BalanceIsSignedSum(txs: seq<Txn>)
    ensures SumOf(txs, Income) - SumOf(txs, Expense) == SignedSum(txs)
  {
    if txs != [] {
      BalanceIsSignedSum(txs[1..]);
    }
  }

  /** Each sum splits over a concatenation, so the figures of a ledger are
      the figures of its parts added up. */
  lemma {:induction false} SumOfAppend(a: seq<Txn>, b: seq<Txn>, k: Kind)
    ensures SumOf(a + b, k) == SumOf(a, k) + SumOf(b, k)
  {
    if a == [] {
      assert a + b == b;
    } else {
      assert (a + b)[1..] == a[1..] + b;
      SumOfAppend(a[1..], b, k);
    }
  }

  /** With no negative amounts, a month's sum is part of the all-time sum. */
  lemma {:induction false} MonthWithinTotal(txs: seq<Txn>, k: Kind, month: string)
    requires forall i :: 0 <= i < |txs| ==> txs[i].amount >= 0
    ensures 0 <= MonthSumOf(txs, k, month) <= SumOf(txs, k)
  {
    if txs != [] {
      assert txs[0].amount >= 0;
      MonthWithinTotal(txs[1..], k, month);
    }
  }

  /** The monthly figure is the all-time figure of the month's
      transactions: `thisMonthTransactions` filtered again by type. */
  function InMonth(txs: seq<Txn>, month: string): (r: seq<Txn>)
    ensures forall i :: 0 <= i < |r| ==> StartsWith(r[i].date, month)
  {
    if txs == [] then []
    else (if StartsWith(txs[0].date, month) then [txs[0]] else []) + InMonth(txs[1..], month)
  }

  lemma {:induction false} MonthSumIsSumOfMonth(txs: seq<Txn>, k: Kind, month: string)
    ensures MonthSumOf(txs, k, month) == SumOf(InMonth(txs, month), k)
  {
    if txs != [] {
      MonthSumIsSumOfMonth(txs[1..], k, month);
      var head := if StartsWith(txs[0].date, month) then [txs[0]] else [];
      SumOfAppend(head, InMonth(txs[1..], month), k);
      assert head == [] || head[1..] == [];
    }
  }

  /** `thisMonthExpenses / daysInMonth`, where the divisor is the day of
      the month and so at least 1. */
  function AverageDaily(expenses: int, dayOfMonth: int): (r: real)
    ensures dayOfMonth > 0 ==> r * (dayOfMonth as real) == expenses as real
    ensures dayOfMonth <= 0 ==> r == 0.0
  {
    if dayOfMonth > 0 then expenses as real / dayOfMonth as real else 0.0
  }

  /** `income > 0 ? (income - expenses) / income * 100 : 0`. */
  function SavingsRate(income: int, expenses: int): (r: real)
    ensures income <= 0 ==> r == 0.0
    ensures income > 0 ==> r * (income as real) == 100.0 * ((income - expenses) as real)
  {
    if income > 0 then
      var i := income as real;
      var d := (income - expenses) as real;
      assert (d / i) * i == d;
      d / i * 100.0
    else 0.0
  }

  /** For a month with income, the rate is at most 100 when nothing is
      negative, and it is non-negative exactly when expenses do not exceed
      income. */
  lemma SavingsRateBounds(income: int, expenses: int)
    requires income > 0
    ensures expenses >= 0 ==> SavingsRate(income, expenses) <= 100.0
    ensures SavingsRate(income, expenses) >= 0.0 <==> expenses <= income
  {
    var r := SavingsRate(income, expenses);
    var i := income as real;
    assert r * i == 100.0 * ((income - expenses) as real);
    Money.ScaleCompare(r, i, 100.0);
    Money.ScaleCompare(r, i, 0.0);
  }

  datatype Badge = Excellent | Good | NeedsWork

  /** The savings badge: 'Excellent' from 20 percent, 'Good' from 10. */
  function SavingsBadge(rate: real): (b: Badge)
    ensures b == Excellent <==> rate >= 20.0
    ensures b == Good <==> 10.0 <= rate < 20.0
    ensures b == NeedsWork <==> rate < 10.0
  {
    if rate >= 20.0 then Excellent else if rate >= 10.0 then Good else NeedsWork
  }

  function BadgeRank(b: Badge): nat {
    match b
    case NeedsWork => 0
    case Good => 1
    case Excellent => 2
  }

  /** A higher rate never earns a lower badge. */
  lemma BadgeMonotone(r1: real, r2: real)
    requires r1 <= r2
    ensures BadgeRank(SavingsBadge(r1)) <= BadgeRank(SavingsBadge(r2))
  {
  }

  /** A month with income is 'Excellent' exactly when expenses are at most
      four fifths of income, and a month without income 'Needs Work'. */
  lemma ExcellentMeans(income: int, expenses: int)
    ensures income > 0 ==> (SavingsBadge(SavingsRate(income, expenses)) == Excellent <==> 5 * expenses <= 4 * income)
    ensures income <= 0 ==> SavingsBadge(SavingsRate(income, expenses)) == NeedsWork
  {
    if income > 0 {
      Money.ScaledBelow(SavingsRate(income, expenses), income - expenses, income, 20);
    }
  }
}
