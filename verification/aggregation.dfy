/** The budget aggregation engine: which transactions count towards a
    budget's `spent`, the per-category sums a site builds, and the one status
    formula that derives `remaining` and `percentage` from them. The client
    computation and the server routes differ only in the counting rule. */
module Aggregation {
  import opened Wrappers
  import opened Text
  import opened Money
  import opened Records

  /** The counting rule of a site.
      ClientRule: expense, in the month, amount > 0, non-blank category,
      keyed by the trimmed category (the client computation).
      ServerRule: expense, in the month, keyed by the raw category (the
      `$match` / `$group` aggregation of the GET routes, read with string
      ids and string dates). */
  datatype Rule = ClientRule | ServerRule

  /** The month filter: the date string starts with the `YYYY-MM` key. */
  predicate InMonth(t: Txn, month: string) {
    StartsWith(t.date, month)
  }

  predicate Counted(rule: Rule, t: Txn, month: string) {
    match rule
    case ClientRule => t.kind == Expense && InMonth(t, month) && t.amount > 0 && !IsBlank(t.category)
    case ServerRule => t.kind == Expense && InMonth(t, month)
  }

  /** The category a counted transaction is summed under. */
  function KeyOf(rule: Rule, t: Txn): string {
    match rule
    case ClientRule => Trim(t.category)
    case ServerRule => t.category
  }

  /** Reference definition: the sum of the amounts of the transactions that
      the rule counts under category `c`. */
  function SpentSpec(rule: Rule, txs: seq<Txn>, month: string, c: string): (r: int)
    ensures rule == ClientRule ==> r >= 0
  {
    if txs == [] then 0
    else
      var t := txs[0];
      (if Hits(rule, t, month, c) then t.amount else 0)
      + SpentSpec(rule, txs[1..], month, c)
  }

  /** `m[c] || 0`. */
  function Lookup(m: map<string, int>, c: string): int {
    if c in m then m[c] else 0
  }

  /** The per-category sums, built left to right as the client's `reduce`
      and the routes' `$group` build them. */
  function Spending(rule: Rule, txs: seq<Txn>, month: string): (m: map<string, int>)
    ensures rule == ClientRule ==> forall c :: c in m ==> m[c] > 0
    decreases |txs|
  {
    if txs == [] then map[]
    else
      var acc := Spending(rule, txs[..|txs| - 1], month);
      var t := txs[|txs| - 1];
      if Counted(rule, t, month) then acc[KeyOf(rule, t) := Lookup(acc, KeyOf(rule, t)) + t.amount]
      else acc
  }

  /** Some transaction is counted under `c`. */
  predicate HasSpending(rule: Rule, txs: seq<Txn>, month: string, c: string) {
    exists i :: 0 <= i < |txs| && Hits(rule, txs[i], month, c)
  }

  /** `t` is counted, under category `c`. */
  predicate Hits(rule: Rule, t: Txn, month: string, c: string) {
    Counted(rule, t, month) && KeyOf(rule, t) == c
  }

  /** `SpentSpec` split at the last transaction. */
  lemma {:induction false} SpentSpecSnoc(rule: Rule, txs: seq<Txn>, t: Txn, month: string, c: string)
    ensures SpentSpec(rule, txs + [t], month, c)
         == SpentSpec(rule, txs, month, c) + (if Hits(rule, t, month, c) then t.amount else 0)
  {
    if txs == [] {
      assert [t][1..] == [];
    } else {
      assert (txs + [t])[1..] == txs[1..] + [t];
      SpentSpecSnoc(rule, txs[1..], t, month, c);
    }
  }

  /** `HasSpending` split at the last transaction. */
  lemma HasSpendingSnoc(rule: Rule, txs: seq<Txn>, t: Txn, month: string, c: string)
    ensures HasSpending(rule, txs + [t], month, c)
        <==> HasSpending(rule, txs, month, c) || Hits(rule, t, month, c)
  {
    var s := txs + [t];
    if HasSpending(rule, txs, month, c) {
      var i :| 0 <= i < |txs| && Hits(rule, txs[i], month, c);
      assert s[i] == txs[i];
    }
    if Hits(rule, t, month, c) {
      assert s[|txs|] == t;
    }
    if HasSpending(rule, s, month, c) && !Hits(rule, t, month, c) {
      var i :| 0 <= i < |s| && Hits(rule, s[i], month, c);
      assert i < |txs| && txs[i] == s[i];
    }
  }

  /** The client rule only counts positive amounts, so its sums are never
      negative, and positive wherever something is counted. */
  lemma {:induction false} ClientSpentPositive(txs: seq<Txn>, month: string, c: string)
    ensures SpentSpec(ClientRule, txs, month, c) >= 0
    ensures HasSpending(ClientRule, txs, month, c) ==> SpentSpec(ClientRule, txs, month, c) > 0
  {
    if txs != [] {
      ClientSpentPositive(txs[1..], month, c);
      if HasSpending(ClientRule, txs, month, c) && !Hits(ClientRule, txs[0], month, c) {
        var i :| 0 <= i < |txs| && Hits(ClientRule, txs[i], month, c);
        assert txs[1..][i - 1] == txs[i];
      }
    }
  }

  /** The map the sites build holds, for every category, exactly the
      reference sum, and has an entry exactly for the categories with
      counted spending. */
  lemma SpendingLookup(rule: Rule, txs: seq<Txn>, month: string, c: string)
    ensures Lookup(Spending(rule, txs, month), c) == SpentSpec(rule, txs, month, c)
    ensures c in Spending(rule, txs, month) <==> HasSpending(rule, txs, month, c)
  {
    SpendingSums(rule, txs, month, c);
    SpendingKeys(rule, txs, month, c);
  }

  lemma {:induction false} SpendingSums(rule: Rule, txs: seq<Txn>, month: string, c: string)
    ensures Lookup(Spending(rule, txs, month), c) == SpentSpec(rule, txs, month, c)
    decreases |txs|
  {
    if txs != [] {
      var init := txs[..|txs| - 1];
      var t := txs[|txs| - 1];
      assert txs == init + [t];
      SpendingSums(rule, init, month, c);
      SpentSpecSnoc(rule, init, t, month, c);
    }
  }

  lemma {:induction false} SpendingKeys(rule: Rule, txs: seq<Txn>, month: string, c: string)
    ensures c in Spending(rule, txs, month) <==> HasSpending(rule, txs, month, c)
    decreases |txs|
  {
    if txs != [] {
      var init := txs[..|txs| - 1];
      var t := txs[|txs| - 1];
      assert txs == init + [t];
      SpendingKeys(rule, init, month, c);
      HasSpendingSnoc(rule, init, t, month, c);
    }
  }

  lemma SpendingLookupAll(rule: Rule, txs: seq<Txn>, month: string)
    ensures forall c :: Lookup(Spending(rule, txs, month), c) == SpentSpec(rule, txs, month, c)
  {
    forall c {
      SpendingLookup(rule, txs, month, c);
    }
  }

  /** A category without counted spending has a reference sum of 0. */
  lemma NoSpendingIsZero(rule: Rule, txs: seq<Txn>, month: string)
    ensures forall c :: !HasSpending(rule, txs, month, c) ==> SpentSpec(rule, txs, month, c) == 0
  {
    forall c | !HasSpending(rule, txs, month, c)
      ensures SpentSpec(rule, txs, month, c) == 0
    {
      SpendingLookup(rule, txs, month, c);
    }
  }

  /** The one status formula shared by every site: `spent` is overwritten,
      `remaining = max(0, amount - spent)` and
      `percentage = clamp(0, 100, spent / amount * 100)`, or 0 when
      `amount <= 0`; every other field is kept. */
  function WithStatus(b: Budget, spent: int): (r: Budget)
    ensures r.ids == b.ids && r.owner == b.owner && r.category == b.category && r.amount == b.amount
    ensures r.spent == spent
    ensures r.remaining >= 0 && r.remaining >= b.amount - spent
    ensures r.remaining == 0 || r.remaining + spent == b.amount
    ensures 0.0 <= r.percentage <= 100.0
    ensures b.amount <= 0 ==> r.percentage == 0.0
    ensures b.amount > 0 && spent >= b.amount ==> r.percentage == 100.0
    ensures b.amount > 0 && 0 <= spent <= b.amount ==> r.percentage * (b.amount as real) == 100.0 * (spent as real)
  {
    b.(spent := spent, remaining := Remaining(b.amount, spent), percentage := Percentage(b.amount, spent))
  }

  /** `r` is `budgets` with every budget's status derived from the rule's
      reference sum for its category. */
  predicate IsStatusOf(r: seq<Budget>, rule: Rule, budgets: seq<Budget>, txs: seq<Txn>, month: string) {
    && |r| == |budgets|
    && forall i :: 0 <= i < |r| ==> r[i] == WithStatus(budgets[i], SpentSpec(rule, txs, month, budgets[i].category))
  }

  /** The engine: one output budget per input budget, in order, each with
      its status recomputed from the month's spending under `rule`. */
  function StatusAll(rule: Rule, budgets: seq<Budget>, txs: seq<Txn>, month: string): (r: seq<Budget>)
    ensures IsStatusOf(r, rule, budgets, txs, month)
  {
    var m := Spending(rule, txs, month);
    SpendingLookupAll(rule, txs, month);
    seq(|budgets|, i requires 0 <= i < |budgets| => WithStatus(budgets[i], Lookup(m, budgets[i].category)))
  }

  /** `calculateBudgetStatus`: the client computation for the month key. */
  function CalculateBudgetStatus(budgets: seq<Budget>, txs: seq<Txn>, month: string): (r: seq<Budget>)
    ensures IsStatusOf(r, ClientRule, budgets, txs, month)
    ensures forall i :: 0 <= i < |r| ==> r[i].remaining >= 0 && 0.0 <= r[i].percentage <= 100.0
    ensures forall i :: 0 <= i < |r| && !HasSpending(ClientRule, txs, month, budgets[i].category) ==> r[i].spent == 0
  {
    NoSpendingIsZero(ClientRule, txs, month);
    StatusAll(ClientRule, budgets, txs, month)
  }

  /** Recomputing the status of budgets that already carry one changes
      nothing: the derived fields depend only on category and amount. */
  lemma StatusAllIdempotent(rule: Rule, budgets: seq<Budget>, txs: seq<Txn>, month: string)
    ensures StatusAll(rule, StatusAll(rule, budgets, txs, month), txs, month) == StatusAll(rule, budgets, txs, month)
  {
    var once := StatusAll(rule, budgets, txs, month);
    var twice := StatusAll(rule, once, txs, month);
    assert |twice| == |once|;
    forall i | 0 <= i < |once|
      ensures twice[i] == once[i]
    {
    }
  }

  /** What every transaction written through the POST routes satisfies: a
      positive amount and a trimmed, non-empty category. */
  predicate WrittenByApi(t: Txn) {
    t.amount > 0 && t.category != [] && IsTrimmed(t.category)
  }

  /** On data written through the API, the client and the server rules
      count the same transactions under the same categories. */
  lemma {:induction false} RulesAgreeOnApiData(txs: seq<Txn>, month: string, c: string)
    requires forall i :: 0 <= i < |txs| ==> WrittenByApi(txs[i])
    ensures SpentSpec(ClientRule, txs, month, c) == SpentSpec(ServerRule, txs, month, c)
  {
    if txs != [] {
      TrimOfTrimmed(txs[0].category);
      RulesAgreeOnApiData(txs[1..], month, c);
    }
  }

  /** Hence the client computation and the server's counting rule give the
      same budgets on such data. */
  lemma ClientAgreesWithServer(budgets: seq<Budget>, txs: seq<Txn>, month: string)
    requires forall i :: 0 <= i < |txs| ==> WrittenByApi(txs[i])
    ensures StatusAll(ClientRule, budgets, txs, month) == StatusAll(ServerRule, budgets, txs, month)
  {
    var a := StatusAll(ClientRule, budgets, txs, month);
    var b := StatusAll(ServerRule, budgets, txs, month);
    forall i | 0 <= i < |budgets|
      ensures a[i] == b[i]
    {
      RulesAgreeOnApiData(txs, month, budgets[i].category);
    }
  }

  function SampleBudget(amount: int): Budget {
    Budget(Ids(None, None), Unscoped, "Food", amount, 0, 0, 0.0)
  }

  function SampleExpense(amount: int, date: string, category: string): Txn {
    Txn(Ids(None, None), Unscoped, amount, date, "Lunch", Expense, category)
  }

  /** Where the rules differ: an untrimmed category counts on the client but
      not on the server. */
  lemma UntrimmedCategoryDiffers()
    ensures SpentSpec(ClientRule, [SampleExpense(500, "2024-03-05", " Food")], "2024-03", "Food") == 500
    ensures SpentSpec(ServerRule, [SampleExpense(500, "2024-03-05", " Food")], "2024-03", "Food") == 0
  {
    var t := SampleExpense(500, "2024-03-05", " Food");
    TrimLeadingSpace();
    assert InMonth(t, "2024-03") by {
      assert "2024-03-05"[..7] == "2024-03";
    }
    assert [t][1..] == [];
    assert Counted(ClientRule, t, "2024-03") && KeyOf(ClientRule, t) == "Food";
    assert SpentSpec(ClientRule, [t], "2024-03", "Food") == 500 + SpentSpec(ClientRule, [], "2024-03", "Food");
    assert KeyOf(ServerRule, t) != "Food" by {
      assert t.category[0] != "Food"[0];
    }
  }

  lemma TrimLeadingSpace()
    ensures Trim(" Food") == "Food"
  {
    assert " Food"[1..] == "Food";
    assert IsSpace(" Food"[0]);
    TrimOfTrimmed("Food");
  }

  /** Where the rules differ: a non-positive amount is ignored by the client
      and summed by the server. */
  lemma NonPositiveAmountDiffers()
    ensures SpentSpec(ClientRule, [SampleExpense(-100, "2024-03-05", "Food")], "2024-03", "Food") == 0
    ensures SpentSpec(ServerRule, [SampleExpense(-100, "2024-03-05", "Food")], "2024-03", "Food") == -100
  {
  }

  /** A worked example: expenses of 40.00 and 35.50 against a
      budget of 100 give spent 75.50, remaining 24.50 and 75.5 percent; a
      transaction dated on the last day of the month belongs to that month
      only. */
  lemma WorkedExample()
    ensures var txs := [SampleExpense(4000, "2024-03-31", "Food"), SampleExpense(3550, "2024-03-02", "Food")];
      var r := CalculateBudgetStatus([SampleBudget(10000)], txs, "2024-03");
      r[0].spent == 7550 && r[0].remaining == 2450 && r[0].percentage == 75.5
      && SpentSpec(ClientRule, txs, "2024-04", "Food") == 0
  {
    var txs := [SampleExpense(4000, "2024-03-31", "Food"), SampleExpense(3550, "2024-03-02", "Food")];
    TrimOfTrimmed("Food");
    assert SpentSpec(ClientRule, txs, "2024-03", "Food") == 7550 by {
      assert txs[1..] == [SampleExpense(3550, "2024-03-02", "Food")];
    }
    assert SpentSpec(ClientRule, txs, "2024-04", "Food") == 0 by {
      assert txs[1..] == [SampleExpense(3550, "2024-03-02", "Food")];
      assert !InMonth(txs[0], "2024-04");
    }
  }

  /** A budget of zero has percentage 0 whatever the spending. */
  lemma ZeroBudgetHasZeroPercentage(b: Budget, spent: int)
    requires b.amount == 0
    ensures WithStatus(b, spent).percentage == 0.0
  {
  }
}
