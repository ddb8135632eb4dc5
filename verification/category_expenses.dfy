/** `getCategoryExpenses`: expense totals per trimmed category, coloured in
    first-seen order and listed largest first. */
module CategoryExpenses {
  import opened Text
  import opened Records
  import opened Aggregation
  import opened Sorting
  import Categories

  datatype CategoryTotal = CategoryTotal(category: string, amount: int)

  datatype CategoryExpense = CategoryExpense(category: string, amount: int, color: string)

  function ExpenseAmount(e: CategoryExpense): int {
    e.amount
  }

  /** The filter: an expense with a positive amount and a non-blank
      category. It is the client counting rule with the empty month key,
      which every date starts with. */
  predicate Kept(t: Txn) {
    Counted(ClientRule, t, "")
  }

  lemma KeptMeans(t: Txn)
    ensures Kept(t) <==> t.kind == Expense && t.amount > 0 && !IsBlank(t.category)
  {
    assert t.date[..0] == "";
  }

  /** Reference definition: the sum of the kept amounts. */
  function KeptTotal(txs: seq<Txn>): int {
    if txs == [] then 0
    else (if Kept(txs[0]) then txs[0].amount else 0) + KeptTotal(txs[1..])
  }

  lemma {:induction false} KeptTotalSnoc(txs: seq<Txn>, t: Txn)
    ensures KeptTotal(txs + [t]) == KeptTotal(txs) + (if Kept(t) then t.amount else 0)
  {
    if txs == [] {
      assert [t][1..] == [];
    } else {
      assert (txs + [t])[1..] == txs[1..] + [t];
      KeptTotalSnoc(txs[1..], t);
    }
  }

  ghost predicate DistinctKeys(g: seq<CategoryTotal>) {
    forall i, j :: 0 <= i < j < |g| ==> g[i].category != g[j].category
  }

  ghost predicate HasKey(g: seq<CategoryTotal>, c: string) {
    exists i :: 0 <= i < |g| && g[i].category == c
  }

  /** `categoryData[c] || 0` on the association list. */
  function Find(g: seq<CategoryTotal>, c: string): int {
    if g == [] then 0
    else if g[0].category == c then g[0].amount
    else Find(g[1..], c)
  }

  function TotalOf(g: seq<CategoryTotal>): int {
    if g == [] then 0 else g[0].amount + TotalOf(g[1..])
  }

  /** `categoryData[c] += a`: an existing key keeps its place, a new key
      goes last, as a JavaScript object keeps its string keys in insertion
      order. */
  function AddTo(g: seq<CategoryTotal>, c: string, a: int): (r: seq<CategoryTotal>)
    ensures |r| == |g| || r == g + [CategoryTotal(c, a)]
    ensures |r| == |g| ==> forall i :: 0 <= i < |g| ==> r[i].category == g[i].category
    ensures TotalOf(r) == TotalOf(g) + a
  {
    if g == [] then [CategoryTotal(c, a)]
    else if g[0].category == c then [CategoryTotal(c, g[0].amount + a)] + g[1..]
    else
      var rest := AddTo(g[1..], c, a);
      assert g == [g[0]] + g[1..];
      assert ([g[0]] + rest)[1..] == rest;
      [g[0]] + rest
  }

  /** `AddTo` changes exactly the total of `c`. */
  lemma {:induction false} AddToFind(g: seq<CategoryTotal>, c: string, a: int, k: string)
    ensures Find(AddTo(g, c, a), k) == Find(g, k) + (if k == c then a else 0)
  {
    if g != [] && g[0].category != c {
      var r := AddTo(g, c, a);
      assert r[1..] == AddTo(g[1..], c, a);
      AddToFind(g[1..], c, a, k);
    }
  }

  /** `AddTo` adds exactly the key `c`. */
  lemma AddToKeys(g: seq<CategoryTotal>, c: string, a: int, k: string)
    ensures HasKey(AddTo(g, c, a), k) <==> HasKey(g, k) || k == c
  {
    var r := AddTo(g, c, a);
    AddToHasKey(g, c, a);
    if |r| == |g| {
      if HasKey(g, k) {
        var i :| 0 <= i < |g| && g[i].category == k;
        assert r[i].category == k;
      }
      if HasKey(r, k) {
        var i :| 0 <= i < |r| && r[i].category == k;
        assert g[i].category == k;
      }
    } else {
      assert r == g + [CategoryTotal(c, a)];
      if HasKey(g, k) {
        var i :| 0 <= i < |g| && g[i].category == k;
        assert r[i] == g[i];
      }
      if HasKey(r, k) && k != c {
        var i :| 0 <= i < |r| && r[i].category == k;
        assert r[|g|].category == c;
        assert r[i] == g[i];
      }
    }
  }

  /** After `AddTo` the key `c` is present. */
  lemma {:induction false} AddToHasKey(g: seq<CategoryTotal>, c: string, a: int)
    ensures HasKey(AddTo(g, c, a), c)
  {
    var r := AddTo(g, c, a);
    if g == [] || g[0].category == c {
      assert r[0].category == c;
    } else {
      var rest := AddTo(g[1..], c, a);
      assert r == [g[0]] + rest;
      AddToHasKey(g[1..], c, a);
      var i :| 0 <= i < |rest| && rest[i].category == c;
      assert r[i + 1] == rest[i];
    }
  }

  lemma DistinctTail(g: seq<CategoryTotal>)
    requires DistinctKeys(g) && g != []
    ensures DistinctKeys(g[1..]) && !HasKey(g[1..], g[0].category)
  {
    var tail := g[1..];
    forall i, j | 0 <= i < j < |tail|
      ensures tail[i].category != tail[j].category
    {
      assert tail[i] == g[i + 1] && tail[j] == g[j + 1];
    }
    forall i | 0 <= i < |tail|
      ensures tail[i].category != g[0].category
    {
      assert tail[i] == g[i + 1];
    }
  }

  /** `AddTo` keeps the keys distinct. */
  lemma {:induction false} AddToDistinct(g: seq<CategoryTotal>, c: string, a: int)
    requires DistinctKeys(g)
    ensures DistinctKeys(AddTo(g, c, a))
  {
    var r := AddTo(g, c, a);
    if g != [] {
      var tail := g[1..];
      DistinctTail(g);
      if g[0].category == c {
        forall i, j | 0 <= i < j < |r|
          ensures r[i].category != r[j].category
        {
          assert r[j] == g[j];
          assert r[i].category == g[i].category;
        }
      } else {
        var rest := AddTo(tail, c, a);
        assert r == [g[0]] + rest;
        AddToDistinct(tail, c, a);
        AddToKeys(tail, c, a, g[0].category);
        forall i, j | 0 <= i < j < |r|
          ensures r[i].category != r[j].category
        {
          assert r[j] == rest[j - 1];
          if i > 0 {
            assert r[i] == rest[i - 1];
          }
        }
      }
    }
  }

  /** The `forEach` over the kept transactions, left to right. */
  function Totals(txs: seq<Txn>): seq<CategoryTotal>
    decreases |txs|
  {
    if txs == [] then []
    else
      var init := Totals(txs[..|txs| - 1]);
      var t := txs[|txs| - 1];
      if Kept(t) then AddTo(init, Trim(t.category), t.amount) else init
  }

  /** The running totals have one entry per category with kept spending,
      holding the reference sum of that category, and add up to the kept
      total. */
  lemma {:induction false} TotalsCorrect(txs: seq<Txn>, c: string)
    ensures DistinctKeys(Totals(txs))
    ensures HasKey(Totals(txs), c) <==> HasSpending(ClientRule, txs, "", c)
    ensures Find(Totals(txs), c) == SpentSpec(ClientRule, txs, "", c)
    ensures TotalOf(Totals(txs)) == KeptTotal(txs)
    decreases |txs|
  {
    if txs != [] {
      var init := txs[..|txs| - 1];
      var t := txs[|txs| - 1];
      assert txs == init + [t];
      TotalsCorrect(init, c);
      SpentSpecSnoc(ClientRule, init, t, "", c);
      HasSpendingSnoc(ClientRule, init, t, "", c);
      KeptTotalSnoc(init, t);
      if Kept(t) {
        AddToDistinct(Totals(init), Trim(t.category), t.amount);
        AddToKeys(Totals(init), Trim(t.category), t.amount, c);
        AddToFind(Totals(init), Trim(t.category), t.amount, c);
      }
    }
  }

  /** `Object.entries(...).map(...)`: the colour is chosen by first-seen
      position, cycling through the chart palette. */
  function WithColors(g: seq<CategoryTotal>): (r: seq<CategoryExpense>)
    ensures |r| == |g|
    ensures forall i :: 0 <= i < |r| ==> r[i].category == g[i].category && r[i].amount == g[i].amount
    ensures forall i :: 0 <= i < |r| ==> r[i].color in Categories.ChartColors
  {
    seq(|g|, i requires 0 <= i < |g| =>
      CategoryExpense(g[i].category, g[i].amount, Categories.ChartColors[i % |Categories.ChartColors|]))
  }

  lemma {:induction false} SameAmountsTotal(s: seq<CategoryExpense>, g: seq<CategoryTotal>)
    requires |s| == |g| && forall i :: 0 <= i < |s| ==> s[i].amount == g[i].amount
    ensures SumKeys(s, ExpenseAmount) == TotalOf(g)
  {
    if s != [] {
      SameAmountsTotal(s[1..], g[1..]);
    }
  }

  function GetCategoryExpenses(txs: seq<Txn>): (r: seq<CategoryExpense>)
    ensures SortedDesc(r, ExpenseAmount)
    ensures multiset(r) == multiset(WithColors(Totals(txs)))
    ensures forall k :: Ties(r, ExpenseAmount, k) == Ties(WithColors(Totals(txs)), ExpenseAmount, k)
  {
    SortDesc(WithColors(Totals(txs)), ExpenseAmount)
  }

  ghost predicate Listed(r: seq<CategoryExpense>, c: string) {
    exists i :: 0 <= i < |r| && r[i].category == c
  }

  /** Every entry holds the reference sum of its category, which is
      positive, and a chart colour. */
  lemma CategoryExpensesAmounts(txs: seq<Txn>)
    ensures var r := GetCategoryExpenses(txs);
      forall i :: 0 <= i < |r| ==>
        && r[i].amount == SpentSpec(ClientRule, txs, "", r[i].category)
        && r[i].amount > 0
        && r[i].color in Categories.ChartColors
  {
    var g := Totals(txs);
    var w := WithColors(g);
    var r := GetCategoryExpenses(txs);
    TotalsCorrect(txs, "");
    forall i | 0 <= i < |r|
      ensures r[i].amount == SpentSpec(ClientRule, txs, "", r[i].category)
      ensures r[i].amount > 0 && r[i].color in Categories.ChartColors
    {
      PermutationMember(w, r, i);
      var j :| 0 <= j < |w| && w[j] == r[i];
      FindDistinct(g, j);
      TotalsCorrect(txs, g[j].category);
      assert HasKey(g, g[j].category);
      ClientSpentPositive(txs, "", g[j].category);
    }
  }

  /** No category is listed twice. */
  lemma CategoryExpensesDistinct(txs: seq<Txn>)
    ensures var r := GetCategoryExpenses(txs);
      forall i, j :: 0 <= i < j < |r| ==> r[i].category != r[j].category
  {
    var g := Totals(txs);
    var w := WithColors(g);
    var r := GetCategoryExpenses(txs);
    TotalsCorrect(txs, "");
    assert NoRepeats(w) by {
      forall i, j | 0 <= i < j < |w|
        ensures w[i] != w[j]
      {
        assert w[i].category == g[i].category && w[j].category == g[j].category;
      }
    }
    PermutationNoRepeats(w, r);
    forall i, j | 0 <= i < j < |r|
      ensures r[i].category != r[j].category
    {
      PermutationMember(w, r, i);
      PermutationMember(w, r, j);
      var a :| 0 <= a < |w| && w[a] == r[i];
      var b :| 0 <= b < |w| && w[b] == r[j];
      assert a != b;
      assert w[a].category == g[a].category && w[b].category == g[b].category;
    }
  }

  /** A category is listed exactly when some kept transaction carries it. */
  lemma CategoryExpensesListed(txs: seq<Txn>, c: string)
    ensures Listed(GetCategoryExpenses(txs), c) <==> HasSpending(ClientRule, txs, "", c)
  {
    var g := Totals(txs);
    var w := WithColors(g);
    var r := GetCategoryExpenses(txs);
    TotalsCorrect(txs, c);
    if Listed(r, c) {
      var i :| 0 <= i < |r| && r[i].category == c;
      PermutationMember(w, r, i);
      var j :| 0 <= j < |w| && w[j] == r[i];
      assert g[j].category == c;
    }
    if HasSpending(ClientRule, txs, "", c) {
      var j :| 0 <= j < |g| && g[j].category == c;
      assert w[j] in multiset(r);
      var i :| 0 <= i < |r| && r[i] == w[j];
      assert r[i].category == c;
    }
  }

  /** The listed amounts add up to the total of the kept transactions. */
  lemma CategoryExpensesTotal(txs: seq<Txn>)
    ensures SumKeys(GetCategoryExpenses(txs), ExpenseAmount) == KeptTotal(txs)
  {
    var g := Totals(txs);
    TotalsCorrect(txs, "");
    SameAmountsTotal(WithColors(g), g);
  }

  lemma {:induction false} FindDistinct(g: seq<CategoryTotal>, i: int)
    requires DistinctKeys(g) && 0 <= i < |g|
    ensures Find(g, g[i].category) == g[i].amount
  {
    if i > 0 {
      assert g[0].category != g[i].category;
      assert DistinctKeys(g[1..]) by {
        forall a, b | 0 <= a < b < |g[1..]|
          ensures g[1..][a].category != g[1..][b].category
        {
          assert g[1..][a] == g[a + 1] && g[1..][b] == g[b + 1];
        }
      }
      assert g[1..][i - 1] == g[i];
      FindDistinct(g[1..], i - 1);
    }
  }
}
