/** The budget editor: a local copy of the budgets (id, category, amount),
    the two inputs for a new budget, and the edits that change the copy
    before it is saved or thrown away. */
module BudgetSetup {
  import opened Wrappers
  import opened Records
  import opened Money
  import opened Categories
  import opened JsNumber

  /** A budget as the editor holds it: no derived fields, the amount in
      currency units. */
  datatype LocalBudget = LocalBudget(id: Option<string>, category: string, amount: real)

  datatype Editor = Editor(local: seq<LocalBudget>, newCategory: string, newAmount: string)

  /** The editor's copy of a stored budget. */
  function Shown(b: Budget): (l: LocalBudget)
    ensures l.id == b.ids.id && l.category == b.category && l.amount == ToReal(b.amount)
  {
    LocalBudget(b.ids.id, b.category, ToReal(b.amount))
  }

  function ShownAll(budgets: seq<Budget>): (r: seq<LocalBudget>)
    ensures |r| == |budgets|
    ensures forall k :: 0 <= k < |r| ==> r[k] == Shown(budgets[k])
  {
    seq(|budgets|, k requires 0 <= k < |budgets| => Shown(budgets[k]))
  }

  /** The editor as it opens on the stored budgets. */
  function Open(budgets: seq<Budget>): Editor {
    Editor(ShownAll(budgets), "", "")
  }

  /** Some local budget has category `c`. */
  predicate Budgeted(local: seq<LocalBudget>, c: string) {
    exists k :: 0 <= k < |local| && local[k].category == c
  }

  /** The categories of `cats` that no local budget uses yet. */
  function Unbudgeted(cats: seq<string>, local: seq<LocalBudget>): (r: seq<string>)
    ensures |r| <= |cats|
    ensures forall c :: c in r <==> c in cats && !Budgeted(local, c)
  {
    if cats == [] then []
    else
      var rest := Unbudgeted(cats[1..], local);
      assert forall c :: c in cats <==> c == cats[0] || c in cats[1..];
      if Budgeted(local, cats[0]) then rest else [cats[0]] + rest
  }

  /** `availableCategories`: the expense categories without a budget. */
  function AvailableCategories(local: seq<LocalBudget>): (r: seq<string>)
    ensures forall c :: c in r <==> c in ExpenseCategories && !Budgeted(local, c)
  {
    Unbudgeted(ExpenseCategories, local)
  }

  /** `newCategory && newAmount && Number(newAmount) > 0`. */
  predicate AddAccepted(e: Editor) {
    e.newCategory != "" && e.newAmount != ""
    && ToNumber(e.newAmount).Some? && ToNumber(e.newAmount).value > 0.0
  }

  /** `addBudget`: with both inputs filled and a positive amount, append a
      budget with the new id and clear the inputs; otherwise nothing. */
  function AddBudget(e: Editor, newId: string): (r: Editor)
    ensures AddAccepted(e) ==>
      && |r.local| == |e.local| + 1 && r.local[..|e.local|] == e.local
      && r.local[|e.local|].id == Some(newId)
      && r.local[|e.local|].category == e.newCategory
      && r.local[|e.local|].amount > 0.0
      && Some(r.local[|e.local|].amount) == ToNumber(e.newAmount)
      && r.newCategory == "" && r.newAmount == ""
    ensures !AddAccepted(e) ==> r == e
  {
    if AddAccepted(e) then
      Editor(e.local + [LocalBudget(Some(newId), e.newCategory, ToNumber(e.newAmount).value)], "", "")
    else e
  }

  /** `localBudgets.filter(b => b.id !== id)`. */
  function RemoveBudget(local: seq<LocalBudget>, id: string): (r: seq<LocalBudget>)
    ensures |r| <= |local|
    ensures forall b :: b in r <==> b in local && b.id != Some(id)
  {
    if local == [] then []
    else
      var rest := RemoveBudget(local[1..], id);
      assert forall b :: b in local <==> b == local[0] || b in local[1..];
      if local[0].id == Some(id) then rest else [local[0]] + rest
  }

  /** `Number(s) || 0`: NaN and 0 both give 0. */
  function AmountInput(s: string): (x: real)
    ensures ToNumber(s).Some? ==> x == ToNumber(s).value
    ensures ToNumber(s).None? ==> x == 0.0
  {
    ToNumber(s).GetOr(0.0)
  }

  /** `updateBudgetAmount`: every budget with the id gets the typed amount,
      every other budget is unchanged. */
  function UpdateBudgetAmount(local: seq<LocalBudget>, id: string, s: string): (r: seq<LocalBudget>)
    ensures |r| == |local|
    ensures forall k :: 0 <= k < |r| && local[k].id == Some(id) ==> r[k] == local[k].(amount := AmountInput(s))
    ensures forall k :: 0 <= k < |r| && local[k].id != Some(id) ==> r[k] == local[k]
  {
    seq(|local|, k requires 0 <= k < |local| =>
      if local[k].id == Some(id) then local[k].(amount := AmountInput(s)) else local[k])
  }

  /** `handleCancel`: the copy of the stored budgets and empty inputs,
      whatever was edited. */
  function Cancel(e: Editor, budgets: seq<Budget>): (r: Editor)
    ensures r == Open(budgets)
    ensures |r.local| == |budgets| && r.newCategory == "" && r.newAmount == ""
  {
    Editor(ShownAll(budgets), "", "")
  }

  /** No two local budgets share a category. */
  predicate DistinctCategories(local: seq<LocalBudget>) {
    forall i, j :: 0 <= i < j < |local| ==> local[i].category != local[j].category
  }

  /** Adding a category picked from the available ones keeps categories
      distinct. */
  lemma AddKeepsDistinct(e: Editor, newId: string)
    requires DistinctCategories(e.local) && e.newCategory in AvailableCategories(e.local)
    ensures DistinctCategories(AddBudget(e, newId).local)
  {
    var r := AddBudget(e, newId).local;
    forall i, j | 0 <= i < j < |r|
      ensures r[i].category != r[j].category
    {
      if j == |e.local| && AddAccepted(e) {
        assert r[i] == e.local[i];
      }
    }
  }

  /** Removing keeps the remaining budgets' categories distinct. */
  lemma {:induction false} RemoveKeepsDistinct(local: seq<LocalBudget>, id: string)
    requires DistinctCategories(local)
    ensures DistinctCategories(RemoveBudget(local, id))
  {
    if local != [] {
      assert DistinctCategories(local[1..]);
      RemoveKeepsDistinct(local[1..], id);
      var rest := RemoveBudget(local[1..], id);
      forall b | b in rest
        ensures b.category != local[0].category
      {
        var k :| 0 <= k < |local[1..]| && local[1..][k] == b;
        assert local[k + 1] == b;
      }
    }
  }

  /** Editing amounts never changes a category. */
  lemma UpdateKeepsDistinct(local: seq<LocalBudget>, id: string, s: string)
    requires DistinctCategories(local)
    ensures DistinctCategories(UpdateBudgetAmount(local, id, s))
  {
  }

  /** Removal distributes over concatenation, so it keeps the order of the
      budgets it keeps. */
  lemma {:induction false} RemoveAppend(a: seq<LocalBudget>, b: seq<LocalBudget>, id: string)
    ensures RemoveBudget(a + b, id) == RemoveBudget(a, id) + RemoveBudget(b, id)
  {
    if a == [] {
      assert a + b == b;
    } else {
      assert (a + b)[1..] == a[1..] + b;
      RemoveAppend(a[1..], b, id);
    }
  }

  /** Removing an id no budget carries changes nothing. */
  lemma {:induction false} RemoveAbsent(local: seq<LocalBudget>, id: string)
    requires forall k :: 0 <= k < |local| ==> local[k].id != Some(id)
    ensures RemoveBudget(local, id) == local
  {
    if local != [] {
      RemoveAbsent(local[1..], id);
    }
  }

  /** Removing a budget just added under a new id undoes the addition. */
  lemma AddThenRemove(e: Editor, newId: string)
    requires AddAccepted(e)
    requires forall k :: 0 <= k < |e.local| ==> e.local[k].id != Some(newId)
    ensures RemoveBudget(AddBudget(e, newId).local, newId) == e.local
  {
    var added := LocalBudget(Some(newId), e.newCategory, ToNumber(e.newAmount).value);
    RemoveAppend(e.local, [added], newId);
    RemoveAbsent(e.local, newId);
    assert RemoveBudget([added], newId) == [];
  }

  /** An added budget has a positive amount. */
  lemma AddedPositive(e: Editor, newId: string)
    requires AddAccepted(e)
    ensures AddBudget(e, newId).local[|e.local|].amount > 0.0
    ensures AddBudget(e, newId).local[|e.local|].category == e.newCategory
  {
  }
}
