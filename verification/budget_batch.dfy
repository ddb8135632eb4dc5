/** What the two budget POST routes share: the per-item checks, the
    case-insensitive duplicate check, the documents they insert and the
    replacement of the stored budgets, plus the status mapping both budget
    GET routes apply. */
module BudgetBatch {
  import opened Wrappers
  import opened Text
  import opened Money
  import opened Json
  import opened Records
  import opened BudgetModel
  import TransactionChecks
  import Aggregation

  /** The reasons a budget POST is answered with 400 before any write. */
  datatype BudgetRejection =
    | ProfileIdMissing
    | GroupIdMissing
    | NotAnArray
    | InvalidCategory
    | InvalidAmount
    | AmountTooLarge
    | DuplicateCategories

  /** One item's fate in the validation loop; reading a field of a `null`
      item throws. */
  datatype ItemVerdict = ItemOk | ItemBad(reason: BudgetRejection) | ItemCrash

  function Category(item: Json): string {
    TransactionChecks.Str(Field(item, "category"))
  }

  /** An item the loop lets through: a non-blank category string and a
      number amount in [0.01, 999999.99]. */
  predicate ItemValid(item: Json) {
    && !item.JNull?
    && IsString(Field(item, "category")) && !IsBlank(Category(item))
    && IsNumber(Field(item, "amount")) && InAmountRange(Field(item, "amount").value.n)
  }

  /** The loop body on one item: category, then amount, then the maximum. */
  function CheckItem(item: Json): (v: ItemVerdict)
    ensures v == ItemOk <==> ItemValid(item)
    ensures v == ItemCrash <==> item.JNull?
  {
    if item.JNull? then ItemCrash
    else if TransactionChecks.BlankString(Field(item, "category")) then ItemBad(InvalidCategory)
    else if TransactionChecks.BadAmount(Field(item, "amount")) then ItemBad(InvalidAmount)
    else if TransactionChecks.LargeAmount(Field(item, "amount")) then ItemBad(AmountTooLarge)
    else ItemOk
  }

  predicate AllValid(items: seq<Json>) {
    forall i :: 0 <= i < |items| ==> ItemValid(items[i])
  }

  /** The position of the first item the loop stops at, or `|items|`. */
  function FirstBadIndex(items: seq<Json>): (k: nat)
    ensures k <= |items|
    ensures forall j :: 0 <= j < k ==> ItemValid(items[j])
    ensures k < |items| ==> !ItemValid(items[k])
  {
    if items == [] then 0
    else if !ItemValid(items[0]) then 0
    else 1 + FirstBadIndex(items[1..])
  }

  /** The duplicate key of each item: `category.trim().toLowerCase()`. */
  function Keys(items: seq<Json>): (ks: seq<string>)
    ensures |ks| == |items|
  {
    seq(|items|, i requires 0 <= i < |items| => ToLower(Trim(Category(items[i]))))
  }

  /** No two positions hold the same string. */
  predicate Distinct(s: seq<string>) {
    forall i, j :: 0 <= i < j < |s| ==> s[i] != s[j]
  }

  /** `categories.length !== new Set(categories).size`. */
  predicate SizesDiffer(s: seq<string>) {
    |s| != |set k | k in s|
  }

  /** The set of a sequence is smaller exactly when the sequence repeats a
      string. */
  lemma {:induction false} SizesDifferMeans(s: seq<string>)
    ensures SizesDiffer(s) <==> !Distinct(s)
    ensures |set k | k in s| <= |s|
  {
    if s != [] {
      var t := s[1..];
      SizesDifferMeans(t);
      SetOfCons(s);
      DistinctCons(s);
      if s[0] in t {
        assert (set k | k in s) == (set k | k in t);
      } else {
        assert |(set k | k in t) + {s[0]}| == |set k | k in t| + 1;
      }
    }
  }

  lemma SetOfCons(s: seq<string>)
    requires s != []
    ensures (set k | k in s) == (set k | k in s[1..]) + {s[0]}
  {
    assert s == [s[0]] + s[1..];
  }

  lemma DistinctCons(s: seq<string>)
    requires s != []
    ensures Distinct(s) <==> s[0] !in s[1..] && Distinct(s[1..])
  {
    var t := s[1..];
    if s[0] in t {
      var j :| 0 <= j < |t| && t[j] == s[0];
      assert s[0] == s[j + 1];
    }
    if !Distinct(t) {
      var i, j :| 0 <= i < j < |t| && t[i] == t[j];
      assert s[i + 1] == s[j + 1];
    }
    if !Distinct(s) {
      var i, j :| 0 <= i < j < |s| && s[i] == s[j];
      if i == 0 {
        assert s[j] == t[j - 1];
      } else {
        assert t[i - 1] == t[j - 1];
      }
    }
  }

  /** The checks that run before anything is written, in order: the item
      loop, then the duplicate check. None means all passed. */
  function Screen(items: seq<Json>): (r: Option<BudgetReply>)
    ensures r.None? <==> AllValid(items) && Distinct(Keys(items))
    ensures r.Some? ==> !r.value.Saved? && !r.value.ValidationFailed?
  {
    var k := FirstBadIndex(items);
    if k < |items| then
      match CheckItem(items[k])
      case ItemCrash => Some(Crashed)
      case ItemBad(reason) => Some(Refused(reason))
      case ItemOk => assert false; None
    else if SizesDiffer(Keys(items)) then
      SizesDifferMeans(Keys(items));
      Some(Refused(DuplicateCategories))
    else
      SizesDifferMeans(Keys(items));
      None
  }

  /** The answer to a budget POST. */
  datatype BudgetReply = Saved(budgets: seq<Budget>) | Refused(reason: BudgetRejection) | ValidationFailed | Crashed

  /** The answer and the stored budgets after the request. */
  datatype PostResult = PostResult(reply: BudgetReply, store: seq<Budget>)

  /** The document inserted for an item: `insertMany` runs the validators
      and the category's trim setter but not the pre-save hook, so the
      derived fields keep their defaults of 0. */
  function DocFor(item: Json, owner: Owner, id: string): (b: Budget)
    requires IsNumber(Field(item, "amount"))
    ensures StoredFrom(b, item, owner)
  {
    Budget(Ids(Some(id), None), owner, Trim(Category(item)), RoundCents(Field(item, "amount").value.n), 0, 0, 0.0)
  }

  /** The inserted document records its item: the trimmed category and the
      amount rounded to cents, under the request's owner, with the derived
      fields at their defaults. */
  predicate StoredFrom(b: Budget, item: Json, owner: Owner) {
    && IsNumber(Field(item, "amount"))
    && b.owner == owner
    && b.category == Trim(Category(item))
    && b.amount == RoundCents(Field(item, "amount").value.n)
    && b.spent == 0 && b.remaining == 0 && b.percentage == 0.0
  }

  function Docs(items: seq<Json>, owner: Owner, newId: nat -> string): (docs: seq<Budget>)
    requires AllValid(items)
    ensures |docs| == |items|
    ensures forall i :: 0 <= i < |docs| ==> StoredFrom(docs[i], items[i], owner)
  {
    var docs := seq(|items|, i requires 0 <= i < |items| => DocFor(items[i], owner, newId(i)));
    assert forall i :: 0 <= i < |docs| ==> docs[i] == DocFor(items[i], owner, newId(i));
    docs
  }

  /** Every document passes the schema's validators: the only one the
      routes do not check themselves is the 50-character category limit. */
  predicate Insertable(items: seq<Json>) {
    forall i :: 0 <= i < |items| ==> Utf16Length(Trim(Category(items[i]))) <= MaxCategoryLength
  }

  /** For items that passed the loop, the schema accepts exactly the
      documents whose trimmed category has at most 50 characters. */
  lemma InsertableMeans(items: seq<Json>, owner: Owner, newId: nat -> string, i: int)
    requires AllValid(items) && 0 <= i < |items|
    ensures FieldsValid(DocOf(Docs(items, owner, newId)[i])) <==> Utf16Length(Trim(Category(items[i]))) <= MaxCategoryLength
  {
    assert ItemValid(items[i]);
    var n := Field(items[i], "amount").value.n;
    var d := Docs(items, owner, newId)[i];
    assert d.amount == RoundCents(n) && d.category == Trim(Category(items[i]));
    RoundedInRange(n);
    TrimIdempotent(Category(items[i]));
    BlankMeansNotEmpty(Category(items[i]));
    assert InAmountRange(ToReal(d.amount)) by {
      assert 1.0 <= ToReal(d.amount) * 100.0 <= 99999999.0;
    }
  }

  lemma BlankMeansNotEmpty(s: string)
    ensures !IsBlank(s) <==> 1 <= Utf16Length(Trim(s))
  {
  }

  /** Budgets whose categories differ ignoring case differ. */
  lemma DistinctKeysDistinctCategories(items: seq<Json>, owner: Owner, newId: nat -> string)
    requires AllValid(items) && Distinct(Keys(items))
    ensures UniqueCategories(Docs(items, owner, newId))
  {
    var docs := Docs(items, owner, newId);
    forall i, j | 0 <= i < j < |docs|
      ensures docs[i].category != docs[j].category
    {
      assert Keys(items)[i] == ToLower(docs[i].category);
      assert Keys(items)[j] == ToLower(docs[j].category);
    }
  }

  /** `deleteMany(filter)` matches the budget: the flat route's empty filter
      matches all, the profile route's `{ profileId }` one profile's. */
  predicate Cleared(b: Budget, scope: Owner) {
    match scope
    case Unscoped => true
    case Scoped(p, _) => b.owner.Scoped? && b.owner.profileId == p
  }

  /** The budgets `deleteMany` leaves. */
  function Keep(store: seq<Budget>, scope: Owner): (r: seq<Budget>)
    ensures |r| <= |store|
    ensures forall i :: 0 <= i < |r| ==> !Cleared(r[i], scope)
  {
    if store == [] then []
    else (if Cleared(store[0], scope) then [] else [store[0]]) + Keep(store[1..], scope)
  }

  /** `deleteMany` keeps exactly the budgets it does not match. */
  lemma {:induction false} KeepMembers(store: seq<Budget>, scope: Owner, b: Budget)
    ensures b in Keep(store, scope) <==> b in store && !Cleared(b, scope)
  {
    if store != [] {
      KeepMembers(store[1..], scope, b);
      assert store == [store[0]] + store[1..];
    }
  }

  /** The handler as written: `deleteMany` runs before `insertMany`, so a
      document the schema refuses leaves the scope with no budgets. */
  function ReplaceAsWritten(items: seq<Json>, store: seq<Budget>, scope: Owner, newId: nat -> string): (r: PostResult)
    requires AllValid(items)
    ensures r.reply.Saved? <==> Insertable(items)
    ensures !r.reply.Saved? ==> r.reply == ValidationFailed
    ensures r.store == Keep(store, scope) + (if r.reply.Saved? then r.reply.budgets else [])
  {
    var kept := Keep(store, scope);
    if Insertable(items) then PostResult(Saved(Docs(items, scope, newId)), kept + Docs(items, scope, newId))
    else PostResult(ValidationFailed, kept)
  }

  /** The replacement as intended: a refused batch writes nothing. */
  function Replace(items: seq<Json>, store: seq<Budget>, scope: Owner, newId: nat -> string): (r: PostResult)
    requires AllValid(items)
    ensures r.reply.Saved? <==> Insertable(items)
    ensures r.reply.Saved? ==> r.store == Keep(store, scope) + r.reply.budgets
    ensures r.reply.Saved? ==> |r.reply.budgets| == |items|
    ensures r.reply.Saved? ==> forall i :: 0 <= i < |items| ==> StoredFrom(r.reply.budgets[i], items[i], scope)
    ensures !r.reply.Saved? ==> r.reply == ValidationFailed && r.store == store
  {
    if Insertable(items) then ReplaceAsWritten(items, store, scope, newId)
    else PostResult(ValidationFailed, store)
  }

  /** The stored budget that both budget GET routes return, written as they
      write it: `expenseMap[category] || 0`, `Math.max(0, amount - spent)`,
      and the percentage clamped after the `amount > 0` test. */
  function RouteStatus(b: Budget, expenseMap: map<string, int>): (r: Budget)
    ensures r.ids == b.ids && r.owner == b.owner && r.category == b.category && r.amount == b.amount
    ensures r.spent == Aggregation.Lookup(expenseMap, b.category)
    ensures r.remaining >= 0 && r.remaining >= r.amount - r.spent
    ensures 0.0 <= r.percentage <= 100.0
  {
    var spent := Aggregation.Lookup(expenseMap, b.category);
    var remaining := Max(0, b.amount - spent);
    var percentage := if b.amount > 0 then (spent as real / b.amount as real) * 100.0 else 0.0;
    b.(spent := spent, remaining := remaining, percentage := MinReal(100.0, MaxReal(0.0, percentage)))
  }

  /** The mapping over all budgets. */
  function RouteStatusAll(budgets: seq<Budget>, txs: seq<Txn>, month: string): seq<Budget> {
    var m := Aggregation.Spending(Aggregation.ServerRule, txs, month);
    seq(|budgets|, i requires 0 <= i < |budgets| => RouteStatus(budgets[i], m))
  }

  /** The GET routes compute the shared status formula with the server's
      counting rule. */
  lemma RouteStatusAgrees(budgets: seq<Budget>, txs: seq<Txn>, month: string)
    ensures RouteStatusAll(budgets, txs, month) == Aggregation.StatusAll(Aggregation.ServerRule, budgets, txs, month)
  {
    var m := Aggregation.Spending(Aggregation.ServerRule, txs, month);
    var r := RouteStatusAll(budgets, txs, month);
    var s := Aggregation.StatusAll(Aggregation.ServerRule, budgets, txs, month);
    Aggregation.SpendingLookupAll(Aggregation.ServerRule, txs, month);
    assert |r| == |s|;
    forall i | 0 <= i < |r|
      ensures r[i] == s[i]
    {
      var b := budgets[i];
      assert Aggregation.Lookup(m, b.category) == Aggregation.SpentSpec(Aggregation.ServerRule, txs, month, b.category);
    }
  }
}
