/** The flat budget routes: GET derives every stored budget's status from
    the month's expenses; POST validates a whole batch and replaces every
    stored budget with it. */
module BudgetsRoute {
  import opened Wrappers
  import opened Text
  import opened Money
  import opened Json
  import opened Records
  import opened BudgetModel
  import opened BudgetBatch
  import Aggregation

  /** GET: every stored budget with `spent` summed by the raw category over
      the month's expenses. */
  function Get(store: seq<Budget>, txs: seq<Txn>, month: string): (r: seq<Budget>)
    ensures Aggregation.IsStatusOf(r, Aggregation.ServerRule, store, txs, month)
    ensures forall i :: 0 <= i < |r| ==> r[i].remaining >= 0 && 0.0 <= r[i].percentage <= 100.0
    ensures forall i :: 0 <= i < |r| && store[i].amount <= 0 ==> r[i].percentage == 0.0
  {
    RouteStatusAgrees(store, txs, month);
    RouteStatusAll(store, txs, month)
  }

  /** A budget absent from the month's expenses is reported with nothing
      spent. */
  lemma GetUnspentIsZero(store: seq<Budget>, txs: seq<Txn>, month: string, i: int)
    requires 0 <= i < |store| && !Aggregation.HasSpending(Aggregation.ServerRule, txs, month, store[i].category)
    ensures Get(store, txs, month)[i].spent == 0
    ensures Get(store, txs, month)[i].remaining == Remaining(store[i].amount, 0)
  {
    Aggregation.NoSpendingIsZero(Aggregation.ServerRule, txs, month);
  }

  /** A batch the route stores: every item valid, no two categories equal
      ignoring case and surrounding spaces, and every category short enough
      for the schema. */
  predicate BatchAcceptable(items: seq<Json>) {
    AllValid(items) && Distinct(Keys(items)) && Insertable(items)
  }

  /** POST as written: the store is emptied before the schema sees the
      documents. */
  function PostAsWritten(body: Json, store: seq<Budget>, newId: nat -> string): (r: PostResult)
    ensures r.reply == Post(body, store, newId).reply
    ensures r.reply != ValidationFailed ==> r.store == Post(body, store, newId).store
    ensures r.reply == ValidationFailed ==> r.store == []
  {
    if !body.JArr? then PostResult(Refused(NotAnArray), store)
    else match Screen(body.items)
      case Some(reply) => PostResult(reply, store)
      case None =>
        KeepNothing(store);
        ReplaceAsWritten(body.items, store, Unscoped, newId)
  }

  /** POST with the schema's category limit checked before the store is
      emptied. */
  function Post(body: Json, store: seq<Budget>, newId: nat -> string): (r: PostResult)
    ensures r.reply == Refused(NotAnArray) <==> !body.JArr?
    ensures r.reply.Saved? <==> body.JArr? && BatchAcceptable(body.items)
    ensures !r.reply.Saved? ==> r.store == store
    ensures r.reply.Saved? ==> r.store == r.reply.budgets && |r.store| == |body.items|
    ensures r.reply.Saved? ==> forall i :: 0 <= i < |r.store| ==> StoredFrom(r.store[i], body.items[i], Unscoped)
    ensures r.reply.Saved? ==> UniqueCategories(r.store)
  {
    if !body.JArr? then PostResult(Refused(NotAnArray), store)
    else match Screen(body.items)
      case Some(reply) => PostResult(reply, store)
      case None =>
        KeepNothing(store);
        DistinctKeysDistinctCategories(body.items, Unscoped, newId);
        Replace(body.items, store, Unscoped, newId)
  }

  /** `deleteMany({})` removes every budget. */
  lemma KeepNothing(store: seq<Budget>)
    ensures Keep(store, Unscoped) == []
  {
    if store != [] {
      KeepNothing(store[1..]);
    }
  }

  /** Every saved budget's amount is in cents range and its category is
      trimmed, non-empty and at most 50 characters long. */
  lemma SavedBudgetsValid(body: Json, store: seq<Budget>, newId: nat -> string, i: int)
    requires Post(body, store, newId).reply.Saved? && 0 <= i < |Post(body, store, newId).store|
    ensures InCentsRange(Post(body, store, newId).store[i].amount)
    ensures IsTrimmed(Post(body, store, newId).store[i].category)
    ensures 1 <= Utf16Length(Post(body, store, newId).store[i].category) <= MaxCategoryLength
  {
    var item := body.items[i];
    assert ItemValid(item);
    RoundedInRange(Field(item, "amount").value.n);
    BlankMeansNotEmpty(Category(item));
  }

  /** An empty batch is accepted and leaves no budgets. */
  lemma EmptyBatch(store: seq<Budget>, newId: nat -> string)
    ensures Post(JArr([]), store, newId) == PostResult(Saved([]), [])
  {
    KeepNothing(store);
    assert Distinct(Keys([]));
  }

  function Item(category: string, amount: real): Json {
    JObj(map["category" := JStr(category), "amount" := JNum(amount)])
  }

  /** "Food" and "food" are the same category to the duplicate check. */
  lemma CaseInsensitiveDuplicate(store: seq<Budget>, newId: nat -> string)
    ensures Post(JArr([Item("Food", 100.0), Item("food", 50.0)]), store, newId)
      == PostResult(Refused(DuplicateCategories), store)
  {
    FoodItemValid("Food", 100.0);
    FoodItemValid("food", 50.0);
    SameKeyRefused(Item("Food", 100.0), Item("food", 50.0), store, newId);
  }

  /** Two valid items with the same key make the batch a duplicate. */
  lemma SameKeyRefused(x: Json, y: Json, store: seq<Budget>, newId: nat -> string)
    requires ItemValid(x) && ItemValid(y)
    requires ToLower(Trim(Category(x))) == ToLower(Trim(Category(y)))
    ensures Post(JArr([x, y]), store, newId) == PostResult(Refused(DuplicateCategories), store)
  {
    var items := [x, y];
    assert AllValid(items);
    assert Keys(items)[0] == Keys(items)[1];
    RepeatedKeyRefused(items);
    ScreenedPost(JArr(items), store, newId);
  }

  lemma FoodItemValid(c: string, amount: real)
    requires c == "Food" || c == "food"
    requires 0.01 <= amount <= 999999.99
    ensures ItemValid(Item(c, amount)) && ToLower(Trim(Category(Item(c, amount)))) == "food"
  {
    assert Category(Item(c, amount)) == c;
    TrimOfTrimmed(c);
    LowerAgrees(c, "food");
  }

  /** A batch the screen answers leaves the store as it was. */
  lemma ScreenedPost(body: Json, store: seq<Budget>, newId: nat -> string)
    requires body.JArr? && Screen(body.items).Some?
    ensures Post(body, store, newId) == PostResult(Screen(body.items).value, store)
  {
  }

  /** A batch of valid items two of whose keys agree is refused as a
      duplicate. */
  lemma RepeatedKeyRefused(items: seq<Json>)
    requires AllValid(items) && !Distinct(Keys(items))
    ensures Screen(items) == Some(Refused(DuplicateCategories))
  {
    SizesDifferMeans(Keys(items));
  }

  /** As written, a batch that passes the route's checks but that the
      schema refuses empties the store; with the check first, nothing is
      written. */
  lemma AsWrittenWipesStore(body: Json, store: seq<Budget>, newId: nat -> string)
    requires body.JArr? && AllValid(body.items) && Distinct(Keys(body.items)) && !Insertable(body.items)
    ensures PostAsWritten(body, store, newId) == PostResult(ValidationFailed, [])
    ensures Post(body, store, newId) == PostResult(ValidationFailed, store)
  {
    KeepNothing(store);
  }

  /** On every other request the two agree. */
  lemma AsWrittenOtherwiseAgrees(body: Json, store: seq<Budget>, newId: nat -> string)
    requires !(body.JArr? && AllValid(body.items) && Distinct(Keys(body.items)) && !Insertable(body.items))
    ensures PostAsWritten(body, store, newId) == Post(body, store, newId)
  {
  }

  /** A 51-character category: one stored budget is lost. */
  lemma LongCategoryExample(b: Budget, newId: nat -> string)
    ensures PostAsWritten(JArr([Item(LongName(), 10.0)]), [b], newId).store == []
    ensures Post(JArr([Item(LongName(), 10.0)]), [b], newId).store == [b]
  {
    BmpLength(LongName());
    LongCategoryLost(LongName(), b, newId);
  }

  /** A single trimmed category longer than the schema allows: as written the
      stored budget is lost, corrected it is kept. */
  lemma LongCategoryLost(c: string, b: Budget, newId: nat -> string)
    requires c != [] && IsTrimmed(c) && Utf16Length(c) > MaxCategoryLength
    ensures PostAsWritten(JArr([Item(c, 10.0)]), [b], newId).store == []
    ensures Post(JArr([Item(c, 10.0)]), [b], newId).store == [b]
  {
    var items := [Item(c, 10.0)];
    assert Category(items[0]) == c;
    TrimOfTrimmed(c);
    assert ItemValid(items[0]);
    assert Distinct(Keys(items));
    assert !Insertable(items);
    AsWrittenWipesStore(JArr(items), [b], newId);
  }

  /** 51 letters. */
  function LongName(): (s: string)
    ensures |s| == 51 && IsTrimmed(s) && InBmp(s)
  {
    seq(51, i => 'a')
  }
}
