/** The profile budget routes: GET reads one profile's or one group's
    budgets and derives their status from the same scope's expenses (as
    written, its aggregation matches no stored transaction); POST
    checks the ids, validates the batch and replaces the profile's
    budgets. */
module ProfileBudgetsRoute {
  import opened Wrappers
  import opened Text
  import opened Money
  import opened Json
  import opened Records
  import opened Scope
  import opened BudgetModel
  import opened BudgetBatch
  import TransactionChecks
  import Aggregation
  import opened ProfileTransactionModel

  /** The stored budgets the query matches. */
  function BudgetsIn(store: seq<Budget>, q: Query): (r: seq<Budget>)
    ensures |r| <= |store|
    ensures forall i :: 0 <= i < |r| ==> InScope(r[i].owner, q)
  {
    if store == [] then []
    else (if InScope(store[0].owner, q) then [store[0]] else []) + BudgetsIn(store[1..], q)
  }

  /** GET as intended, with the aggregation matching the scope's ids and the
      month key. None is the 400 answer for a request without the id its
      view mode needs. */
  function Get(viewMode: Option<string>, profileId: Option<string>, groupId: Option<string>,
               budgets: seq<Budget>, txs: seq<Txn>, month: string): (r: Option<seq<Budget>>)
    ensures r.None? <==> SelectScope(viewMode, profileId, groupId).None?
    ensures r.Some? ==> var q := SelectScope(viewMode, profileId, groupId).value;
      Aggregation.IsStatusOf(r.value, Aggregation.ServerRule, BudgetsIn(budgets, q), Matching(txs, q), month)
    ensures r.Some? ==> forall i :: 0 <= i < |r.value| ==> r.value[i].remaining >= 0 && 0.0 <= r.value[i].percentage <= 100.0
  {
    match SelectScope(viewMode, profileId, groupId)
    case None => None
    case Some(q) =>
      RouteStatusAgrees(BudgetsIn(budgets, q), Matching(txs, q), month);
      Some(RouteStatusAll(BudgetsIn(budgets, q), Matching(txs, q), month))
  }

  /** The `$match` stage of the GET's aggregation as written. Aggregation
      pipelines do not apply the schema's casts, so the string ids of the
      query are compared with the stored values as strings, and `$regex`
      only matches a stored string. */
  predicate MatchesUncast(d: StoredDoc, q: Query, month: string) {
    && (match q
        case ByGroup(g) => d.groupId == BString(g)
        case ByProfile(p) => d.profileId == BString(p))
    && d.kind == "expense"
    && d.date.BString? && StartsWith(d.date.text, month)
  }

  /** The documents the `$match` stage passes on, in stored order. */
  function MatchedAsWritten(docs: seq<StoredDoc>, q: Query, month: string): (r: seq<StoredDoc>)
    ensures forall d :: d in r <==> d in docs && MatchesUncast(d, q, month)
  {
    if docs == [] then []
    else (if MatchesUncast(docs[0], q, month) then [docs[0]] else []) + MatchedAsWritten(docs[1..], q, month)
  }

  /** The `$group` stage: the matched amounts summed per category, left to
      right. */
  function GroupSums(docs: seq<StoredDoc>): map<string, int>
    decreases |docs|
  {
    if docs == [] then map[]
    else
      var acc := GroupSums(docs[..|docs| - 1]);
      var d := docs[|docs| - 1];
      acc[d.category := Aggregation.Lookup(acc, d.category) + d.amount]
  }

  /** The saved transactions as MongoDB holds them. */
  function StoredAll(txs: seq<Txn>, instant: string -> int): (r: seq<StoredDoc>)
    ensures |r| == |txs|
  {
    seq(|txs|, i requires 0 <= i < |txs| => Stored(txs[i], instant))
  }

  /** A stage that no document passes yields nothing. */
  lemma {:induction false} NoneMatched(docs: seq<StoredDoc>, q: Query, month: string)
    requires forall i :: 0 <= i < |docs| ==> !MatchesUncast(docs[i], q, month)
    ensures MatchedAsWritten(docs, q, month) == []
  {
    if docs != [] {
      NoneMatched(docs[1..], q, month);
    }
  }

  /** No saved transaction passes the uncast `$match`: its ids are ObjectIds
      or absent and its date is a Date, never a string. */
  lemma NothingMatchesUncast(txs: seq<Txn>, instant: string -> int, q: Query, month: string)
    ensures MatchedAsWritten(StoredAll(txs, instant), q, month) == []
  {
    NoneMatched(StoredAll(txs, instant), q, month);
  }

  /** GET as written: the budget query and the aggregation run on the same
      scope, but the aggregation matches nothing, so every budget of the
      scope comes back with nothing spent, all of its amount (at least 0)
      remaining and a percentage of 0. */
  function GetAsWritten(viewMode: Option<string>, profileId: Option<string>, groupId: Option<string>,
                        budgets: seq<Budget>, txs: seq<Txn>, month: string, instant: string -> int): (r: Option<seq<Budget>>)
    ensures r.None? <==> SelectScope(viewMode, profileId, groupId).None?
    ensures r.Some? ==> var bs := BudgetsIn(budgets, SelectScope(viewMode, profileId, groupId).value);
      && |r.value| == |bs|
      && forall i :: 0 <= i < |r.value| ==>
        r.value[i] == bs[i].(spent := 0, remaining := Max(0, bs[i].amount), percentage := 0.0)
  {
    match SelectScope(viewMode, profileId, groupId)
    case None => None
    case Some(q) =>
      var matched := MatchedAsWritten(StoredAll(txs, instant), q, month);
      NothingMatchesUncast(txs, instant, q, month);
      var m := GroupSums(matched);
      var bs := BudgetsIn(budgets, q);
      Some(seq(|bs|, i requires 0 <= i < |bs| => RouteStatus(bs[i], m)))
  }

  /** The two GETs list the same budgets; the corrected one reports the
      scope's expenses of the month under each category, the one as written
      reports none. */
  lemma AsWrittenMissesSpending(viewMode: Option<string>, profileId: Option<string>, groupId: Option<string>,
                                budgets: seq<Budget>, txs: seq<Txn>, month: string, instant: string -> int, i: int)
    requires SelectScope(viewMode, profileId, groupId).Some?
    requires 0 <= i < |BudgetsIn(budgets, SelectScope(viewMode, profileId, groupId).value)|
    ensures var q := SelectScope(viewMode, profileId, groupId).value;
      var fixed := Get(viewMode, profileId, groupId, budgets, txs, month).value;
      var written := GetAsWritten(viewMode, profileId, groupId, budgets, txs, month, instant).value;
      && |fixed| == |written|
      && fixed[i].category == written[i].category
      && fixed[i].spent == Aggregation.SpentSpec(Aggregation.ServerRule, Matching(txs, q), month, fixed[i].category)
      && written[i].spent == 0
  {
  }

  /** A profile with a 100.00 Food budget and a 25.00 Food expense in March:
      the corrected GET reports 25.00 spent, the GET as written reports
      nothing spent. */
  lemma AsWrittenDropsExpense(instant: string -> int)
    ensures var owner := Scoped("p1", "g1");
      var b := Budget(Ids(Some("b1"), None), owner, "Food", 10000, 0, 0, 0.0);
      var t := Txn(Ids(Some("t1"), None), owner, 2500, "2024-03-05", "Lunch", Expense, "Food");
      && Get(None, Some("p1"), None, [b], [t], "2024-03").value[0].spent == 2500
      && GetAsWritten(None, Some("p1"), None, [b], [t], "2024-03", instant).value[0].spent == 0
  {
    var owner := Scoped("p1", "g1");
    var b := Budget(Ids(Some("b1"), None), owner, "Food", 10000, 0, 0, 0.0);
    var t := Txn(Ids(Some("t1"), None), owner, 2500, "2024-03-05", "Lunch", Expense, "Food");
    ExampleSpent(b, t);
    AsWrittenMissesSpending(None, Some("p1"), None, [b], [t], "2024-03", instant, 0);
  }

  lemma ExampleSpent(b: Budget, t: Txn)
    requires b.owner == Scoped("p1", "g1") && t.owner == b.owner
    requires t.kind == Expense && t.date == "2024-03-05" && t.category == b.category && t.amount == 2500
    ensures BudgetsIn([b], ByProfile("p1")) == [b]
    ensures Matching([t], ByProfile("p1")) == [t]
    ensures Aggregation.SpentSpec(Aggregation.ServerRule, [t], "2024-03", b.category) == 2500
  {
    assert [b][1..] == [] && [t][1..] == [];
    assert Aggregation.InMonth(t, "2024-03") by {
      assert t.date[..7] == "2024-03";
    }
  }

  function ProfileIdOf(body: Json): string {
    TransactionChecks.Str(Field(body, "profileId"))
  }

  function GroupIdOf(body: Json): string {
    TransactionChecks.Str(Field(body, "groupId"))
  }

  /** A body whose ids and budget list pass, before the items are looked
      at. */
  predicate Addressed(body: Json) {
    && !body.JNull?
    && TransactionChecks.NonEmptyString(Field(body, "profileId"))
    && TransactionChecks.NonEmptyString(Field(body, "groupId"))
    && Field(body, "budgets").Some? && Field(body, "budgets").value.JArr?
  }

  function ItemsOf(body: Json): seq<Json>
    requires Addressed(body)
  {
    Field(body, "budgets").value.items
  }

  function ScopeOf(body: Json): Owner {
    Scoped(ProfileIdOf(body), GroupIdOf(body))
  }

  function Post(body: Json, store: seq<Budget>, newId: nat -> string): (r: PostResult)
    ensures body.JNull? ==> r.reply == Crashed
    ensures r.reply == Refused(ProfileIdMissing) <==> !body.JNull? && !TransactionChecks.NonEmptyString(Field(body, "profileId"))
    ensures r.reply.Saved? <==> Addressed(body) && AllValid(ItemsOf(body)) && Distinct(Keys(ItemsOf(body))) && Insertable(ItemsOf(body))
    ensures !r.reply.Saved? ==> r.store == store
    ensures r.reply.Saved? ==> r.store == Keep(store, ScopeOf(body)) + r.reply.budgets
    ensures r.reply.Saved? ==> |r.reply.budgets| == |ItemsOf(body)|
    ensures r.reply.Saved? ==> forall i :: 0 <= i < |r.reply.budgets| ==> StoredFrom(r.reply.budgets[i], ItemsOf(body)[i], ScopeOf(body))
    ensures r.reply.Saved? ==> UniqueCategories(r.reply.budgets)
  {
    if body.JNull? then PostResult(Crashed, store)
    else if !TransactionChecks.NonEmptyString(Field(body, "profileId")) then PostResult(Refused(ProfileIdMissing), store)
    else if !TransactionChecks.NonEmptyString(Field(body, "groupId")) then PostResult(Refused(GroupIdMissing), store)
    else if !(Field(body, "budgets").Some? && Field(body, "budgets").value.JArr?) then PostResult(Refused(NotAnArray), store)
    else match Screen(ItemsOf(body))
      case Some(reply) => PostResult(reply, store)
      case None =>
        DistinctKeysDistinctCategories(ItemsOf(body), ScopeOf(body), newId);
        Replace(ItemsOf(body), store, ScopeOf(body), newId)
  }

  /** POST as written: the profile's budgets are deleted before the schema
      sees the documents. */
  function PostAsWritten(body: Json, store: seq<Budget>, newId: nat -> string): (r: PostResult)
    ensures r.reply == Post(body, store, newId).reply
    ensures r.reply != ValidationFailed ==> r.store == Post(body, store, newId).store
    ensures r.reply == ValidationFailed ==> r.store == Keep(store, ScopeOf(body))
  {
    if body.JNull? then PostResult(Crashed, store)
    else if !TransactionChecks.NonEmptyString(Field(body, "profileId")) then PostResult(Refused(ProfileIdMissing), store)
    else if !TransactionChecks.NonEmptyString(Field(body, "groupId")) then PostResult(Refused(GroupIdMissing), store)
    else if !(Field(body, "budgets").Some? && Field(body, "budgets").value.JArr?) then PostResult(Refused(NotAnArray), store)
    else match Screen(ItemsOf(body))
      case Some(reply) => PostResult(reply, store)
      case None => ReplaceAsWritten(ItemsOf(body), store, ScopeOf(body), newId)
  }

  /** As written, a batch the schema refuses still deletes the profile's
      budgets; with the check first, nothing is written. */
  lemma AsWrittenLosesProfileBudgets(body: Json, store: seq<Budget>, newId: nat -> string)
    requires Addressed(body) && AllValid(ItemsOf(body)) && Distinct(Keys(ItemsOf(body))) && !Insertable(ItemsOf(body))
    ensures PostAsWritten(body, store, newId) == PostResult(ValidationFailed, Keep(store, ScopeOf(body)))
    ensures Post(body, store, newId) == PostResult(ValidationFailed, store)
  {
  }

  /** A successful POST keeps every budget of every other profile. */
  lemma OtherProfilesKept(body: Json, store: seq<Budget>, newId: nat -> string, b: Budget)
    requires Post(body, store, newId).reply.Saved?
    requires b in store && !(b.owner.Scoped? && b.owner.profileId == ProfileIdOf(body))
    ensures b in Post(body, store, newId).store
  {
    KeepMembers(store, ScopeOf(body), b);
  }

  /** ... and of the profile's budgets, in any group, only the new batch
      remains: the delete filters by profile alone. */
  lemma ProfileBudgetsReplaced(body: Json, store: seq<Budget>, newId: nat -> string, b: Budget)
    requires Post(body, store, newId).reply.Saved?
    requires b in Post(body, store, newId).store
    requires b.owner.Scoped? && b.owner.profileId == ProfileIdOf(body)
    ensures b in Post(body, store, newId).reply.budgets
  {
    KeepMembers(store, ScopeOf(body), b);
  }

  /** The profile's budget filed under another group disappears from that
      group's view. */
  lemma OtherGroupLosesBudget(body: Json, store: seq<Budget>, newId: nat -> string, g: string)
    requires Post(body, store, newId).reply.Saved?
    requires g != GroupIdOf(body)
    ensures forall i :: 0 <= i < |BudgetsIn(Post(body, store, newId).store, ByGroup(g))| ==>
      BudgetsIn(Post(body, store, newId).store, ByGroup(g))[i].owner.profileId != ProfileIdOf(body)
  {
    var r := Post(body, store, newId);
    var s := BudgetsIn(r.store, ByGroup(g));
    forall i | 0 <= i < |s|
      ensures s[i].owner.profileId != ProfileIdOf(body)
    {
      BudgetsInMembers(r.store, ByGroup(g), s[i]);
      assert s[i] in Keep(store, ScopeOf(body)) + r.reply.budgets;
      if s[i] in Keep(store, ScopeOf(body)) {
        KeepMembers(store, ScopeOf(body), s[i]);
      }
    }
  }

  lemma {:induction false} BudgetsInMembers(store: seq<Budget>, q: Query, b: Budget)
    ensures b in BudgetsIn(store, q) <==> b in store && InScope(b.owner, q)
  {
    if store != [] {
      BudgetsInMembers(store[1..], q, b);
      assert store == [store[0]] + store[1..];
    }
  }

  /** A successful POST keeps the (profileId, category) index unique. */
  lemma PostKeepsUnique(body: Json, store: seq<Budget>, newId: nat -> string)
    requires UniquePerProfile(store)
    requires Post(body, store, newId).reply.Saved?
    ensures UniquePerProfile(Post(body, store, newId).store)
  {
    var r := Post(body, store, newId);
    var kept := Keep(store, ScopeOf(body));
    var docs := r.reply.budgets;
    KeepUnique(store, ScopeOf(body));
    forall i, j | 0 <= i < |kept| && 0 <= j < |docs|
      ensures !SameProfile(kept[i].owner, docs[j].owner)
    {
      assert !Cleared(kept[i], ScopeOf(body));
      assert StoredFrom(docs[j], ItemsOf(body)[j], ScopeOf(body));
    }
    UniqueAppend(kept, docs);
  }

  /** Appending budgets of other profiles, whose categories differ among
      themselves, keeps the index unique. */
  lemma UniqueAppend(a: seq<Budget>, b: seq<Budget>)
    requires UniquePerProfile(a) && UniqueCategories(b)
    requires forall i, j :: 0 <= i < |a| && 0 <= j < |b| ==> !SameProfile(a[i].owner, b[j].owner)
    ensures UniquePerProfile(a + b)
  {
    var s := a + b;
    forall i, j | 0 <= i < j < |s| && SameProfile(s[i].owner, s[j].owner)
      ensures s[i].category != s[j].category
    {
      if j < |a| {
        assert s[i] == a[i] && s[j] == a[j];
      } else if i >= |a| {
        assert s[i] == b[i - |a|] && s[j] == b[j - |a|];
      }
    }
  }

  /** Deleting budgets keeps the index unique. */
  lemma {:induction false} KeepUnique(store: seq<Budget>, scope: Owner)
    requires UniquePerProfile(store)
    ensures UniquePerProfile(Keep(store, scope))
  {
    if store != [] {
      var t := store[1..];
      assert UniquePerProfile(t) by {
        forall i, j | 0 <= i < j < |t| && SameProfile(t[i].owner, t[j].owner)
          ensures t[i].category != t[j].category
        {
          assert t[i] == store[i + 1] && t[j] == store[j + 1];
        }
      }
      KeepUnique(t, scope);
      var k := Keep(t, scope);
      if !Cleared(store[0], scope) {
        var s := [store[0]] + k;
        forall i, j | 0 <= i < j < |s| && SameProfile(s[i].owner, s[j].owner)
          ensures s[i].category != s[j].category
        {
          if i == 0 {
            KeepMembers(t, scope, s[j]);
            var m :| 0 <= m < |t| && t[m] == s[j];
            assert store[m + 1] == s[j];
          } else {
            assert s[i] == k[i - 1] && s[j] == k[j - 1];
          }
        }
        assert Keep(store, scope) == s;
      } else {
        assert Keep(store, scope) == k;
      }
    }
  }

  /** The ids are checked before the budget list. */
  lemma IdsFirst(body: Json, store: seq<Budget>, newId: nat -> string)
    requires !body.JNull? && TransactionChecks.NonEmptyString(Field(body, "profileId"))
    requires !TransactionChecks.NonEmptyString(Field(body, "groupId"))
    ensures Post(body, store, newId) == PostResult(Refused(GroupIdMissing), store)
  {
  }
}
