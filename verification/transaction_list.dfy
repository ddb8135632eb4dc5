/** The transaction list: the category choices of its filter, the search,
    type and category filters, the newest-first order and the reset of the
    filters. */
module TransactionList {
  import opened Text
  import opened Records
  import opened Categories
  import opened Sorting
  import opened TransactionForm

  /** Every suggested category once, in first-seen order:
      `[...new Set([...a, ...b])]`. */
  function Dedup(s: seq<string>): (r: seq<string>)
    ensures forall x :: x in r <==> x in s
    ensures NoRepeats(r)
    ensures |r| <= |s|
  {
    if s == [] then []
    else
      var init := s[..|s| - 1];
      var d := Dedup(init);
      assert forall x :: x in s <==> x in init || x == s[|s| - 1] by {
        assert s == init + [s[|s| - 1]];
      }
      if s[|s| - 1] in d then d else d + [s[|s| - 1]]
  }

  /** The position of the first occurrence of `x` in `s`. */
  function FirstIndex(s: seq<string>, x: string): (k: nat)
    requires x in s
    ensures k < |s| && s[k] == x
  {
    if s[0] == x then 0 else 1 + FirstIndex(s[1..], x)
  }

  /** Appending to `s` leaves the first occurrences of its elements where
      they are; an element new to `s` is first seen at the end. */
  lemma {:induction false} FirstIndexSnoc(s: seq<string>, y: string, x: string)
    requires x in s + [y]
    ensures x in s ==> FirstIndex(s + [y], x) == FirstIndex(s, x)
    ensures x !in s ==> FirstIndex(s + [y], x) == |s|
  {
    if s != [] && s[0] != x {
      assert (s + [y])[1..] == s[1..] + [y];
      FirstIndexSnoc(s[1..], y, x);
    }
  }

  /** `Dedup` lists the elements in the order of their first occurrences. */
  lemma {:induction false} DedupFirstSeen(s: seq<string>)
    ensures forall i, j :: 0 <= i < j < |Dedup(s)| ==> FirstIndex(s, Dedup(s)[i]) < FirstIndex(s, Dedup(s)[j])
  {
    if s != [] {
      var init := s[..|s| - 1];
      var y := s[|s| - 1];
      assert s == init + [y];
      var d := Dedup(init);
      DedupFirstSeen(init);
      var r := Dedup(s);
      assert r == if y in d then d else d + [y];
      forall i, j | 0 <= i < j < |r|
        ensures FirstIndex(s, r[i]) < FirstIndex(s, r[j])
      {
        assert r[i] == d[i] && d[i] in init;
        FirstIndexSnoc(init, y, r[i]);
        assert FirstIndex(s, r[i]) == FirstIndex(init, d[i]);
        if j < |d| {
          assert r[j] == d[j] && d[j] in init;
          FirstIndexSnoc(init, y, r[j]);
          assert FirstIndex(s, r[j]) == FirstIndex(init, d[j]);
        } else {
          assert r[j] == y && y !in init;
          FirstIndexSnoc(init, y, y);
          assert FirstIndex(s, r[j]) == |init|;
        }
      }
    }
  }

  function AllCategories(): seq<string> {
    Dedup(ExpenseCategories + IncomeCategories)
  }

  /** "Other", suggested for both types, is offered exactly once. */
  lemma OtherOnce()
    ensures multiset(AllCategories())["Other"] == 1
    ensures forall c :: c in AllCategories() <==> c in ExpenseCategories || c in IncomeCategories
  {
    var all := AllCategories();
    assert ExpenseCategories[13] == "Other";
    assert (ExpenseCategories + IncomeCategories)[13] == "Other";
    assert "Other" in all;
    NoRepeatsCountsOnce(all, "Other");
  }

  datatype TypeFilter = AllTypes | OnlyKind(kind: Kind)

  /** The filter inputs; the category filter holds `"all"` or a category. */
  datatype Filters = Filters(search: string, kind: TypeFilter, category: string)

  const AllCategoriesChoice := "all"

  /** The filters the list opens with. */
  function Defaults(): Filters {
    Filters("", AllTypes, AllCategoriesChoice)
  }

  /** `clearFilters`. */
  function ClearFilters(f: Filters): (r: Filters)
    ensures r == Defaults()
  {
    Filters("", AllTypes, AllCategoriesChoice)
  }

  /** The search term, lower-cased, occurs in the lower-cased description or
      category. */
  predicate MatchesSearch(t: ClientTxn, term: string) {
    Includes(ToLower(t.description), ToLower(term)) || Includes(ToLower(t.category), ToLower(term))
  }

  predicate MatchesType(t: ClientTxn, k: TypeFilter) {
    k.AllTypes? || t.kind == k.kind
  }

  predicate MatchesCategory(t: ClientTxn, c: string) {
    c == AllCategoriesChoice || t.category == c
  }

  predicate Kept(t: ClientTxn, f: Filters) {
    MatchesSearch(t, f.search) && MatchesType(t, f.kind) && MatchesCategory(t, f.category)
  }

  /** `transactions.filter(...)`. */
  function Filtered(ts: seq<ClientTxn>, f: Filters): (r: seq<ClientTxn>)
    ensures |r| <= |ts|
    ensures forall t :: t in r <==> t in ts && Kept(t, f)
  {
    if ts == [] then []
    else
      var rest := Filtered(ts[1..], f);
      assert forall t :: t in ts <==> t == ts[0] || t in ts[1..];
      if Kept(ts[0], f) then [ts[0]] + rest else rest
  }

  /** Filtering distributes over concatenation, so it keeps the order of
      what it keeps. */
  lemma {:induction false} FilteredAppend(a: seq<ClientTxn>, b: seq<ClientTxn>, f: Filters)
    ensures Filtered(a + b, f) == Filtered(a, f) + Filtered(b, f)
  {
    if a == [] {
      assert a + b == b;
    } else {
      assert (a + b)[1..] == a[1..] + b;
      FilteredAppend(a[1..], b, f);
    }
  }

  /** The empty search term occurs in every string. */
  lemma EmptyTermMatches(t: ClientTxn)
    ensures MatchesSearch(t, "")
  {
    assert ToLower("") == "";
  }

  /** The default filters keep every transaction, in order. */
  lemma {:induction false} DefaultsKeepAll(ts: seq<ClientTxn>)
    ensures Filtered(ts, Defaults()) == ts
  {
    if ts != [] {
      EmptyTermMatches(ts[0]);
      DefaultsKeepAll(ts[1..]);
    }
  }

  /** The time a transaction's date stands for, as `new Date(date).getTime()`. */
  function TimeKey(instant: string -> int): ClientTxn -> int {
    (t: ClientTxn) => instant(t.date)
  }

  /** The list as shown: the kept transactions, newest first, ties in list
      order. */
  function Shown(ts: seq<ClientTxn>, f: Filters, instant: string -> int): (r: seq<ClientTxn>)
    ensures SortedDesc(r, TimeKey(instant))
    ensures multiset(r) == multiset(Filtered(ts, f))
    ensures forall t :: t in r <==> t in ts && Kept(t, f)
    ensures forall k :: Ties(r, TimeKey(instant), k) == Ties(Filtered(ts, f), TimeKey(instant), k)
  {
    var kept := Filtered(ts, f);
    var r := SortDesc(kept, TimeKey(instant));
    assert forall t :: t in r <==> t in multiset(r);
    assert forall t :: t in kept <==> t in multiset(kept);
    r
  }

  /** After clearing the filters every transaction is shown, each as often
      as it occurs. */
  lemma ClearedShowsAll(ts: seq<ClientTxn>, f: Filters, instant: string -> int)
    ensures multiset(Shown(ts, ClearFilters(f), instant)) == multiset(ts)
  {
    DefaultsKeepAll(ts);
  }

  /** The search is case-insensitive for ASCII letters. */
  lemma SearchIgnoresCase(t: ClientTxn, term: string)
    ensures MatchesSearch(t, term) <==> MatchesSearch(t, ToLower(term))
  {
    LowerIdempotent(term);
  }

  lemma {:induction false} LowerIdempotent(s: string)
    ensures ToLower(ToLower(s)) == ToLower(s)
  {
    var l := ToLower(s);
    forall i | 0 <= i < |s|
      ensures ToLower(l)[i] == l[i]
    {
      assert l[i] == LowerChar(s[i]);
    }
  }
}
