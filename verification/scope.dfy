/** The scope a profile-aware GET reads: one group's records in group view,
    one profile's records in individual view, chosen from the `viewMode`,
    `profileId` and `groupId` query parameters. */
module Scope {
  import opened Wrappers
  import opened Records

  datatype Query = ByGroup(groupId: string) | ByProfile(profileId: string)

  /** `searchParams.get(name) || default`: an absent or empty parameter
      falls back to the default. */
  function ParamOr(p: Option<string>, default: string): string {
    if p.Some? && p.value != "" then p.value else default
  }

  /** A parameter that is present and non-empty, so truthy. */
  predicate Given(p: Option<string>) {
    p.Some? && p.value != ""
  }

  /** The view mode the request asks for; `individual` unless it says
      otherwise. */
  function ViewModeOf(viewMode: Option<string>): string {
    ParamOr(viewMode, "individual")
  }

  /** The query a GET runs, or None for the 400 answer. */
  function SelectScope(viewMode: Option<string>, profileId: Option<string>, groupId: Option<string>): (r: Option<Query>)
    ensures r.Some? && r.value.ByGroup? <==> ViewModeOf(viewMode) == "group" && Given(groupId)
    ensures r.Some? && r.value.ByGroup? ==> Some(r.value.groupId) == groupId
    ensures r.Some? && r.value.ByProfile? <==> ViewModeOf(viewMode) == "individual" && Given(profileId)
    ensures r.Some? && r.value.ByProfile? ==> Some(r.value.profileId) == profileId
  {
    var mode := ViewModeOf(viewMode);
    if mode == "group" && Given(groupId) then Some(ByGroup(groupId.value))
    else if mode == "individual" && Given(profileId) then Some(ByProfile(profileId.value))
    else None
  }

  /** A request names a scope exactly when its mode has the id it needs. */
  lemma ScopeRejected(viewMode: Option<string>, profileId: Option<string>, groupId: Option<string>)
    ensures SelectScope(viewMode, profileId, groupId).None? <==>
      !(ViewModeOf(viewMode) == "group" && Given(groupId))
      && !(ViewModeOf(viewMode) == "individual" && Given(profileId))
  {
  }

  /** Without a `viewMode` the request is an individual one: a profile id
      selects that profile, and a group id alone is refused. */
  lemma DefaultsToIndividual(profileId: Option<string>, groupId: Option<string>)
    ensures Given(profileId) ==> SelectScope(None, profileId, groupId) == Some(ByProfile(profileId.value))
    ensures !Given(profileId) ==> SelectScope(None, profileId, groupId).None?
  {
  }

  /** The query `{ groupId }` or `{ profileId }` matches the record's
      owner. */
  predicate InScope(o: Owner, q: Query)
    ensures InScope(o, q) ==> o.Scoped?
  {
    match q
    case ByGroup(g) => o.Scoped? && o.groupId == g
    case ByProfile(p) => o.Scoped? && o.profileId == p
  }

  /** The stored transactions the query matches, in stored order. */
  function Matching(store: seq<Txn>, q: Query): (r: seq<Txn>)
    ensures |r| <= |store|
    ensures forall i :: 0 <= i < |r| ==> InScope(r[i].owner, q)
  {
    if store == [] then []
    else (if InScope(store[0].owner, q) then [store[0]] else []) + Matching(store[1..], q)
  }

  /** A transaction is returned by the filter exactly when it is stored and
      in scope. */
  lemma {:induction false} MatchingMembers(store: seq<Txn>, q: Query, t: Txn)
    ensures t in Matching(store, q) <==> t in store && InScope(t.owner, q)
  {
    if store != [] {
      MatchingMembers(store[1..], q, t);
      assert store == [store[0]] + store[1..];
    }
  }

  /** The most records a GET returns. */
  const FetchLimit := 1000

  function Reverse<T>(s: seq<T>): (r: seq<T>)
    ensures |r| == |s|
    ensures forall i :: 0 <= i < |s| ==> r[i] == s[|s| - 1 - i]
  {
    if s == [] then [] else Reverse(s[1..]) + [s[0]]
  }

  /** `find(query).sort({ createdAt: -1 }).limit(1000)`, with the store held
      in the order the records were created. */
  function FetchTransactions(store: seq<Txn>, q: Query): (r: seq<Txn>)
    ensures |r| == if |Matching(store, q)| <= FetchLimit then |Matching(store, q)| else FetchLimit
    ensures forall i :: 0 <= i < |r| ==> r[i] == Matching(store, q)[|Matching(store, q)| - 1 - i]
    ensures forall i :: 0 <= i < |r| ==> InScope(r[i].owner, q)
  {
    var newest := Reverse(Matching(store, q));
    if |newest| <= FetchLimit then newest else newest[..FetchLimit]
  }

  /** The newest matching record comes first. */
  lemma NewestFirst(store: seq<Txn>, q: Query)
    requires Matching(store, q) != []
    ensures FetchTransactions(store, q)[0] == Matching(store, q)[|Matching(store, q)| - 1]
  {
  }
}
