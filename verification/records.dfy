/** The entities of the finance tracker: transactions, budgets, profiles,
    groups and the view mode, with ids modelled as the optional `_id` and
    `id` fields of the JSON documents. */
module Records {
  import opened Wrappers

  datatype Kind = Income | Expense

  /** The `type` string a transaction kind is stored as. */
  function KindName(k: Kind): string {
    match k
    case Income => "income"
    case Expense => "expense"
  }

  /** The kind a `type` string names: only `"income"` and `"expense"` do. */
  function KindNamed(s: string): (r: Option<Kind>)
    ensures r.Some? ==> KindName(r.value) == s
  {
    if s == "income" then Some(Income)
    else if s == "expense" then Some(Expense)
    else None
  }

  /** Every kind is named by its stored string. */
  lemma KindNameRoundTrip(k: Kind)
    ensures KindNamed(KindName(k)) == Some(k)
  {
  }

  /** A document's two optional identifiers: the database `_id` and the
      client-side `id`. */
  datatype Ids = Ids(mongoId: Option<string>, id: Option<string>)

  /** JavaScript `a || b` on two optional strings: `a` when it is a
      non-empty string, `b` otherwise. */
  function OrElse(a: Option<string>, b: Option<string>): (r: Option<string>)
    ensures a.Some? && a.value != "" ==> r == a
    ensures (a.None? || a.value == "") ==> r == b
  {
    if a.Some? && a.value != "" then a else b
  }

  /** `x._id || x.id`. */
  function Key(ids: Ids): Option<string> {
    OrElse(ids.mongoId, ids.id)
  }

  /** `x._id || x.id || ''`. */
  function KeyOrEmpty(ids: Ids): string {
    OrElse(Key(ids), Some("")).value
  }

  /** The scope a record belongs to: the flat ledger, or one profile of one
      group. */
  datatype Owner = Unscoped | Scoped(profileId: string, groupId: string)

  /** A stored transaction; `amount` is in cents. */
  datatype Txn = Txn(
    ids: Ids,
    owner: Owner,
    amount: int,
    date: string,
    description: string,
    kind: Kind,
    category: string)

  /** A budget with its derived fields; money is in cents, `percentage` is a
      percentage of `amount`. */
  datatype Budget = Budget(
    ids: Ids,
    owner: Owner,
    category: string,
    amount: int,
    spent: int,
    remaining: int,
    percentage: real)

  datatype GroupType = Family | Roommates | Personal | Other

  /** The `type` string a group type is stored as. */
  function GroupTypeName(t: GroupType): string {
    match t
    case Family => "family"
    case Roommates => "roommates"
    case Personal => "personal"
    case Other => "other"
  }

  /** `['family', 'roommates', 'personal', 'other'].includes(s)`, as the
      type it names. */
  function GroupTypeNamed(s: string): (r: Option<GroupType>)
    ensures r.Some? ==> GroupTypeName(r.value) == s
  {
    if s == "family" then Some(Family)
    else if s == "roommates" then Some(Roommates)
    else if s == "personal" then Some(Personal)
    else if s == "other" then Some(Other)
    else None
  }

  /** Every group type is named by its stored string. */
  lemma GroupTypeNameRoundTrip(t: GroupType)
    ensures GroupTypeNamed(GroupTypeName(t)) == Some(t)
  {
  }

  datatype Profile = Profile(ids: Ids, name: string, avatar: Option<string>, color: Option<string>)

  datatype Group = Group(ids: Ids, name: string, kind: GroupType, profiles: seq<Profile>)

  datatype Mode = Individual | GroupMode

  /** Which ledger the dashboard shows: one profile, or the whole group. */
  datatype ViewMode = ViewMode(mode: Mode, profileId: Option<string>, groupId: string)
}
