/** The Budget and ProfileBudget documents: their field constraints, the
    unique indexes, and the pre-save hook both models share, which rounds
    the amount, trims the category and derives `remaining` and
    `percentage`. */
module BudgetModel {
  import opened Wrappers
  import opened Text
  import opened Money
  import opened Records
  import Aggregation

  const MaxCategoryLength := 50

  /** A budget document as assigned: the amount is still a number. */
  datatype BudgetDoc = BudgetDoc(
    ids: Ids,
    owner: Owner,
    category: string,
    amount: real,
    spent: int,
    remaining: int,
    percentage: real)

  /** The Budget schema's validators; `trim: true` trims the category
      before its length is checked. */
  predicate FieldsValid(d: BudgetDoc) {
    && 1 <= Utf16Length(Trim(d.category)) <= MaxCategoryLength
    && InAmountRange(d.amount)
    && d.spent >= 0 && d.remaining >= 0
    && 0.0 <= d.percentage <= 100.0
  }

  /** The ProfileBudget schema adds the two required ids. */
  predicate ProfileFieldsValid(d: BudgetDoc) {
    d.owner.Scoped? && d.owner.profileId != "" && d.owner.groupId != "" && FieldsValid(d)
  }

  function Max(a: int, b: int): int {
    if a >= b then a else b
  }

  function MinReal(a: real, b: real): real {
    if a <= b then a else b
  }

  function MaxReal(a: real, b: real): real {
    if a >= b then a else b
  }

  /** The pre-save hook of both models, step by step as written. */
  function PreSave(d: BudgetDoc): (b: Budget)
    ensures b.ids == d.ids && b.owner == d.owner && b.spent == d.spent
    ensures b.category == Trim(d.category) && b.amount == RoundCents(d.amount)
    ensures b.remaining >= 0 && 0.0 <= b.percentage <= 100.0
  {
    var amount := RoundCents(d.amount);
    var remaining := Max(0, amount - d.spent);
    var percentage :=
      if amount > 0 then MinReal(100.0, MaxReal(0.0, (d.spent as real / amount as real) * 100.0))
      else 0.0;
    Budget(d.ids, d.owner, Trim(d.category), amount, d.spent, remaining, percentage)
  }

  /** The hook derives `remaining` and `percentage` exactly as the shared
      status formula does. */
  lemma PreSaveAgrees(d: BudgetDoc)
    ensures PreSave(d) == Aggregation.WithStatus(Budget(d.ids, d.owner, Trim(d.category), RoundCents(d.amount), 0, 0, 0.0), d.spent)
  {
  }

  /** What a stored budget satisfies. */
  predicate StoredValid(b: Budget) {
    && IsTrimmed(b.category) && 1 <= Utf16Length(b.category) <= MaxCategoryLength
    && InCentsRange(b.amount)
    && b.spent >= 0 && b.remaining >= 0
    && 0.0 <= b.percentage <= 100.0
  }

  /** A document that passes the validators is stored with every
      constraint holding after the hook. */
  lemma PreSaveKeepsValid(d: BudgetDoc)
    requires FieldsValid(d)
    ensures StoredValid(PreSave(d))
  {
    RoundedInRange(d.amount);
  }

  /** A stored budget read back as a document. */
  function DocOf(b: Budget): BudgetDoc {
    BudgetDoc(b.ids, b.owner, b.category, ToReal(b.amount), b.spent, b.remaining, b.percentage)
  }

  /** Saving a saved budget again with the same `spent` changes nothing. */
  lemma ResaveUnchanged(d: BudgetDoc)
    ensures PreSave(DocOf(PreSave(d))) == PreSave(d)
  {
    RoundCentsOfCents(RoundCents(d.amount));
    TrimIdempotent(d.category);
  }

  /** The Budget model's `unique: true` on the category. */
  predicate UniqueCategories(store: seq<Budget>) {
    forall i, j :: 0 <= i < j < |store| ==> store[i].category != store[j].category
  }

  predicate SameProfile(a: Owner, b: Owner) {
    a.Scoped? && b.Scoped? && a.profileId == b.profileId
  }

  /** The ProfileBudget model's unique index on (profileId, category). */
  predicate UniquePerProfile(store: seq<Budget>) {
    forall i, j :: 0 <= i < j < |store| && SameProfile(store[i].owner, store[j].owner)
      ==> store[i].category != store[j].category
  }
}
