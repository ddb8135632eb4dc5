/** The ProfileTransaction document: its schema constraints and the pre-save
    hook that rounds the amount and trims the text fields. */
module ProfileTransactionModel {
  import opened Wrappers
  import opened Text
  import opened Money
  import opened Records
  import opened TransactionChecks
  import Aggregation

  /** A document as assigned, before validation: the amount is a number and
      the type is a string. */
  datatype Draft = Draft(
    profileId: string,
    groupId: string,
    amount: real,
    date: string,
    description: string,
    kind: string,
    category: string)

  /** The schema's validators. The `trim: true` setters trim description and
      category before `minlength` and `maxlength` look at them. */
  predicate SchemaValid(d: Draft, clock: Clock) {
    && d.profileId != "" && d.groupId != ""
    && InAmountRange(d.amount)
    && clock.parse(d.date).Some? && clock.parse(d.date).value <= clock.now
    && MinDescriptionLength <= Utf16Length(Trim(d.description)) <= MaxDescriptionLength
    && KindNamed(d.kind).Some?
    && 1 <= Utf16Length(Trim(d.category)) <= MaxCategoryLength
  }

  /** The pre-save hook: `Math.round(amount * 100) / 100` and the two
      trims; the database assigns the `_id`. */
  function PreSave(d: Draft, id: string): (t: Txn)
    requires KindNamed(d.kind).Some?
    ensures IsTrimmed(t.description) && IsTrimmed(t.category)
    ensures KindName(t.kind) == d.kind
  {
    Txn(Ids(Some(id), None), Scoped(d.profileId, d.groupId), RoundCents(d.amount),
      d.date, Trim(d.description), KindNamed(d.kind).value, Trim(d.category))
  }

  /** `save()`: the validators run, then the pre-save hook; None is the
      ValidationError. */
  function Save(d: Draft, clock: Clock, id: string): (r: Option<Txn>)
    ensures r.Some? <==> SchemaValid(d, clock)
    ensures r.Some? ==> r.value.owner == Scoped(d.profileId, d.groupId)
    ensures r.Some? ==> InCentsRange(r.value.amount)
    ensures r.Some? ==> MinDescriptionLength <= Utf16Length(r.value.description) <= MaxDescriptionLength
    ensures r.Some? ==> 1 <= Utf16Length(r.value.category) <= MaxCategoryLength
    ensures r.Some? ==> Aggregation.WrittenByApi(r.value)
  {
    if SchemaValid(d, clock) then
      RoundedInRange(d.amount);
      Some(PreSave(d, id))
    else None
  }

  /** A stored record read back as a document. */
  function DraftOf(t: Txn): Draft
    requires t.owner.Scoped?
  {
    Draft(t.owner.profileId, t.owner.groupId, ToReal(t.amount), t.date, t.description,
      KindName(t.kind), t.category)
  }

  /** Saving a saved record again changes nothing: the amount already has
      two decimals and the text is already trimmed. */
  lemma ResaveUnchanged(d: Draft, clock: Clock, id: string)
    requires Save(d, clock, id).Some?
    ensures Save(DraftOf(Save(d, clock, id).value), clock, id) == Save(d, clock, id)
  {
    var t := Save(d, clock, id).value;
    var e := DraftOf(t);
    RoundCentsOfCents(t.amount);
    TrimIdempotent(d.description);
    TrimIdempotent(d.category);
    KindNameRoundTrip(t.kind);
    assert InAmountRange(e.amount) by {
      assert 1.0 <= e.amount * 100.0 <= 99999999.0;
    }
  }
  /** A field value as MongoDB holds it. `BDate` is a Date, held as its
      instant in milliseconds. */
  datatype Bson = BString(text: string) | BObjectId(hex: string) | BDate(instant: int) | BNull

  /** A saved transaction as MongoDB holds it: the schema cast `profileId`
      and `groupId` to ObjectIds and `date` to a Date; the other fields are
      kept as they are. */
  datatype StoredDoc = StoredDoc(
    profileId: Bson,
    groupId: Bson,
    amount: int,
    date: Bson,
    kind: string,
    category: string)

  /** The document the schema's casts produce for a saved record;
      `instant` stands for `new Date(date).getTime()`. */
  function Stored(t: Txn, instant: string -> int): (d: StoredDoc)
    ensures d.profileId.BObjectId? <==> t.owner.Scoped?
    ensures d.groupId.BObjectId? <==> t.owner.Scoped?
    ensures d.date == BDate(instant(t.date))
    ensures d.kind == KindName(t.kind) && d.category == t.category && d.amount == t.amount
  {
    match t.owner
    case Scoped(p, g) =>
      StoredDoc(BObjectId(p), BObjectId(g), t.amount, BDate(instant(t.date)), KindName(t.kind), t.category)
    case Unscoped =>
      StoredDoc(BNull, BNull, t.amount, BDate(instant(t.date)), KindName(t.kind), t.category)
  }
}
