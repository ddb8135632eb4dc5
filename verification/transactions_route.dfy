/** POST on the flat transaction ledger: the field checks in order, then
    the sanitised record. The flat Transaction schema is not part of this
    model, so the record the handler builds is the record stored. */
module TransactionsRoute {
  import opened Wrappers
  import opened Text
  import opened Money
  import opened Json
  import opened Records
  import opened TransactionChecks
  import Aggregation

  /** The record built from a body that passed every check. */
  function Build(body: Json, id: string): (t: Txn)
    requires KindOf(Field(body, "type")).Some?
    requires IsNumber(Field(body, "amount"))
    ensures Sanitizes(body, t)
  {
    Txn(Ids(Some(id), None), Unscoped, RoundCents(Field(body, "amount").value.n),
      Str(Field(body, "date")), Trim(Str(Field(body, "description"))),
      KindOf(Field(body, "type")).value, Trim(Str(Field(body, "category"))))
  }

  function Post(body: Json, clock: Clock, id: string): (r: Outcome<Txn>)
    ensures r.Crashed? <==> body.JNull?
    ensures r.Rejected? ==> FailsFirst(r.reason, body, clock, FirstFieldCheck)
    ensures r.Created? <==> !body.JNull? && AcceptableFields(body, clock)
    ensures !r.Invalid?
    ensures r.Created? ==> Sanitizes(body, r.record) && r.record.owner == Unscoped
    ensures r.Created? ==> InCentsRange(r.record.amount) && Aggregation.WrittenByApi(r.record)
  {
    FieldChecksExact(body, clock);
    if body.JNull? then Crashed
    else match FieldRejection(body, clock)
      case Some(reason) => Rejected(reason)
      case None =>
        var t := Build(body, id);
        SanitizedBounds(body, clock, t);
        Created(t)
  }

  /** A zero, missing or non-numeric amount is the first thing refused,
      whatever the other fields hold. */
  lemma BadAmountFirst(body: Json, clock: Clock, id: string)
    requires !body.JNull? && BadAmount(Field(body, "amount"))
    ensures Post(body, clock, id) == Rejected(InvalidAmount)
  {
  }

  /** An amount above 999999.99 is refused as too large. */
  lemma LargeAmountRefused(body: Json, clock: Clock, id: string)
    requires !body.JNull? && IsNumber(Field(body, "amount")) && Field(body, "amount").value.n > MaxAmount
    ensures Post(body, clock, id) == Rejected(AmountTooLarge)
  {
  }

  /** With a good amount, a date after `now` is refused as a future date. */
  lemma FutureDateRefused(body: Json, clock: Clock, id: string)
    requires !body.JNull? && IsNumber(Field(body, "amount")) && InAmountRange(Field(body, "amount").value.n)
    requires NonEmptyString(Field(body, "date")) && InFuture(Field(body, "date"), clock)
    ensures Post(body, clock, id) == Rejected(FutureDate)
  {
  }
}
