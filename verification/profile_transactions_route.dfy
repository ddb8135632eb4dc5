/** POST on a profile's ledger: the profile and group ids are checked
    first, then the same field checks as the flat ledger, then the
    ProfileTransaction document is saved. */
module ProfileTransactionsRoute {
  import opened Wrappers
  import opened Text
  import opened Money
  import opened Json
  import opened Records
  import opened TransactionChecks
  import opened ProfileTransactionModel
  import TransactionsRoute

  /** The document the handler assigns from a body that passed every
      check: the amount is `Number(amount.toFixed(2))`. */
  function DraftFrom(body: Json): Draft
    requires IsNumber(Field(body, "amount"))
  {
    Draft(Str(Field(body, "profileId")), Str(Field(body, "groupId")),
      ToReal(RoundCents(Field(body, "amount").value.n)), Str(Field(body, "date")),
      Trim(Str(Field(body, "description"))), Str(Field(body, "type")),
      Trim(Str(Field(body, "category"))))
  }

  /** What the checks demand of a body: non-empty string ids and the
      fields the flat ledger accepts. */
  predicate Accepted(body: Json, clock: Clock) {
    && NonEmptyString(Field(body, "profileId"))
    && NonEmptyString(Field(body, "groupId"))
    && AcceptableFields(body, clock)
  }

  /** All the checks pass exactly on the accepted bodies. */
  lemma AcceptedExact(body: Json, clock: Clock)
    ensures FirstFailure(body, clock, 0).None? <==> Accepted(body, clock)
  {
    FieldChecksExact(body, clock);
    if NonEmptyString(Field(body, "profileId")) && NonEmptyString(Field(body, "groupId")) {
      FirstFailureSkipsIds(body, clock);
    } else {
      assert !PassesFrom(body, clock, 0) by {
        assert Rank(ProfileIdRequired) == 0 && Rank(GroupIdRequired) == 1;
      }
    }
  }

  function Post(body: Json, clock: Clock, id: string): (r: Outcome<Txn>)
    ensures r.Crashed? <==> body.JNull?
    ensures r.Rejected? ==> FailsFirst(r.reason, body, clock, 0)
    ensures r.Created? <==> !body.JNull? && Accepted(body, clock)
    ensures !r.Invalid?
    ensures r.Created? ==> Sanitizes(body, r.record)
    ensures r.Created? ==> r.record.owner == Scoped(Str(Field(body, "profileId")), Str(Field(body, "groupId")))
  {
    if body.JNull? then Crashed
    else
      AcceptedExact(body, clock);
      match FirstFailure(body, clock, 0)
      case Some(reason) => Rejected(reason)
      case None =>
        DraftPassesSchema(body, clock);
        match Save(DraftFrom(body), clock, id)
        case Some(t) => Created(t)
        case None => Invalid
  }

  /** The handler's checks are at least as strict as the schema, and the
      pre-save hook finds nothing left to round or trim. */
  lemma DraftPassesSchema(body: Json, clock: Clock)
    requires Accepted(body, clock)
    ensures SchemaValid(DraftFrom(body), clock)
    ensures forall id :: Save(DraftFrom(body), clock, id).Some? && Sanitizes(body, Save(DraftFrom(body), clock, id).value)
  {
    var d := DraftFrom(body);
    var n := Field(body, "amount").value.n;
    RoundedInRange(n);
    RoundCentsOfCents(RoundCents(n));
    TrimIdempotent(Str(Field(body, "description")));
    TrimIdempotent(Str(Field(body, "category")));
    assert InAmountRange(d.amount) by {
      assert 1.0 <= d.amount * 100.0 <= 99999999.0;
    }
  }

  /** A missing or non-string profile id is refused before anything else. */
  lemma ProfileIdFirst(body: Json, clock: Clock, id: string)
    requires !body.JNull? && !NonEmptyString(Field(body, "profileId"))
    ensures Post(body, clock, id) == Rejected(ProfileIdRequired)
  {
  }

  /** Given a profile id, a missing group id is refused next. */
  lemma GroupIdSecond(body: Json, clock: Clock, id: string)
    requires !body.JNull? && NonEmptyString(Field(body, "profileId"))
    requires !NonEmptyString(Field(body, "groupId"))
    ensures Post(body, clock, id) == Rejected(GroupIdRequired)
  {
  }

  /** Once both ids are given, the profile ledger refuses a body for the
      same reason as the flat ledger, and accepts the same bodies. */
  lemma SameFieldChecks(body: Json, clock: Clock, id: string)
    requires !body.JNull?
    requires NonEmptyString(Field(body, "profileId")) && NonEmptyString(Field(body, "groupId"))
    ensures Post(body, clock, id).Rejected? <==> TransactionsRoute.Post(body, clock, id).Rejected?
    ensures Post(body, clock, id).Rejected? ==> Post(body, clock, id).reason == TransactionsRoute.Post(body, clock, id).reason
  {
    var r := Post(body, clock, id);
    var f := TransactionsRoute.Post(body, clock, id);
    FirstFailureSkipsIds(body, clock);
  }

  /** With both ids given, running the checks from the start is running
      them from the first field check. */
  lemma FirstFailureSkipsIds(body: Json, clock: Clock)
    requires NonEmptyString(Field(body, "profileId")) && NonEmptyString(Field(body, "groupId"))
    ensures FirstFailure(body, clock, 0) == FieldRejection(body, clock)
  {
    assert CheckAt(0) == ProfileIdRequired;
    assert CheckAt(1) == GroupIdRequired;
  }
}
