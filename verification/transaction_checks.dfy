/** The checks the transaction POST handlers run on a request body, one
    after another, answering 400 with the first one that fails. */
module TransactionChecks {
  import opened Wrappers
  import opened Text
  import opened Money
  import opened Json
  import opened Records

  const MinDescriptionLength := 3
  const MaxDescriptionLength := 100
  const MaxCategoryLength := 50

  /** The server's view of time: `new Date(s)` as an optional instant, and
      the instant the request is handled. */
  datatype Clock = Clock(parse: string -> Option<int>, now: int)

  /** The reasons a POST is answered with 400. */
  datatype Rejection =
    | ProfileIdRequired
    | GroupIdRequired
    | InvalidAmount
    | AmountTooLarge
    | DateRequired
    | InvalidDateFormat
    | FutureDate
    | DescriptionTooShort
    | DescriptionTooLong
    | InvalidType
    | CategoryRequired
    | CategoryTooLong

  /** `!v || typeof v !== "string"` does not reject `v`. */
  predicate NonEmptyString(v: Option<Json>) {
    Truthy(v) && IsString(v)
  }

  /** The string inside `v`, or "" for anything else. */
  function Str(v: Option<Json>): string {
    if IsString(v) then v.value.s else ""
  }

  /** `["income", "expense"].includes(v)`, which compares strictly. */
  function KindOf(v: Option<Json>): Option<Kind> {
    if IsString(v) then KindNamed(v.value.s) else None
  }

  /** `!v || typeof v !== "string" || v.trim().length < lo`. */
  predicate ShortString(v: Option<Json>, lo: int) {
    !NonEmptyString(v) || Utf16Length(Trim(Str(v))) < lo
  }

  /** `v.trim().length > hi`, on a value already known to be a string. */
  predicate LongString(v: Option<Json>, hi: int) {
    Utf16Length(Trim(Str(v))) > hi
  }

  /** `!v || typeof v !== "string" || v.trim() === ""`. */
  predicate BlankString(v: Option<Json>) {
    !NonEmptyString(v) || Trim(Str(v)) == ""
  }

  predicate BadAmount(v: Option<Json>) {
    !Truthy(v) || !IsNumber(v) || v.value.n < MinAmount
  }

  predicate LargeAmount(v: Option<Json>) {
    IsNumber(v) && v.value.n > MaxAmount
  }

  predicate Unparsable(v: Option<Json>, clock: Clock) {
    clock.parse(Str(v)).None?
  }

  predicate InFuture(v: Option<Json>, clock: Clock) {
    clock.parse(Str(v)).Some? && clock.parse(Str(v)).value > clock.now
  }

  /** The condition under which the check named `r` rejects `body`, read on
      its own; the handlers only reach a check when all earlier ones
      passed. */
  predicate Violates(r: Rejection, body: Json, clock: Clock) {
    match r
    case ProfileIdRequired => !NonEmptyString(Field(body, "profileId"))
    case GroupIdRequired => !NonEmptyString(Field(body, "groupId"))
    case InvalidAmount => BadAmount(Field(body, "amount"))
    case AmountTooLarge => LargeAmount(Field(body, "amount"))
    case DateRequired => !NonEmptyString(Field(body, "date"))
    case InvalidDateFormat => Unparsable(Field(body, "date"), clock)
    case FutureDate => InFuture(Field(body, "date"), clock)
    case DescriptionTooShort => ShortString(Field(body, "description"), MinDescriptionLength)
    case DescriptionTooLong => LongString(Field(body, "description"), MaxDescriptionLength)
    case InvalidType => KindOf(Field(body, "type")).None?
    case CategoryRequired => BlankString(Field(body, "category"))
    case CategoryTooLong => LongString(Field(body, "category"), MaxCategoryLength)
  }

  /** The number of checks. */
  const CheckCount := 12

  /** The position of a check in the handlers' sequence of checks. */
  function Rank(r: Rejection): (k: nat)
    ensures k < CheckCount
  {
    match r
    case ProfileIdRequired => 0
    case GroupIdRequired => 1
    case InvalidAmount => 2
    case AmountTooLarge => 3
    case DateRequired => 4
    case InvalidDateFormat => 5
    case FutureDate => 6
    case DescriptionTooShort => 7
    case DescriptionTooLong => 8
    case InvalidType => 9
    case CategoryRequired => 10
    case CategoryTooLong => 11
  }

  /** The check at a position. */
  function CheckAt(k: nat): (r: Rejection)
    requires k < CheckCount
    ensures Rank(r) == k
  {
    [ProfileIdRequired, GroupIdRequired, InvalidAmount, AmountTooLarge,
     DateRequired, InvalidDateFormat, FutureDate, DescriptionTooShort,
     DescriptionTooLong, InvalidType, CategoryRequired, CategoryTooLong][k]
  }

  /** Each check has a position of its own. */
  lemma CheckAtRank()
    ensures forall c :: CheckAt(Rank(c)) == c
  {
    forall c: Rejection
      ensures CheckAt(Rank(c)) == c
    {
    }
  }

  /** The position of the first check on the transaction's own fields;
      the profile handler runs its two id checks before it. */
  const FirstFieldCheck := 2

  /** `r` fails, it runs at position `from` or later, and every check
      between `from` and `r` passes. */
  predicate FailsFirst(r: Rejection, body: Json, clock: Clock, from: nat) {
    from <= Rank(r) && Violates(r, body, clock)
    && forall c :: from <= Rank(c) < Rank(r) ==> !Violates(c, body, clock)
  }

  /** Every check at position `from` or later passes. */
  predicate PassesFrom(body: Json, clock: Clock, from: nat) {
    forall c :: from <= Rank(c) ==> !Violates(c, body, clock)
  }

  /** Running the checks from position `from` on, stopping at the first
      that fails. */
  function FirstFailure(body: Json, clock: Clock, from: nat): (r: Option<Rejection>)
    decreases CheckCount - from
    ensures r.Some? ==> FailsFirst(r.value, body, clock, from)
    ensures r.None? <==> PassesFrom(body, clock, from)
  {
    CheckAtRank();
    if from >= CheckCount then None
    else if Violates(CheckAt(from), body, clock) then Some(CheckAt(from))
    else FirstFailure(body, clock, from + 1)
  }

  /** The shared field checks, in the order the handlers run them. */
  function FieldRejection(body: Json, clock: Clock): (r: Option<Rejection>)
    ensures r.Some? ==> FailsFirst(r.value, body, clock, FirstFieldCheck)
    ensures r.None? <==> PassesFrom(body, clock, FirstFieldCheck)
  {
    FirstFailure(body, clock, FirstFieldCheck)
  }

  /** The outcome of a POST: the created record, a 400 with the reason of
      the check that failed, a 400 from the schema validators, or a 500
      when the handler reads a field of a `null` body. */
  datatype Outcome<T> = Created(record: T) | Rejected(reason: Rejection) | Invalid | Crashed

  /** What the shared field checks demand of a body: a number amount in
      range, a non-empty date string the clock accepts and that is not in
      the future, a description of 3 to 100 characters once trimmed, a
      known type and a category of 1 to 50 characters once trimmed. */
  predicate AcceptableFields(body: Json, clock: Clock) {
    && AcceptableAmount(Field(body, "amount"))
    && AcceptableDate(Field(body, "date"), clock)
    && AcceptableText(Field(body, "description"), MinDescriptionLength, MaxDescriptionLength)
    && KindOf(Field(body, "type")).Some?
    && AcceptableText(Field(body, "category"), 1, MaxCategoryLength)
  }

  predicate AcceptableAmount(amount: Option<Json>) {
    IsNumber(amount) && InAmountRange(amount.value.n)
  }

  predicate AcceptableDate(date: Option<Json>, clock: Clock) {
    && IsString(date) && Str(date) != ""
    && clock.parse(Str(date)).Some? && clock.parse(Str(date)).value <= clock.now
  }

  /** A string whose trimmed length is in `[lo, hi]`. */
  predicate AcceptableText(v: Option<Json>, lo: int, hi: int) {
    IsString(v) && lo <= Utf16Length(Trim(Str(v))) <= hi
  }

  /** The shared field checks all pass exactly on the acceptable bodies. */
  lemma FieldChecksExact(body: Json, clock: Clock)
    ensures FieldRejection(body, clock).None? <==> AcceptableFields(body, clock)
  {
    PassingFieldsAcceptable(body, clock);
  }

  lemma PassingFieldsAcceptable(body: Json, clock: Clock)
    ensures PassesFrom(body, clock, FirstFieldCheck) <==> AcceptableFields(body, clock)
  {
    FieldChecksListed(body, clock);
    NamedChecksAcceptable(body, clock);
  }

  /** The ten field checks, each passing by name. */
  predicate NamedChecksPass(body: Json, clock: Clock) {
    && !Violates(InvalidAmount, body, clock) && !Violates(AmountTooLarge, body, clock)
    && !Violates(DateRequired, body, clock) && !Violates(InvalidDateFormat, body, clock)
    && !Violates(FutureDate, body, clock)
    && !Violates(DescriptionTooShort, body, clock) && !Violates(DescriptionTooLong, body, clock)
    && !Violates(InvalidType, body, clock)
    && !Violates(CategoryRequired, body, clock) && !Violates(CategoryTooLong, body, clock)
  }

  lemma NamedChecksAcceptable(body: Json, clock: Clock)
    ensures NamedChecksPass(body, clock) <==> AcceptableFields(body, clock)
  {
    AmountChecks(body, clock);
    DateChecks(body, clock);
    DescriptionChecks(body, clock);
    CategoryChecks(body, clock);
  }

  lemma DescriptionChecks(body: Json, clock: Clock)
    ensures !Violates(DescriptionTooShort, body, clock) && !Violates(DescriptionTooLong, body, clock)
      <==> AcceptableText(Field(body, "description"), MinDescriptionLength, MaxDescriptionLength)
  {
    TrimmedStringChecks(Field(body, "description"), MinDescriptionLength, MaxDescriptionLength);
  }

  lemma CategoryChecks(body: Json, clock: Clock)
    ensures !Violates(CategoryRequired, body, clock) && !Violates(CategoryTooLong, body, clock)
      <==> AcceptableText(Field(body, "category"), 1, MaxCategoryLength)
  {
    TrimmedStringChecks(Field(body, "category"), 1, MaxCategoryLength);
  }

  /** Every check from the first field check on passes exactly when each of
      the ten field checks passes by name, for any reading of "passes". */
  lemma {:induction false} FieldRanksListed(passes: Rejection -> bool)
    ensures (forall c :: FirstFieldCheck <= Rank(c) ==> passes(c)) <==>
      && passes(InvalidAmount) && passes(AmountTooLarge)
      && passes(DateRequired) && passes(InvalidDateFormat) && passes(FutureDate)
      && passes(DescriptionTooShort) && passes(DescriptionTooLong)
      && passes(InvalidType) && passes(CategoryRequired) && passes(CategoryTooLong)
  {
    if passes(InvalidAmount) && passes(AmountTooLarge)
      && passes(DateRequired) && passes(InvalidDateFormat) && passes(FutureDate)
      && passes(DescriptionTooShort) && passes(DescriptionTooLong)
      && passes(InvalidType) && passes(CategoryRequired) && passes(CategoryTooLong)
    {
      forall c | FirstFieldCheck <= Rank(c)
        ensures passes(c)
      {
        match c
        case ProfileIdRequired =>
        case GroupIdRequired =>
        case _ =>
      }
    }
  }

  /** Passing from the first field check on means passing each of the ten
      field checks by name. */
  lemma FieldChecksListed(body: Json, clock: Clock)
    ensures PassesFrom(body, clock, FirstFieldCheck) <==> NamedChecksPass(body, clock)
  {
    var passes := c => !Violates(c, body, clock);
    FieldRanksListed(passes);
  }

  lemma AmountChecks(body: Json, clock: Clock)
    ensures !Violates(InvalidAmount, body, clock) && !Violates(AmountTooLarge, body, clock)
      <==> AcceptableAmount(Field(body, "amount"))
  {
  }

  lemma DateChecks(body: Json, clock: Clock)
    ensures !Violates(DateRequired, body, clock) && !Violates(InvalidDateFormat, body, clock)
      && !Violates(FutureDate, body, clock)
      <==> AcceptableDate(Field(body, "date"), clock)
  {
  }

  /** `!v || typeof v !== "string" || v.trim().length < lo`, then
      `v.trim().length > hi`, pass exactly for a string whose trimmed
      length is in `[lo, hi]`, when `lo` is at least 1. */
  lemma TrimmedStringChecks(v: Option<Json>, lo: int, hi: int)
    requires lo >= 1
    ensures (NonEmptyString(v) && Utf16Length(Trim(Str(v))) >= lo && Utf16Length(Trim(Str(v))) <= hi)
      <==> AcceptableText(v, lo, hi)
  {
    if IsString(v) && v.value.s == "" {
      assert Trim(Str(v)) == "";
    }
  }

  /** The record a handler builds from an accepted body: the amount rounded
      to cents, the description and category trimmed, the date and type
      passed through. */
  predicate Sanitizes(body: Json, t: Txn) {
    var amount := Field(body, "amount");
    && IsNumber(amount) && t.amount == RoundCents(amount.value.n)
    && t.date == Str(Field(body, "date"))
    && t.description == Trim(Str(Field(body, "description")))
    && Some(t.kind) == KindOf(Field(body, "type"))
    && t.category == Trim(Str(Field(body, "category")))
  }

  /** The record built from an accepted body has its amount in cents range,
      a trimmed description of 3 to 100 characters and a trimmed category of
      1 to 50 characters. */
  lemma SanitizedBounds(body: Json, clock: Clock, t: Txn)
    requires AcceptableFields(body, clock) && Sanitizes(body, t)
    ensures InCentsRange(t.amount)
    ensures IsTrimmed(t.description) && MinDescriptionLength <= Utf16Length(t.description) <= MaxDescriptionLength
    ensures IsTrimmed(t.category) && 1 <= Utf16Length(t.category) <= MaxCategoryLength
    ensures KindNamed(Str(Field(body, "type"))) == Some(t.kind)
  {
    RoundedInRange(Field(body, "amount").value.n);
  }
}
