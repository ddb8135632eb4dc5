/** The client-side form validator: every field is checked on its own and
    every failing field reports one message, so the form can show all of
    them at once. */
module TransactionValidation {
  import opened Wrappers
  import opened Text
  import opened Money
  import opened Json
  import opened JsNumber
  import TransactionChecks

  datatype AmountError = EnterValidAmount | AmountExceedsMax
  datatype DateError = SelectDate | EnterValidDate | DateInFuture
  datatype DescriptionError = EnterDescription | DescriptionShort | DescriptionLong
  datatype CategoryError = SelectCategory | CategoryLong

  /** The returned error object: an absent key is a field without error. */
  datatype FormErrors = FormErrors(
    amount: Option<AmountError>,
    date: Option<DateError>,
    description: Option<DescriptionError>,
    category: Option<CategoryError>)

  predicate NoErrors(e: FormErrors) {
    e.amount.None? && e.date.None? && e.description.None? && e.category.None?
  }

  /** The client's view of time: `new Date(s)` and the last instant of the
      current day (`setHours(23, 59, 59, 999)`). */
  datatype DayClock = DayClock(parse: string -> Option<int>, endOfToday: int)

  /** A valid amount: a number in [0.01, 999999.99]. */
  predicate GoodAmount(amount: string) {
    ToNumber(amount).Some? && InAmountRange(ToNumber(amount).value)
  }

  /** `!amount || isNaN(n) || n < 0.01`, else `n > 999999.99`. */
  function AmountCheck(amount: string): (r: Option<AmountError>)
    ensures r.None? <==> GoodAmount(amount)
    ensures r == Some(AmountExceedsMax) <==> ToNumber(amount).Some? && ToNumber(amount).value > MaxAmount
  {
    var n := ToNumber(amount);
    if amount == "" || n.None? || n.value < MinAmount then Some(EnterValidAmount)
    else if n.value > MaxAmount then Some(AmountExceedsMax)
    else None
  }

  /** A valid date: given, parseable, and no later than the end of today. */
  predicate GoodDate(date: string, clock: DayClock) {
    date != "" && clock.parse(date).Some? && clock.parse(date).value <= clock.endOfToday
  }

  function DateCheck(date: string, clock: DayClock): (r: Option<DateError>)
    ensures r.None? <==> GoodDate(date, clock)
    ensures r == Some(SelectDate) <==> date == ""
    ensures r == Some(DateInFuture) ==> clock.parse(date).Some? && clock.parse(date).value > clock.endOfToday
  {
    if date == "" then Some(SelectDate)
    else if clock.parse(date).None? then Some(EnterValidDate)
    else if clock.parse(date).value > clock.endOfToday then Some(DateInFuture)
    else None
  }

  function DescriptionCheck(description: string): (r: Option<DescriptionError>)
    ensures r.None? <==> TransactionChecks.MinDescriptionLength <= Utf16Length(Trim(description)) <= TransactionChecks.MaxDescriptionLength
    ensures r == Some(EnterDescription) <==> IsBlank(description)
  {
    var t := Trim(description);
    if t == "" then Some(EnterDescription)
    else if Utf16Length(t) < TransactionChecks.MinDescriptionLength then Some(DescriptionShort)
    else if Utf16Length(t) > TransactionChecks.MaxDescriptionLength then Some(DescriptionLong)
    else None
  }

  function CategoryCheck(category: string): (r: Option<CategoryError>)
    ensures r.None? <==> 1 <= Utf16Length(Trim(category)) <= TransactionChecks.MaxCategoryLength
    ensures r == Some(SelectCategory) <==> IsBlank(category)
  {
    var t := Trim(category);
    if t == "" then Some(SelectCategory)
    else if Utf16Length(t) > TransactionChecks.MaxCategoryLength then Some(CategoryLong)
    else None
  }

  /** `validateTransaction(amount, date, description, category)`. */
  function Validate(amount: string, date: string, description: string, category: string, clock: DayClock): (e: FormErrors)
    ensures e.amount.None? <==> GoodAmount(amount)
    ensures e.date.None? <==> GoodDate(date, clock)
    ensures e.description.None? <==> TransactionChecks.MinDescriptionLength <= Utf16Length(Trim(description)) <= TransactionChecks.MaxDescriptionLength
    ensures e.category.None? <==> 1 <= Utf16Length(Trim(category)) <= TransactionChecks.MaxCategoryLength
  {
    FormErrors(AmountCheck(amount), DateCheck(date, clock), DescriptionCheck(description), CategoryCheck(category))
  }

  /** The form has no errors exactly when every field is valid. */
  lemma ValidateExact(amount: string, date: string, description: string, category: string, clock: DayClock)
    ensures NoErrors(Validate(amount, date, description, category, clock)) <==>
      && GoodAmount(amount)
      && GoodDate(date, clock)
      && TransactionChecks.MinDescriptionLength <= Utf16Length(Trim(description)) <= TransactionChecks.MaxDescriptionLength
      && 1 <= Utf16Length(Trim(category)) <= TransactionChecks.MaxCategoryLength
  {
  }

  /** Each field's message depends on that field alone: a bad amount does
      not hide a bad date, and so on. */
  lemma FieldsIndependent(a1: string, d1: string, s1: string, c1: string,
                          a2: string, d2: string, s2: string, c2: string, clock: DayClock)
    ensures a1 == a2 ==> Validate(a1, d1, s1, c1, clock).amount == Validate(a2, d2, s2, c2, clock).amount
    ensures d1 == d2 ==> Validate(a1, d1, s1, c1, clock).date == Validate(a2, d2, s2, c2, clock).date
    ensures s1 == s2 ==> Validate(a1, d1, s1, c1, clock).description == Validate(a2, d2, s2, c2, clock).description
    ensures c1 == c2 ==> Validate(a1, d1, s1, c1, clock).category == Validate(a2, d2, s2, c2, clock).category
  {
  }

  /** An empty amount field is refused as invalid, not as too large. */
  lemma EmptyAmountInvalid()
    ensures AmountCheck("") == Some(EnterValidAmount)
  {
  }

  /** The server's clock on the same day: the same parser, and `now`. */
  function ServerClock(clock: DayClock, now: int): TransactionChecks.Clock {
    TransactionChecks.Clock(clock.parse, now)
  }

  /** A date the server's checks accept the client accepts too. */
  lemma ServerDateImpliesClient(body: Json, clock: DayClock, now: int)
    requires now <= clock.endOfToday && IsString(Field(body, "date"))
    requires !TransactionChecks.Violates(TransactionChecks.DateRequired, body, ServerClock(clock, now))
    requires !TransactionChecks.Violates(TransactionChecks.InvalidDateFormat, body, ServerClock(clock, now))
    requires !TransactionChecks.Violates(TransactionChecks.FutureDate, body, ServerClock(clock, now))
    ensures DateCheck(Field(body, "date").value.s, clock).None?
  {
  }

  /** The converse fails: a time later today but after `now` passes the
      form and is refused by the server as a future date. */
  lemma LaterTodayDisagrees(body: Json, clock: DayClock, now: int)
    requires IsString(Field(body, "date")) && Field(body, "date").value.s != ""
    requires clock.parse(Field(body, "date").value.s).Some?
    requires now < clock.parse(Field(body, "date").value.s).value <= clock.endOfToday
    ensures DateCheck(Field(body, "date").value.s, clock).None?
    ensures TransactionChecks.Violates(TransactionChecks.FutureDate, body, ServerClock(clock, now))
  {
  }
}
