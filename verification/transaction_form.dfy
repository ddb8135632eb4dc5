/** The transaction form: the inputs, the categories it offers for the
    chosen type, the submit that validates, builds the transaction and
    resets the inputs, the type change and the submit button's guard. */
module TransactionForm {
  import opened Wrappers
  import opened Text
  import opened Money
  import opened Records
  import opened Categories
  import opened JsNumber
  import opened TransactionValidation
  import TransactionChecks

  /** The form's inputs and the errors it shows. */
  datatype Form = Form(
    amount: string,
    date: string,
    description: string,
    kind: Kind,
    category: string,
    errors: FormErrors)

  /** The parts of the transaction being edited that the form carries over. */
  datatype Edited = Edited(mongoId: Option<string>, id: Option<string>, createdAt: Option<string>)

  /** A transaction as the form hands it on; the amount is `Number(amount)`. */
  datatype ClientTxn = ClientTxn(
    ids: Ids,
    amount: real,
    date: string,
    description: string,
    kind: Kind,
    category: string,
    createdAt: string)

  /** What the form cannot compute itself: the clock, today's date as
      `YYYY-MM-DD`, a fresh id and the current instant as an ISO string. */
  datatype Env = Env(clock: DayClock, today: string, newId: string, nowIso: string)

  const NoErrorsShown := FormErrors(None, None, None, None)

  /** The inputs of a new, empty form. */
  function Blank(env: Env): Form {
    Form("", env.today, "", Expense, "", NoErrorsShown)
  }

  /** The categories offered for a type. */
  function CategoriesFor(k: Kind): (r: seq<string>)
    ensures k == Expense ==> r == ExpenseCategories
    ensures k == Income ==> r == IncomeCategories
  {
    if k == Expense then ExpenseCategories else IncomeCategories
  }

  function Errors(f: Form, env: Env): FormErrors {
    Validate(f.amount, f.date, f.description, f.category, env.clock)
  }

  /** The transaction built from inputs the validator accepts. */
  function Built(f: Form, editing: Option<Edited>, env: Env): (t: ClientTxn)
    requires NoErrors(Errors(f, env))
    ensures t.ids.mongoId == (if editing.Some? then editing.value.mongoId else None)
    ensures t.ids.id.Some?
    ensures Some(t.amount) == ToNumber(f.amount) && InAmountRange(t.amount)
    ensures t.date == f.date && t.kind == f.kind
    ensures t.description == Trim(f.description) && t.category == Trim(f.category)
  {
    var editedId := if editing.Some? then editing.value.id else None;
    var editedAt := if editing.Some? then editing.value.createdAt else None;
    ClientTxn(
      Ids(if editing.Some? then editing.value.mongoId else None, OrElse(editedId, Some(env.newId))),
      ToNumber(f.amount).value,
      f.date,
      Trim(f.description),
      f.kind,
      Trim(f.category),
      OrElse(editedAt, Some(env.nowIso)).value)
  }

  /** The outcome of a submit: the form afterwards and the transaction
      handed on, if any. */
  datatype Submitted = Submitted(form: Form, sent: Option<ClientTxn>)

  /** `handleSubmit`: with any validation error nothing is sent and the
      errors are shown; otherwise the transaction is sent, the errors are
      cleared and, unless a transaction was being edited, the inputs are
      reset. */
  function Submit(f: Form, editing: Option<Edited>, env: Env): (r: Submitted)
    ensures r.sent.Some? <==> NoErrors(Errors(f, env))
    ensures r.sent.None? ==> r.form == f.(errors := Errors(f, env))
    ensures r.sent.Some? ==> r.sent.value == Built(f, editing, env) && r.form.errors == NoErrorsShown
    ensures r.sent.Some? && editing.None? ==> r.form == Blank(env)
    ensures r.sent.Some? && editing.Some? ==> r.form == f.(errors := NoErrorsShown)
  {
    var errors := Errors(f, env);
    if !NoErrors(errors) then Submitted(f.(errors := errors), None)
    else
      var t := Built(f, editing, env);
      if editing.None? then Submitted(Blank(env), Some(t))
      else Submitted(f.(errors := NoErrorsShown), Some(t))
  }

  /** `handleTypeChange`: the new type and no category. */
  function ChangeType(f: Form, k: Kind): (r: Form)
    ensures r.kind == k && r.category == ""
    ensures r.amount == f.amount && r.date == f.date && r.description == f.description
  {
    f.(kind := k, category := "")
  }

  /** The submit button is enabled while amount, description and category
      are all filled in. */
  predicate SubmitEnabled(f: Form) {
    f.amount != "" && f.description != "" && f.category != ""
  }

  /** A form the validator accepts always has its button enabled: each
      empty input the button guards against is also a validation error. */
  lemma SentMeansEnabled(f: Form, editing: Option<Edited>, env: Env)
    requires Submit(f, editing, env).sent.Some?
    ensures SubmitEnabled(f)
  {
    assert Trim("") == "";
  }

  /** A sent transaction meets every field rule of the validator. */
  lemma SentIsValid(f: Form, editing: Option<Edited>, env: Env)
    requires Submit(f, editing, env).sent.Some?
    ensures var t := Submit(f, editing, env).sent.value;
      && InAmountRange(t.amount)
      && GoodDate(t.date, env.clock)
      && IsTrimmed(t.description)
      && TransactionChecks.MinDescriptionLength <= Utf16Length(t.description) <= TransactionChecks.MaxDescriptionLength
      && IsTrimmed(t.category) && 1 <= Utf16Length(t.category) <= TransactionChecks.MaxCategoryLength
  {
  }

  /** Editing keeps the edited transaction's ids and creation time. */
  lemma EditKeepsIdentity(f: Form, e: Edited, env: Env)
    requires Submit(f, Some(e), env).sent.Some?
    requires e.id.Some? && e.id.value != ""
    requires e.createdAt.Some? && e.createdAt.value != ""
    ensures Submit(f, Some(e), env).sent.value.ids == Ids(e.mongoId, e.id)
    ensures Submit(f, Some(e), env).sent.value.createdAt == e.createdAt.value
  {
  }

  /** A new transaction gets the fresh id and no database id. */
  lemma NewGetsFreshId(f: Form, env: Env)
    requires Submit(f, None, env).sent.Some?
    ensures Submit(f, None, env).sent.value.ids == Ids(None, Some(env.newId))
    ensures Submit(f, None, env).sent.value.createdAt == env.nowIso
  {
  }

  /** After a type change the button is disabled until a category of the
      new type is picked. */
  lemma TypeChangeDisables(f: Form, k: Kind)
    ensures !SubmitEnabled(ChangeType(f, k))
  {
  }

  /** A blank form is never sent. */
  lemma BlankRefused(env: Env, editing: Option<Edited>)
    ensures Submit(Blank(env), editing, env).sent.None?
    ensures Submit(Blank(env), editing, env).form.errors.amount == Some(EnterValidAmount)
  {
  }
}
