# Budget Guru, modelled in Dafny

This project models the business logic of the Budget Guru finance tracker: a
Next.js dashboard with MongoDB-backed API routes for a flat ledger and for
profile groups (families, roommates). The model covers the following:

- **Budget-status aggregation.** Each budget's `spent`, `remaining` and
  `percentage` for the month. This is one formula (`Aggregation.WithStatus`),
  proved to be what the client computation, the flat GET route, the
  corrected profile GET route and both pre-save hooks compute. The lemmas
  say exactly where their counting rules differ, and that the profile GET
  as written counts nothing.
- **Request validators.** The client's collect-every-error transaction
  validator, and the server's fail-fast POST chains for transactions. The
  budget-batch checks with their case-insensitive duplicate test and the
  replace-all write. The group/profile creation checks. The Mongoose schema
  constraints and pre-save normalisation.
- **Spending insights.** Budget alerts, then the top category, then the
  month-over-month trend, capped at three.
- **Profile store.** The selection state machine: selected group, selected
  profile, view mode, group list. Also the two toggles and the display text
  that drive it.
- **Component state and derivations.** The budget editor, the create-group
  dialog, the transaction form and list, the summary statistics, the budget
  overview card and the budget chart.

Money is held in integer cents: 0.01 is 1 and 999999.99 is 99999999.
Amounts that arrive in a request are reals. `Money.RoundCents` stands in for
`toFixed(2)` and `Math.round(x * 100) / 100`. Dates are strings, and the
month filter is a `YYYY-MM` prefix test. Everything that reads the clock,
generates ids or parses a date arrives as a parameter:

- the month keys;
- `new Date(s)`, as `parse: string -> Option<int>`;
- `now` and the end of today;
- the fresh ids.

String lengths are JavaScript `length`s, counted in UTF-16 code units
(`Text.Utf16Length`): a character outside the Basic Multilingual Plane
counts twice. The description, category and name limits of the routes, the
client validator and the schemas all use this count.

The database is a sequence of records. `deleteMany` followed by
`insertMany` is one function.

## Model

| member | source | states |
|---|---|---|
| Money.RoundCents | models/Budget.ts:75 | the stored cent count is the nearest cent to the amount, halves rounded up |
| Money.RoundCentsOfCents | models/Budget.ts:75 | an amount that already has two decimals is stored unchanged |
| Money.RoundedInRange | lib/constants.ts:39-40 | an amount in [0.01, 999999.99] rounds to a cent count in [1, 99999999] |
| Money.Remaining | lib/finance-utils.ts:122 | `max(0, amount - spent)`: never negative, and either 0 or exactly what is left |
| Money.Clamp | app/api/budgets/route.ts:43 | `min(100, max(0, x))` lies in [0, 100] and keeps values already inside |
| Money.Percentage | lib/finance-utils.ts:123-129 | the percentage lies in [0, 100]; it is 0 for a non-positive amount; it is 100 once the amount is spent; otherwise it is spent as a share of the amount |
| Money.RemainingAccounts | lib/finance-utils.ts:122 | without overspending, remaining plus spent is the budget; with overspending remaining is 0 |
| Records.KindNamed | app/api/transactions/route.ts:84-89 | only the strings `income` and `expense` are accepted as a type, each as the kind it spells |
| Records.KindNameRoundTrip | app/api/transactions/route.ts:84-89 | each kind's stored name reads back as that kind |
| Records.GroupTypeNamed | app/api/profiles/route.ts:38-43 | only the four group type strings are accepted, each as the type it spells |
| Records.GroupTypeNameRoundTrip | app/api/profiles/route.ts:38-43 | each group type's stored name reads back as that type |
| Records.OrElse | store/profile-store.ts:48-49 | `a \|\| b` on optional strings picks `a` exactly when it is a non-empty string |
| Text.Trim | models/Budget.ts:76 | `trim()` leaves no white space at either end and never lengthens the string |
| Text.TrimIsSlice | models/Budget.ts:76 | the trimmed string is the original with white space removed from the front and back only |
| Text.Utf16Length | app/api/transactions/route.ts:70-82 | `length` counts each character once or, outside the Basic Multilingual Plane, twice: it lies between the character count and twice it, and is 0 only for the empty string |
| Text.BmpLength | app/api/transactions/route.ts:70-82 | `length` equals the character count exactly when no character needs a surrogate pair |
| Text.ToLower | app/api/budgets/route.ts:111 | lower-casing keeps the length and maps each character on its own |
| Text.TrimIdempotent | models/Budget.ts:76 | trimming a trimmed category changes nothing |
| Text.BlankMeansSpaces | app/api/budgets/route.ts:78-87 | `s.trim() === ""` holds exactly when every character of `s` is white space |
| Json.Field | app/api/transactions/route.ts:33 | reading `body.k`: only an object has fields; the field is present exactly when the object has the key, and then it is one of the object's values |
| Json.Truthy | app/api/transactions/route.ts:33 | a value is truthy exactly when it is present and is none of null, false, 0 and the empty string |
| JsNumber.BlankIsZero | components/BudgetSetup.tsx:72 | `Number` of a blank input is 0 |
| JsNumber.WholeNumber | components/TransactionForm.tsx:43 | a digit string reads as the whole number it writes |
| JsNumber.Decimal | components/TransactionForm.tsx:43 | digits, a dot and digits read as the whole part plus the digits after the dot divided by ten to the power of their count |
| JsNumber.NegativeNeedsSign | lib/finance-utils.ts:222-223 | only a leading minus makes the parsed amount negative |
| JsNumber.ToNumber | components/TransactionForm.tsx:43 | `Number(text)` reads a blank text as 0, and gives a negative number only for a text whose trimmed form starts with a minus sign |
| Json.NonEmptyStringGuard | app/api/transactions/route.ts:47 | `!v \|\| typeof v !== "string"` lets through exactly the non-empty strings |
| Aggregation.SpentSpec | lib/finance-utils.ts:107-118 | the reference sum of the amounts counted under a category; under the client rule it is never negative |
| Aggregation.Spending | lib/finance-utils.ts:107-118 | under the client rule every sum in the per-category map is positive; SpendingLookup states the map's keys and values |
| Aggregation.SpendingLookup | lib/finance-utils.ts:107-118 | the per-category map the sites build holds, for each category, the reference sum of counted amounts; it has a key exactly for categories with counted spending |
| Aggregation.ClientSpentPositive | lib/finance-utils.ts:108-112 | the client sum is never negative, and is positive wherever something is counted |
| Aggregation.NoSpendingIsZero | lib/finance-utils.ts:121 | a category without counted spending has spent 0 |
| Aggregation.WithStatus | lib/finance-utils.ts:120-131 | the shared status formula: only spent, remaining and percentage change; remaining is at least 0 and at least amount - spent; percentage is in [0, 100] and 0 for amount <= 0 |
| Aggregation.StatusAll | lib/finance-utils.ts:104-141 | one output budget per input budget, in order, each with the status derived from the counting rule's reference sum for its category |
| Aggregation.CalculateBudgetStatus | lib/finance-utils.ts:104-141 | the client computation counts expenses in the month with a positive amount, keyed by trimmed category; the result has remaining >= 0, percentage in [0, 100], and spent 0 where nothing matched |
| Aggregation.StatusAllIdempotent | lib/finance-utils.ts:120-131 | recomputing the status of budgets that already carry one changes nothing |
| Aggregation.RulesAgreeOnApiData | app/api/budgets/route.ts:14-27 | on transactions written through the API (positive amount, trimmed non-empty category), the client and server counting rules give the same sums |
| Aggregation.ClientAgreesWithServer | app/api/budgets/route.ts:29-45 | on such data the client counting rule and the server counting rule give the same budgets; the flat GET and the corrected profile GET use the server rule, while the profile GET as written counts nothing (ProfileBudgetsRoute.GetAsWritten) |
| Aggregation.UntrimmedCategoryDiffers | lib/finance-utils.ts:114-116 | a category stored with a leading space counts on the client and not on the server |
| Aggregation.NonPositiveAmountDiffers | lib/finance-utils.ts:108-112 | a negative amount is ignored by the client and summed by the server |
| Aggregation.WorkedExample | lib/finance-utils.ts:120-131 | 40.00 + 35.50 against 100.00 gives spent 75.50, remaining 24.50, 75.5 percent; a date of 31 March counts only in March |
| Aggregation.ZeroBudgetHasZeroPercentage | lib/finance-utils.ts:123 | a zero budget has percentage 0 whatever was spent |
| BudgetModel.PreSave | models/Budget.ts:74-83 | the hook rounds the amount to cents and trims the category; it derives remaining >= 0 and percentage in [0, 100]; it keeps ids, owner and spent |
| BudgetModel.PreSaveAgrees | models/ProfileBudget.ts:85-94 | both hooks compute exactly the shared status formula on the rounded, trimmed budget |
| BudgetModel.PreSaveKeepsValid | models/Budget.ts:16-60 | a document that passes the schema is stored with a trimmed 1-50 unit category, a cent amount in range, spent and remaining >= 0 and percentage in [0, 100] |
| BudgetModel.ResaveUnchanged | models/Budget.ts:74-83 | saving a saved budget again with the same spent changes nothing |
| CategoryExpenses.KeptMeans | lib/finance-utils.ts:77-82 | a transaction is kept exactly when it is an expense with a positive amount and a non-blank category |
| CategoryExpenses.AddTo | lib/finance-utils.ts:84-88 | `categoryData[c] += a` keeps existing keys in place, appends a new key last and adds `a` to the total |
| CategoryExpenses.TotalsCorrect | lib/finance-utils.ts:77-89 | the running totals have distinct keys, one per category with kept spending, each holding that category's sum; they add up to the kept total |
| CategoryExpenses.WithColors | lib/finance-utils.ts:91-96 | one coloured entry per category, in first-seen order, each colour from the chart palette |
| CategoryExpenses.GetCategoryExpenses | lib/finance-utils.ts:73-102 | the entries are sorted by non-increasing amount and are a permutation of the coloured totals; entries with equal amounts keep the order of the coloured totals |
| CategoryExpenses.CategoryExpensesAmounts | lib/finance-utils.ts:91-97 | every entry holds its category's positive sum and a chart colour |
| CategoryExpenses.CategoryExpensesDistinct | lib/finance-utils.ts:84-88 | no category is listed twice |
| CategoryExpenses.CategoryExpensesListed | lib/finance-utils.ts:77-89 | a category is listed exactly when some kept transaction carries it |
| CategoryExpenses.CategoryExpensesTotal | lib/finance-utils.ts:73-102 | the listed amounts add up to the total of the kept transactions |
| Sorting.SortDesc | lib/finance-utils.ts:97 | the sort yields a permutation of its input, ordered by non-increasing key, with the same key sum, and stable: for every key, the elements with that key keep their input order |
| Sorting.InsertTies | lib/finance-utils.ts:97 | inserting an element puts it in front of every element that shares its key and leaves their order alone |
| Sorting.SortDescHead | lib/finance-utils.ts:166-170 | the first element after sorting is the earliest element with the largest key, because the sort is stable |
| Calendar.MonthKey | lib/finance-utils.ts:181 | a month key has seven characters with a dash at position 4 |
| Calendar.MonthKeyInjective | lib/finance-utils.ts:181 | two months have the same key exactly when they are the same month |
| Calendar.PaddedRoundTrip | lib/finance-utils.ts:181 | the zero-padded digits of a key read back as the number |
| Calendar.DaysIn | lib/finance-utils.ts:179-180 | a month has 28 to 31 days, and February has 29 exactly in a leap year |
| Calendar.SetMonthBack | lib/finance-utils.ts:179-180 | `setMonth(getMonth() - 1)` lands in the previous month, on the same day, exactly when that month has the day; otherwise it rolls over to an earlier day of the starting month |
| Calendar.LastMonthKey | lib/finance-utils.ts:179-181 | the key of the calendar month before is never the current month's key |
| Calendar.LastMonthKeyAsWritten | lib/finance-utils.ts:179-181 | the key computed with `setMonth(getMonth() - 1)`: the previous month's key on a day the previous month has, and the current month's key on any later day |
| Calendar.AsWrittenOverflows | lib/finance-utils.ts:179-181 | on a later day the computed key is the current month's |
| Calendar.March31Overflows | lib/finance-utils.ts:179-181 | on 31 March 2024 the computed key is 2024-03, while the month before is 2024-02 |
| Calendar.JanuaryGoesBackAYear | lib/finance-utils.ts:179-181 | in January the month before is December of the previous year |
| Insights.ThisMonthExpenses | lib/finance-utils.ts:147-151 | the month's expenses are exactly the expenses in the month with a positive amount |
| Insights.MonthTotal | lib/finance-utils.ts:183-190 | the month's total of positive expenses is never negative |
| Insights.FilteredSpent | lib/finance-utils.ts:167 | summing per category after filtering to the month gives the client rule's sum for the month |
| Insights.Alerts | lib/finance-utils.ts:155-164 | every alert is a budget alert above 90 percent, at most one per budget |
| Insights.AlertsCount | lib/finance-utils.ts:154-164 | there are as many alerts as budgets above 90 percent |
| Insights.AlertsMatchBudgets | lib/finance-utils.ts:155-164 | there is exactly one alert per budget above 90 percent, and each names such a budget with its percentage |
| Insights.Top | lib/finance-utils.ts:167-176 | at most one top-category insight |
| Insights.TopPresent | lib/finance-utils.ts:168 | the top category is present exactly when something was counted this month |
| Insights.TopIsLargest | lib/finance-utils.ts:169-175 | the top category carries its positive monthly sum, and no category was spent on more |
| Insights.Trend | lib/finance-utils.ts:192-209 | a trend hint appears exactly when last month's total is positive and the change exceeds 10 percent either way; a rise is a warning, a fall a success |
| Insights.ChangeBounds | lib/finance-utils.ts:193-201 | a change above 10 percent means 10 * this > 11 * last; below -10 means 10 * this < 9 * last |
| Insights.SpendingInsights | lib/finance-utils.ts:211 | at most three insights, a prefix of alerts, then top category, then trend; with fewer than three in total, all of them |
| Insights.SpendingInsightsAsWritten | lib/finance-utils.ts:145-211 | the insights with the as-written previous-month key; on a day the previous month has, they are the insights compared with the calendar month before |
| Insights.AlertsCrowdOut | lib/finance-utils.ts:153-211 | with three budgets above 90 percent the result is three alerts |
| Insights.TopFollowsAlerts | lib/finance-utils.ts:166-176 | with room left and counted spending, the top category follows the alerts |
| Insights.FlatSpendingHasNoTrend | lib/finance-utils.ts:192-209 | unchanged spending gives no trend hint |
| Insights.RiseExample | lib/finance-utils.ts:194-200 | 200.00 then 240.00 gives a 20 percent increase warning |
| Insights.SavingsExample | lib/finance-utils.ts:201-208 | 200.00 then 150.00 gives a 25 percent savings success |
| Insights.AsWrittenTrendVanishes | lib/finance-utils.ts:179-192 | on a day the previous month lacks, the source compares the month with itself and never shows a trend |
| Insights.CorrectedTrendOnMarch31 | lib/finance-utils.ts:179-209 | compared with the calendar month before, the trend does appear on 31 March |
| TransactionChecks.Rank | app/api/profile-transactions/route.ts:55-138 | each check has a position below the check count |
| TransactionChecks.CheckAtRank | app/api/profile-transactions/route.ts:55-138 | positions and checks correspond one to one |
| TransactionChecks.FirstFailure | app/api/profile-transactions/route.ts:55-138 | the reported check fails and every earlier check passes; no report exactly when every check passes |
| TransactionChecks.FieldRejection | app/api/transactions/route.ts:33-103 | the same, over the field checks: amount, date, description, type, category |
| TransactionChecks.AmountChecks | app/api/transactions/route.ts:33-45 | the two amount checks pass exactly for a number in [0.01, 999999.99] |
| TransactionChecks.DateChecks | app/api/transactions/route.ts:47-68 | the three date checks pass exactly for a non-empty string that parses to an instant no later than now |
| TransactionChecks.FieldChecksExact | app/api/transactions/route.ts:33-103 | the field checks all pass exactly when the amount is a number in [0.01, 999999.99], the date is a parseable string no later than now, the trimmed description has 3-100 UTF-16 units, the type is income or expense, and the trimmed category has 1-50 UTF-16 units |
| TransactionChecks.TrimmedStringChecks | app/api/transactions/route.ts:70-82 | the short-string test followed by the long-string test pass exactly for strings whose trimmed UTF-16 length is in [lo, hi] |
| TransactionChecks.SanitizedBounds | app/api/transactions/route.ts:106-112 | the stored record has a cent amount in range, a trimmed 3-100 unit description, a trimmed 1-50 unit category and the requested kind |
| TransactionValidation.AmountCheck | lib/finance-utils.ts:222-227 | no amount error exactly for a number in [0.01, 999999.99]; "too large" exactly for a number above the maximum, so at most one message |
| TransactionValidation.DateCheck | lib/finance-utils.ts:230-243 | no date error exactly for a given, parseable date no later than the end of today; "select a date" exactly for an empty string |
| TransactionValidation.DescriptionCheck | lib/finance-utils.ts:245-253 | no description error exactly for a trimmed UTF-16 length in [3, 100]; "enter a description" exactly for a blank one |
| TransactionValidation.CategoryCheck | lib/finance-utils.ts:255-260 | no category error exactly for a trimmed UTF-16 length in [1, 50]; "select a category" exactly for a blank one |
| TransactionValidation.Validate | lib/finance-utils.ts:218-263 | each field's entry is absent exactly when that field is valid |
| TransactionValidation.ValidateExact | lib/finance-utils.ts:218-263 | no errors at all exactly when all four fields are valid |
| TransactionValidation.FieldsIndependent | lib/finance-utils.ts:218-263 | each field's message depends on that field alone |
| TransactionValidation.EmptyAmountInvalid | lib/finance-utils.ts:223 | an empty amount is refused as invalid, not as too large |
| TransactionValidation.ServerDateImpliesClient | app/api/transactions/route.ts:47-68 | a date the server accepts is accepted by the form on the same day |
| TransactionValidation.LaterTodayDisagrees | lib/finance-utils.ts:233-240 | a time later today but after now passes the form and is refused by the server as a future date |
| TransactionsRoute.Build | app/api/transactions/route.ts:106-112 | the stored record has the amount rounded to cents, the text trimmed, and date and type passed through |
| TransactionsRoute.Post | app/api/transactions/route.ts:27-118 | a null body crashes; otherwise a 400 names the first failing check; a record is created exactly for an acceptable body, sanitised, in cents range and unscoped |
| TransactionsRoute.BadAmountFirst | app/api/transactions/route.ts:33-38 | a zero, missing or non-number amount is refused first whatever else the body holds |
| TransactionsRoute.LargeAmountRefused | app/api/transactions/route.ts:40-45 | an amount above 999999.99 is refused as too large |
| TransactionsRoute.FutureDateRefused | app/api/transactions/route.ts:63-68 | with a good amount, a date after now is refused as a future date |
| Scope.SelectScope | app/api/profile-transactions/route.ts:13-26 | group mode with a group id queries by that group; individual mode with a profile id queries by that profile; anything else is the 400 answer |
| Scope.ScopeRejected | app/api/profile-budgets/route.ts:19-30 | a request is refused exactly when its mode lacks the id it needs |
| Scope.DefaultsToIndividual | app/api/profile-transactions/route.ts:13 | without a view mode a profile id selects that profile, and a group id alone is refused |
| Scope.MatchingMembers | app/api/profile-transactions/route.ts:28 | the query returns exactly the stored records in scope |
| Scope.Matching | app/api/profile-transactions/route.ts:28 | the filter returns no more records than are stored, each of them in scope |
| Scope.InScope | app/api/profile-transactions/route.ts:15-21 | only a record with a profile and group owner is in the scope of a query |
| Scope.FetchTransactions | app/api/profile-transactions/route.ts:28-31 | the matching records newest first, cut at 1000: the result holds min(matches, 1000) records, the i-th being the i-th most recently created match, all in scope |
| Scope.NewestFirst | app/api/profile-transactions/route.ts:29 | the most recently created matching record comes first |
| ProfileTransactionModel.PreSave | models/ProfileTransaction.ts:93-98 | the hook leaves description and category trimmed and the kind as named |
| ProfileTransactionModel.Save | models/ProfileTransaction.ts:7-98 | a record is stored exactly when the schema accepts it; it carries the owner ids, a cent amount in range, a 3-100 unit description and a 1-50 unit category |
| ProfileTransactionModel.ResaveUnchanged | models/ProfileTransaction.ts:93-98 | saving a saved record again changes nothing |
| ProfileTransactionsRoute.AcceptedExact | app/api/profile-transactions/route.ts:55-138 | all checks pass exactly on bodies with non-empty string ids and acceptable fields |
| ProfileTransactionsRoute.Post | app/api/profile-transactions/route.ts:49-153 | a null body crashes; a 400 names the first failing check; a record is created exactly for an accepted body, sanitised and owned by the body's profile and group |
| ProfileTransactionsRoute.DraftPassesSchema | app/api/profile-transactions/route.ts:141-151 | an accepted body always passes the schema, and whatever id it gets the stored record is the sanitised body |
| ProfileTransactionsRoute.ProfileIdFirst | app/api/profile-transactions/route.ts:55-60 | a missing or non-string profile id is refused before anything else |
| ProfileTransactionsRoute.GroupIdSecond | app/api/profile-transactions/route.ts:62-67 | given a profile id, a missing group id is refused next |
| ProfileTransactionsRoute.FirstFailureSkipsIds | app/api/profile-transactions/route.ts:55-138 | with both ids present, the first failing check is the first failing field check |
| ProfileTransactionsRoute.SameFieldChecks | app/api/profile-transactions/route.ts:69-138 | with both ids given, the profile ledger refuses for the same reason as the flat ledger and accepts the same bodies |
| BudgetBatch.CheckItem | app/api/budgets/route.ts:77-108 | an item passes exactly when it has a non-blank string category and a number amount in [0.01, 999999.99]; a null item crashes |
| BudgetBatch.FirstBadIndex | app/api/budgets/route.ts:77-108 | the loop stops at the first bad item, and every item before it is valid |
| BudgetBatch.SizesDifferMeans | app/api/budgets/route.ts:111-113 | the set of keys is smaller than the list exactly when some key repeats |
| BudgetBatch.Screen | app/api/profile-budgets/route.ts:111-142 | nothing is refused exactly when every item is valid and the trimmed, lower-cased categories are distinct |
| BudgetBatch.Docs | app/api/budgets/route.ts:123-127 | one document per item, in order, with the trimmed category, the rounded amount and the scope's ids |
| BudgetBatch.InsertableMeans | models/Budget.ts:16-26 | of the items the route lets through, the schema refuses exactly those whose trimmed category exceeds 50 UTF-16 units |
| BudgetBatch.DistinctKeysDistinctCategories | models/Budget.ts:16-26 | categories that differ ignoring case differ, so the unique index holds |
| BudgetBatch.KeepMembers | app/api/profile-budgets/route.ts:145 | `deleteMany` keeps exactly the budgets its filter does not match |
| BudgetBatch.Replace | app/api/budgets/route.ts:121-128 | the corrected replace: the batch is stored exactly when the schema accepts it; the store is then the kept budgets plus the new ones; a refused batch writes nothing |
| BudgetBatch.ReplaceAsWritten | app/api/budgets/route.ts:121-128 | the replace as written: the scope's budgets are deleted whatever happens; the batch is added exactly when the schema accepts it, and otherwise the answer is the validation error |
| BudgetBatch.Insertable | models/Budget.ts:22-25 | every item's trimmed category fits the schema's 50-unit limit; its meaning for the stored documents is stated by BudgetBatch.InsertableMeans |
| BudgetBatch.RouteStatus | app/api/budgets/route.ts:29-45 | the GET routes' mapping of one budget keeps its ids, owner, category and amount, reads spent from the map (0 when absent), and gives remaining >= 0 and >= amount - spent and a percentage in [0, 100] |
| BudgetBatch.RouteStatusAgrees | app/api/profile-budgets/route.ts:49-65 | the GET routes' mapping is the shared status formula with the server's counting rule |
| BudgetsRoute.Get | app/api/budgets/route.ts:7-61 | one record per stored budget with spent summed by raw category over the month's expenses; remaining >= 0; percentage in [0, 100] and 0 for amount <= 0 |
| BudgetsRoute.GetUnspentIsZero | app/api/budgets/route.ts:29-35 | a budget with no matching expenses is reported with spent 0 |
| BudgetsRoute.Post | app/api/budgets/route.ts:63-152 | a non-array body is refused; a batch is saved exactly when it is acceptable; anything else leaves the store unchanged; a saved batch becomes the whole store, in order, with unique categories |
| BudgetsRoute.PostAsWritten | app/api/budgets/route.ts:63-152 | as written, the response is always the corrected one and so is the store, except on the validation error, where the store is left empty |
| BudgetsRoute.KeepNothing | app/api/budgets/route.ts:121 | `deleteMany({})` removes every budget |
| BudgetsRoute.SavedBudgetsValid | app/api/budgets/route.ts:123-128 | every saved budget has a cent amount in range and a trimmed 1-50 unit category |
| BudgetsRoute.EmptyBatch | app/api/budgets/route.ts:69-128 | an empty array is accepted and leaves no budgets |
| BudgetsRoute.CaseInsensitiveDuplicate | app/api/budgets/route.ts:111-118 | "Food" and "food" in one batch are refused as duplicates |
| BudgetsRoute.SameKeyRefused | app/api/budgets/route.ts:111-118 | two valid items whose categories agree once trimmed and lower-cased are refused as duplicates, and the store is left as it was |
| BudgetsRoute.RepeatedKeyRefused | app/api/budgets/route.ts:111-118 | a batch of valid items that repeats a key is answered with the duplicate-categories error |
| BudgetsRoute.ScreenedPost | app/api/budgets/route.ts:69-118 | a batch that a check refuses leaves the stored budgets untouched |
| BudgetsRoute.AsWrittenWipesStore | app/api/budgets/route.ts:121-128 | as written, a batch that passes the route but not the schema empties the store; corrected, it writes nothing |
| BudgetsRoute.AsWrittenOtherwiseAgrees | app/api/budgets/route.ts:63-152 | on every other request the two versions agree |
| BudgetsRoute.LongCategoryExample | models/Budget.ts:22-25 | a 51-character category loses the one stored budget as written and keeps it when corrected |
| BudgetsRoute.LongCategoryLost | models/Budget.ts:22-25 | any single trimmed category longer than 50 UTF-16 units passes the route's checks; as written the one stored budget is then lost, corrected it is kept |
| ProfileBudgetsRoute.BudgetsIn | app/api/profile-budgets/route.ts:32 | the budgets read are all in the query's scope |
| ProfileBudgetsRoute.Get | app/api/profile-budgets/route.ts:7-66 | the route as intended, its aggregation matching the scope's ids and the month key: a request without the needed id is the 400 answer; otherwise the scope's budgets with the server-rule status over the scope's transactions, remaining >= 0 and percentage in [0, 100] |
| ProfileBudgetsRoute.MatchedAsWritten | app/api/profile-budgets/route.ts:36-41 | the `$match` stage passes exactly the stored documents whose id field equals the query's id string, whose type is "expense" and whose date is a string starting with the month key |
| ProfileTransactionModel.Stored | models/ProfileTransaction.ts:7-46 | the schema casts the owner ids to ObjectIds and the date to a Date; amount, type and category are kept |
| ProfileBudgetsRoute.NothingMatchesUncast | app/api/profile-budgets/route.ts:36-47 | the uncast `$match` passes no saved transaction at all |
| ProfileBudgetsRoute.GetAsWritten | app/api/profile-budgets/route.ts:7-66 | as written: the same 400 answer; otherwise the scope's budgets, each with spent 0, remaining max(0, amount) and percentage 0 |
| ProfileBudgetsRoute.AsWrittenMissesSpending | app/api/profile-budgets/route.ts:36-65 | both GETs list the same budgets; the corrected one reports the scope's month expenses for each category, the one as written reports 0 |
| ProfileBudgetsRoute.AsWrittenDropsExpense | app/api/profile-budgets/route.ts:36-65 | a 25.00 Food expense in March against a 100.00 Food budget: the corrected GET reports 25.00 spent, the one as written 0 |
| ProfileBudgetsRoute.Post | app/api/profile-budgets/route.ts:83-170 | a missing profile id is refused first; a batch is saved exactly when ids, list, items, duplicates and schema pass; otherwise nothing changes; the profile's budgets are replaced by the batch with the request's ids |
| ProfileBudgetsRoute.PostAsWritten | app/api/profile-budgets/route.ts:83-170 | as written, the response is always the corrected one and so is the store, except on the validation error, where the profile's budgets are gone |
| ProfileBudgetsRoute.IdsFirst | app/api/profile-budgets/route.ts:89-101 | given a profile id, a missing group id is refused before the budget list is looked at |
| ProfileBudgetsRoute.AsWrittenLosesProfileBudgets | app/api/profile-budgets/route.ts:145-154 | as written, a batch the schema refuses still deletes the profile's budgets; corrected, nothing is written |
| ProfileBudgetsRoute.OtherProfilesKept | app/api/profile-budgets/route.ts:145 | a successful POST keeps every budget of every other profile |
| ProfileBudgetsRoute.ProfileBudgetsReplaced | app/api/profile-budgets/route.ts:145-154 | of the profile's budgets, in any group, only the new batch remains |
| ProfileBudgetsRoute.OtherGroupLosesBudget | app/api/profile-budgets/route.ts:19-21 | after a POST, another group's view holds none of the profile's budgets |
| ProfileBudgetsRoute.PostKeepsUnique | models/ProfileBudget.ts:80 | a successful POST keeps the (profileId, category) index unique |
| UserGroupModel.DefaultColorValid | models/UserGroup.ts:29-33 | the default colour #3B82F6 matches the hex-colour rule |
| UserGroupModel.PreSaveProfile | models/UserGroup.ts:18-33 | a stored profile has its name trimmed and the given colour or the default |
| UserGroupModel.PreSave | models/UserGroup.ts:74-80 | the hook trims the group name and every profile name and keeps profile order and count |
| UserGroupModel.PreSaveKeepsValid | models/UserGroup.ts:18-59 | the hook keeps a valid group valid, with trimmed names |
| UserGroupModel.PreSaveIdempotent | models/UserGroup.ts:74-80 | saving a saved group again changes nothing |
| ProfilesRoute.FirstUnnamed | app/api/profiles/route.ts:53-60 | the loop stops at the first profile without a name, every earlier one being named |
| ProfilesRoute.StringOr | app/api/profiles/route.ts:66-67 | a falsy value gives the fallback; a string is kept, a number is stored as its text, `true` as "true" and an object with a non-empty string `_id` as that `_id`; only an array or any other object fails the schema's cast to String |
| ProfilesRoute.IdObjectCast | app/api/profiles/route.ts:66-67 | `{"_id": "x"}` is cast to "x"; `{"id": "x"}` and `[]` fail the cast |
| ProfilesRoute.IdObjectAvatarStored | app/api/profiles/route.ts:62-73 | an avatar given as an object with a string `_id` is stored as that `_id`, trimmed |
| ProfilesRoute.ProfileFrom | app/api/profiles/route.ts:64-68 | each profile gets its trimmed name, its avatar or '', its colour or the default, numbers and booleans cast to text |
| ProfilesRoute.ProfilesFrom | app/api/profiles/route.ts:64-68 | profile count and order are kept |
| ProfilesRoute.Build | app/api/profiles/route.ts:62-70 | the group has the trimmed name, the requested type and one profile per item, in order |
| ProfilesRoute.BuildValid | models/UserGroup.ts:18-59 | the schema accepts the built group exactly when names fit and colours match the rule |
| ProfilesRoute.Post | app/api/profiles/route.ts:25-90 | a blank or non-string name is refused first; a group is created exactly for an acceptable body, valid and already as the pre-save hook would store it |
| ProfilesRoute.BuiltIsSaved | models/UserGroup.ts:74-80 | the pre-save hook finds nothing to change in the built group |
| ProfilesRoute.DefaultColorGiven | app/api/profiles/route.ts:67 | a profile without a colour is stored with #3B82F6 |
| ProfilesRoute.NumberAvatarStored | app/api/profiles/route.ts:66 | a number given as an avatar does not block the save; the group is stored with the number's text as that avatar |
| ProfilesRoute.EmptyProfilesRefused | app/api/profiles/route.ts:45-50 | an empty profile list is refused |
| ProfileStore.IndividualView | store/profile-store.ts:46-50 | the individual view of a profile carries the profile's key and the group's key or '' |
| ProfileStore.SetCurrentGroup | store/profile-store.ts:37-52 | the group is stored; a group with profiles selects its first profile in the individual view; otherwise nothing else changes |
| ProfileStore.SetCurrentProfile | store/profile-store.ts:55-68 | the profile is always stored; the view changes to its individual view only when a profile and a group are present |
| ProfileStore.Find | store/profile-store.ts:75-77 | the profile found is in the list and has the key; none is found exactly when no profile has it |
| ProfileStore.SetViewMode | store/profile-store.ts:71-85 | the mode is always stored; the profile changes only for an individual mode naming a profile of the selected group |
| ProfileStore.SetGroups | store/profile-store.ts:88-108 | the list is replaced; the first group and its first profile are selected only when none was selected and the list is non-empty |
| ProfileStore.IdOf | store/profile-store.ts:112-120 | `_id \|\| id \|\| null` never yields an empty key |
| ProfileStore.GetCurrentGroupId | store/profile-store.ts:112-115 | the current group's key, never empty: present only with a current group, and its key whenever that key is non-empty |
| ProfileStore.IsIndividualView | store/profile-store.ts:122-124 | the individual view is exactly the view that is not the group view |
| ProfileStore.InitialIsEmpty | store/profile-store.ts:30-34 | a fresh store has no group, no profile, no groups, and shows the individual view |
| ProfileStore.SetCurrentGroupCoherent | store/profile-store.ts:41-51 | selecting a group with profiles gives a coherent selection |
| ProfileStore.SetCurrentProfileCoherent | store/profile-store.ts:59-67 | selecting a profile of the selected group gives a coherent selection |
| ProfileStore.SetViewModeCoherent | store/profile-store.ts:74-80 | switching to the individual view of a profile of the group selects that profile |
| ProfileStore.SetCurrentGroupIdempotent | store/profile-store.ts:37-52 | setting the same group twice is setting it once |
| ProfileStore.SetGroupsIdempotent | store/profile-store.ts:88-108 | loading the same list twice is loading it once |
| ProfileStore.FirstLoadSelects | store/profile-store.ts:92-106 | the first load selects the first profile of the first group |
| ProfileStore.ReloadKeepsSelection | store/profile-store.ts:92 | loading groups never replaces a selected group |
| ViewModeControls.Flip | components/profile/profile-switcher.tsx:58 | the toggled view is the other view |
| ViewModeControls.ToggledMode | components/profile/view-mode-toggle.tsx:19-26 | the new mode is the other view, with the current group's key; the group view has no profile id and the individual view has the current profile's key |
| ViewModeControls.Toggle | components/profile/profile-switcher.tsx:55-64 | without a group nothing changes; otherwise the store gets the toggled mode |
| ViewModeControls.ShownExactlyWhenEffective | components/profile/view-mode-toggle.tsx:17 | the toggle is shown exactly when pressing it changes the state |
| ViewModeControls.ToGroupKeepsProfile | components/profile/view-mode-toggle.tsx:19-26 | toggling to the group view keeps the selected profile |
| ViewModeControls.ToggleTwice | components/profile/profile-switcher.tsx:55-64 | two presses from a coherent selection return to the same view, with the same profile key |
| ViewModeControls.DisplayText | components/profile/profile-switcher.tsx:66-74 | 'Select Profile' without a group; '<group> (Group View)' in the group view; otherwise the profile's name, or the group's |
| ViewModeControls.DisplayOfCoherent | components/profile/profile-switcher.tsx:66-74 | a coherent selection shows the profile's name, and after a toggle the group view text |
| CreateProfileDialog.AddProfile | components/profile/create-profile-dialog.tsx:48-55 | below ten entries, the list grows by one, the old entries are kept in place and the new last entry is unnamed with the palette colour at its own position; at ten entries nothing changes |
| CreateProfileDialog.Without | components/profile/create-profile-dialog.tsx:59 | the filter removes exactly the entry at the index and keeps the rest in order |
| CreateProfileDialog.RemoveProfile | components/profile/create-profile-dialog.tsx:57-61 | an entry is removed only while more than one exists |
| CreateProfileDialog.UpdateProfile | components/profile/create-profile-dialog.tsx:63-67 | only field f of entry i changes |
| CreateProfileDialog.InitialSizeOk | components/profile/create-profile-dialog.tsx:41-43 | the dialog opens with one entry of the first palette colour |
| CreateProfileDialog.EditsKeepSize | components/profile/create-profile-dialog.tsx:48-67 | the edits keep the list between one and ten entries |
| CreateProfileDialog.EditsKeepPalette | components/profile/create-profile-dialog.tsx:48-67 | adding, removing and renaming keep every colour in the palette |
| CreateProfileDialog.AddKeepsPaletteOrder | components/profile/create-profile-dialog.tsx:50-53 | entries added one by one take the palette colours in order |
| CreateProfileDialog.Named | components/profile/create-profile-dialog.tsx:81-99 | the kept entries have trimmed, non-empty names |
| CreateProfileDialog.NamedAppend | components/profile/create-profile-dialog.tsx:81 | the filter keeps the named entries of each part, in order |
| CreateProfileDialog.NamedSingle | components/profile/create-profile-dialog.tsx:81-99 | one entry is kept, trimmed and with its colour, exactly when its name is not blank |
| CreateProfileDialog.Submit | components/profile/create-profile-dialog.tsx:69-100 | a blank group name is refused first, then a list without named entries; otherwise the request has the trimmed name, the type and the named entries |
| CreateProfileDialog.InitialRefused | components/profile/create-profile-dialog.tsx:41-43 | the opening form cannot be submitted |
| CreateProfileDialog.RequestJson | components/profile/create-profile-dialog.tsx:93-100 | the request body's profile list holds one JSON entry per named profile |
| CreateProfileDialog.RequestReachesSchema | app/api/profiles/route.ts:31-70 | a request with a trimmed group name and only named, trimmed entries passes the group POST's checks; the schema takes it exactly when the lengths fit and the stored colours are hex colours |
| CreateProfileDialog.SubmittedReachesSchema | app/api/profiles/route.ts:31-70 | what the dialog submits passes every check of the group POST; the server stores it exactly when the group name fits in 100 UTF-16 units, every profile name fits in 50 and every stored colour is a hex colour |
| CreateProfileDialog.PaletteRequestStored | models/UserGroup.ts:18-50 | with names that fit and palette colours, the server stores the request |
| CreateProfileDialog.PaletteValid | components/profile/create-profile-dialog.tsx:31-34 | every palette colour passes the hex-colour rule |
| BudgetSetup.Shown | components/BudgetSetup.tsx:41-43 | the editor's copy keeps id, category and amount |
| BudgetSetup.ShownAll | components/BudgetSetup.tsx:41-43 | one copy per stored budget, in order |
| BudgetSetup.AvailableCategories | components/BudgetSetup.tsx:48-50 | exactly the expense categories no local budget uses |
| BudgetSetup.AddBudget | components/BudgetSetup.tsx:52-63 | with a category and a positive amount, the list grows by one, the old budgets are kept in place, the new last budget has the new id, the chosen category and the typed amount (positive), and both inputs are cleared; otherwise nothing changes |
| BudgetSetup.RemoveBudget | components/BudgetSetup.tsx:65-67 | exactly the budgets without that id remain |
| BudgetSetup.AmountInput | components/BudgetSetup.tsx:72 | `Number(s) \|\| 0`: the number read, or 0 for NaN |
| BudgetSetup.UpdateBudgetAmount | components/BudgetSetup.tsx:69-75 | budgets with the id get the typed amount; every other budget is unchanged |
| BudgetSetup.Cancel | components/BudgetSetup.tsx:82-89 | the editor returns to the stored budgets with empty inputs |
| BudgetSetup.AddKeepsDistinct | components/BudgetSetup.tsx:48-63 | adding an available category keeps categories distinct |
| BudgetSetup.RemoveKeepsDistinct | components/BudgetSetup.tsx:65-67 | removing keeps categories distinct |
| BudgetSetup.UpdateKeepsDistinct | components/BudgetSetup.tsx:69-75 | editing amounts keeps categories distinct |
| BudgetSetup.RemoveAppend | components/BudgetSetup.tsx:66 | removal keeps the order of the budgets it keeps |
| BudgetSetup.AddThenRemove | components/BudgetSetup.tsx:52-67 | removing a budget just added under a fresh id undoes the addition |
| BudgetSetup.AddedPositive | components/BudgetSetup.tsx:53-58 | an added budget has a positive amount and the chosen category |
| TransactionForm.CategoriesFor | components/TransactionForm.tsx:29 | expense categories for expenses, income categories for income |
| TransactionForm.Built | components/TransactionForm.tsx:40-49 | the transaction keeps the edited ids or gets a fresh one; amount is `Number(amount)` in range; description and category are trimmed |
| TransactionForm.Submit | components/TransactionForm.tsx:31-62 | with any error nothing is sent and the errors are shown; otherwise the transaction is sent, errors cleared, and the inputs reset unless editing |
| TransactionForm.ChangeType | components/TransactionForm.tsx:64-67 | a type change clears the category and keeps the other inputs |
| TransactionForm.SentMeansEnabled | components/TransactionForm.tsx:232 | a form the validator accepts has its button enabled |
| TransactionForm.SentIsValid | components/TransactionForm.tsx:34-49 | a sent transaction meets every field rule of the validator |
| TransactionForm.EditKeepsIdentity | components/TransactionForm.tsx:41-48 | editing keeps the transaction's ids and creation time |
| TransactionForm.NewGetsFreshId | components/TransactionForm.tsx:41-48 | a new transaction gets the fresh id and no database id |
| TransactionForm.TypeChangeDisables | components/TransactionForm.tsx:64-67 | after a type change the button is disabled until a category is picked |
| TransactionForm.BlankRefused | components/TransactionForm.tsx:34-38 | a blank form is not sent and shows the amount error |
| TransactionList.Dedup | components/TransactionList.tsx:55-57 | the same categories without repeats |
| TransactionList.DedupFirstSeen | components/TransactionList.tsx:55-57 | the categories are listed in the order of their first occurrences |
| TransactionList.OtherOnce | components/TransactionList.tsx:55-57 | every suggested category is offered, and 'Other' exactly once |
| TransactionList.ClearFilters | components/TransactionList.tsx:76-80 | clearing restores the three default filters |
| TransactionList.Filtered | components/TransactionList.tsx:59-70 | a transaction is kept exactly when it matches the search, type and category filters |
| TransactionList.FilteredAppend | components/TransactionList.tsx:59-70 | the filter keeps the list order |
| TransactionList.DefaultsKeepAll | components/TransactionList.tsx:59-70 | the default filters keep every transaction, in order |
| TransactionList.Shown | components/TransactionList.tsx:72-74 | the shown list is a permutation of the filtered one, sorted newest first; transactions with the same time keep their filtered order |
| TransactionList.ClearedShowsAll | components/TransactionList.tsx:72-80 | after clearing, every transaction is shown as often as it occurs |
| TransactionList.SearchIgnoresCase | components/TransactionList.tsx:61-64 | the search ignores the case of ASCII letters in the term |
| FinanceStats.SumOf | components/FinanceStats.tsx:14-20 | the all-time total of a kind; 0 when no transaction has that kind |
| FinanceStats.MonthSumOf | components/FinanceStats.tsx:25-31 | the month's total of a kind; 0 when no transaction is dated in the month |
| FinanceStats.Balance | components/FinanceStats.tsx:22 | the balance is the signed sum of the transactions: incomes added, expenses taken away |
| FinanceStats.BalanceIsSignedSum | components/FinanceStats.tsx:14-22 | the balance is the income amounts minus the expense amounts, transaction by transaction |
| FinanceStats.SumOfAppend | components/FinanceStats.tsx:14-20 | each total splits over a concatenation of ledgers |
| FinanceStats.MonthWithinTotal | components/FinanceStats.tsx:24-31 | with no negative amounts, a month's total is between 0 and the all-time total |
| FinanceStats.MonthSumIsSumOfMonth | components/FinanceStats.tsx:25-31 | the monthly figure is the total over the transactions whose date starts with the month key |
| FinanceStats.AverageDaily | components/FinanceStats.tsx:34-35 | the average times the day of the month gives the month's expenses |
| FinanceStats.SavingsRate | components/FinanceStats.tsx:38 | 0 without income; otherwise the rate times income is 100 times the amount saved |
| FinanceStats.SavingsRateBounds | components/FinanceStats.tsx:38 | with income the rate is at most 100 and non-negative exactly when expenses do not exceed income |
| FinanceStats.SavingsBadge | components/FinanceStats.tsx:83 | 'Excellent' from 20, 'Good' from 10, 'Needs Work' below |
| FinanceStats.BadgeMonotone | components/FinanceStats.tsx:83 | a higher rate never earns a lower badge |
| FinanceStats.ExcellentMeans | components/FinanceStats.tsx:38-83 | with income, 'Excellent' exactly when expenses are at most four fifths of income; without income, 'Needs Work' |
| BudgetOverview.StatusOf | components/BudgetOverview.tsx:38-42 | 'Over Budget' from 100, 'Near Limit' from 80, 'On Track' below; the bands partition the percentages |
| BudgetOverview.TotalBudget | components/BudgetOverview.tsx:44 | the total budget is never negative when no amount is |
| BudgetOverview.TotalSpent | components/BudgetOverview.tsx:45 | the total spent is never negative when no budget's spent is |
| BudgetOverview.OverallPercentage | components/BudgetOverview.tsx:44-46 | 0 for a non-positive total; otherwise spent as an unclamped share of the total budget |
| BudgetOverview.ProgressValue | components/BudgetOverview.tsx:69 | the bar value is the overall percentage capped at 100 |
| BudgetOverview.OverallStatus | components/BudgetOverview.tsx:65 | the overall badge is 'over' exactly when total spent reaches the total budget, and not 'on track' from four fifths of it |
| BudgetOverview.OverallNotClamped | components/BudgetOverview.tsx:46-69 | 150.00 spent of 100.00 reads 150 percent while the bar stays full |
| BudgetOverview.BandOfDerivedBudget | components/BudgetOverview.tsx:79 | for a derived budget, over budget exactly when the amount is spent, near the limit from four fifths of it |
| BudgetOverview.NoteAsWritten | components/BudgetOverview.tsx:112-115 | the note reads "left" exactly when remaining is positive, otherwise the absolute remaining "over" |
| BudgetOverview.AsWrittenHidesOverspend | components/BudgetOverview.tsx:112-115 | since remaining is never negative, an overspent budget always reads 0.00 over |
| BudgetOverview.OverspendExample | components/BudgetOverview.tsx:112-115 | 150.00 spent of 100.00 reads 0.00 over |
| BudgetOverview.NoteOf | components/BudgetOverview.tsx:112-115 | the corrected note: what is left, or the spending beyond the amount |
| BudgetOverview.NoteTellsDifference | components/BudgetOverview.tsx:112-115 | the corrected note's signed value is the amount minus spent, and it says "over" exactly when the amount is used up |
| BudgetChart.Label | components/BudgetChart.tsx:19 | the category itself up to 12 characters, otherwise its first 12 characters and '...'; never more than 15; for a category inside the Basic Multilingual Plane the cut-off test agrees with `length > 12` |
| BudgetChart.LabelsCollide | components/BudgetChart.tsx:19-20 | two long categories with the same first 12 characters share a label |
| BudgetChart.EntryOf | components/BudgetChart.tsx:18-24 | the entry has the label, the full category, the amount, the spent figure and the remaining amount clamped at 0 |
| BudgetChart.ChartData | components/BudgetChart.tsx:18-24 | one entry per budget, in order |
| BudgetChart.Round | components/BudgetChart.tsx:37 | `Math.round` gives the nearest integer, halves rounded up |
| BudgetChart.Progress | components/BudgetChart.tsx:37 | 0 for a non-positive budget; otherwise spent as a share of the budget, rounded |
| BudgetChart.ProgressOfDerived | components/BudgetChart.tsx:37 | within the amount, the tooltip's progress is the stored percentage rounded |
| BudgetChart.ProgressPastFull | components/BudgetChart.tsx:37 | twice the amount spent reads 200 in the tooltip while the stored percentage is 100 |
| BudgetChart.ChartRemainingOfDerived | components/BudgetChart.tsx:23 | for derived budgets the chart's remaining is the stored remaining |

## Left out

- The text JavaScript's `String(n)` writes for a number is a parameter (`numberText`) of the group POST, used where the schema casts a number avatar or colour to a string.
- Mongoose and MongoDB mechanics are not modelled: connections, indexes, the mapping of ValidationError and duplicate-key errors to responses, and the refusal of an id that is not a valid ObjectId. Storage is a sequence. The non-atomic `deleteMany` then `insertMany` is one step.
- `insertMany` does not run pre-save hooks, so POSTed budgets are stored with spent, remaining and percentage at their defaults of 0. The model stores them that way.
- The flat Transaction model file is not part of this model. The flat route's record is taken to be stored as built.
- The GET of the flat transaction ledger and the `[id]` routes are not modelled. They are context outside the core.
- `createdAt` ordering is the store's creation order. Timestamps are not modelled.
- Floating point is not modelled: `toFixed` and `Math.round` float quirks, `Intl.NumberFormat`, `toFixed` in message text. Amounts are integer cents and percentages are reals.
- `Number(text)` is modelled for decimal notation only. Exponents, hex, `Infinity` and other spellings read as NaN.
- `toLowerCase` is modelled for ASCII letters only.
- Clock and locale are not modelled: `new Date()`, UTC slicing by `toISOString`, `toLocaleDateString`. The month keys, `now`, the end of today and the date parser are parameters. Years outside 0..9999 are not modelled.
- `Object.entries` order for keys that look like array indices is not modelled. First-seen order is used for every key. Prototype-named keys are not modelled either.
- Random and time-based ids (`generateId`, `Date.now()`) are parameters.
- The API clients (`lib/api.ts`, `lib/profile-api.ts`), toasts, dialogs opening and closing, `handleSave`, zustand `persist` and localStorage, and all JSX rendering are not modelled.
- ProfilesRoute.StringOr: for an object without a string `_id` but with a truthy `toString` field, the schema's cast calls that field, which in JSON is never a function. The model counts this as a cast failure, like any other object; which error the save then reports is not modelled.
- BudgetChart.Label: measures and cuts the category in characters, which agrees with `length` and `substring(0, 12)` only for a category inside the Basic Multilingual Plane; a cut through a surrogate pair cannot be held in a Dafny string, so it is not modelled.
- TransactionList.Shown: `new Date(date).getTime()` is a total parameter, so the NaN ordering of unparseable dates is not modelled.
- BudgetChart.EntryOf: `spent || 0` is the identity, because a budget's spent is always a number in the model.
- ProfileBudgetsRoute.Get: the corrected GET reads ids and dates as strings, as the routes treat them. The ProfileTransaction schema stores ObjectId ids and a Date (models/ProfileTransaction.ts:7-46); only `ProfileBudgetsRoute.GetAsWritten` models those stored kinds, and elsewhere dates are strings.
- BudgetsRoute.Get: the flat Transaction model file is not part of this model, so the type of its stored `date` is unknown; the flat GET is modelled with string dates, for which its `$regex` month match works. Were the date stored as a Date, that match would select nothing, as in the profile GET.

## Findings

| source | as written | input that shows it | evidently intended | confidence | as-written member | corrected member |
|---|---|---|---|---|---|---|
| lib/finance-utils.ts:179-181 | `setMonth(getMonth() - 1)` keeps the day of the month, so on a day the previous month lacks it rolls forward into the current month | 31 March 2024: last month's key is computed as 2024-03, so this month is compared with itself and no trend hint appears | the key of the calendar month before (2024-02) | high, not executed | Calendar.LastMonthKeyAsWritten, Insights.AsWrittenTrendVanishes | Calendar.LastMonthKey, Insights.CorrectedTrendOnMarch31 |
| app/api/budgets/route.ts:121-128 | the store is emptied before `insertMany` applies the schema's 50-character category limit, which the route never checks | a batch with one 51-character category: the response is a validation error and every stored budget is gone | a refused batch writes nothing | high, not executed | BudgetsRoute.PostAsWritten, BudgetsRoute.AsWrittenWipesStore, BudgetsRoute.LongCategoryExample | BudgetsRoute.Post |
| app/api/profile-budgets/route.ts:36-47 | the aggregation's `$match` compares the query-string `profileId`/`groupId` with fields the schema stores as ObjectIds, and applies `$regex` to a date the schema stores as a Date; aggregation pipelines skip Mongoose's casts, so no document matches | a profile with a 100.00 Food budget and a 25.00 Food expense this month: the GET reports spent 0, remaining 100.00, 0 percent | the scope's month expenses summed per category (ids cast to ObjectIds, the month as a date range) | medium, not executed | ProfileBudgetsRoute.GetAsWritten, ProfileBudgetsRoute.AsWrittenDropsExpense | ProfileBudgetsRoute.Get |
| app/api/profile-budgets/route.ts:145-154 | the same order: the profile's budgets are deleted before the schema refuses the batch | a profile POST with a 51-character category: the profile loses all its budgets | a refused batch writes nothing | high, not executed | ProfileBudgetsRoute.PostAsWritten, ProfileBudgetsRoute.AsWrittenLosesProfileBudgets | ProfileBudgetsRoute.Post |
| components/BudgetOverview.tsx:112-115 | an overspent budget shows `Math.abs(remaining)` over, but remaining is clamped at 0 by every site that computes it | a budget of 100.00 with 150.00 spent reads "0.00 over" | the overspend, 50.00 over | medium, not executed | BudgetOverview.NoteAsWritten, BudgetOverview.AsWrittenHidesOverspend | BudgetOverview.NoteOf, BudgetOverview.NoteTellsDifference |
