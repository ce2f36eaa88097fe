# Personal finance tracker — a Dafny model

This project models the core of a personal-finance tracker (a Next.js
application backed by MongoDB). Users record expenses (transactions) and set
monthly spending limits per category (budgets). The dashboard shows
analytics computed from them.

The model covers these parts:

- **The transactions collection and its handlers.** Listing is newest first. Creating, updating and deleting first validate the request body and the id.
- **The budgets collection and its handlers.** Updating includes the check against a second budget for the same category and month. Deleting is also covered.
- **The analytics endpoints:**
  - the dashboard summary: the grand total, the per-category breakdown with shares, the five most recent transactions and the monthly totals;
  - the monthly totals on their own;
  - the budget-versus-actual comparison for one month.
- **The two client forms** (transaction and budget). Each has its validation, its submitted payload and the clearing of a field's error while typing.
- **The spending-insights panel.** It derives up to five insights from the dashboard summary and the comparison rows.

The collections are classes over a map from canonical id to record, plus
the insertion order. The analytics are functions of the records in that
order. The forms are classes whose fields are the form state. The database,
the clock and id generation are abstracted:

- a fresh id is a parameter of `Create`;
- the current instant is a parameter `now`;
- the text a date parses to is given as a `Date` value.

Amounts are exact reals. JavaScript's `Math.round` rounds halves up. MongoDB's `$round` rounds
halves to even. The model keeps the two apart.

The model keeps several behaviours of the code exactly as written. Each is
proved as a lemma:

- **Blank description (`TransactionsRoute.BlankDescriptionStoredEmpty`).** The server's presence check sees the untrimmed description, so a description of spaces is accepted and stored as `""`.
- **Zero amount (`TransactionsRoute.ZeroAmountIsMissing`).** An amount of 0 is reported as missing, not as non-positive.
- **Budget conflict check (`BudgetRoute.UntrimmedConflictCheck`).** The check compares the category as sent, but the trimmed category is stored. Renaming a budget to `" Food"` therefore passes the check against an existing `"Food"` budget of the same month, and leaves two `"Food"` budgets.
- **Month rollover (`ComparisonRoute.MonthCarries`).** The comparison's month check is only the pattern `^\d{4}-\d{2}$`. `2025-13` passes it and compares against January 2026.
- **Rounding after status (`ComparisonRoute.StatusBeforeRounding`, `SpendingInsightsComponent.OverWithoutOverspend`).** A comparison row's status is decided before rounding. A 90.04% use is shown as 90.0% yet reported on track. An over-budget row can add nothing to the overspend figure.
- **Zero grand total (`DashboardRoute.ZeroGrandTotal`).** With a grand total of 0, the shares are divided by 1 rather than reported as 0.
- **Average over recent transactions (`SpendingInsightsComponent.PatternAverageOverRecent`).** The spending-pattern average divides the total of all expenses by the number of recent transactions listed, which is at most five.

In short, the code does not reject a blank description, does not keep
(category, month) unique on update, and gives a category a non-zero share
when the grand total is 0.

## Model

| member | source | states |
|---|---|---|
| Types.StatusName | src/types/index.ts:45 | a status is written as one of exactly `under`, `over`, `on-track` |
| Types.StatusNamesDistinct | src/types/index.ts:45 | the three wire names are pairwise different |
| Types.PredefinedCategoriesWellFormed | src/types/index.ts:48-59 | ten pairwise-distinct categories, `Other` among them |
| Common.StatusCode | src/app/api/analytics/budget/route.ts:13-84 | every reply maps to one of 200, 201, 400, 404, 409; below 400 exactly for the non-error replies |
| Documents.CanonicalId | src/app/api/analytics/transactions/id/route.ts:47-52 | `new ObjectId(id)` of a valid id is a 24-digit lower-case hex id, digit by digit the lower-cased input |
| Documents.CanonicalIdFixesCanonical | src/app/api/analytics/transactions/id/route.ts:61-63 | a stored (canonical) id is valid and denotes itself |
| Documents.CanonicalIdIgnoresCase | src/app/api/analytics/transactions/id/route.ts:47-52 | two spellings reach the same document iff they agree up to letter case |
| Documents.Without | src/app/api/analytics/transactions/id/route.ts:90-92 | removing an id from the natural order keeps exactly the other ids, without repetitions |
| Documents.WithoutAbsent | src/app/api/analytics/transactions/id/route.ts:90-99 | removing an absent id changes nothing |
| Text.Trim | src/app/api/analytics/transactions/route.ts:49 | `trim()` returns a string no longer than its input that neither starts nor ends with whitespace |
| Text.TrimIsStartThenEnd | src/app/api/analytics/transactions/route.ts:49 | trimming is cutting the leading and then the trailing whitespace |
| Text.TrimInfix | src/app/api/analytics/transactions/route.ts:49 | the result sits inside the input with only whitespace cut off before and after it |
| Text.TrimStart | src/app/api/analytics/transactions/route.ts:49 | leading whitespace removed, the rest a suffix of the input |
| Text.TrimEnd | src/app/api/analytics/transactions/route.ts:49 | trailing whitespace removed, the rest a prefix of the input |
| Text.TrimEmptyIffAllWhitespace | src/components/finance/TransactionForm.tsx:49 | `!s.trim()` holds exactly when every character is whitespace |
| Text.TrimIdempotent | src/app/api/analytics/budget/route.ts:66 | trimming twice is trimming once |
| Text.NoEdgeWhitespaceTrim | src/app/api/analytics/budget/route.ts:66 | a string without whitespace at either end is its own trim |
| Text.NatToString | src/app/api/analytics/monthlyexpenses/route.ts:28 | `$toString` of a natural number: non-empty decimal digits, no leading zero |
| Text.NatToStringRoundTrip | src/app/api/analytics/monthlyexpenses/route.ts:28 | reading the digits back gives the number |
| Text.NatToStringInjective | src/app/api/analytics/monthlyexpenses/route.ts:28 | different numbers render differently |
| Text.IntToString | src/app/api/analytics/monthlyexpenses/route.ts:28 | `$toString` of an integer: a minus sign exactly for negatives |
| Text.IntToStringInjective | src/app/api/analytics/monthlyexpenses/route.ts:28 | different integers render differently |
| Text.UnsignedDecimal | src/components/finance/TransactionForm.tsx:45 | an unsigned decimal literal's value is non-negative; plain digits read as their value |
| Text.ParseNumber | src/components/finance/TransactionForm.tsx:45 | `Number(s)` of a blank string is 0 |
| Text.ParseNatToString | src/components/finance/TransactionForm.tsx:34-45 | `Number(n.toString())` gives back the natural number `n` |
| Text.UnsignedDecimalPoint | src/components/finance/TransactionForm.tsx:45 | a literal with a point reads as its whole digits plus its fraction digits over the matching power of ten |
| Text.UnsignedLiteralTrimmed | src/components/finance/TransactionForm.tsx:45 | an unsigned literal is non-empty, unsigned and its own trim |
| Text.ParseUnsignedLiteral | src/components/finance/TransactionForm.tsx:45 | `Number` reads an unsigned literal as its value |
| Text.ParseNegatedLiteral | src/components/finance/BudgetForm.tsx:43 | `Number("-" + s)` is minus the value of the unsigned literal `s`, so a negative amount or limit is read as negative and refused |
| Text.ParsePlusLiteral | src/components/finance/TransactionForm.tsx:45 | `Number("+" + s)` is the value of the unsigned literal `s` |
| Text.ParsePointLiteral | src/components/finance/TransactionForm.tsx:75 | `Number(whole + "." + frac)` is the point value of the digits |
| Text.PointValueCents | src/components/finance/TransactionForm.tsx:75 | with two fraction digits, `Number(n + "." + d1 d2)` is `n` units plus `d1 d2` cents, the cents below 100 |
| Text.SplitMonth | src/app/api/analytics/comaprison/route.ts:39 | a `YYYY-MM` string splits into a year of at most 9999 and a month of at most 99 |
| Text.DigitsValueBound | src/app/api/analytics/comaprison/route.ts:39 | a string of k digits has value below 10^k |
| Text.StrLeTotal | src/app/api/analytics/comaprison/route.ts:93 | the category order relates every two strings |
| Text.StrLeTransitive | src/app/api/analytics/comaprison/route.ts:93 | the category order is transitive |
| Text.StrLeAntisymmetric | src/app/api/analytics/comaprison/route.ts:93 | strings ordered both ways are equal |
| Rounding.MathRound | src/app/api/analytics/dashboard/route.ts:111 | `Math.round` lands within a half of its argument, halves going up |
| Rounding.MathRoundHalfGoesUp | src/app/api/analytics/dashboard/route.ts:111 | exact halves round towards +infinity, negative ones included |
| Rounding.HalfEven | src/app/api/analytics/dashboard/route.ts:38 | `$round` to an integer lands within a half, and an exact half goes to the even neighbour |
| Rounding.RoundCents | src/app/api/analytics/dashboard/route.ts:111 | `Math.round(x*100)/100` is within half a cent of `x` and a whole number of cents |
| Rounding.RoundTenths | src/app/api/analytics/comaprison/route.ts:87 | `Math.round(x*10)/10` is within 0.05 of `x` and a whole number of tenths |
| Rounding.MongoRound2 | src/app/api/analytics/dashboard/route.ts:38 | `$round: [x, 2]` is within half a cent of `x` and a whole number of cents; when `x` is exactly half-way between two cents the result is the even one |
| Rounding.MongoRound1 | src/app/api/analytics/dashboard/route.ts:40-48 | `$round: [x, 1]` is within 0.05 of `x` and a whole number of tenths; when `x` is exactly half-way between two tenths the result is the even one |
| Rounding.RoundingsDifferOnEvenHalves | src/app/api/analytics/dashboard/route.ts:104-111 | the two roundings part on 0.125 (0.13 against 0.12) and agree on 0.135 |
| Rounding.RoundingsDiffer | src/app/api/analytics/dashboard/route.ts:38 | `Math.round` and `$round` to an integer differ exactly on a half with an even floor, and there `Math.round` is one higher |
| Rounding.CentRoundingsDiffer | src/app/api/analytics/dashboard/route.ts:104-111 | to cents the two differ exactly when `x * 100` is a half with an even floor, and then `Math.round` gives the cent above |
| Calendar.DaysInMonth | src/app/api/analytics/comaprison/route.ts:41 | day 0 of the next month is the 28th to the 31st |
| Calendar.AtOrBeforeTotalOrder | src/app/api/analytics/comaprison/route.ts:48-51 | the order on instants is total, transitive and antisymmetric |
| Calendar.MonthRange | src/app/api/analytics/comaprison/route.ts:40-51 | a date lies between the month's first and last millisecond iff it falls in that month |
| Calendar.DateMonth | src/app/api/analytics/comaprison/route.ts:39-41 | `new Date(y, m-1, 1)` falls in a month 1..12, and in `(y, m)` itself for a year of at least 100 and a month 1..12 |
| Calendar.DateMonthRollsOver | src/app/api/analytics/comaprison/route.ts:39-41 | month 13 rolls to January of the next year, month 0 to December of the previous one, years 0..99 read as 19xx |
| Sorting.SortBy | src/app/api/analytics/dashboard/route.ts:53 | the sorted sequence is a permutation of the input, sorted whenever the order is a total preorder |
| Sorting.Insert | src/app/api/analytics/dashboard/route.ts:53 | inserting keeps every element and keeps a sorted sequence sorted |
| Sorting.PermutationKeepsDistinct | src/app/api/analytics/dashboard/route.ts:52-56 | sorting rows with distinct keys keeps them distinct |
| Sums.SumOfPermutation | src/app/api/analytics/dashboard/route.ts:16 | a `$sum` does not depend on the order of the documents |
| Sums.SumOfConcat | src/app/api/analytics/dashboard/route.ts:16 | a `$sum` over two parts is the sum of their sums |
| Aggregation.DistinctKeys | src/app/api/analytics/dashboard/route.ts:28-33 | the group keys are exactly the keys that occur, each once |
| Aggregation.GroupBy | src/app/api/analytics/dashboard/route.ts:28-33 | one group per key that occurs, no key twice, each total the sum of that key's amounts |
| Aggregation.KeySpendAbsent | src/app/api/analytics/dashboard/route.ts:28-33 | a key no transaction carries has total 0 |
| Aggregation.GroupTotalsPartition | src/app/api/analytics/dashboard/route.ts:10-33 | the group totals add up to the grand total |
| Aggregation.PositiveSum | src/app/api/analytics/dashboard/route.ts:10-22 | positive amounts sum to a positive total unless there are none |
| Aggregation.DatedWithin | src/app/api/analytics/comaprison/route.ts:46-53 | the `$match` keeps exactly the transactions dated inside the window, ends included |
| Aggregation.GroupPermutation | src/app/api/analytics/dashboard/route.ts:28-53 | any reordering of the groups keeps them keyed, distinct and adding to the grand total |
| Aggregation.LaterOrSameTotalPreorder | src/app/api/analytics/transactions/route.ts:12 | `{ date: -1 }` is a total preorder |
| Aggregation.NewestFirst | src/app/api/analytics/transactions/route.ts:9-13 | every transaction, each once, newest first |
| TransactionsRoute.BodyError | src/app/api/analytics/transactions/route.ts:31-43 | a body is accepted iff its amount is a positive number, a date is given and the description is non-empty; a missing field is "required", otherwise "positive" |
| TransactionsRoute.CategoryOrDefault | src/app/api/analytics/transactions/route.ts:50 | the category if given, else `Other`; never empty |
| TransactionsRoute.NewTransaction | src/app/api/analytics/transactions/route.ts:46-53 | the inserted record: amount and date as sent, description trimmed, category defaulted, both timestamps now |
| TransactionsRoute.UpdatedTransaction | src/app/api/analytics/transactions/id/route.ts:39-45 | an update writes what a create would, keeping the id and `createdAt` |
| TransactionsRoute.ZeroAmountIsMissing | src/app/api/analytics/transactions/route.ts:31-43 | an amount of 0 is "required", -5 and the string "5" are "positive" |
| TransactionsRoute.BlankDescriptionStoredEmpty | src/app/api/analytics/transactions/route.ts:31-50 | a description of spaces passes and is stored as "", with category `Other` |
| TransactionsRoute.TransactionStore.Contents | src/app/api/analytics/transactions/route.ts:9-11 | the records in natural order, one per stored id |
| TransactionsRoute.TransactionStore.constructor | src/app/api/analytics/transactions/route.ts:9-11 | a collection holding exactly the given records, in that order |
| TransactionsRoute.TransactionStore.List | src/app/api/analytics/transactions/route.ts:6-15 | `GET` returns every stored transaction, each once, newest first |
| TransactionsRoute.TransactionStore.Create | src/app/api/analytics/transactions/route.ts:25-61 | an invalid body gives 400 with its message and writes nothing; a valid one appends the new record and returns it with 201 |
| TransactionsRoute.TransactionStore.Update | src/app/api/analytics/transactions/id/route.ts:6-65 | 400 for a bad id, then 400 for a bad body, then 404 for a missing record, each writing nothing; otherwise exactly that record is replaced by the update |
| TransactionsRoute.TransactionStore.Delete | src/app/api/analytics/transactions/id/route.ts:75-101 | 400 for a bad id, 404 for a missing record; otherwise exactly that record is removed |
| TransactionsRoute.DeleteTwice | src/app/api/analytics/transactions/id/route.ts:90-99 | deleting the same id twice: the second request gets 404 |
| BudgetRoute.BodyError | src/app/api/analytics/budget/route.ts:24-45 | a body is accepted iff category and month are given, the limit is a positive number and the month has the `YYYY-MM` pattern; messages in that order |
| BudgetRoute.UpdatedBudget | src/app/api/analytics/budget/route.ts:65-70 | the update writes the trimmed category, the limit and the month, keeping the id and `createdAt` |
| BudgetRoute.UpdateKeepsUnique | src/app/api/analytics/budget/route.ts:49-77 | with a category sent already trimmed, an update past the conflict check keeps (category, month) unique |
| BudgetRoute.UntrimmedConflictCheck | src/app/api/analytics/budget/route.ts:50-66 | with a category sent untrimmed, an update can pass the check and break uniqueness |
| BudgetRoute.BudgetStore.Contents | src/app/api/analytics/comaprison/route.ts:29-32 | the budgets in natural order, one per stored id |
| BudgetRoute.BudgetStore.constructor | src/app/api/analytics/comaprison/route.ts:29-32 | a collection holding exactly the given budgets, in that order |
| BudgetRoute.BudgetStore.Update | src/app/api/analytics/budget/route.ts:6-90 | 400 for a bad id, then 400 for a bad body, then 409 for a conflict (even for an absent id), then 404, each writing nothing; otherwise exactly that budget is replaced; uniqueness kept when the category sent is trimmed |
| BudgetRoute.BudgetStore.Delete | src/app/api/analytics/budget/route.ts:100-126 | 400 for a bad id, 404 for a missing budget; otherwise exactly that budget is removed; uniqueness kept |
| MonthlyExpensesRoute.BucketLeTotalPreorder | src/app/api/analytics/monthlyexpenses/route.ts:21 | year-then-month order is a total preorder |
| MonthlyExpensesRoute.MonthlyBuckets | src/app/api/analytics/monthlyexpenses/route.ts:11-22 | one bucket per calendar month that occurs, strictly ascending, each total that month's sum, all adding up to the grand total |
| MonthlyExpensesRoute.PaddedMonth | src/app/api/analytics/monthlyexpenses/route.ts:31-35 | months 1..12 render as two digits |
| MonthlyExpensesRoute.MonthLabel | src/app/api/analytics/monthlyexpenses/route.ts:26-38 | for a month 1..12 the label has its dash third from the end |
| MonthlyExpensesRoute.JanuaryLabel | src/app/api/analytics/monthlyexpenses/route.ts:26-38 | January 2025 is `2025-01`, December 2025 is `2025-12` |
| MonthlyExpensesRoute.PaddedMonthInjective | src/app/api/analytics/monthlyexpenses/route.ts:31-35 | different months pad differently |
| MonthlyExpensesRoute.MonthLabelInjective | src/app/api/analytics/monthlyexpenses/route.ts:26-38 | different months never share a label |
| MonthlyExpensesRoute.MonthLabelIsBudgetMonth | src/app/api/analytics/monthlyexpenses/route.ts:26-38 | for four-digit years the label matches `YYYY-MM` and splits back into its year and month |
| MonthlyExpensesRoute.MonthlyExpenses | src/app/api/analytics/monthlyexpenses/route.ts:10-47 | one entry per bucket; none for no transactions |
| MonthlyExpensesRoute.MonthlyExpensesMeaning | src/app/api/analytics/monthlyexpenses/route.ts:10-47 | each entry is its month's label with that month's total rounded to cents; no two entries share a label |
| MonthlyExpensesRoute.ExactlyOneBucket | src/app/api/analytics/monthlyexpenses/route.ts:11-19 | every transaction falls in exactly one bucket |
| MonthlyExpensesRoute.LatestEntries | src/app/api/analytics/monthlyexpenses/route.ts:20-40 | the reply's last two entries carry the labels of the last two buckets and their spends to within half a cent |
| MonthlyExpensesRoute.LastBucketsLatest | src/app/api/analytics/monthlyexpenses/route.ts:11-22 | the last two buckets are the latest month with transactions and the latest of the other months |
| MonthlyExpensesRoute.LatestTwoUnique | src/app/api/analytics/monthlyexpenses/route.ts:11-22 | the transactions determine their two latest months |
| MonthlyExpensesRoute.ReplyEndsWithLatestTwo | src/app/api/analytics/monthlyexpenses/route.ts:10-47 | with two or more months of transactions the reply ends with the entries of the two latest months, which need not be adjacent calendar months |
| DashboardRoute.Divisor | src/app/api/analytics/dashboard/route.ts:43 | `totalExpenses \|\| 1` is never 0 |
| DashboardRoute.BreakdownRow | src/app/api/analytics/dashboard/route.ts:34-50 | a category's row: its total within half a cent of its spend and a whole number of cents, its percentage within 0.05 of its share and a whole number of tenths, each going to the even neighbour on an exact half |
| DashboardRoute.TotalAtLeastTotalPreorder | src/app/api/analytics/dashboard/route.ts:53 | `{ total: -1 }` is a total preorder |
| DashboardRoute.ProjectedRows | src/app/api/analytics/dashboard/route.ts:25-51 | one projected row per group, in group order |
| DashboardRoute.CategoryBreakdown | src/app/api/analytics/dashboard/route.ts:25-62 | a permutation of the projected rows, totals descending, one row per category that occurs and no other, each row its category's row |
| DashboardRoute.BreakdownPermutation | src/app/api/analytics/dashboard/route.ts:52-56 | any reordering of the projected rows keeps one row per category |
| DashboardRoute.SharesSumTo100 | src/app/api/analytics/dashboard/route.ts:39-46 | before rounding, the shares add up to exactly 100 when the grand total is not 0 |
| DashboardRoute.ProjectionCloseAt | src/app/api/analytics/dashboard/route.ts:38-49 | a projected row's total and percentage are within half a cent and 0.05 of the unrounded ones |
| DashboardRoute.ProjectionClose | src/app/api/analytics/dashboard/route.ts:38-49 | summed over n rows, the rounding errors stay within n times those bounds |
| DashboardRoute.PercentagesNearly100 | src/app/api/analytics/dashboard/route.ts:39-49 | the reported percentages add up to 100 within 0.05 per row |
| DashboardRoute.BreakdownTotalsNearlyGrandTotal | src/app/api/analytics/dashboard/route.ts:38 | the reported totals add up to the grand total within half a cent per row |
| DashboardRoute.ZeroGrandTotal | src/app/api/analytics/dashboard/route.ts:22-46 | with a zero grand total a category's percentage is its spend times 100, rounded to one decimal |
| DashboardRoute.ZeroTotalNoRows | src/app/api/analytics/dashboard/route.ts:22-46 | with positive amounts a zero grand total means no transactions and an empty breakdown |
| DashboardRoute.RecentTransactions | src/app/api/analytics/dashboard/route.ts:65-70 | min(5, n) transactions taken from the collection, newest first, none left out newer than one kept |
| DashboardRoute.Dashboard | src/app/api/analytics/dashboard/route.ts:110-115 | the grand total within half a cent and a whole number of cents, with the breakdown, the recent list and the monthly totals; all empty for no transactions |
| ComparisonRoute.BudgetsOfMonth | src/app/api/analytics/comaprison/route.ts:29-32 | exactly the budgets of that month, in store order, each as often as it is stored |
| ComparisonRoute.StatusFor | src/app/api/analytics/comaprison/route.ts:74-81 | under iff at most 90, over iff above 100, on track iff in between |
| ComparisonRoute.StatusAgainstLimit | src/app/api/analytics/comaprison/route.ts:72-81 | for a positive limit: over iff the spend exceeds it, under iff the spend is at most 90% of it; a limit that is not positive is always under |
| ComparisonRoute.CompareRow | src/app/api/analytics/comaprison/route.ts:70-89 | category and limit copied, actual within half a cent and a whole number of cents, percentage within 0.05 and a whole number of tenths, status from the unrounded percentage |
| ComparisonRoute.ComparisonRows | src/app/api/analytics/comaprison/route.ts:63-90 | one row per budget of the month, compared with its category's spend in the queried month |
| ComparisonRoute.SameCategorySameActual | src/app/api/analytics/comaprison/route.ts:71 | budgets of the same category get the same actual |
| ComparisonRoute.WindowedSpend | src/app/api/analytics/comaprison/route.ts:39-61 | the match on the month window followed by the category group gives exactly the category's spend in that month |
| ComparisonRoute.SpendingMap | src/app/api/analytics/comaprison/route.ts:64-67 | the map holds exactly the group keys, each with the total of its last group |
| ComparisonRoute.LookupIsSpend | src/app/api/analytics/comaprison/route.ts:63-71 | the map built from the month's groups answers every category with its spend in that month, 0 when absent |
| ComparisonRoute.CategoryLeTotalPreorder | src/app/api/analytics/comaprison/route.ts:93 | ordering rows by category is a total preorder |
| ComparisonRoute.SortByCategory | src/app/api/analytics/comaprison/route.ts:93 | in place, the rows end up sorted by category and a permutation of what they were |
| ComparisonRoute.CompareBudgets | src/app/api/analytics/comaprison/route.ts:5-95 | a missing month and a month not matching `YYYY-MM` give their 400s; otherwise the rows of the month, sorted by category; none for a month without budgets |
| ComparisonRoute.StatusBeforeRounding | src/app/api/analytics/comaprison/route.ts:72-87 | 90.04% is shown as 90.0% and on track |
| ComparisonRoute.OverBudgetExample | src/app/api/analytics/comaprison/route.ts:70-89 | 200 spent against a limit of 100 is 200% and over |
| ComparisonRoute.MonthCarries | src/app/api/analytics/comaprison/route.ts:17-41 | `2025-13` passes the check and means January 2026; `2025-00` means December 2024 |
| TransactionFormComponent.FormCategoriesArePredefined | src/components/finance/TransactionForm.tsx:19-30 | the form offers the shared category list, `Other` included |
| TransactionFormComponent.ErrorsFor | src/components/finance/TransactionForm.tsx:42-60 | an error entry with its own message exactly for each failed check; empty iff all pass |
| TransactionFormComponent.FormErrors | src/components/finance/TransactionForm.tsx:42-60 | amount error iff the amount is empty, not a number or not positive; description error iff blank; category and date errors iff empty |
| TransactionFormComponent.TransactionForm.constructor | src/components/finance/TransactionForm.tsx:33-38 | a blank form dated today, without errors |
| TransactionFormComponent.TransactionForm.Editing | src/components/finance/TransactionForm.tsx:33-38 | a form filled from a stored transaction; a missing category shows as unselected |
| TransactionFormComponent.TransactionForm.Validate | src/components/finance/TransactionForm.tsx:42-63 | the shown errors become the form's errors; valid iff there are none; the fields stay |
| TransactionFormComponent.TransactionForm.Submit | src/components/finance/TransactionForm.tsx:65-79 | nothing is submitted iff there are errors; otherwise the parsed positive amount, the trimmed description, the category and the date |
| TransactionFormComponent.TransactionForm.InputChange | src/components/finance/TransactionForm.tsx:87-93 | only the named field changes, and only that field's error is blanked, if it was shown |
| TransactionFormComponent.EditedAmountPasses | src/components/finance/TransactionForm.tsx:33-47 | the amount of a well-formed stored transaction passes the amount check |
| TransactionFormComponent.ValidFormAccepted | src/components/finance/TransactionForm.tsx:65-79 | what a valid form submits passes the server's validation and keeps its category |
| BudgetFormComponent.LimitError | src/components/finance/BudgetForm.tsx:41-45 | a blank limit is "required"; otherwise one that is not a positive number is "positive"; no error iff a positive number |
| BudgetFormComponent.ErrorsFor | src/components/finance/BudgetForm.tsx:34-49 | an error entry with its message exactly for each failed check; empty iff all pass |
| BudgetFormComponent.FormErrors | src/components/finance/BudgetForm.tsx:34-49 | category error iff empty, limit error iff the limit check fails, month error iff empty |
| BudgetFormComponent.BudgetForm.constructor | src/components/finance/BudgetForm.tsx:24-30 | a blank form for the current month, without errors |
| BudgetFormComponent.BudgetForm.Editing | src/components/finance/BudgetForm.tsx:24-30 | a form filled from a stored budget; a budget without a month shows the current month |
| BudgetFormComponent.BudgetForm.Validate | src/components/finance/BudgetForm.tsx:34-53 | the shown errors become the form's errors; valid iff there are none; the fields stay |
| BudgetFormComponent.BudgetForm.Submit | src/components/finance/BudgetForm.tsx:55-67 | nothing is submitted iff there are errors; otherwise the category, the parsed positive limit and the month |
| BudgetFormComponent.BudgetForm.InputChange | src/components/finance/BudgetForm.tsx:73-79 | only the named field changes, and only that field's error is blanked, if it was shown |
| BudgetFormComponent.ValidFormAcceptedIffMonthPattern | src/components/finance/BudgetForm.tsx:55-67 | what a valid form submits is accepted by the server iff its month matches `YYYY-MM`, and is otherwise refused for the month |
| BudgetFormComponent.EditedFormValid | src/components/finance/BudgetForm.tsx:26-49 | a form opened on a stored budget with a category, a positive limit and a month is valid as it stands |
| SpendingInsightsComponent.Rank | src/components/finance/SpendingInsights.tsx:26-97 | each kind of insight has a fixed place among five |
| SpendingInsightsComponent.ToneOf | src/components/finance/SpendingInsights.tsx:26-95 | a trend is a warning iff spending rose; the over-budget alert is a warning, savings a success, the rest informative |
| SpendingInsightsComponent.WithStatus | src/components/finance/SpendingInsights.tsx:42-43 | the filter keeps exactly the rows of that status; non-empty iff such a row exists |
| SpendingInsightsComponent.FilteredSum | src/components/finance/SpendingInsights.tsx:42-57 | summing over the filtered rows is summing over all rows with the others counted as 0 |
| SpendingInsightsComponent.FiguresOverAllRows | src/components/finance/SpendingInsights.tsx:42-57 | the overspend counts only over rows and the savings only under rows; on-track rows add to neither |
| SpendingInsightsComponent.FiguresIgnoreOrder | src/components/finance/SpendingInsights.tsx:42-57 | neither figure depends on the order of the rows |
| SpendingInsightsComponent.TrendOfLatestMonths | src/components/finance/SpendingInsights.tsx:67-71 | when the list ends with the entries of the two latest months with transactions, the trend is within a cent of the difference of their spends |
| SpendingInsightsComponent.PatternAverage | src/components/finance/SpendingInsights.tsx:87 | the average times the number of recent transactions is the total |
| SpendingInsightsComponent.GenerateInsights | src/components/finance/SpendingInsights.tsx:26-97 | insights in panel order; top category iff the breakdown is non-empty, alert iff a row is over, savings iff a row is under, trend iff two months changed by more than a cent, pattern iff recent transactions exist; each with its own figures |
| SpendingInsightsComponent.PushTopCategory | src/components/finance/SpendingInsights.tsx:30-39 | the top-category step adds the first breakdown row's insight exactly when there is one |
| SpendingInsightsComponent.PushBudgetAlerts | src/components/finance/SpendingInsights.tsx:42-65 | the budget steps add the alert and the savings note exactly when rows over and under exist |
| SpendingInsightsComponent.PushTrend | src/components/finance/SpendingInsights.tsx:68-83 | the trend step adds the trend exactly when there are two months and a change above a cent |
| SpendingInsightsComponent.PushPattern | src/components/finance/SpendingInsights.tsx:86-95 | the pattern step adds the pattern exactly when recent transactions exist |
| SpendingInsightsComponent.BuiltUnique | src/components/finance/SpendingInsights.tsx:26-97 | the contract of the insight list admits exactly one list for given inputs |
| SpendingInsightsComponent.AtMostFive | src/components/finance/SpendingInsights.tsx:26-97 | the panel never shows more than five insights |
| SpendingInsightsComponent.TopCategoryIsLargest | src/components/finance/SpendingInsights.tsx:30-31 | on the dashboard the top category has the largest total |
| SpendingInsightsComponent.RowContribution | src/components/finance/SpendingInsights.tsx:46-57 | an over row's overspend exceeds -0.005; an under row with a positive limit saves at least a tenth of it less 0.005 |
| SpendingInsightsComponent.OverWithoutOverspend | src/components/finance/SpendingInsights.tsx:42-54 | 100.004 spent against 100 is over, yet adds 0 to the overspend |
| SpendingInsightsComponent.PatternAverageOverRecent | src/components/finance/SpendingInsights.tsx:86-92 | with more than five transactions the total is divided by 5, above the true average when the total is positive |

## Left out

- The database is not modelled. Its connection, its failures and the 500 replies of every handler are left out. So are request bodies that are not JSON.
- Concurrency is not modelled. Each handler runs alone, so the race between the conflict check and the write of a budget update is not modelled.
- The budget-creation and budget-listing handlers are not part of this model. Of the budgets the model has only the update, the deletion and the read of one month's budgets.
- Dates: `new Date(text)` parsing and `toISOString` are left out. A body's date is the instant it parses to. A date text that parses to Invalid Date is not modelled. The forms' date text and limit text (`toString`) are parameters. Local time against UTC is left out: a date's calendar month is the one `$year`/`$month` report, and the comparison window is the one `new Date(y, m-1, …)` denotes, in the same calendar.
- Numbers are exact reals. IEEE-754 rounding, NaN and infinities are left out. JSON cannot carry NaN, and a non-number amount is a separate case.
- Text.ParseNumber: models `Number(s)` for plain decimal literals only. Exponents, hexadecimal, binary and octal literals and `Infinity` read as not a number.
- Text.StrLe: stands for `localeCompare`. This is code-point order rather than the locale's collation.
- ComparisonRoute.CompareBudgets: JavaScript's sort is stable, so rows of the same category keep budget order. The contract states a sorted permutation and leaves the order of such rows open, although the in-place insertion sort only swaps strictly out-of-order rows.
- DashboardRoute.CategoryBreakdown and TransactionsRoute.TransactionStore.List: MongoDB leaves the order of equal sort keys unspecified. The model sorts stably from the natural order, and the contracts do not fix the order of ties. `$group` output order is also unspecified; the model uses first-occurrence order.
- A 12-byte binary `ObjectId` form of an id is left out. Ids are 24-digit hex strings.
- A string field carrying a non-string JSON value is left out. Such a value makes `trim()` throw (a 500) or is coerced.
- `handleInputChange` with a field name other than the form's own is left out. The model has one constructor per field.
- Rendering is left out: `page.tsx`, the charts, the list and summary components, currency and date formatting, the insight texts and the loading state.
- SpendingInsightsComponent.GenerateInsights: the trend's percentage (`toFixed(1)` of the change over the previous total) is not modelled. Only the change and its sign are.
- SpendingInsightsComponent.PushTopCategory: like the other step methods, it promises the stage invariant its caller needs rather than its exact result. The exact list is pinned down by `GenerateInsights` together with `BuiltUnique`.
