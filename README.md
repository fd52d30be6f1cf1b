# Expense tracker core in Dafny

This project models the core of a personal expense tracker. Users register and log in. Each user records expenses, each with a title, an amount, a category from a fixed list of six, and a date. Users also set monthly budgets per category.

The model covers:

- **The server's in-memory store.** `MemStorage` holds three maps of users, expenses and budgets, keyed by id. Every read and write is scoped to the owning user.
- **The request validators.** These are the insert, partial, login and register schemas.
- **The HTTP handlers.** The model covers the status codes the handlers choose and the token check in front of them.
- **The server's two summaries.** The statistics summary gives the total, the current month's spending, the daily average and the per-category breakdown. The analytics summary gives the total, the average per expense and the top category.
- **The client's derived figures:**
  - the budget list's spent / percentage / over-or-remaining;
  - the budget comparison chart;
  - the category pie chart with its sort and colour cycle;
  - the monthly trends chart with its month grouping, chronological sort and six-month window;
  - the route guard that sends a visitor without a session to the login page.

## Modules

- **`Calendar`** covers calendar dates and months, and the length of a month. That length is what `new Date(y, m + 1, 0).getDate()` computes.
- **`Sequences`** holds helpers used throughout:
  - `SumBy` is the left fold `reduce((s, x) => s + w(x), 0)`;
  - `Filter`;
  - `SortDesc`, a stable sort descending on a key, which is the behaviour of `Array.prototype.sort` with a `b - a` comparator;
  - `LastN`, which is `slice(-n)`.
- **`Grouping`** is the group-by reducer that the program writes four times. The reducer is a dictionary keyed by the group. Each entry is created on first sight and then increased, and the entries are read back in key-insertion order. It is modelled by the loop `GroupTotals`, proved equal to the specification function `Groups`.
- **`Schema`** holds:
  - the records;
  - the category enumeration;
  - the validators, as parsers from a JSON body (`map<string, Json>`) to a payload or to the list of failing fields.
- **`Storage`** is the `MemStorage` class. A JavaScript `Map` iterates in insertion order, so each map has an insertion-order field beside it. `getUserByEmail` and the ties in the date sorts depend on that order.
- **`Aggregation`** holds the two server summaries over one user's expense list.
- **`Routes`** holds the handlers over a `MemStorage`, and `Authenticate`, the token middleware.
- **`BudgetList`**, **`BudgetComparisonChart`**, **`CategoryPieChart`**, **`MonthlyTrendsChart`** and **`AuthGuard`** model the client components.
- **`Scenarios`** holds the worked example:
  - three expenses, Food 100, Food 50 and Transport 30;
  - a January Food budget of 120.

## Modelling choices

- **Collaborators as parameters.** Several collaborators are parameters:
  - the clock (`new Date()`);
  - the fresh id that `randomUUID()` would give;
  - the email-syntax check of `z.string().email()`;
  - bcrypt's hash and compare;
  - JWT signing and verification.

  A fresh id is a precondition `id !in ...` on the method that stores a record.
- **Amounts.** Amounts are `real`. The JavaScript numbers are treated as exact.
- **Dates.** A date is `Date(year, month, day)`, with the month from 1 to 12. `getMonth()`/`getFullYear()` comparisons become comparisons of these fields.
  - The date sort compares `DateOrdinal`. `DateOrdinalOrdersDates` proves that it orders dates exactly as the calendar does.
  - The monthly chart's label ("Jan 2024") is represented by the month it names. The label's parse back to a date is represented by `MonthIndex`. The chart sorts oldest first, so it sorts descending on the negated index.
- **Validators.** A request body is a `map<string, Json>`. `JDate(d)` stands for any JSON value that `z.coerce.date()` turns into the date `d`.
- **`Valid()`.** A store's `Valid()` says that each insertion-order sequence lists exactly the keys of its map, without repeats, and that every record is stored under its own id.

The code and the documented behaviour disagree in one place, and the model follows the code. `insertExpenseSchema` replaces the stored column's `date` with a required `z.coerce.date()` (shared/schema.ts:59). An expense body without a date is therefore rejected with a `date` error, and not given the creation time as its date. `Schema.ParseExpense` treats `date` as required.

## Model

| member | source | states |
|---|---|---|
| Calendar.DaysInMonth | server/routes.ts:184 | a month has 28 to 31 days |
| Calendar.DaysInMonthIsGapToNextMonth | server/routes.ts:184 | the month's length is the distance from its first day to the next month's first day, so "day 0 of the next month" is the month's last day |
| Calendar.MonthsFillTheYear | server/routes.ts:184 | the twelve month lengths add up to 365 days, or 366 in a leap year |
| Calendar.DateOrdinalOrdersDates | server/storage.ts:60 | for valid dates, the sort key orders dates exactly as the calendar does, and equal keys mean equal dates |
| Calendar.MonthIndexOrdersMonths | client/src/components/charts/monthly-trends-chart.tsx:24-28 | a month's index orders months chronologically, and equal indexes mean the same month |
| Sequences.SumBy | server/routes.ts:170 | with non-negative weights the total is non-negative |
| Sequences.SumByAppend | server/routes.ts:170 | the total of two lists joined is the sum of their totals |
| Sequences.Filter | server/storage.ts:59 | the result keeps exactly the elements that satisfy the predicate, each as many times as it occurs in the input, and is no longer than the input |
| Sequences.SortDesc | server/storage.ts:60 | the result is a permutation of the input, sorted descending on the key |
| Sequences.SortDescMembers | server/storage.ts:58-60 | sorting neither adds nor drops an element |
| Sequences.SortDescHead | server/routes.ts:227 | the head of the sorted sequence is the first element with the largest key, because the sort is stable |
| Sequences.SumByPermutation | server/routes.ts:170 | a total does not depend on the order of the list |
| Sequences.FilterSumAtMost | server/routes.ts:177-182 | with non-negative weights, the total of a filtered list is between 0 and the total of the whole list |
| Sequences.LastN | client/src/components/charts/monthly-trends-chart.tsx:29 | `slice(-n)` keeps min(length, n) elements, and these are the last ones in order |
| Grouping.FirstKeys | server/routes.ts:187-193 | the dictionary's keys are distinct and are exactly the keys that occur |
| Grouping.GroupTotals | server/routes.ts:187-198 | the reducer's loop gives exactly the specification `Groups`: one entry per key in first-occurrence order, each holding its key's total |
| Grouping.GroupsOnePerKey | server/routes.ts:187-198 | there is one entry per distinct key, a key has an entry exactly when some element has it, and no key appears twice |
| Grouping.GroupEntries | server/routes.ts:195-198 | the entries are distinct, and each carries the total of its key |
| Grouping.GroupsConserveTotal | server/routes.ts:187-198 | the entries' totals add up to the total of the whole list |
| Grouping.GroupsEmpty | server/routes.ts:187-198 | there are no entries exactly when the list is empty |
| Grouping.GroupTotalAtMost | server/routes.ts:187-193 | with non-negative amounts, a group's total is between 0 and the whole list's total |
| Grouping.GroupTotalIsSum | server/routes.ts:187-193 | a key's group total is the sum over the list of the amounts of the elements with that key |
| Grouping.GroupTotalPermutation | server/routes.ts:187-193 | a key's group total is the same for any reordering of the list |
| Grouping.ReorderedGroupMembers | client/src/components/charts/category-pie-chart.tsx:27 | a reordering of the entries has as many entries as there are keys, and the same entries |
| Grouping.ReorderedGroupTotals | client/src/components/charts/category-pie-chart.tsx:27 | after reordering, each entry still holds its key's total |
| Grouping.ReorderedGroupKeysDistinct | client/src/components/charts/category-pie-chart.tsx:27 | after reordering, no key appears twice |
| Grouping.ReorderedKeysOccur | client/src/components/charts/category-pie-chart.tsx:27 | after reordering, each entry's key is the key of some element of the list |
| Grouping.ReorderedKeysCovered | client/src/components/charts/category-pie-chart.tsx:27 | after reordering, each key that occurs in the list still has an entry |
| Schema.ParseCategory | shared/schema.ts:35-42 | exactly the six category names are accepted, case-sensitively, and each parses to the category of that name |
| Schema.CategoryEnumeration | shared/schema.ts:35-42 | there are six categories, and every category's name parses back to it |
| Schema.Utf16Length | shared/schema.ts:58 | a string's JavaScript length is between its character count and twice that, and equals the count when every character is in the Basic Multilingual Plane |
| Schema.NonEmptyString | shared/schema.ts:58 | an accepted value is the string sent, at least one unit long |
| Schema.Password | shared/schema.ts:75 | an accepted value is the string sent, at least six UTF-16 code units long |
| Schema.NonNegativeNumber | shared/schema.ts:57 | an accepted value is the number sent, at least 0 |
| Schema.CategoryField | shared/schema.ts:56 | an accepted value is the category whose name was sent |
| Schema.NullableString | shared/schema.ts:20 | an accepted value is the string sent, or no description for `null` |
| Schema.CoerceDate | shared/schema.ts:59 | an accepted value is the date sent |
| Schema.StringArray | shared/schema.ts:60 | an accepted value is an array of the same length whose items are the strings sent |
| Schema.Email | shared/schema.ts:74 | an accepted value is the string sent, and it passes the email syntax check |
| Schema.ParseExpense | shared/schema.ts:51-61 | an expense is accepted exactly when the body has a valid title, amount, category and date and any description or tags present are valid; then the title, amount, category and date are as sent, and the description and tags are the values sent, or none when absent; each missing or invalid required field, and each present but invalid description or tags, is reported by name; every reported name is a schema field |
| Schema.ExpenseContentErrors | shared/schema.ts:56-58 | no issue exactly when the title, amount and category are present and valid; a missing or invalid one is reported by name, and only schema fields are reported |
| Schema.ExpenseDetailErrors | shared/schema.ts:59-60 | no issue exactly when the date is present and valid and any description or tags present are valid; a failing one is reported by name |
| Schema.ParseExpensePatch | shared/schema.ts:51-61 | every field is optional: an update is accepted exactly when each present field passes its check, and then a field is supplied exactly when the body has it, with the value sent (a non-empty title, a non-negative amount); otherwise the errors name every present field that fails, and only those |
| Schema.PatchErrors | shared/schema.ts:51-61 | no issue exactly when every present field passes its check; each present field that fails is reported by name, and every reported name is a present field that fails |
| Schema.ParseBudget | shared/schema.ts:63-71 | a budget is accepted exactly when the body has a valid category, amount and month; then each is as sent; a missing or invalid category, amount or month is reported by name |
| Schema.ParseBudgetPatch | shared/schema.ts:63-71 | an update is accepted exactly when each present category, amount and month passes its check, and then a field is supplied exactly when the body has it, with the value sent (a non-negative amount); otherwise the errors name every present field that fails, and only those |
| Schema.ParseLogin | shared/schema.ts:73-76 | a login is accepted exactly when the body has a syntactically valid email and a password of at least six UTF-16 code units, and then carries them as sent; otherwise each failing field, and only those, is reported |
| Schema.ParseRegister | shared/schema.ts:78-82 | a registration is accepted exactly when the body has a valid email, a password of at least six UTF-16 code units and a non-empty name, and then carries them as sent; otherwise each failing field, and only those, is reported |
| Schema.ExpenseRoundTrip | shared/schema.ts:51-61 | every well-formed expense payload, sent as a body that leaves out an absent description, is accepted unchanged |
| Schema.NullDescriptionIsNoDescription | shared/schema.ts:20 | a description sent as `null` is accepted and parses exactly like a body without a description |
| Schema.TagsRoundTrip | shared/schema.ts:60 | an array of strings sent as tags is accepted unchanged |
| Schema.BudgetRoundTrip | shared/schema.ts:63-71 | every well-formed budget payload, sent as a body, is accepted unchanged |
| Schema.LoginRoundTrip | shared/schema.ts:73-76 | credentials with a valid email and a long enough password, sent as a body, are accepted unchanged |
| Schema.RegisterRoundTrip | shared/schema.ts:78-82 | a registration with a valid email, a long enough password and a non-empty name, sent as a body, is accepted unchanged |
| Schema.ExpenseIgnoresUnknownKeys | shared/schema.ts:51-55 | keys outside the schema, such as `id`, `userId` and `createdAt`, are stripped and cannot change the outcome |
| Schema.BudgetIgnoresUnknownKeys | shared/schema.ts:63-67 | keys outside the budget schema cannot change the outcome |
| Schema.PatchSuppliesPresentFields | shared/schema.ts:51-61 | an accepted update supplies exactly the fields present in the body |
| Schema.EmptyPatchBody | shared/schema.ts:51-61 | a body with no schema field is the empty update |
| Schema.ShortPasswordRejected | shared/schema.ts:73-82 | a password shorter than six UTF-16 code units fails both auth schemas on `password` |
| Schema.AstralPasswordAccepted | shared/schema.ts:75 | three emoji count as six UTF-16 code units, so a three-character emoji password passes the length check |
| Storage.Remove | server/storage.ts:105 | removing an id from the insertion order keeps every other id and keeps the order free of repeats |
| Storage.InOrder | server/storage.ts:58 | one record per id of the insertion order, each a stored record |
| Storage.FindByEmail | server/storage.ts:44-48 | `find` returns nothing exactly when no user has the email, otherwise a user with that email |
| Storage.ApplyExpensePatch | server/storage.ts:92-95 | the spread replaces exactly the supplied fields and keeps id, owner and creation time |
| Storage.ApplyBudgetPatch | server/storage.ts:143-146 | the spread replaces exactly the supplied fields and keeps id, owner and creation time |
| Storage.PatchIdempotent | server/storage.ts:92-95 | applying the same update twice is applying it once, and the empty update changes nothing |
| Storage.MemStorage.constructor | server/storage.ts:34-38 | the store starts with three empty maps |
| Storage.MemStorage.GetUser | server/storage.ts:40-42 | a user is returned exactly when the id is stored, and it is the stored user |
| Storage.MemStorage.GetUserByEmail | server/storage.ts:44-48 | nothing is returned exactly when no stored user has the email, otherwise a stored user with it |
| Storage.MemStorage.CreateUser | server/storage.ts:50-55 | the user is stored under the fresh id with the current time, and nothing else changes |
| Storage.MemStorage.GetExpenses | server/storage.ts:57-61 | the result holds exactly the caller's expenses, as a permutation of them, newest date first |
| Storage.MemStorage.GetExpense | server/storage.ts:63-69 | an expense is returned exactly when it exists and belongs to the caller |
| Storage.MemStorage.CreateExpense | server/storage.ts:71-80 | the expense is stored under the fresh id, owned by the caller, and only its owner can read it |
| Storage.MemStorage.UpdateExpense | server/storage.ts:82-98 | another user's or a missing expense gives nothing and changes nothing; otherwise the update is applied to that one expense only |
| Storage.MemStorage.DeleteExpense | server/storage.ts:100-106 | the result is true exactly when the caller owned the expense; then only that expense is removed, and afterwards it is gone |
| Storage.MemStorage.GetBudgets | server/storage.ts:108-112 | the result holds exactly the caller's budgets, as a permutation of them, latest month first |
| Storage.MemStorage.GetBudget | server/storage.ts:114-120 | a budget is returned exactly when it exists and belongs to the caller |
| Storage.MemStorage.CreateBudget | server/storage.ts:122-131 | the budget is stored under the fresh id, owned by the caller, and only its owner can read it |
| Storage.MemStorage.UpdateBudget | server/storage.ts:133-149 | another user's or a missing budget gives nothing and changes nothing; otherwise the update is applied to that one budget only |
| Storage.MemStorage.DeleteBudget | server/storage.ts:151-157 | the result is true exactly when the caller owned the budget; then only that budget is removed |
| Storage.OwnershipScenario | server/storage.ts:63-106 | an intruder cannot read, update or delete another user's expense; the owner's first delete succeeds and the second reports false |
| Aggregation.Mean | server/routes.ts:185 | the average, taken as many times as there are days or expenses, gives back the total |
| Aggregation.MonthlyAtMostTotal | server/routes.ts:177-182 | with non-negative amounts, one month's spending is between 0 and the total |
| Aggregation.Total | server/routes.ts:170 | with non-negative amounts the total is non-negative |
| Aggregation.Stats | server/routes.ts:166-198 | the total and the count are those of the list; the monthly figure sums exactly the current month's expenses; the daily average times the month's length is the monthly figure; the breakdown is the category groups and adds up to the total |
| Aggregation.BreakdownOfReordering | server/routes.ts:187-198 | for any reordering of the expenses, the breakdown has one entry per category spent on and none other, each holding that category's total |
| Aggregation.TopCategory | server/routes.ts:227 | "N/A" exactly when there are no categories, otherwise the first category with the largest total |
| Aggregation.TopCategoryIsLargest | server/routes.ts:219-227 | for a non-empty list, the top category is a category of some expense, and no category has a larger total |
| Aggregation.TopCategoryOfReordering | server/routes.ts:219-227 | for any reordering of the expenses, the top category is a category of some expense with the largest total |
| Aggregation.Analytics | server/routes.ts:212-237 | the average times the count is the total, or the average is 0 for no expenses; "N/A" exactly when there are no expenses |
| Routes.Authenticate | server/middleware/auth.ts:10-24 | no token gives 401; a token that does not verify gives 403; otherwise the request proceeds as the user the token names |
| Routes.WithoutPassword | server/routes.ts:94 | the public account keeps the id, email, name and creation time |
| Routes.PasswordOnlyHidden | server/routes.ts:39 | two accounts look the same to a client exactly when they differ at most in their password |
| Routes.Register | server/routes.ts:14-47 | an invalid body gives 400 with the failing fields; an email already in use gives 400 and stores nothing; otherwise 201, the user stored with the hashed password, and returned without it, appended to the insertion order; unique emails stay unique |
| Routes.AddingUnusedEmailKeepsUnique | server/routes.ts:18-30 | storing a user whose email no stored user has keeps emails unique |
| Routes.Login | server/routes.ts:49-80 | an invalid body gives 400 with the failing fields and an accepted body never does; an unknown email and a wrong password for a stored user both give 401 with the same message; a matching password gives 200 with that user, without the password, and the token signed for its id |
| Routes.WrongPasswordLooksLikeUnknownEmail | server/routes.ts:53-61 | a wrong password for a stored account gets exactly the response an address with no account gets |
| Routes.Me | server/routes.ts:87-99 | 404 exactly when the caller's account does not exist, otherwise 200 with that account's id, email, name and creation time and no password |
| Routes.ListExpenses | server/routes.ts:101-108 | 200 with exactly the caller's stored expenses, each once, newest first |
| Routes.ShowExpense | server/routes.ts:110-120 | 404 exactly when the expense is missing or another user's, otherwise 200 with it |
| Routes.AddExpense | server/routes.ts:122-136 | an invalid body gives 400 and touches nothing; otherwise 201 with the stored expense, owned by the caller, appended to the insertion order, with users and budgets unchanged |
| Routes.EditExpense | server/routes.ts:138-152 | an invalid body gives 400 and a missing or foreign expense gives 404, both changing nothing; otherwise 200 with the update applied to that expense, which keeps its place in the insertion order |
| Routes.RemoveExpense | server/routes.ts:154-164 | 404 exactly when the expense is missing or foreign, changing nothing; otherwise 200, and only that expense is removed, from the map and from the insertion order |
| Routes.StatsSummaryHandler | server/routes.ts:166-210 | the total and the count are those of the caller's stored expenses, whatever order the listing has; the breakdown is the category groups of the listing, one entry per category spent on, each with its total, and adds up to the total |
| Routes.AnalyticsSummaryHandler | server/routes.ts:212-237 | the total is that of the caller's stored expenses; "N/A" exactly when the caller has none; the average times their number is the total, and it is 0 when there are none; the top category is the first largest of the listing's groups, a category of the caller's with no larger total |
| Routes.ListBudgets | server/routes.ts:239-246 | 200 with exactly the caller's stored budgets, each once, latest month first |
| Routes.ShowBudget | server/routes.ts:248-258 | 404 exactly when the budget is missing or another user's, otherwise 200 with it |
| Routes.AddBudget | server/routes.ts:260-274 | an invalid body gives 400 and touches nothing; otherwise 201 with the stored budget, owned by the caller, appended to the insertion order, with users and expenses unchanged |
| Routes.EditBudget | server/routes.ts:276-290 | an invalid body gives 400 and a missing or foreign budget gives 404, both changing nothing; otherwise 200 with the update applied to that budget, which keeps its place in the insertion order |
| Routes.RemoveBudget | server/routes.ts:292-302 | 404 exactly when the budget is missing or foreign, changing nothing; otherwise 200, and only that budget is removed, from the map and from the insertion order |
| BudgetList.CalculateSpent | client/src/components/budget-list.tsx:46-59 | nothing matching gives 0; with non-negative amounts, the spending is between 0 and the total of all expenses |
| BudgetList.MatchesBudget | client/src/components/budget-list.tsx:48-55 | an expense is charged to a budget exactly when it has the budget's category and falls in the budget's month of the budget's year |
| BudgetList.SpentIgnoresDayOfMonth | client/src/components/budget-list.tsx:46-59 | only the budget's category, month and year decide what it is charged |
| BudgetList.IsOverBudget | client/src/components/budget-list.tsx:84 | not over budget exactly when the spending is at most the budget |
| BudgetList.Percentage | client/src/components/budget-list.tsx:83-84 | the percentage times the budget is 100 times the spending; above 100 exactly when over budget, exactly 100 when the spending equals the budget, never negative for non-negative spending |
| BudgetList.ProgressValue | client/src/components/budget-list.tsx:135 | the bar never exceeds 100; it is the percentage below 100 and 100 otherwise |
| BudgetList.ProgressFullWhenBudgetReached | client/src/components/budget-list.tsx:135 | the bar is full exactly when the spending has reached the budget |
| BudgetList.Status | client/src/components/budget-list.tsx:139-141 | "over" exactly when over budget, by a positive excess that brings the budget up to the spending; otherwise a non-negative remainder that brings the spending up to the budget |
| BudgetComparisonChart.ChartSpent | client/src/components/charts/budget-comparison-chart.tsx:18-28 | a budget that no expense matches is charged 0 |
| BudgetComparisonChart.ChartSpentIsCalculateSpent | client/src/components/charts/budget-comparison-chart.tsx:17-28 | the chart's own spending pass charges every budget exactly what the budget list charges it |
| BudgetComparisonChart.ChartSpentAgrees | client/src/components/charts/budget-comparison-chart.tsx:17-28 | every budget of the list gets the same spending in the chart as in the budget list |
| BudgetComparisonChart.ChartSpentAtMostCategoryTotal | client/src/components/charts/budget-comparison-chart.tsx:17-28 | with non-negative amounts, a budget's spending is at most everything spent in its category |
| BudgetComparisonChart.ChartData | client/src/components/charts/budget-comparison-chart.tsx:17-35 | one entry per budget, in order, with its category, its amount and the budget list's spending |
| BudgetComparisonChart.View | client/src/components/charts/budget-comparison-chart.tsx:37-47 | a placeholder exactly while either list is loading, the notice exactly when there are no budgets, otherwise the bars are exactly the chart data, one bar pair per budget |
| CategoryPieChart.ChartData | client/src/components/charts/category-pie-chart.tsx:19-27 | the slices are the category groups, reordered, sorted largest total first |
| CategoryPieChart.SlicesAreCategoryTotals | client/src/components/charts/category-pie-chart.tsx:19-27 | each slice holds its category's total, and no category has two slices |
| CategoryPieChart.SlicesCoverCategories | client/src/components/charts/category-pie-chart.tsx:19-27 | there is a slice for every category spent on, and for no other |
| CategoryPieChart.SlicesConserveTotal | client/src/components/charts/category-pie-chart.tsx:19-27 | the slices add up to the total spent, and there are none exactly when there are no expenses |
| CategoryPieChart.CellColor | client/src/components/charts/category-pie-chart.tsx:55 | every slice gets a palette colour, the first five in palette order |
| CategoryPieChart.PaletteDistinct | client/src/components/charts/category-pie-chart.tsx:6-12 | the five palette colours are different |
| CategoryPieChart.NearbySlicesDiffer | client/src/components/charts/category-pie-chart.tsx:55 | any five consecutive slices have different colours, and the sixth repeats the first |
| CategoryPieChart.View | client/src/components/charts/category-pie-chart.tsx:29-39 | a placeholder exactly while loading, the notice exactly when there are no expenses, otherwise a non-empty pie |
| MonthlyTrendsChart.ChartData | client/src/components/charts/monthly-trends-chart.tsx:11-29 | the reducer, sort and slice give the specification `Trend` |
| MonthlyTrendsChart.TrendSize | client/src/components/charts/monthly-trends-chart.tsx:29 | six bars, or fewer only when fewer months are present; none exactly when there are no expenses |
| MonthlyTrendsChart.TrendBarsAreMonthTotals | client/src/components/charts/monthly-trends-chart.tsx:11-21 | each bar is a month with spending and holds that month's total; no month has two bars |
| MonthlyTrendsChart.TrendIsChronological | client/src/components/charts/monthly-trends-chart.tsx:23-28 | the bars run strictly from oldest to newest month |
| MonthlyTrendsChart.TrendShowsLatestMonths | client/src/components/charts/monthly-trends-chart.tsx:23-29 | every month with spending either has a bar or is older than every month shown |
| MonthlyTrendsChart.View | client/src/components/charts/monthly-trends-chart.tsx:31-41 | a placeholder exactly while loading, the notice exactly when there are no expenses, otherwise one to six bars |
| AuthGuard.SomePrefix | client/src/components/auth-provider.tsx:24 | `some(startsWith)` holds exactly when one of the paths is a prefix of the location |
| AuthGuard.ProtectedIsPrefixTest | client/src/components/auth-provider.tsx:6 | a location is protected exactly when it starts with one of the four paths, so anything under them is protected too |
| AuthGuard.PublicPagesUnprotected | client/src/components/auth-provider.tsx:6 | the login, landing and sign-up pages are not protected, so the redirect cannot loop; "/budgetsX" is protected |
| AuthGuard.Guard | client/src/components/auth-provider.tsx:16-41 | redirect to login exactly when loading is over, there is no user and the path is protected; a spinner exactly while a protected path loads; nothing exactly for a protected path without a user; the page otherwise |
| Scenarios.SampleListing | server/storage.ts:57-61 | the example's listing is newest first: Transport 30, Food 50, Food 100 |
| Scenarios.SampleBreakdown | server/routes.ts:187-198 | the breakdown of the example's newest-first listing is Transport 30, then Food 150 |
| Scenarios.ListingBreakdown | server/routes.ts:187-198 | the listing's groups are Transport 30, then Food 150 |
| Scenarios.SampleAnalytics | server/routes.ts:212-237 | the analytics of the example's newest-first listing are a total of 180, 60 per expense, and top category Food |
| Scenarios.ListingTotal | server/routes.ts:216 | the listing's total is 180 |
| Scenarios.ListingTopCategory | server/routes.ts:219-227 | the listing's top category is Food |
| Scenarios.SampleBudgetOver | client/src/components/budget-list.tsx:46-59 | the January Food budget of 120 is charged 150 and is over by 30 |
| Scenarios.SampleChartSpent | client/src/components/charts/budget-comparison-chart.tsx:17-28 | the chart charges the January Food budget 150 |

## Left out

- **Other storage backend and database.** The MongoDB storage backend and the database tables are not modelled; the model covers the in-memory store only.
- **Crypto and transport.** Password hashing and comparison, JWT signing and verification, cookies and Express's plumbing are foreign library calls and become parameters. So do the email syntax check and the UUID generator.
- **500 responses.** The 500 responses for exceptions thrown by storage or by those libraries are left out. The in-memory store never throws.
- **Logout.** `POST /api/auth/logout` only clears a cookie.
- **Concurrency.** The handlers are asynchronous. Two registrations with the same email could interleave between the lookup and the insert. Each handler is modelled as one atomic step.
- **Floating point.** Amounts are exact reals. Rounding in sums, averages and percentages, and `toFixed` formatting, are not modelled.
- **Date coercion.** `z.coerce.date()` accepts any value `new Date(x)` turns into a valid date, including `null` (the epoch), numbers and date strings. In the model, every such value is written `JDate(d)` for the date `d` it becomes. `JNull`, `JNum` and `JStr` in a date field stand only for values the coercion rejects, so `Schema.CoerceDate` refuses them.
- **Dates.** Date parsing, time zones and times of day are not modelled. A date is a calendar day, and month labels are represented by the month they name. What happens if the month label fails to parse back is not modelled.
- **UI.** The pages, dialogs, tables, animations and the rendering of the charts are not modelled, beyond the three-way choice each chart makes.
- Routes.StatsSummaryHandler does not restate the monthly figure and the daily average in terms of the stored expenses. `Aggregation.Stats` states them for the listing the handler passes it.
- BudgetList.Percentage requires a positive budget amount. The budget validator accepts an amount of 0, for which the page divides by zero and shows `Infinity` or `NaN`.
- MonthlyTrendsChart.TrendIsChronological and MonthlyTrendsChart.TrendShowsLatestMonths require every expense's month to be between 1 and 12. `getMonth()` always guarantees this.
- Storage.MemStorage.CreateUser requires an id not already in use. This stands for `randomUUID()` never repeating; the same holds for `CreateExpense` and `CreateBudget`.
- **Pie-chart reducer entries.** The pie chart's reducer tests `!acc[k]` on an object and the server's tests it on a number. An entry that sums to 0 is therefore re-created on the server and kept on the client. Both give the same totals, so one model serves both.
