# Smart Spend Companion — a verified model of its client-side logic

Smart Spend Companion is a personal-finance web app. Users log expenses and
income, group spending into categories, set budgets per month, and read charts
and rule-based "insights". A hosted database stores the data and handles
sign-in. The pages hold the app's logic and compute everything they show from
the rows they get back. This project models that logic in Dafny and proves what
it guarantees:

- **Aggregation** (`Sums`, `Buckets`, `Ranking`, `Analytics`, `CategoryDetail`,
  `Budgets`, `Dashboard`):
  - spending per weekday, per month, per category id or name, and per week of
    the month;
  - the bucket totals always add up to the overall total;
  - every expense falls in exactly one bucket;
  - the category list is ranked by value, and the ranking is a permutation;
  - bounds on how many buckets there are.
- **Insights** (`Insights`): the ordered list of insight cards, and exactly
  when each card appears, with the figures it carries.
- **Budgets** (`Budgets`): the progress percentage, capped at 100; the 80%
  warning; the rule that decides whether a budget can be saved; the monthly
  header; and the per-category input state.
- **Sign-up** (`Signup`): the three-level password meter, and the submit
  handler's checks, its call to the sign-up service and its error messages.
- **Local state machines** (`Categories`, `ExpenseModal`, `IncomeModal`,
  `Routes`):
  - the add/edit category dialog and the delete confirmation;
  - the form state of the expense and income dialogs;
  - the route table and its two guards (members only; visitors only).
- **Currency** (`Currency`): the symbol table, and the fallbacks for a
  missing currency and an unknown one.

Expense rows arrive with their dates already decoded into weekday, month,
year, day of month and time value, and amounts are exact `real`s.
`Records.Option` stands for a query result that has not loaded yet. Values
that depend on the outside world are parameters:

- the answer of the sign-up service;
- `parseFloat` (with NaN as `None`);
- number formatting;
- the current instant;
- whether a backend mutation succeeded.

The pages that fill a dictionary inside a `forEach` are modelled as methods
with loops, proved against specification functions. These are
`Buckets.Accumulate`, `Analytics.GroupByCategory` and the insight pushes in
`Insights.ComputeInsights`. The pages and dialogs whose handlers update
component state are classes with `modifies` clauses. These are
`Categories.CategoriesPage`, `ExpenseModal.AddExpenseModal`,
`IncomeModal.AddIncomeModal` and `Budgets.BudgetsPage`.

## Model

| member | source | states |
|---|---|---|
| Records.Or | src/pages/BudgetsPage.tsx:28 | `x \|\| fallback` on a nullable string yields the value when present and non-empty, the fallback otherwise |
| Records.Loaded | src/pages/CategoryDetailPage.tsx:15 | data not yet loaded reads as no rows; loaded data is itself |
| Records.Find | src/pages/BudgetsPage.tsx:35 | `find` is None iff no element satisfies the test; otherwise it is the element at the first index that does |
| Records.DatePart | src/components/AddExpenseModal.tsx:19 | `split('T')[0]` is the longest prefix without 'T', ending just before the first 'T' when there is one |
| Sums.SumOfAppend | src/pages/AnalyticsPage.tsx:54 | a reduce-sum over a concatenation is the sum of the parts |
| Sums.SumOfPermutation | src/pages/CategoryDetailPage.tsx:18 | a total does not depend on the order of its terms, so sorting before summing changes nothing |
| Sums.SumBoundsEach | src/pages/BudgetsPage.tsx:52 | with no negative terms, every term lies between 0 and the sum |
| Sums.NonNegativeSum | src/pages/BudgetsPage.tsx:52 | a sum of non-negative terms is non-negative |
| Buckets.FirstKeys | src/pages/AnalyticsPage.tsx:76-80 | the key order of an object filled in a `forEach`: each occurring key once, in order of first occurrence, and nothing else |
| Buckets.FirstIndex | src/pages/AnalyticsPage.tsx:45-46 | the index of the first expense whose key is k, which is where the dictionary entry is created |
| Buckets.KeyTotalSnoc | src/pages/BudgetsPage.tsx:29 | one more expense raises exactly its own bucket, by its amount |
| Buckets.KeyTotalAbsent | src/pages/BudgetsPage.tsx:60 | a key that never occurs has total 0, the `\|\| 0` of a missing entry |
| Buckets.KeysTotalCovers | src/pages/AnalyticsPage.tsx:19-40 | bucket totals over a complete list of distinct keys add up to the total of all amounts: each expense lands in exactly one bucket |
| Buckets.Filter | src/pages/CategoryDetailPage.tsx:15 | `filter` keeps exactly the elements that pass the test, each at most as often as it occurs in the input |
| Buckets.FilterSnoc | src/pages/BudgetsPage.tsx:22-26 | an element the test rejects leaves the filtered list unchanged, and one it accepts is appended |
| Buckets.Accumulate | src/pages/BudgetsPage.tsx:27-30 | the `map[k] = (map[k] \|\| 0) + amount` loop yields each occurring key, in insertion order, with its exact bucket total; no other key is present |
| Buckets.Entries | src/pages/CategoryDetailPage.tsx:27 | `Object.entries` lists each key of the object in key order, with its value |
| Buckets.EntriesSumToTotal | src/pages/AnalyticsPage.tsx:76-102 | the entries of a completed accumulation add up to the total of all amounts |
| Ranking.SortBy | src/pages/CategoryDetailPage.tsx:15 | `sort` with a total-preorder comparator returns a permutation of its input, ordered by the comparator |
| Ranking.SortDistinctBy | src/pages/AnalyticsPage.tsx:50 | sorting keeps distinct keys distinct |
| Analytics.BarOf | src/pages/AnalyticsPage.tsx:21-27 | each weekday is counted by exactly one bar; Sunday (0) by the last |
| Analytics.WeeklyData | src/pages/AnalyticsPage.tsx:19-30 | exactly 7 bars named Mon..Sun in order, all 0 when no data is loaded |
| Analytics.MonthlyData | src/pages/AnalyticsPage.tsx:32-40 | exactly 12 bars named Jan..Dec in order, all 0 when no data is loaded |
| Analytics.WeeklyDataSnoc | src/pages/AnalyticsPage.tsx:21-27 | one more expense raises exactly the bar of its weekday, (weekday + 6) mod 7, by its amount |
| Analytics.MonthlyDataSnoc | src/pages/AnalyticsPage.tsx:33-37 | one more expense raises exactly the bar of its month, whatever its year |
| Analytics.WeeklyDataSumsToTotal | src/pages/AnalyticsPage.tsx:19-30 | the 7 weekday bars add up to the total of all amounts |
| Analytics.MonthlyDataSumsToTotal | src/pages/AnalyticsPage.tsx:32-40 | the 12 month bars add up to the total of all amounts |
| Analytics.AbsorbSlice | src/pages/AnalyticsPage.tsx:44-49 | absorbing an expense adds its key to the dictionary and keeps all others |
| Analytics.GroupStep | src/pages/AnalyticsPage.tsx:44-49 | one iteration of the `forEach` keeps the dictionary equal to its specification: insertion-ordered keys, each slice the key's total, named and coloured after the key's first expense |
| Analytics.GroupByCategory | src/pages/AnalyticsPage.tsx:44-49 | the loop yields one slice per occurring key (`cat?.id \|\| 'other'`), with value the key's total, and name and colour (falling back to 'Other' and '#6B7280') taken from its first expense |
| Analytics.ValuesFacts | src/pages/AnalyticsPage.tsx:50 | `Object.values` of the dictionary has distinct keys, covers every category key, and sums to the total |
| Analytics.CategoryData | src/pages/AnalyticsPage.tsx:42-51 | one slice per distinct category key and no others, each the key's total; ranked by value, non-increasing; the values sum to the total of all amounts |
| Analytics.TopCategory | src/pages/AnalyticsPage.tsx:53 | the top category is the first slice, absent exactly when there are no slices |
| Analytics.Analyze | src/pages/AnalyticsPage.tsx:19-54 | the page's category list is `categoryData` as specified: one slice per distinct category key, each the key's total, ranked by value; the top category is its first slice, exists iff there are expenses, and has the largest value; `totalSpent` is the sum of the category values, which equals the total, the sum of the weekly bars and the sum of the monthly bars |
| Analytics.WeeklyReport | src/pages/AnalyticsPage.tsx:66-102 | the report holds exactly the expenses at or after the instant a week ago; its per-name totals are those of the selection and add up to the reported total |
| Insights.Days | src/pages/InsightsPage.tsx:19 | the divisor of the daily average is at least 1 |
| Insights.DaysCountsDistinctDates | src/pages/InsightsPage.tsx:19-20 | the divisor is the number of distinct expense dates, or 1 when there are no expenses |
| Insights.NameEntries | src/pages/InsightsPage.tsx:23-24 | one entry per distinct category name |
| Insights.RankedFacts | src/pages/InsightsPage.tsx:23-25 | the ranking holds each occurring name exactly once with its total (categories sharing a name merge), largest first, and is non-empty iff there are expenses |
| Insights.RankedTopIsLargest | src/pages/InsightsPage.tsx:25-26 | the first ranked name has the largest total of all names |
| Insights.RankedKeysDistinct | src/pages/InsightsPage.tsx:23-25 | no name appears twice in the ranking |
| Insights.AccumulatedEntries | src/pages/InsightsPage.tsx:23-24 | the `catMap` loop's entries are the name entries of the specification |
| Insights.RankNames | src/pages/InsightsPage.tsx:23-25 | the `catMap` loop followed by the sort yields the specified ranking |
| Insights.InSomes | src/pages/InsightsPage.tsx:16-61 | an item is in the list iff some rule pushed it |
| Insights.SomesRanked | src/pages/InsightsPage.tsx:16-61 | items pushed by rules in order come out in rule order |
| Insights.InsightListShape | src/pages/InsightsPage.tsx:12-63 | the list always starts with the daily average over the distinct dates, keeps rule order, and has between 1 and 8 items |
| Insights.EmittedIff | src/pages/InsightsPage.tsx:16-61 | a kind of card is in the list iff its rule pushed a card of that kind |
| Insights.RankingRulesEmitted | src/pages/InsightsPage.tsx:26-60 | over the figures: daily average always; top and suggested iff one name; gap and tip iff two names; alert iff the second total exceeds 25% of spending |
| Insights.IncomeRulesEmitted | src/pages/InsightsPage.tsx:29-54 | with income, exactly one of overspending (ratio > 0.9), great savings (< 0.5) and moderate; none without income; savings goal iff income exceeds spending |
| Insights.InsightRules | src/pages/InsightsPage.tsx:12-63 | from the loaded rows: which of the ten cards appear, each by an if-and-only-if on the expenses, the income and the ranking of names |
| Insights.FromSlot | src/pages/InsightsPage.tsx:16-61 | every listed item is the one its rule pushed |
| Insights.RuleItem | src/pages/InsightsPage.tsx:16-60 | the fields of each pushed card in terms of the totals, the day count and the ranking |
| Insights.TopItems | src/pages/InsightsPage.tsx:24-46 | 'Top Category' and 'Suggested Action' name the name with the largest total; the suggested share is that total's percentage of all spending, 0 when nothing was spent |
| Insights.SecondItems | src/pages/InsightsPage.tsx:37-60 | 'Category Gap' compares two different names, the largest and one at most as large, and has no percentage exactly when the second total is 0; 'Spending Alert' names a name exceeding 25% of spending that another name at least matches |
| Insights.FigureItems | src/pages/InsightsPage.tsx:19-54 | the daily average is total over days; the tip's limit is 20% of 7 days at that average; budget health carries the expense/income percentage; the saveable amount is 10% of what is left, and positive |
| Insights.BudgetHealthTone | src/pages/InsightsPage.tsx:29-34 | the budget-health card's tone is warning above a ratio of 0.9, positive below 0.5, and info in between |
| Insights.TitlesDistinct | src/pages/InsightsPage.tsx:16-60 | no two kinds of card share a title |
| Insights.SummaryInsights | src/pages/InsightsPage.tsx:16-40 | the first four rules' pushes yield exactly the specified items of those rules |
| Insights.SuggestedActions | src/pages/InsightsPage.tsx:42-60 | the last four rules' pushes extend the list to the specified items of all eight rules |
| Insights.ComputeInsights | src/pages/InsightsPage.tsx:12-63 | the `useMemo` computation returns the specified insight list |
| Budgets.SpentByCategory | src/pages/BudgetsPage.tsx:20-32 | only expenses whose 1-based month and year both match count; the keys are the occurring `category_id \|\| 'other'` values, each mapped to its exact total |
| Budgets.SpentSnoc | src/pages/BudgetsPage.tsx:22-29 | an expense outside the month changes no category's spending; one inside raises exactly its own category |
| Budgets.SpentForIsMonthTotal | src/pages/BudgetsPage.tsx:60 | a card's spending is its category's total for the month, 0 for a category without expenses |
| Budgets.FindBudget | src/pages/BudgetsPage.tsx:34-36 | the first budget of the category, None iff there is none |
| Budgets.Pct | src/pages/BudgetsPage.tsx:62 | the percentage never exceeds 100, is 0 without a positive budget, and is non-negative for non-negative spending |
| Budgets.PercentReaches | src/pages/BudgetsPage.tsx:62 | for a positive budget, the uncapped percentage reaches t iff the spending reaches t hundredths of the budget |
| Budgets.PctFull | src/pages/BudgetsPage.tsx:62 | the bar is full iff the budget is positive and fully spent |
| Budgets.WarningIff | src/pages/BudgetsPage.tsx:62-63 | the warning shows iff the budget is positive and at least 80% spent |
| Budgets.CardFor | src/pages/BudgetsPage.tsx:59-79 | a card's spending is its category's entry (0 if missing), its budget amount that of the first budget found (0 if none), its percentage `pct` of the two; it warns iff the budget is positive and at least 80% spent, shows progress iff the budget is positive, and shows neither without a budget |
| Budgets.MonthlyBudget | src/pages/BudgetsPage.tsx:52 | the header is 0 while no budgets are loaded and 0 for an empty list |
| Budgets.MonthlyBudgetSnoc | src/pages/BudgetsPage.tsx:52 | one more budget, on any list, raises the header by exactly its amount; with the empty case this makes the header the sum of the loaded amounts |
| Budgets.MonthlyBudgetFacts | src/pages/BudgetsPage.tsx:52 | with no negative amounts, every budget lies between 0 and the header |
| Budgets.BudgetsPage.constructor | src/pages/BudgetsPage.tsx:14 | the inputs start empty |
| Budgets.BudgetsPage.Edit | src/pages/BudgetsPage.tsx:94 | typing into one category's input sets that input and leaves every other input as it was |
| Budgets.BudgetsPage.HandleSave | src/pages/BudgetsPage.tsx:38-45 | the input, or "0" when missing or empty, is parsed; 0 and NaN are refused; any other amount, negative ones included, is sent with the category, month and year; an empty input is refused |
| CategoryDetail.FindCategory | src/pages/CategoryDetailPage.tsx:12 | the category with the route's id, None iff no category has it |
| CategoryDetail.LexLeTotal | src/pages/CategoryDetailPage.tsx:15 | any two dates compare one way or the other |
| CategoryDetail.LexLeTransitive | src/pages/CategoryDetailPage.tsx:15 | the date order is transitive |
| CategoryDetail.ByDateDescIsTotalPreorder | src/pages/CategoryDetailPage.tsx:15 | the comparator is a total preorder, so the sort is well defined |
| CategoryDetail.CategoryExpenses | src/pages/CategoryDetailPage.tsx:14-16 | exactly the expenses whose category id is the route's, each as often as it occurs, newest date first |
| CategoryDetail.TotalSpentIsCategoryTotal | src/pages/CategoryDetailPage.tsx:18 | the total and the transaction count are those of the category's expenses, whatever their order |
| CategoryDetail.WeekOfMonth | src/pages/CategoryDetailPage.tsx:24 | ⌈day/7⌉ lies in 1..5 and brackets the day |
| CategoryDetail.WeekKeyIsLabel | src/pages/CategoryDetailPage.tsx:24 | every week label is one of W1..W5 |
| CategoryDetail.AtMostFiveLabels | src/pages/CategoryDetailPage.tsx:24-27 | distinct labels drawn from W1..W5 number at most five |
| CategoryDetail.FirstFive | src/pages/CategoryDetailPage.tsx:27 | `slice(0, 5)` keeps at most five rows and drops nothing from five or fewer |
| CategoryDetail.WeeklyBreakdown | src/pages/CategoryDetailPage.tsx:20-28 | at most five rows, one per occurring week label in order of first occurrence, each the week's total; the slice drops nothing, so the rows add up to the category's total |
| CategoryDetail.Page | src/pages/CategoryDetailPage.tsx:12-38 | "not found" iff no category has the id; otherwise the page shows the category `find` returns and its sorted expenses, total and count, and the weekly rows: one per week label in first-occurrence order, each the week's total, adding up to the total |
| Dashboard.Status | src/pages/DashboardPage.tsx:65-67 | spending above 80% of income gives "Overspending!", "You are spending too much" and the warning tone; otherwise "On Track", "Your spending is within budget" and the positive tone |
| Dashboard.DashboardFigures | src/pages/DashboardPage.tsx:22-61 | the income total is the sum of all income amounts and the spending total the sum of the given (today's) expense amounts, each 0 while not loaded; the balance is income minus spending; the daily average is spending divided by 7 |
| Dashboard.NoIncomeOverspends | src/pages/DashboardPage.tsx:65 | with no income, any positive spending is overspending |
| Dashboard.OnTrackLeavesAFifth | src/pages/DashboardPage.tsx:65-67 | on track means the balance is at least a fifth of the income |
| Dashboard.TodayOnly | src/pages/DashboardPage.tsx:23 | with today's selection as input, an expense from another day leaves spending unchanged and one from today adds its amount |
| Signup.HasUpper | src/pages/SignupPage.tsx:23 | `/[A-Z]/.test` holds iff some character is an ASCII capital |
| Signup.HasDigit | src/pages/SignupPage.tsx:23 | `/[0-9]/.test` holds iff some character is an ASCII digit |
| Signup.Display | src/pages/SignupPage.tsx:22-24 | the meter shown for a level carries that level |
| Signup.DisplayDistinct | src/pages/SignupPage.tsx:22-24 | two different levels differ in text, in colour and in width |
| Signup.Strength | src/pages/SignupPage.tsx:21-25 | weak iff shorter than 6; strong iff at least 10 long with a capital and a digit; medium otherwise, with the matching display |
| Signup.StrengthGrows | src/pages/SignupPage.tsx:21-25 | typing more characters never lowers the strength |
| Signup.MeterShown | src/pages/SignupPage.tsx:82-89 | the meter is hidden iff the password is empty, and otherwise shows the password's strength |
| Signup.Contains | src/pages/SignupPage.tsx:35 | `includes` holds iff the phrase occurs at some index |
| Signup.AlreadyRegisteredReplaced | src/pages/SignupPage.tsx:35 | a message containing "already registered" anywhere becomes the duplicate-account message |
| Signup.OtherMessagesKept | src/pages/SignupPage.tsx:36 | any other message is shown unchanged |
| Signup.HandleSubmit | src/pages/SignupPage.tsx:27-41 | refused with the fill-in message iff a required field is empty, or with the length message iff the password is under 6; otherwise sends (email, password, full name), then shows the rewritten error, or the confirmation and a redirect to /auth |
| Signup.PhoneIgnored | src/pages/SignupPage.tsx:32 | the phone number has no effect on the outcome |
| Signup.SentPasswordsAreNotWeak | src/pages/SignupPage.tsx:22-30 | a weak password is always refused, and every password sent rates at least medium on the meter |
| Categories.DefaultsAreOptions | src/pages/CategoriesPage.tsx:11-23 | the dialog's default icon and colour are among the offered options |
| Categories.TrimStart | src/pages/CategoriesPage.tsx:27 | drops exactly the leading white space |
| Categories.TrimEnd | src/pages/CategoriesPage.tsx:27 | drops exactly the trailing white space |
| Categories.BlankIff | src/pages/CategoriesPage.tsx:27 | `!name.trim()` holds iff the name is all white space |
| Categories.TrimKeepsContent | src/pages/CategoriesPage.tsx:27 | a non-space character survives trimming, so a name with one is not blank |
| Categories.SaveMutation | src/pages/CategoriesPage.tsx:26-33 | no request iff the name is blank; an update of the edited id iff an id is set; an add otherwise, with the dialog's values |
| Categories.DeleteMutation | src/pages/CategoriesPage.tsx:35-38 | no request iff no deletion is pending; otherwise a delete of the pending id |
| Categories.CategoriesPage.constructor | src/pages/CategoriesPage.tsx:16-21 | the dialog is closed and empty, with the package icon and blue |
| Categories.CategoriesPage.Heading | src/pages/CategoriesPage.tsx:85 | the title word is "Edit" or "Add" |
| Categories.CategoriesPage.OpenAdd | src/pages/CategoriesPage.tsx:23 | clears the id and name, resets icon and colour, opens the dialog; the pending deletion is kept |
| Categories.CategoriesPage.OpenEdit | src/pages/CategoriesPage.tsx:24 | copies the category's id, name, icon and colour and opens the dialog |
| Categories.CategoriesPage.SetName | src/pages/CategoriesPage.tsx:91 | changes the name only |
| Categories.CategoriesPage.PickIcon | src/pages/CategoriesPage.tsx:97 | sets the icon to the chosen option and changes nothing else |
| Categories.CategoriesPage.PickColor | src/pages/CategoriesPage.tsx:108 | sets the colour to the chosen option and changes nothing else |
| Categories.CategoriesPage.CloseModal | src/pages/CategoriesPage.tsx:81-86 | closes the dialog only |
| Categories.CategoriesPage.AskDelete | src/pages/CategoriesPage.tsx:58 | marks the category for deletion only |
| Categories.CategoriesPage.CancelDelete | src/pages/CategoriesPage.tsx:127-133 | clears the pending deletion only |
| Categories.CategoriesPage.HandleSave | src/pages/CategoriesPage.tsx:26-33 | a blank name sends nothing and changes nothing; otherwise the update or add is sent, and only success closes the dialog with 'Updated' or 'Category added' |
| Categories.CategoriesPage.HandleDelete | src/pages/CategoriesPage.tsx:35-38 | nothing without a pending deletion; otherwise the delete is sent, and only success clears it with 'Deleted' |
| ExpenseModal.Submission | src/components/AddExpenseModal.tsx:21-23 | nothing is sent iff the amount or the category is empty; otherwise the parsed amount, description, category id and date |
| ExpenseModal.AddExpenseModal.constructor | src/components/AddExpenseModal.tsx:16-19 | amount, description and category start empty; the date is today's ISO date |
| ExpenseModal.AddExpenseModal.SetAmount | src/components/AddExpenseModal.tsx:62 | changes the amount only |
| ExpenseModal.AddExpenseModal.SetDescription | src/components/AddExpenseModal.tsx:72 | changes the description only |
| ExpenseModal.AddExpenseModal.SetDate | src/components/AddExpenseModal.tsx:82 | changes the date only |
| ExpenseModal.AddExpenseModal.PickCategory | src/components/AddExpenseModal.tsx:93 | changes the category only |
| ExpenseModal.AddExpenseModal.HandleSubmit | src/components/AddExpenseModal.tsx:21-28 | an incomplete form is left as it is and stays open; otherwise the submission is sent once, amount, description and category are cleared, the date is kept, and the dialog closes |
| ExpenseModal.AddExpenseModal.SubmitTwice | src/components/AddExpenseModal.tsx:21-28 | a second click handled after the dialog has re-rendered with the cleared state sends nothing |
| IncomeModal.Submission | src/components/AddIncomeModal.tsx:19-21 | nothing is sent iff the amount is empty; otherwise the parsed amount, description and date |
| IncomeModal.AddIncomeModal.constructor | src/components/AddIncomeModal.tsx:15-17 | amount and description start empty; the date is today's ISO date |
| IncomeModal.AddIncomeModal.SetAmount | src/components/AddIncomeModal.tsx:55 | changes the amount only |
| IncomeModal.AddIncomeModal.SetDescription | src/components/AddIncomeModal.tsx:59 | changes the description only |
| IncomeModal.AddIncomeModal.SetDate | src/components/AddIncomeModal.tsx:63 | changes the date only |
| IncomeModal.AddIncomeModal.HandleSubmit | src/components/AddIncomeModal.tsx:19-25 | without an amount nothing changes; otherwise the submission is sent once, amount and description are cleared, the date is kept, and the dialog closes |
| IncomeModal.AddIncomeModal.SubmitTwice | src/components/AddIncomeModal.tsx:19-25 | a second click handled after the dialog has re-rendered with the cleared state sends nothing |
| Currency.CurrencyOf | src/contexts/CurrencyContext.tsx:22 | the profile's currency when set and non-empty, 'USD' otherwise |
| Currency.SymbolOf | src/contexts/CurrencyContext.tsx:23 | the table's symbol for the seven known codes, the code itself for any other |
| Currency.Provide | src/contexts/CurrencyContext.tsx:20-23 | the provided currency and symbol follow those two fallbacks; the symbol is never empty |
| Currency.FormatAmount | src/contexts/CurrencyContext.tsx:25-26 | the formatted amount is the current symbol followed by the number's digits |
| Currency.NoProfileIsDefault | src/contexts/CurrencyContext.tsx:14-23 | without a profile currency the provider gives the default context, USD and $, and formats alike |
| Currency.KnownSymbolsDistinct | src/contexts/CurrencyContext.tsx:4-6 | no two known codes share a symbol |
| Currency.FormattedKnownCurrency | src/contexts/CurrencyContext.tsx:4-26 | a formatted amount tells which known currency it is in, whatever the digits |
| Routes.FixedPathsAreNotDetailPaths | src/App.tsx:42-55 | no fixed path matches `/categories/:id`, so the order in which the router tries them does not matter |
| Routes.ElementFor | src/App.tsx:39-58 | a detail path shows the category detail for its id; a fixed path shows its declared element; any other path shows NotFound |
| Routes.Guarding | src/App.tsx:25-37 | both guards show the spinner while loading; members-only redirects to /auth without a user, visitors-only to /dashboard with one; a guarded page is shown only to the right kind of user |
| Routes.FixedRoutesFit | src/App.tsx:41-54 | /auth and /signup are visitors-only; every other named page is members-only |
| Routes.GuardsHold | src/App.tsx:25-58 | on any path, a page with user data is shown only to a signed-in user once loaded, and the login and sign-up pages only to a visitor |
| Routes.OnlyRootRedirects | src/App.tsx:41-56 | the only redirect route is `/`, to /dashboard |
| Routes.FromDashboardOrLogin | src/App.tsx:25-44 | once loaded, /dashboard and /auth each reach the dashboard for a member and the login page for a visitor within one redirect |
| Routes.RedirectsEnd | src/App.tsx:25-58 | once loaded, every path shows a page within two redirects, and a path that redirects ends on the dashboard or the login page |

## Left out

- Backend access: the queries, mutations, caching and invalidation of `src/hooks/useData.ts` are remote I/O, which is not part of this model. Query results are inputs (`Option<seq<...>>` while loading). A mutation's outcome is a success flag, or the error message of the sign-up service. The `onError` toasts of mutations are not modelled.
- Authentication: the session is an input (`Routes.Session`) and `signUp` is a parameter of `Signup.HandleSubmit`. The `loading` state the sign-up page sets around the call is not modelled.
- Date library: `new Date(...)`, `getDay`, `getMonth`, `getFullYear` and `getDate`, and the shift between UTC and local time, are library behaviour. Expenses carry these values already decoded. "Now", "a week ago" and "today" are parameters. The dashboard's today-only selection is done by the backend and is modelled as a filter in `Dashboard.TodayOnly`.
- Dashboard.DashboardFigures: its input is the backend's selection of today's expenses; that the selection holds only today's rows is stated in `Dashboard.TodayOnly`, not enforced on the input.
- Floating point: amounts are exact reals, and `Number(...)` conversions are identity. `parseFloat` is a parameter, with NaN as `None`.
- Formatting: `toFixed`, `toLocaleString` and the insight descriptions are not modelled. Insights carry their kind and their numbers, not their text. `Currency.FormatAmount` takes the digits as a parameter.
- Insights.GapPercent: the 'Category Gap' percentage is `None` when the second total is 0; the source divides by zero there and shows Infinity or NaN.
- Object key order: JavaScript lists integer-like keys first in numeric order. Here keys follow insertion order throughout. That matches the source for the category ids, 'other' and the W1..W5 labels. It does not match for the user-chosen category names that key `catMap` in the insights page and `catTotals` in the weekly report (`Insights.RankedFacts`, `Insights.RankNames`, `Analytics.WeeklyReport`) when a name is a decimal integer.
- Object prototype keys: the source's dictionaries are plain `{}` objects, so a key that names an inherited property behaves differently from the model:
  - `CURRENCY_SYMBOLS[currency]` for a code such as "toString" finds an inherited function. `Currency.SymbolOf` treats every code outside the table as unknown.
  - In `catMap` (insights page) and `catTotals` (weekly report), a category named "constructor" or "toString" starts its bucket from the inherited function, so `(fn || 0) + amount` is a string and the later `toFixed` can throw. A category named "__proto__" is dropped from `Object.entries`. `Insights.RankedFacts`, `Insights.RankNames` and `Analytics.WeeklyReport` treat every name as an ordinary key with a numeric total. The category-id keyed dictionaries are not affected, because ids are generated identifiers.
- Strings: JavaScript strings are UTF-16, and `password.length` counts code units. Here a string is a sequence of code points, so a password with characters outside the Basic Multilingual Plane is shorter than in the browser.
- `localeCompare` on ISO dates is modelled as code-point lexicographic order. That coincides for the ASCII digits and dashes of ISO dates, but not for arbitrary strings under a locale.
- Router details: case-insensitive matching, trailing slashes, and percent-decoding of `:id` are not modelled. Route ranking is replaced by the fact that no fixed path has the detail pattern's shape (`Routes.FixedPathsAreNotDetailPaths`).
- SubmitTwice (ExpenseModal.AddExpenseModal.SubmitTwice, IncomeModal.AddIncomeModal.SubmitTwice): the model applies each state update at once, and the second click sees the cleared form. In the source, `handleSubmit` closes over the state of one render. After `onClose()`, `AnimatePresence` keeps rendering the exiting copy of the dialog from the previous render, whose button still holds the handler with the old amount. A click during that exit animation can therefore send the same entry again. Per-render state snapshots and exit rendering are not modelled, so the contract holds only for a click handled after the re-render.
- Ranking.SortBy: `Array.prototype.sort` is stable, but the contract does not state the order among ties; only sortedness and the permutation are proved.
- Rendering: PDF generation, charts, animation, styling and the text of toasts other than the ones named are not modelled. The categories page's save button text ('Update'/'Add') is not modelled.
- Pages outside the core are not part of this model: login, profile, settings, support, about, the side drawer and the card components.
