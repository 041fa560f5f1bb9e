# Life-OS finance core in Dafny

Life-OS is a personal-finance web app. A signed-in user records income and
expense transactions, with an amount, a type, a category and an optional
description. The app shows them as charts, a live list and summary cards.
This project models the client-side logic that turns the stored transactions
into what the user sees, together with the small rules around it:

- the record types: transaction type and source, `Transaction`, `User`;
- the spending-by-category chart:
  - filter by type, group by category, sort descending, keep six;
  - bar widths, percentages and colours;
- the monthly trend:
  - group by a `YYYY-MM` key into income and expense;
  - sort the keys ascending, keep the last six, compute net;
  - bar heights;
- the category icon lookups;
- the live transaction list's fetch state machine and rendering choice;
- the overview and transactions pages:
  - totals, balance and savings rate;
  - greeting name, signed balance, and which sections appear;
- the add-transaction dialog:
  - form schema and category list;
  - the record it inserts and the submit flow;
  - how insert errors become messages;
- the settings page:
  - stored preferences and theme classes;
  - password checks, notification toggle, profile save, sign-out;
- the sign-up page's schema and submit flow;
- the dashboard navigation's active-item rule.

Pure rules are Dafny functions with lemmas. Components that change state
step by step are classes whose methods modify their fields:
- `TransactionListState`, `DashboardState` and `TransactionsPageState`;
- `AddTransactionDialog`, `SettingsPage`, `SignupPage` and `DocumentRoot`.

The two chart reductions are loops over a map accumulator. Each is proved
against a declarative specification: distinct keys in first-seen order, each
with its total. The lookups are loops proved against a first-match function.
Amounts are `real`. Anything outside the app appears as a parameter:
- each Supabase call's outcome;
- the local calendar date of a timestamp;
- `Number`, `parseFloat` and the e-mail check;
- the system colour preference;
- stored preferences.

Modules, one per file: `Wrappers`, `Toasts`, `Text`, `Types`, `Ledger`,
`Grouping`, `IconLookup`, `SpendingChart`, `MonthlyTrend`, `CategoryIcon`,
`TransactionList`, `DashboardPage`, `TransactionsPage`, `AddTransaction`,
`Settings`, `Signup`, `Nav`.

## Model

| member | source | states |
|---|---|---|
| Types.TypeName | lib/types.ts:1 | every transaction type has a stored name that parses back to that type |
| Types.ParseType | lib/types.ts:1 | exactly `income` and `expense` are transaction types, and each names its own value |
| Types.SourceName | lib/types.ts:2 | every transaction source has a stored name that parses back to that source |
| Types.ParseSource | lib/types.ts:2 | exactly `web` and `whatsapp` are sources, and each names its own value |
| Ledger.OfType | components/charts.tsx:22 | the type filter holds a record exactly when the input does and it has the requested type, and is no longer than its input |
| Ledger.OfTypeCounts | components/charts.tsx:22 | every record of the requested type is kept as many times as it occurs, and no other record is kept |
| Ledger.OfTypeConcat | components/charts.tsx:22 | filtering a concatenation is concatenating the filtered parts, so kept records stay in input order |
| Ledger.OfTypeSingle | components/charts.tsx:22 | a single record is kept exactly when it has the requested type |
| Ledger.Balance | app/dashboard/page.tsx:76 | the balance is the signed sum of all records: income counts plus, expense minus |
| Ledger.TypeTotalsPartition | app/dashboard/page.tsx:68-74 | the income total plus the expense total is the sum of all amounts, so every record counts in exactly one total |
| Ledger.BalanceIsSignedSum | app/dashboard/page.tsx:68-76 | income minus expense equals the signed sum over all records |
| Ledger.TypeTotalNonNegative | app/dashboard/transactions/page.tsx:50-56 | with non-negative amounts each per-type total is non-negative |
| Ledger.TypeTotalAppend | app/dashboard/page.tsx:68-74 | a new record adds its amount to the total of its own type and leaves the other total unchanged |
| Grouping.FirstSeenKeys | components/charts.tsx:23-29 | the accumulator's key order has no repeats and holds exactly the keys that occur |
| Grouping.FirstSeenAppend | components/charts.tsx:23-27 | a key seen for the first time goes to the end of the key order; a known key keeps its place |
| SpendingChart.BucketsFor | components/charts.tsx:29 | the entries pair each key, in key order, with that category's total |
| SpendingChart.Label | components/charts.tsx:24 | a record counts under its own category when that is non-empty, and the label is never empty |
| SpendingChart.SortDesc | components/charts.tsx:30 | the sort returns a permutation of the entries, non-increasing by value |
| SpendingChart.SortDescSum | components/charts.tsx:30 | sorting does not change the sum of the values |
| SpendingChart.Top | components/charts.tsx:31 | the slice keeps the first min(n, length) entries unchanged |
| SpendingChart.Accumulate | components/charts.tsx:23-27 | the reduce loop's keys are the category labels in first-seen order, each mapped to the sum of that category's amounts |
| SpendingChart.GroupByCategory | components/charts.tsx:23-29 | the map accumulator read out by key order gives exactly the declarative grouping |
| SpendingChart.SpendingData | components/charts.tsx:20-33 | the chart data is the type filter, then the grouping, the descending sort and the first six |
| SpendingChart.SpendingShape | components/charts.tsx:29-32 | the chart has min(6, number of categories) buckets, in non-increasing order |
| SpendingChart.SpendingValues | components/charts.tsx:22-27 | every bucket names a category of the requested type and holds that category's total |
| SpendingChart.EveryCategoryGrouped | components/charts.tsx:23-29 | every category that occurs gets a bucket with its total |
| SpendingChart.DroppedNotLarger | components/charts.tsx:29-32 | a category left off the chart means six buckets are shown, each at least as large as its total |
| SpendingChart.OtherTypeIgnored | components/charts.tsx:20-22 | adding a record of the other type does not change the chart |
| SpendingChart.EmptyCategoryCountsAsOther | components/charts.tsx:24-25 | a record with an empty category adds its amount to `Other` |
| SpendingChart.GroupedSum | components/charts.tsx:23-29 | grouping loses and duplicates nothing: the buckets sum to the sum of all amounts |
| SpendingChart.TopSumBound | components/charts.tsx:31 | keeping a prefix of non-negative buckets cannot increase the total |
| SpendingChart.DrawnTotal | components/charts.tsx:36 | the shown total is at most the type's total, and equal to it when there are at most six categories |
| SpendingChart.MaxValue | components/charts.tsx:35 | the bar denominator is at least 1, bounds every value, and is 1 or one of the values |
| SpendingChart.Palette | components/charts.tsx:46-48 | each type's palette has six distinct colours |
| SpendingChart.WidthBounded | components/charts.tsx:75 | a non-negative value up to the maximum gets a width between 0 and 100 |
| SpendingChart.PercentSumOfRows | components/charts.tsx:53 | the rows' percentages add up to the share of the total held by the rows together |
| SpendingChart.RowsWidthBounded | components/charts.tsx:72-78 | with non-negative values every bar width lies between 0 and 100 |
| SpendingChart.SpendingView | components/charts.tsx:35-90 | no data shows `No <type> transactions yet`; otherwise the total is the kept buckets' sum; bar i has its bucket's name, value and colour i mod 6, its percentage is value/total·100 and its width value/maximum·100; widths lie in [0, 100], and the percentages add up to 100 |
| SpendingChart.ColoursDistinct | components/charts.tsx:60 | two bars on the same chart never share a colour |
| MonthlyTrend.EntriesFor | components/charts.tsx:113 | the entries pair each month key, in key order, with that month's income and expense |
| MonthlyTrend.SortAsc | components/charts.tsx:114 | the sort returns a permutation of the month entries |
| MonthlyTrend.SortAscAscending | components/charts.tsx:114 | with distinct keys the sorted months are strictly ascending |
| MonthlyTrend.LastN | components/charts.tsx:115 | the slice keeps the last min(n, length) entries, in order |
| MonthlyTrend.Rows | components/charts.tsx:116-120 | each row carries its month, income and expense, and net = income − expense |
| MonthlyTrend.MonthSumsAppend | components/charts.tsx:102-109 | a record changes only its own month, adding to income when it is income and to expense otherwise |
| MonthlyTrend.FoldRecord | components/charts.tsx:99-110 | one reduce step keeps the accumulator equal to the per-month sums and the key order equal to first-seen order |
| MonthlyTrend.AccumulateMonths | components/charts.tsx:99-111 | the reduce loop's keys are the month keys in first-seen order, each mapped to that month's sums |
| MonthlyTrend.MonthlyData | components/charts.tsx:98-121 | the trend data is the grouping, the ascending sort, the last six and the net column |
| MonthlyTrend.MonthGroupedDistinct | components/charts.tsx:113 | no month appears twice among the entries |
| MonthlyTrend.TrendLength | components/charts.tsx:113-115 | the trend has min(6, number of distinct months) rows |
| MonthlyTrend.TrendAscending | components/charts.tsx:113-115 | the rows' months are strictly ascending |
| MonthlyTrend.TrendValues | components/charts.tsx:116-120 | each row is a month that occurs, with exactly that month's income and expense sums and their difference |
| MonthlyTrend.TrendKeepsLatest | components/charts.tsx:114-115 | a month that is not shown comes before every month that is shown |
| MonthlyTrend.MonthSumsByType | components/charts.tsx:105-109 | a month's income is the income total of its records, and its expense the expense total |
| MonthlyTrend.MonthLabel | components/charts.tsx:153-155 | the caption after the dash is the month number, zero-padded to two digits |
| MonthlyTrend.MonthKeyParts | components/charts.tsx:101 | a key is the four-digit year, a dash and the two-digit month number |
| MonthlyTrend.MonthKey | components/charts.tsx:101 | the key ends with a dash and the two-digit month |
| MonthlyTrend.KeyOf | components/charts.tsx:100-101 | a record's key ends with the two-digit month of its local date |
| MonthlyTrend.MonthKeyOrder | components/charts.tsx:101-114 | for four-digit years, one key sorts before another exactly when its month is earlier in time |
| MonthlyTrend.MaxTrendValue | components/charts.tsx:123-126 | the height denominator is at least 1, bounds every income and expense, and is 1 or one of them |
| MonthlyTrend.ColumnsBounded | components/charts.tsx:123-149 | non-negative sums give bar heights between 0 and 100 |
| MonthlyTrend.TallestColumn | components/charts.tsx:123-149 | when the largest sum exceeds 1, some bar is drawn at full height |
| MonthlyTrend.ColumnOf | components/charts.tsx:144-154 | a column keeps its month and shows the part after the dash; a sum between 0 and the maximum gets a height between 0 and 100, and the maximum itself a full bar |
| MonthlyTrend.HeightBounded | components/charts.tsx:144-149 | with a maximum of at least 1, a sum between 0 and the maximum gets a bar height between 0 and 100 percent |
| MonthlyTrend.TrendView | components/charts.tsx:128-157 | no data shows `No transactions yet`; otherwise column i has row i's month and caption, and its heights are income/maximum·100 and expense/maximum·100; heights lie in [0, 100], and some bar is full when the maximum exceeds 1 |
| MonthlyTrend.MonthSumsNonNegative | components/charts.tsx:102-109 | with non-negative amounts a month's income and expense are non-negative |
| MonthlyTrend.TrendHeightsBounded | components/charts.tsx:98-149 | with non-negative amounts every drawn height lies between 0 and 100 |
| IconLookup.LookupIcon | components/charts.tsx:199-205 | the search loop returns the first-match icon |
| IconLookup.FirstMatchAt | components/charts.tsx:199-202 | the first entry, in table order, whose key occurs in the text supplies the icon |
| IconLookup.FirstMatchNone | components/charts.tsx:205 | when no key occurs in the text the fallback icon is returned |
| IconLookup.FirstMatchFrom | components/charts.tsx:199-205 | the icon is the fallback or the icon of an entry whose key occurs in the text |
| IconLookup.EmptyTextMisses | components/transaction-list.tsx:43-48 | empty text contains no non-empty key |
| CategoryIcon.LowerCategory | components/charts.tsx:197 | a missing category reads as empty text; otherwise the lowercased text has the same length |
| CategoryIcon.IconFor | components/charts.tsx:177-206 | the icon is the first table entry whose lowercased key occurs in the lowercased category, else the card icon |
| CategoryIcon.NoCategoryDefault | components/charts.tsx:197-205 | a missing or empty category shows the card icon |
| CategoryIcon.SalaryIcon | components/charts.tsx:179-201 | any category holding `salary` in any mix of cases shows the money-bag icon, because that key is tried first |
| TransactionList.GetCategoryIcon | components/transaction-list.tsx:27-49 | the icon is the first key, in table order, contained in the lowercased category, else the card icon |
| TransactionList.EmptyCategoryDefault | components/transaction-list.tsx:41-48 | an empty category shows the card icon |
| TransactionList.FetchResult | components/transaction-list.tsx:62-99 | first success gives its rows; a failed first query is retried once; a missing table or a thrown call gives an empty list with no error; any other retry failure sets the set-up error and keeps the list |
| TransactionList.TableMissing | components/transaction-list.tsx:80-84 | the retry's error counts as a missing table when its code is `42P01`, and otherwise only when its message contains `undefined_table` |
| TransactionList.DescriptionText | components/transaction-list.tsx:213 | a missing or empty description shows `-`, and any other description is shown as is |
| TransactionList.RowOf | components/transaction-list.tsx:191-219 | a row shows `+` exactly for income and `-` otherwise, the absolute amount, the category's icon, the category itself and the shown description |
| TransactionList.TransactionListState.constructor | components/transaction-list.tsx:52-54 | the list starts empty and loading, with no error |
| TransactionList.TransactionListState.Fetch | components/transaction-list.tsx:59-101 | every fetch ends with loading off and the error and list given by the fetch outcome |
| TransactionList.TransactionListState.Mount | components/transaction-list.tsx:103-119 | mounting fetches once and subscribes to changes |
| TransactionList.TransactionListState.OnChange | components/transaction-list.tsx:112-114 | a realtime change re-runs the same full fetch and stays subscribed |
| TransactionList.TransactionListState.Unmount | components/transaction-list.tsx:121-123 | cleanup removes the subscription and changes nothing else |
| TransactionList.TransactionListState.View | components/transaction-list.tsx:126-227 | the spinner shows exactly while loading, then the error, then the empty notice, then one table row per record |
| DashboardPage.Round1 | app/dashboard/page.tsx:79 | the result is a whole number of tenths at most 0.05 from the value, and non-negative for a non-negative value |
| DashboardPage.Round1Monotone | app/dashboard/page.tsx:79 | rounding to one decimal preserves order on non-negative values |
| DashboardPage.SavingsRate | app/dashboard/page.tsx:79 | the rate is 0 without income, else a whole number of tenths at most 0.05 from balance/income·100 |
| DashboardPage.SavingsRateBounds | app/dashboard/page.tsx:79 | with income and non-negative expense the rate is at most 100; it is non-negative when expense does not exceed income |
| DashboardPage.PraiseThreshold | app/dashboard/page.tsx:259-261 | the praise message is chosen exactly when the unrounded rate is at least 19.95, since the rate is compared after rounding |
| DashboardPage.Motivation | app/dashboard/page.tsx:259-261 | the praise text exactly when the rate is at least 20, the keep-going text exactly when it is below |
| DashboardPage.EmailLocalPart | app/dashboard/page.tsx:77 | the part before the first `@` contains no `@` |
| DashboardPage.UserName | app/dashboard/page.tsx:77 | the greeting uses a non-empty profile name, else the non-empty part of the e-mail before `@`, else `Friend` |
| DashboardPage.FullNameOf | app/dashboard/page.tsx:77 | a missing profile or name reads as empty; otherwise the profile's name |
| DashboardPage.DashboardState.constructor | app/dashboard/page.tsx:23-26 | the page starts loading with no user, profile or records |
| DashboardPage.DashboardState.Load | app/dashboard/page.tsx:34-63 | whatever the outcome loading ends; the user, profile and records are set as far as the fetch got, and missing records become an empty list |
| DashboardPage.DashboardState.View | app/dashboard/page.tsx:68-261 | the cards show the per-type totals, the signed balance, the savings rate and the greeting; charts, list and message appear exactly when there are records; praise exactly when the rate is at least 20 |
| TransactionsPage.NetBalanceText | app/dashboard/transactions/page.tsx:153 | the net balance shows `+` exactly when it is non-negative, with a non-negative magnitude |
| TransactionsPage.ToneOf | app/dashboard/transactions/page.tsx:140-142 | the calm card exactly for a non-negative balance |
| TransactionsPage.Encouragement | app/dashboard/transactions/page.tsx:229-231 | the positive message exactly for a non-negative balance, the challenge message exactly for a negative one |
| TransactionsPage.NetBalanceRoundTrip | app/dashboard/transactions/page.tsx:153 | sign and magnitude together give back the balance |
| TransactionsPage.TransactionsPageState.constructor | app/dashboard/transactions/page.tsx:24-25 | the page starts loading with no records |
| TransactionsPage.TransactionsPageState.Load | app/dashboard/transactions/page.tsx:28-45 | loading ends in every case; only a completed query replaces the records, missing data giving an empty list |
| TransactionsPage.TransactionsPageState.View | app/dashboard/transactions/page.tsx:50-231 | the cards show the per-type totals and the net balance with `+` exactly when the balance is non-negative; the calm colour and the positive message appear exactly for a non-negative balance; charts, list and message appear exactly when there are records |
| AddTransaction.IssueMessage | components/add-transaction-dialog.tsx:41-45 | the amount and category rules carry their own messages; the type rule has none of its own |
| AddTransaction.NumberOf | components/add-transaction-dialog.tsx:41 | `Number` of blank text is 0; other text is read by the numeral parser |
| AddTransaction.Issues | components/add-transaction-dialog.tsx:40-47 | the amount is flagged unless it reads as a number above 0, the type unless it is income or expense, the category when empty |
| AddTransaction.Validate | components/add-transaction-dialog.tsx:40-47 | the form is accepted exactly when all three rules hold, keeping its values; otherwise the issues are reported |
| AddTransaction.BlankAmountRejected | components/add-transaction-dialog.tsx:41-43 | an empty or blank amount is rejected |
| AddTransaction.DefaultsRejected | components/add-transaction-dialog.tsx:67-72 | the untouched form fails on the amount and the category only |
| AddTransaction.CategoriesFor | components/add-transaction-dialog.tsx:49-76 | the income list is offered for income, the expense list for anything else |
| AddTransaction.FieldOf | components/add-transaction-dialog.tsx:185-275 | each issue is shown under the amount, type or category field, never under the description |
| AddTransaction.WithField | components/add-transaction-dialog.tsx:185-275 | a field's change sets that field to the new text and keeps the other three |
| AddTransaction.Revalidated | components/add-transaction-dialog.tsx:65-73 | after a submit the edited field shows its issue exactly when the new values fail its rule; every other field keeps the issue it showed |
| AddTransaction.RevalidatingEveryFieldRefreshesAll | components/add-transaction-dialog.tsx:65-73 | re-validating the three checked fields in turn leaves exactly the issues of the current values |
| AddTransaction.DescriptionEditKeepsIssues | components/add-transaction-dialog.tsx:65-73 | editing the description never changes the issues shown |
| AddTransaction.CategoryListsDisjoint | components/add-transaction-dialog.tsx:49-56 | no category is offered for both types, and none is empty |
| AddTransaction.CategoriesFollowType | components/add-transaction-dialog.tsx:69-76 | the income list appears exactly for income, and the default type shows the expense list |
| AddTransaction.DescriptionOrNull | components/add-transaction-dialog.tsx:94 | a missing or empty description is stored as null; any other is kept |
| AddTransaction.BuildRecord | components/add-transaction-dialog.tsx:89-96 | the record carries the user's id, the parsed amount, the type, the category, the description or null, and source `web` |
| AddTransaction.RecordAmountPositive | components/add-transaction-dialog.tsx:89-96 | an accepted amount is stored as a positive number when the two parsers agree |
| AddTransaction.ClassifyError | components/add-transaction-dialog.tsx:135-143 | row-level security is checked first, then foreign key or category, then duplicate, else the generic message |
| AddTransaction.SubmittedOutcome | components/add-transaction-dialog.tsx:78-147 | no user means nothing is sent; success means a user and a stored insert; the success toast appears exactly on success; a double failure reports the retry's classified error; every record sent is the built record |
| AddTransaction.Submitted | components/add-transaction-dialog.tsx:78-147 | the intended handler succeeds exactly when a user is signed in and one of the two inserts is stored; it sends nothing without a user, one record when the first insert is stored, two otherwise |
| AddTransaction.SubmittedAsWritten | components/add-transaction-dialog.tsx:78-147 | the handler as written succeeds exactly when a user is signed in and the first insert is stored; it sends the same number of records as the intended one |
| AddTransaction.UnclassifiedMessage | components/add-transaction-dialog.tsx:141-142 | a message with neither `y` nor `u`, such as the ReferenceError text, contains none of the keywords and gives the generic message |
| AddTransaction.DuplicateClassified | components/add-transaction-dialog.tsx:139-140 | a message mentioning `duplicate` and none of the keywords tested before it gives `Transaction already exists` |
| AddTransaction.UniqueViolationClassified | components/add-transaction-dialog.tsx:135-140 | PostgreSQL's unique-violation text `duplicate key value violates unique constraint "<name>"` gives `Transaction already exists` for any constraint name without `g` or `w` |
| AddTransaction.AsWrittenFallbackNeverSucceeds | components/add-transaction-dialog.tsx:103-119 | as written, any rejected first insert ends in the generic error after both inserts, never in success |
| AddTransaction.AsWrittenReportsStoredRetryAsFailure | components/add-transaction-dialog.tsx:103-122 | as written, a retry that stores the record is reported as a failure, while the intended flow reports success |
| AddTransaction.AsWrittenHidesDuplicate | components/add-transaction-dialog.tsx:103-140 | as written, a rejection mentioning `duplicate` and none of the earlier keywords is reported generically, while the intended flow says the record exists |
| AddTransaction.AddTransactionDialog.constructor | components/add-transaction-dialog.tsx:59-73 | the dialog starts closed, idle, unsent and not yet submitted, with the default values and no issues |
| AddTransaction.AddTransactionDialog.Categories | components/add-transaction-dialog.tsx:75-76 | the dialog offers the income list exactly when the chosen type is income, and the expense list otherwise |
| AddTransaction.AddTransactionDialog.Edit | components/add-transaction-dialog.tsx:65-73 | a field change sets that field only; before the first submit the issues stay, afterwards only the edited field's issue is recomputed from the new values; nothing else changes |
| AddTransaction.AddTransactionDialog.SetOpen | components/add-transaction-dialog.tsx:150-155 | closing clears the success flag and resets the form to its defaults with no issues and not submitted; opening changes only the open flag |
| AddTransaction.AddTransactionDialog.Submit | components/add-transaction-dialog.tsx:78-147 | every submit marks the form submitted; invalid values only show their issues; valid ones follow the intended submit flow, add its toast, set success and the reset timer on success, and end not loading |
| AddTransaction.AddTransactionDialog.ResetTimerFires | components/add-transaction-dialog.tsx:125-130 | the timer resets the form to its defaults with no issues and not submitted, clears the success flag and closes the dialog |
| Settings.Notifications.Toggled | app/dashboard/settings/page.tsx:160 | the chosen preference flips and the other four are unchanged |
| Settings.ToggleTwice | app/dashboard/settings/page.tsx:159-161 | toggling the same preference twice restores all preferences |
| Settings.DefaultsOn | app/dashboard/settings/page.tsx:34-40 | transactions, weekly and budget are on by default, and goals and marketing off |
| Settings.StoredOr | app/dashboard/settings/page.tsx:75-76 | a missing or empty stored value gives the default; any other is used |
| Settings.ResolvedTheme | app/dashboard/settings/page.tsx:90-95 | `system` resolves to the preferred colour scheme; any other theme is used as is |
| Settings.RemoveClass | app/dashboard/settings/page.tsx:88 | removing a class keeps exactly the other classes |
| Settings.AddClass | app/dashboard/settings/page.tsx:92-94 | adding a class keeps the others and includes it |
| Settings.ThemedClassesShape | app/dashboard/settings/page.tsx:87-95 | after applying, the resolved theme is on the root, the other of light and dark is not, and every other class is unchanged |
| Settings.ThemedClasses | app/dashboard/settings/page.tsx:87-95 | applying a theme always leaves the resolved theme on the root |
| Settings.OfferedThemeSetsOneMode | app/dashboard/settings/page.tsx:87-95 | for the three offered themes exactly one of light and dark is on the root, and `system` sets dark exactly when it is preferred |
| Settings.PasswordProblem | app/dashboard/settings/page.tsx:133-142 | a change is refused as a mismatch when the passwords differ, otherwise as too short under six characters, and accepted exactly when neither holds |
| Settings.MismatchBeforeLength | app/dashboard/settings/page.tsx:134-142 | a short mistyped password is reported as a mismatch, not as too short |
| Settings.ThemeChoice.Value | app/dashboard/settings/page.tsx:302-305 | every theme button sets light, dark or system |
| Settings.SettingsPage.constructor | app/dashboard/settings/page.tsx:14-40 | the page starts loading, not signed out, with no user, empty fields, no toasts or updates, theme `system`, accent `indigo` and the default preferences |
| Settings.SettingsPage.LoadPreferences | app/dashboard/settings/page.tsx:74-81 | theme and accent come from storage or their defaults; stored notifications replace the current ones; every other field is unchanged |
| Settings.SettingsPage.LoadUser | app/dashboard/settings/page.tsx:53-69 | a rejected `getUser` changes nothing; no user clears it and ends loading; a rejected profile query keeps the user and leaves loading on; a read profile fills name and phone with missing values as empty, and loading ends; nothing else changes |
| Settings.SettingsPage.ApplyTheme | app/dashboard/settings/page.tsx:85-96 | only the root's classes change, to the themed classes of the old ones |
| Settings.SettingsPage.SelectTheme | app/dashboard/settings/page.tsx:302-312 | a theme button sets its value and toasts its label; nothing else changes |
| Settings.SettingsPage.SelectAccent | app/dashboard/settings/page.tsx:330-336 | an accent swatch sets its value and toasts its name; nothing else changes |
| Settings.SettingsPage.ChangePassword | app/dashboard/settings/page.tsx:133-157 | a refused change only toasts its reason; an accepted one announces the reset mail, clears all three fields and ends not saving; nothing else changes |
| Settings.SettingsPage.PasswordButtonEnabled | app/dashboard/settings/page.tsx:277-278 | the button is enabled exactly when not saving and the new password is non-empty |
| Settings.SettingsPage.ToggleNotification | app/dashboard/settings/page.tsx:159-164 | exactly the chosen preference flips, and a toast confirms it; nothing else changes |
| Settings.SettingsPage.SaveProfile | app/dashboard/settings/page.tsx:109-131 | an update with name, phone and time is issued only for a user with an id, toasting its result; saving ends false; nothing else changes |
| Settings.SettingsPage.SignOut | app/dashboard/settings/page.tsx:103-107 | signing out ends the session, toasts it and goes to the login page; nothing else changes |
| Signup.MessageFor | app/auth/signup/page.tsx:33-47 | each field's rule has its own message; the mismatch message belongs to the confirmation field |
| Signup.FieldErrors | app/auth/signup/page.tsx:33-47 | the name is flagged under two characters, the e-mail when invalid, the password under six, the confirmation when it differs; no errors exactly when all hold |
| Signup.MismatchAloneRejects | app/auth/signup/page.tsx:43-47 | an otherwise valid form with a different confirmation is rejected on the confirmation field only |
| Signup.WithField | app/auth/signup/page.tsx:168-241 | a field's change sets that field to the new text and keeps the other three |
| Signup.Revalidated | app/auth/signup/page.tsx:59-67 | after a submit the edited field shows its message exactly when the new values fail its rule; every other field keeps its message |
| Signup.MismatchFollowsConfirmation | app/auth/signup/page.tsx:43-47 | after a mismatch, fixing only the password leaves the mismatch message, while retyping the confirmation to match removes it |
| Signup.EmptyFormRejected | app/auth/signup/page.tsx:59-67 | the empty form fails on name and password but not on the confirmation |
| Signup.OutcomeToast | app/auth/signup/page.tsx:85-95 | success is toasted exactly when the account was created; a refusal shows `Signup failed. ` and its message |
| Signup.SignupPage.constructor | app/auth/signup/page.tsx:57-67 | the page starts idle on the sign-up route with the empty form, no errors and not yet submitted |
| Signup.SignupPage.Edit | app/auth/signup/page.tsx:59-67 | a field change sets that field only; before the first submit the errors stay, afterwards only the edited field's message is recomputed from the new values; nothing else changes |
| Signup.SignupPage.Submit | app/auth/signup/page.tsx:69-99 | every submit marks the form submitted and keeps its values; invalid values only show their errors; valid ones send the request, toast the outcome, go to the login page exactly on creation, and end not loading |
| Nav.IsActive | components/dashboard-nav.tsx:49-50 | an item is active on its own path; the overview only there, the others on any path starting with their link |
| Nav.StyleOf | components/dashboard-nav.tsx:55-66 | the highlighted link and icon classes are used exactly for the active item |
| Nav.Rendered | components/dashboard-nav.tsx:24-50 | the three items render in order, each with whether it is active |
| Nav.HrefsIndependent | components/dashboard-nav.tsx:33-39 | neither of the transactions and settings links is a prefix of the other |
| Nav.AtMostOneActive | components/dashboard-nav.tsx:24-50 | for any path at most one of the three items is active |
| Nav.PrefixMatches | components/dashboard-nav.tsx:49-50 | the overview is active only on its own path, and the prefix rule also matches `/dashboard/settingsX` |

## Left out

- Floating point: amounts are exact reals. Float rounding of sums, NaN (the `|| 0` guards) and the `toFixed(2)` and `toFixed(0)` text are not modelled. `toFixed(1)` in the savings rate is modelled as rounding to the nearest tenth on reals, halves away from zero.
- SpendingChart.Accumulate uses a map, where the source accumulates into a plain `{}` object. A category named after an `Object.prototype` member such as `constructor`, `toString` or `valueOf` reads the inherited function, so its bucket becomes a string and `toFixed` later throws; a category named `__proto__` is dropped from the chart and the total. The model gives every label a real total.
- SpendingChart.EveryCategoryGrouped is stated for the map model and therefore does not hold in the app for a category named `__proto__`.
- The chart's default `type = 'expense'` is not modelled: every chart operation takes the type explicitly.
- SpendingChart.SpendingView requires a non-zero total when there are buckets. All-zero amounts make the percentages divide by zero in the app, which real arithmetic cannot express.
- Dates: the local year and month of a timestamp are the parameter `localDate`. Time zones and date formatting are not modelled.
- MonthlyTrend.MonthKeyOrder holds only for four-digit years. `localeCompare` is modelled as code-unit order, which agrees with it on keys made of digits and a dash.
- Key order of `Object.entries`: integer-like keys, which JavaScript lists first, are not modelled. Keys are in first-seen order, and equal category totals keep that order through the sort; the lemmas state the sort as non-increasing without fixing the order of ties.
- Lowercasing covers ASCII letters only.
- Strings are sequences of characters; lengths count characters rather than UTF-16 code units.
- Supabase: each call's result is an outcome parameter (fetch, insert, update, sign-up, get-user). Query ordering and limits happen in the database and are not modelled. The realtime channel is a subscription flag.
- Asynchrony: each handler runs to completion. Interleaved effects and React batching are not modelled.
- `Number`, `parseFloat` and the e-mail check are parameters.
- AddTransaction.RecordAmountPositive holds only when `parseFloat` agrees with `Number` on the accepted text; they differ on inputs such as hexadecimal numerals.
- The zod refinement on the sign-up form is modelled as running together with the field rules, reporting every failing rule at once.
- Browser storage writes and `JSON.parse` of stored notifications are not modelled. A stored value arrives already parsed as a parameter of `LoadPreferences`.
- `classList` exceptions for invalid tokens are not modelled.
- Toasts are recorded as a list; console logging, `router.refresh` and the "Security audit completed" toast are not modelled.
- Presentation-only files (landing page, illustrations, loading screens), the dashboard layout's server-side redirect, the login page and the database setup script are not part of this model.
- The sign-up success text is kept exactly as the source stores it, mis-encoded sparkle included.

## Findings

| source | as written | input that shows it | evidently intended | confidence | as-written member | corrected member |
|---|---|---|---|---|---|---|
| components/add-transaction-dialog.tsx:105-118 | The retry's result is bound to `secondError`, but line 116 tests the undeclared `error2`. Every rejected first insert therefore throws a ReferenceError. Its message `error2 is not defined` is classified as the generic failure. | A signed-in user; the first insert is rejected; the retry stores the record. The user is told the add failed, and `success` stays false, although the record was stored. A duplicate rejection is also reported generically. | Throw the retry's own error only when the retry fails, and report success when it stores the record. | not executed | AddTransaction.SubmittedAsWritten, AddTransaction.AsWrittenReportsStoredRetryAsFailure | AddTransaction.Submitted, AddTransaction.SubmittedOutcome |
