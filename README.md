# FinTrack core, modelled in Dafny

FinTrack is a single-page personal-finance application. One React component,
`App`, holds:

- the user directory;
- the signed-in user;
- a demo switch;
- one financial record per user. A record has eight collections: transactions, debts, goals, SIPs, fixed deposits, stocks, accounts and budgets.

Views read the record and change it through `prev => next` updater functions. `App` writes the result back to browser storage.

This project models that core:

- **Session and directory logic of `App`.** Sign-up, login, logout, the password-reset token, session restore, loading and persisting the record, and the demo write guard. This is the class `App.FinTrackApp`, whose fields the handlers update.
- **The record and its updaters.** These are `Store.FinancialData` and `Store.Apply`.
- **Per-view computations.** The dashboard cards and charts, budgets, goals, debts, accounts, investments, the calendar, the CSV import, the transaction filter, the translation lookup, the tip of the day, and the AI advisor's chat state.
- **The reset-password page.** It drives `App.FinTrackApp.ResetPassword`.

The model takes the form of the source:

- Code that computes a value from its inputs is a function, with its properties as lemmas.
- Code that builds its result with loops or `forEach` over mutable locals is a method with loop invariants, proved against a specification. The grouping sums, the calendar's event list and the translation walk are proved equal to specification functions. The calendar buckets are proved to satisfy a predicate saying which events each day holds. The calendar grid is described cell by cell.
- A component whose state changes in place is a class with `modifies` clauses. These are the app, the advisor chat, the calendar page and the reset-password form.

Time, storage keys, `parseFloat`, date parsing and month naming cannot be reproduced here. They enter the model as parameters: `now`, `later`, `timeOf`, `numberOf`, `isoDate`, `monthOf`, `monthIndex`, `dayKey`, `startDay`.

## Model

| member | source | states |
|---|---|---|
| Types.PagesEnumerated | types.ts:1-11 | the page enumeration has exactly nine members, and no two share a label |
| Types.ParseTransactionType | types.ts:13 | a string is a transaction type exactly when it is "income" or "expense" |
| Types.TransactionTypeRoundTrip | types.ts:13 | reading a type's string value gives back that type, and a string read as a type is that type's value |
| Types.DebtTypeNamesDistinct | types.ts:25 | the four debt types have four different string values |
| Types.AccountTypeNamesDistinct | types.ts:68 | the three account types have three different string values |
| Store.InitialUserData | App.tsx:24-33 | a new user's record has every collection empty |
| Store.EmptyIsInitial | App.tsx:24-33 | a record with every collection empty is exactly the initial record |
| Store.AddProgress | App.tsx:257 | added progress never takes a goal above its target; below the target the amount is added in full; the goal's other fields are kept |
| Store.ProgressHasNoLowerClamp | App.tsx:257 | a negative amount can take a goal's saved amount below zero, since the clamp is from above only |
| Store.ProgressCapsAtTarget | App.tsx:257 | the demo goal at 22000 of 50000 is capped at 50000 when 40000 is added |
| Store.Apply | App.tsx:237-269 | an updater rewrites only its target collection: each of the other seven collections comes out identical |
| Store.OtherCollectionsUnchanged | App.tsx:237-269 | every updater leaves every collection other than its target identical |
| Store.AddAppendsId | App.tsx:237-269 | an add keeps its collection as an unchanged prefix and appends one entity: the draft under the fresh id (a goal with a saved amount of zero) |
| Store.AddGoalStartsAtZero | App.tsx:254 | a goal added through the store starts with no saved amount; the other fields come from the draft |
| Store.AddTransactionsAppendsIds | App.tsx:240 | a batch import appends the batch's ids, in batch order, after the existing ones |
| Store.UpdateKeepsIds | App.tsx:237-269 | an update neither adds nor removes entities: the target's id sequence is unchanged |
| Store.UpdateOfMissingIdIsNoOp | App.tsx:237-269 | an update whose id no entity carries leaves the whole record unchanged |
| Store.DeleteRemovesId | App.tsx:237-269 | a delete leaves its collection as the entities not carrying the id, in their order, so exactly that id is removed and the other ids are kept in order |
| Store.DeleteOfMissingIdIsNoOp | App.tsx:237-269 | a delete whose id no entity carries leaves the whole record unchanged |
| Store.GoalProgressRewritesMatches | App.tsx:257 | progress rewrites exactly the goals carrying the given id, each by the capped sum, and leaves the rest alone |
| Store.GoalProgressKeepsIds | App.tsx:257 | progress never changes which goals exist |
| App.FindByEmail | App.tsx:146-150 | the index of the first user whose address equals the given one ignoring case, or -1 exactly when there is none |
| App.FindById | App.tsx:90-101 | the index of the first user with the given id, or -1 exactly when there is none |
| App.Authenticate | App.tsx:173-184 | login succeeds exactly when the first user with that address (ignoring case) has the given hash, and yields that user |
| App.SignUpThenLogin | App.tsx:144-184 | after a sign-up under an address no user has, logging in with that address and the same hash signs in exactly the new user |
| App.AuthenticateInUniqueDirectory | App.tsx:173-184 | when addresses are unique, login succeeds exactly for a stored user's address together with that user's own hash |
| App.RegisterKeepsEmailsUnique | App.tsx:144-170 | appending a user whose address is new keeps addresses unique |
| App.ResetTokenText | App.tsx:199-207 | a reset token starts with "reset_", the user id and "_" |
| App.ResetTokenTextInjective | App.tsx:199-207 | tokens issued to one user at different times differ |
| App.SetHashKeepsEmails | App.tsx:210-232 | replacing one user's hash keeps addresses unique |
| App.FinTrackApp.constructor | App.tsx:63-72 | the app starts from the stored directory, records and session entries, signed out, on the dashboard, on the sign-up screen and out of demo mode, holding the demo fixture built from its dates |
| App.FinTrackApp.SignUp | App.tsx:144-170 | a taken address (ignoring case) sets the error and changes nothing else; otherwise the user is appended, given an empty record, signed in and flagged new; uniqueness of addresses is preserved |
| App.FinTrackApp.Login | App.tsx:173-184 | signs in exactly the user that Authenticate accepts and records the session; otherwise sets the invalid-credentials error; the directory and records are untouched |
| App.FinTrackApp.Logout | App.tsx:186-196 | clears the user, the demo flag, the session entries and the reset token, and returns to the dashboard page and the sign-up screen; the stored records are kept |
| App.FinTrackApp.ForgotPasswordRequest | App.tsx:199-207 | for a known address, stores a token for that user, stamped with the first clock reading and expiring 15 minutes after the second, and returns it; for an unknown address, fails with its message and leaves the token alone |
| App.FinTrackApp.ResetPassword | App.tsx:210-232 | a missing, mismatched or expired token fails and changes no user; a matching live token for an existing user replaces exactly that user's hash; any stored token is consumed; address uniqueness is preserved |
| App.FinTrackApp.RestoreSession | App.tsx:90-101 | a stored session id that is not empty and names a user signs that user in; otherwise the signed-in user is unchanged |
| App.FinTrackApp.LoadUserData | App.tsx:104-128 | demo mode loads the fixture as the demo user; a signed-in user loads their stored record, or the initial one (which is then stored); signed out loads nothing |
| App.FinTrackApp.PersistData | App.tsx:131-135 | the loaded record is written under the user's id exactly when signed in with a record and not in demo mode |
| App.FinTrackApp.Mutate | App.tsx:137-142 | in demo mode, or with no record, nothing changes; otherwise the record becomes the updater's result and is stored for the signed-in user |
| App.FinTrackApp.ExploreDemo | App.tsx:308 | sets demo mode and nothing else |
| App.FinTrackApp.NavigateTo | App.tsx:271 | sets the current page and nothing else |
| App.FinTrackApp.ReadWelcomeFlag | components/Dashboard.tsx:60-66 | reports whether the user is new, and clears the flag so the welcome shows once |
| ResetPasswordPage.PasswordHash | pages/ResetPassword.tsx:35 | the hash sent is the password behind a seven-character prefix |
| ResetPasswordPage.PasswordHashInjective | pages/ResetPassword.tsx:35 | different passwords send different hashes |
| ResetPasswordPage.Utf16Length | pages/ResetPassword.tsx:26 | JavaScript's string length lies between the number of characters and twice that |
| ResetPasswordPage.Utf16LengthOfBasicText | pages/ResetPassword.tsx:26 | on text without characters above U+FFFF, JavaScript's length is the number of characters |
| ResetPasswordPage.Validate | pages/ResetPassword.tsx:22-29 | a mismatch is reported first; a matching password shorter than six UTF-16 code units is reported as too short; no error exactly when both match and the password is at least six code units |
| ResetPasswordPage.ThreeEmojiAreLongEnough | pages/ResetPassword.tsx:26 | three characters above U+FFFF count as six, so such a password passes the length check |
| ResetPasswordPage.ResetPasswordForm.constructor | pages/ResetPassword.tsx:13-18 | the form starts empty, not loading, without messages |
| ResetPasswordPage.ResetPasswordForm.Fill | pages/ResetPassword.tsx:13-15 | sets the three fields and nothing else |
| ResetPasswordPage.ResetPasswordForm.Submit | pages/ResetPassword.tsx:20-45 | a validation error is shown without calling the app; otherwise the app's reset runs with the hashed password, success shows its message and schedules the return to login, and failure shows the app's message |
| Ledger.Expenses | types.ts:14 | keeps exactly the expenses of the list |
| Ledger.Incomes | types.ts:13 | keeps exactly the income of the list |
| Ledger.SplitIsExact | types.ts:13 | every transaction is income or an expense, never both: the two lists share out the transactions |
| Ledger.SignedSumIsNet | components/Dashboard.tsx:81-84 | the signed sum of the transactions is total income less total expenses |
| DashboardView.DashboardTotals | components/Dashboard.tsx:81-84 | the cards show total income, total expenses, and savings as their difference |
| DashboardView.SavingsIsSignedSum | components/Dashboard.tsx:84 | savings is the signed sum of all transactions |
| DashboardView.AddingTransactionMovesTotals | components/Dashboard.tsx:81-84 | adding a transaction through the store raises its own total, and moves savings, by its amount, and leaves the other total alone |
| DashboardView.NetFlows | components/dashboard/SummaryCard.tsx:25-30 | the savings card's per-date net flows are the grouped signed amounts, in first-seen date order |
| DashboardView.PlottedSeries | components/dashboard/SummaryCard.tsx:38 | at most 30 points are drawn, and they are the last ones of the series |
| DashboardView.ChartSeriesSumsToCard | components/dashboard/SummaryCard.tsx:18-31 | each card's chart points add up to that card's figure |
| DashboardView.NetSeriesOnePointPerDate | components/dashboard/SummaryCard.tsx:25-30 | the savings series has one point per distinct date, each the signed sum of that date's transactions |
| DashboardView.WeeklyData | components/dashboard/WeeklyExpenses.tsx:22-35 | the pie slices are the expenses of the last seven days, summed by category |
| DashboardView.WeeklyBreakdownCorrect | components/dashboard/WeeklyExpenses.tsx:22-35 | there is one slice per category with a counted expense, and each slice is that category's sum; the slices add up to the week's total; there are no slices exactly when no expense counts (the empty-state message) |
| DashboardView.AddToMonth | components/dashboard/SavingsChart.tsx:15-22 | one transaction adds its amount to its month's income when it is income, and to the month's expense otherwise |
| DashboardView.SavingsData | components/dashboard/SavingsChart.tsx:10-33 | the chart is the months, ordered by month index, each with its income less its expense |
| DashboardView.SavingsMonths | components/dashboard/SavingsChart.tsx:25-27 | the chart has one point per month that has a transaction, no month twice, and the points are ordered by month |
| DashboardView.SavingsNets | components/dashboard/SavingsChart.tsx:29-32 | each point is its month's income less its month's expense, with every non-income transaction counted as expense |
| BudgetsView.SpentByCategory | components/Budgets.tsx:59-65 | the spending per category is the grouped sum of the expenses |
| BudgetsView.SpentIsCategoryTotal | components/Budgets.tsx:86 | a budget's spent figure is the sum of the expenses in its category, and 0 for a category without expenses |
| BudgetsView.RemainingLabelOf | components/Budgets.tsx:88-120 | the caption reads "Overspent" exactly when spending exceeds the limit, and its amount is the non-negative distance to the limit |
| BudgetsView.OverspentMeansFullBar | components/Budgets.tsx:87-120 | with a positive limit, a budget is overspent exactly when its percentage exceeds 100, and then its bar is full |
| BudgetsView.ProgressBarColor | components/Budgets.tsx:67-71 | positive below 50 percent, primary from 50 to below 90, negative from 90 up |
| BudgetsView.WarningColorAtNinetyPercent | components/Budgets.tsx:67-71 | with a positive limit, the bar is red exactly when nine tenths of the limit is spent, and green exactly while under half |
| BudgetsView.SaveBudget | components/Budgets.tsx:46-57 | rejected exactly when the category or the limit is blank; otherwise a new budget from the form, or the edited budget under its own id |
| BudgetsView.BudgetData | components/dashboard/MonthlyBudget.tsx:23-38 | one bar per budget, in budget order, with its category, its percentage spent and the colour of its position |
| BudgetsView.BudgetColorsCycle | components/dashboard/MonthlyBudget.tsx:34 | two bars share a colour exactly when their positions differ by a multiple of four |
| BudgetsView.ShownBars | components/dashboard/MonthlyBudget.tsx:52-56 | at most the first four bars are shown, each at a width of at most 100 |
| BudgetsView.DemoFoodBudget | components/dashboard/MonthlyBudget.tsx:23-38 | the demo Food budget reads 73.5 percent, in the middle colour, with 2650 remaining |
| Dates.DaysInMonth | components/Calendar.tsx:53-55 | 28 to 31 days; 31 exactly in the seven long months; 29 exactly in February of a leap year |
| Dates.DaysLeftInMonth | components/dashboard/MonthlyBudget.tsx:40 | between 0 and 30, and 0 exactly on the last day of the month |
| Dates.ChangeMonth | components/Calendar.tsx:95-97 | the result is a valid month exactly `offset` months from the start |
| Dates.MonthNumberInjective | components/Calendar.tsx:95-97 | a valid month is determined by its month count |
| Dates.ChangeMonthComposes | components/Calendar.tsx:95-97 | two steps are one step by their sum, and stepping back undoes a step |
| Dates.DecemberRollsOver | components/Calendar.tsx:95-97 | after December comes January of the next year, and before January comes December of the previous one |
| Progress.Percentage | components/GoalsTracker.tsx:22 | with a positive whole, the part as a percentage of it; otherwise 0 |
| Progress.PercentageThreshold | components/Budgets.tsx:67-71 | with a positive whole, the percentage is below a threshold exactly when the part is below that share of the whole |
| Progress.PercentageComparesPartToWhole | components/DebtTracker.tsx:21 | with a positive whole, the percentage is below, at or over 100 exactly when the part is below, at or over the whole |
| Progress.BarWidth | components/Budgets.tsx:114 | the bar is the percentage, capped at 100 |
| GoalsView.ProgressKeepsBarWithinTarget | components/GoalsTracker.tsx:22 | a goal whose progress was added through the store never reads over 100 percent |
| GoalsView.DeadlineLabelOf | components/GoalsTracker.tsx:24-34 | "passed" exactly before today, "due" exactly today, otherwise the positive number of days to the deadline |
| GoalsView.DeadlineLabelCountsDown | components/GoalsTracker.tsx:24-34 | a day later the count drops by one, then reads "due", then "passed" and stays there |
| GoalsView.SaveGoal | components/GoalsTracker.tsx:101-116 | rejected exactly when a field is blank; a new goal from the form; an edit keeps the goal's id and its saved amount |
| GoalsView.SavedEditKeepsProgress | components/GoalsTracker.tsx:101-116 | an edit applied through the store leaves the goal's saved amount as it was |
| GoalsView.SubmitProgress | components/GoalsTracker.tsx:118-124 | a request is made exactly when a goal is selected and an amount typed, then the dialog closes; otherwise the dialog stays as it was |
| GoalsView.SubmittedProgressReachesGoal | components/GoalsTracker.tsx:118-124 | the submitted progress reaches exactly the selected goal, capped at its target |
| GoalsView.ChartData | components/dashboard/FinancialGoals.tsx:23-29 | one bar per goal, in goal order, with its name, saved amount and target |
| GoalsView.GoalBarColor | components/dashboard/FinancialGoals.tsx:55-56 | the colour is the palette entry at the bar's position modulo four |
| GoalsView.GoalColorsCycle | components/dashboard/FinancialGoals.tsx:55-56 | two bars share a colour exactly when their positions differ by a multiple of four |
| GoalsView.ProgressMovesOneBar | components/dashboard/FinancialGoals.tsx:23-29 | progress through the store changes only the value of the bars of the goal concerned |
| GoalsView.DemoGoaGoal | components/GoalsTracker.tsx:22 | the demo Goa goal reads 44 percent |
| DebtsView.RemainingAmount | components/DebtTracker.tsx:22 | what remains plus what was paid is the total |
| DebtsView.PaidOffAtHundredPercent | components/DebtTracker.tsx:21-22 | with a positive total, a debt reads under 100 percent exactly while something remains, and 100 exactly when nothing does |
| DebtsView.CreditCardByName | components/DebtTracker.tsx:58-61 | the string test selects exactly the credit-card debt type |
| DebtsView.SectionsPartitionDebts | components/DebtTracker.tsx:58-61 | the two sections share out the debts: credit cards in one, every other type in the other |
| DebtsView.SectionsKeepOrder | components/DebtTracker.tsx:58-61 | each section keeps the list's relative order |
| DebtsView.SaveDebt | components/DebtTracker.tsx:86-97 | rejected exactly when the name or an amount is blank; otherwise a new debt, or the edited one under its own id |
| DebtsView.DemoDebtCard | components/DebtTracker.tsx:21-22 | the demo credit-card bill is 300/7 percent paid with 20000 remaining, in the credit-card section |
| AccountsView.FilteredAccounts | components/Accounts.tsx:68-75 | with no query, every account; otherwise exactly the accounts whose name or type contains the query, ignoring case |
| AccountsView.SearchKeepsOrder | components/Accounts.tsx:68-75 | the search keeps list order |
| AccountsView.SearchIgnoresQueryCase | components/Accounts.tsx:68-75 | a query and its lower-cased form find the same accounts |
| AccountsView.IconFor | components/Accounts.tsx:58-66 | the card icon exactly for credit-card accounts |
| AccountsView.SaveAccount | components/Accounts.tsx:46-56 | rejected exactly when the name or the balance is blank; otherwise a new account, or the edited one under its own id |
| InvestmentsView.GainLoss | components/InvestmentTracker.tsx:199-202 | the gain is the shares times the price change |
| InvestmentsView.GainIffPriceHeld | components/InvestmentTracker.tsx:251-254 | a holding of some shares shows a gain exactly when the price has not fallen |
| InvestmentsView.DemoStockGain | components/InvestmentTracker.tsx:199-202 | the demo holding is worth 47500 with a gain of 25000 |
| InvestmentsView.HandleSave | components/InvestmentTracker.tsx:64-88 | a request exactly when the active tab's form is filled; it targets that tab's list, updates when editing (under the edited id) and adds under the fresh id otherwise; the item saved carries the form's text fields, the SIP amount, principal, rate and prices as `parseFloat` of their inputs and the share count as `parseInt` of its input |
| InvestmentsView.SaveTouchesOnlyItsTab | components/InvestmentTracker.tsx:64-88 | a save on one tab leaves every other list as it was |
| TransactionsView.Lines | components/Transactions.tsx:126 | the trimmed text has at least one line |
| TransactionsView.Header | components/Transactions.tsx:127 | the header is the first line's cells, trimmed and lower-cased |
| TransactionsView.MissingHeaders | components/Transactions.tsx:128-130 | exactly the required columns absent from the header |
| TransactionsView.LastIndexOf | components/Transactions.tsx:135-138 | the last position of a column, since a repeated column keeps its last value; -1 exactly when it is absent |
| TransactionsView.ParseRowErrors | components/Transactions.tsx:141-149 | a data line fails only for a missing type cell or an invalid date |
| TransactionsView.ParseRowKeeps | components/Transactions.tsx:140-154 | a row is kept exactly when date, name and category are present, the amount is a number and the type is income or expense, and the draft carries those cells |
| TransactionsView.ParseLines | components/Transactions.tsx:133-155 | an import keeps at most one draft per line, and fails only with some line's own error |
| TransactionsView.ParseLinesConcat | components/Transactions.tsx:133-155 | rows are kept in file order |
| TransactionsView.ParseCSV | components/Transactions.tsx:125-156 | missing columns fail with exactly those columns; past the header only a row can fail; success yields at most one draft per data line |
| TransactionsView.FilteredTransactions | components/Transactions.tsx:158-167 | listed exactly when the transaction matches the type button and the query, newest first |
| TransactionsView.FilteredTransactionsCorrect | components/Transactions.tsx:158-167 | the list holds exactly the matching transactions, each as often as in the input, sorted newest first |
| Sorting.SortByStable | components/Transactions.tsx:166 | sorting keeps the elements sharing a key in their original order |
| TransactionsView.SameTimeKeepsListOrder | components/Transactions.tsx:158-167 | transactions of the same date appear in the list in the order they have in the input |
| TransactionsView.UnfilteredListIsPermutation | components/Transactions.tsx:158-167 | with no query and the "all" button, the list is every transaction, re-ordered |
| TransactionsView.SaveTransaction | components/Transactions.tsx:89-100 | rejected exactly when a field is blank; otherwise a new transaction from the form, or the edited one under its own id |
| CalendarView.FinancialEvents | components/Calendar.tsx:20-38 | one event per expense, in list order, then one per fixed deposit |
| CalendarView.ExpenseEventsFirst | components/Calendar.tsx:23-29 | income makes no event; the events start with the expenses, in list order, each named and dated as its transaction, and there are as many events as expenses plus deposits |
| CalendarView.MaturityEventsLast | components/Calendar.tsx:31-35 | after the expenses' events comes a "FD Matures: " event for each deposit, in list order, on its maturity date |
| CalendarView.EventsByDate | components/Calendar.tsx:40-48 | each day with an event has a bucket holding exactly that day's events in order, and no other day has one |
| CalendarView.EventsOnIsDaysEvents | components/Calendar.tsx:65 | reading any day gives exactly that day's events, and none for a day without a bucket |
| CalendarView.BucketSizesSumToEventCount | components/Calendar.tsx:40-48 | each bucket's size is the number of events on its day, and the sizes add up to the number of events |
| CalendarView.Dots | components/Calendar.tsx:80 | at most three dots, the kinds of the day's first events |
| CalendarView.BuildGrid | components/Calendar.tsx:57-93 | blanks for the days before the 1st, then one cell per day with its dots, its today mark and its selected mark |
| CalendarView.CalendarPage.constructor | components/Calendar.tsx:16-17 | the calendar opens on today's month with today selected |
| CalendarView.CalendarPage.ChangeMonth | components/Calendar.tsx:95-97 | the month shown moves by exactly `offset` months; the selection is kept |
| CalendarView.CalendarPage.SelectDay | components/Calendar.tsx:74 | clicking a day selects it and keeps the month shown |
| Language.WalkStaysMissing | contexts/LanguageContext.tsx:200-205 | once a step of the walk is missing, the rest of it is missing too |
| Language.WalkPath | contexts/LanguageContext.tsx:203-205 | the loop over the dotted key's parts reaches the entry the path leads to, or nothing once a part is missing |
| Language.Translate | contexts/LanguageContext.tsx:197-211 | walks the path in the current table; at the first missing part it walks the whole path in the English table and reads the key itself when that is missing or empty; a path found reads as its entry, or as the key when that is empty |
| Language.MissingFallsBackToEnglish | contexts/LanguageContext.tsx:202-208 | a key that the current language lacks reads exactly as in English |
| Language.ResolvedPathReadsAsText | contexts/LanguageContext.tsx:197-211 | a key that leads to a non-empty text reads as that text |
| Language.UnknownKeyReadsAsItself | contexts/LanguageContext.tsx:202-208 | a key found in neither language reads as the key itself |
| Language.FirstKeyMissing | contexts/LanguageContext.tsx:200-208 | a key whose first part the current table lacks reads exactly as in English, whatever follows that part |
| Language.GoalKeysReadInEnglish | contexts/LanguageContext.tsx:156-181 | the Hindi table has no goal keys, so they read as in English |
| Tips.FinancialTips | components/dashboard/TipOfTheDay.tsx:11-42 | there are thirty tips |
| Tips.TipIndex | components/dashboard/TipOfTheDay.tsx:46-47 | day d of the month shows tip d-1, and the 31st wraps to the first tip |
| Tips.TipOfTheDay | components/dashboard/TipOfTheDay.tsx:46-48 | the tip shown is one of the thirty |
| Tips.SameTipIndexIff | components/dashboard/TipOfTheDay.tsx:46-47 | two days show the same tip exactly when they are the same day or are the 1st and the 31st |
| Tips.ThirtyFirstRepeatsFirst | components/dashboard/TipOfTheDay.tsx:46-48 | the 31st shows the first tip again |
| Advisor.DigitRun | components/AiAdvisor.tsx:32 | the length of the leading run of digits |
| Advisor.AfterFirstSpace | components/AiAdvisor.tsx:33 | the text after the first space, or the whole line when it has none |
| Advisor.ParseLine | components/AiAdvisor.tsx:22-39 | a blank line gives nothing; "### ", "## " and "* " lines are headings and bullets carrying the rest of the line, tried in that order; "1. " lines are numbered items; everything else is a paragraph of the trimmed line |
| Advisor.PresentCountsNotBlank | components/AiAdvisor.tsx:21-40 | the lines render as exactly one block per line that is not blank once trimmed |
| Advisor.PresentComesFromLines | components/AiAdvisor.tsx:21-40 | every rendered block is the parse of one of the lines |
| Advisor.ParseMarkdownCount | components/AiAdvisor.tsx:36-40 | the rendered reply has as many blocks as the text has non-blank lines, and each block comes from one of them |
| Advisor.ErrorText | components/AiAdvisor.tsx:126 | the error's own message, or the fallback text when it is empty |
| Advisor.Stored | components/AiAdvisor.tsx:61-68 | nothing is stored exactly when the history is empty |
| Advisor.StoreRoundTrip | components/AiAdvisor.tsx:54-68 | restoring what was stored gives back the history |
| Advisor.AdvisorChat.constructor | components/AiAdvisor.tsx:45-59 | the chat opens on the saved history, with empty input, not loading and no error |
| Advisor.AdvisorChat.Type | components/AiAdvisor.tsx:47 | typing changes only the input |
| Advisor.AdvisorChat.ClearHistory | components/AiAdvisor.tsx:74-77 | clears the history and the error, and removes the stored history |
| Advisor.AdvisorChat.InitialAdvice | components/AiAdvisor.tsx:79-110 | success shows the prompt and the reply as a fresh conversation; failure keeps the history and shows the error; loading ends either way |
| Advisor.AdvisorChat.StartSend | components/AiAdvisor.tsx:112-120 | blank input or a pending request changes nothing; otherwise the user's message is appended and sent, the input cleared and loading started |
| Advisor.AdvisorChat.FinishSend | components/AiAdvisor.tsx:122-131 | a reply is appended to the current history; a failure restores the history from before the message and shows the error; loading ends |
| Advisor.AdvisorChat.SendMessage | components/AiAdvisor.tsx:112-132 | a sent message ends with the message and its reply appended, or with the history as before and the error shown |

## Left out

- Browser storage, JSON encoding and `sessionStorage`/`localStorage` are fields of the classes. Parse failures of stored JSON are not modelled.
- The network is left out: the advice service, the welcome e-mail and the `await` points. The advisor's reply is a parameter.
- `InitialAdvice` does not build the prompt text from the record. The prompt is a parameter.
- React effect scheduling, re-rendering and animation are left out. The advisor's send is split into `StartSend` and `FinishSend` around the one await whose interleaving matters.
- The `popstate` handler, the URL hash and switching between auth screens are left out, because they only choose what is rendered (App.tsx:78-86, App.tsx:303-316).
- JavaScript `Date` is left out: parsing, time zones, `toDateString`, locale month names and `getDay`. The date key, month label, month index, timestamp and first weekday are parameters.
- `parseFloat`, `NaN` and floating-point rounding are left out. Amounts are `real`, and number parsing is a parameter.
- `toLowerCase` is modelled on ASCII letters only, and `\s` on ASCII white space only.
- Object-key order is modelled as first-insertion order. JavaScript lists integer-like keys first, and the model does not reproduce that.
- Id generation with `Date.now()` is left out. Fresh ids are parameters, and the model does not prove they are unique.
- Language.Translate: looking up a key on a JavaScript prototype (such as `toString`) or indexing into a string is not modelled. The walk only steps through tables.
- BudgetsView.SpentByCategory and DashboardView.WeeklyData: the per-category sums start from an empty map, not from a JavaScript object. A category named like an inherited member (`constructor`, `toString`) would read that member as its starting value in the source. The model starts every category from zero.
- TransactionsView.ParseCSV: quoted cells and a cell containing a comma are not handled, matching the source's plain `split`.
- ResetPasswordPage.ResetPasswordForm.Submit: the three-second redirect timer is a flag, `redirectScheduled`, not a delay.
- Store.AddProgress: the progress clamp is from above only, following the code. A saved amount can go below zero.
- Rendering-only components are left out: the landing page, sidebar, header, modals, buttons and cards.
