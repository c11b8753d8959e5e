# Bugget_planer budget tracker, modelled in Dafny

Bugget_planer is a personal budgeting app with two generations of code:

- **The React client.** It keeps expenses, incomes and per-category budget goals in one shared store. Its pages read that store:
  - the dashboard: month totals, savings rate, pie chart, recent expenses, insights;
  - the expenses page: filter, add/edit dialog, rule-based "AI analysis";
  - the income page;
  - the budget-goals page;
  - the analytics page;
  - a rule-based chat assistant.
- **The earlier client and its Express backend.**
  - The backend keeps one budget per user and month.
  - It accepts an expense only while the month's budget covers it.
  - The earlier income and expense pages keep running totals of what they added.

The model has these modules:

- `Store` is the client store, as a class whose methods reassign its record lists. It also holds the month filters, the totals and the per-category grouping, as functions with lemmas.
- `Ledger` is the backend, as a class over the budget and expense tables. Its invariant says each budget's spent amount (total minus remaining) is the sum of the expenses linked to it.
- `Dashboard`, `ExpensesPage`, `IncomePage`, `GoalsPage`, `Analytics` and `Chat` model the pages. `Ranking` is the stable descending sort they share.
- `LegacyIncome` and `LegacyExpenses` model the earlier pages. `LegacyExpenses` is connected end to end to `Ledger`.
- `Text`, `Numbers`, `Clock`, `Categories`, `Forms` and `Seqs` model string matching, rounding, the calendar, the constant tables, form inputs and list helpers.

Some parts of the system become parameters:

- Money is exact (`real`).
- The clock is a `Clock(year, monthIndex, day)` argument.
- Fresh ids (`uid()` and `Date.now()`) are arguments.
- A server answer is an argument to the step that settles the request.

## Model

| member | source | states |
|---|---|---|
| Store.MergeExpense | src/contexts/BudgetContext.jsx:54-56 | an update keeps the currency; each of amount, category, date and note takes the update's value when it carries one and otherwise keeps the stored one |
| Store.MergeGoal | src/contexts/BudgetContext.jsx:69-71 | a goal update changes the limit only, and only when one is given |
| Store.WithoutId | src/contexts/BudgetContext.jsx:57-59 | the result holds exactly the records whose id differs from the deleted one |
| Store.WithoutIdOrder | src/contexts/BudgetContext.jsx:57-59 | deleting by id distributes over concatenation, so the survivors keep their order, and a list without that id is left unchanged |
| Store.UpdatedById | src/contexts/BudgetContext.jsx:54-56 | same length and ids; records with another id are untouched; each record with the id has its body replaced by the update |
| Store.DeleteAfterUpdate | src/contexts/BudgetContext.jsx:54-59 | deleting a record after updating it gives the same list as deleting it directly |
| Store.ExpensesIn | src/contexts/BudgetContext.jsx:79 | the month's expenses are exactly the stored expenses whose date starts with the month tag |
| Store.IncomesIn | src/contexts/BudgetContext.jsx:80 | the month's incomes are exactly the stored incomes whose date starts with the month tag |
| Store.SpentPrepend | src/contexts/BudgetContext.jsx:82 | a newly prepended expense adds its amount to the total |
| Store.SpentConcat | src/contexts/BudgetContext.jsx:82 | the total of two lists placed together is the sum of their totals |
| Store.MonthTotals | src/contexts/BudgetContext.jsx:82-84 | total expenses and total income are the sums over the month's records; the balance is income minus expenses |
| Store.AddExpenseMoves | src/contexts/BudgetContext.jsx:51-53 | adding an expense dated in the month raises that month's total expenses by its amount and lowers the balance by it; an expense of another month leaves both unchanged |
| Store.EarnedPrepend | src/contexts/BudgetContext.jsx:83 | a newly prepended income adds its amount to the income total |
| Store.AddIncomeMoves | src/contexts/BudgetContext.jsx:60-62 | adding an income dated in the month raises that month's income and balance by its amount; one of another month leaves both unchanged |
| Store.IndexOf | src/contexts/BudgetContext.jsx:88 | finds the entry of a category, and returns None exactly when no entry has it |
| Store.AddToKeys | src/contexts/BudgetContext.jsx:88 | after adding to a category, the categories present are the earlier ones plus that one |
| Store.AddToDistinct | src/contexts/BudgetContext.jsx:88 | adding to a category never creates a second entry for a category |
| Store.AddToLookup | src/contexts/BudgetContext.jsx:88 | adding an amount to a category raises that category's figure by the amount and no other category's |
| Store.AddToTotal | src/contexts/BudgetContext.jsx:88 | adding an amount raises the sum over all categories by exactly that amount |
| Store.GroupedFacts | src/contexts/BudgetContext.jsx:86-90 | the grouping has one entry per category; each figure is the sum of that category's expenses; the figures add up to the month's total |
| Store.GroupedKeys | src/contexts/BudgetContext.jsx:86-90 | a category appears in the grouping exactly when some month expense has it |
| Store.CategorySpending | src/contexts/BudgetContext.jsx:86-90 | the loop over the month's expenses builds exactly the grouping |
| Store.BudgetStore.constructor | src/contexts/BudgetContext.jsx:41-44 | the store starts with the given lists and the currency USD |
| Store.BudgetStore.AddExpense | src/contexts/BudgetContext.jsx:51-53 | the new expense is put at the head of the list; nothing else changes |
| Store.BudgetStore.UpdateExpense | src/contexts/BudgetContext.jsx:54-56 | the expenses become the by-id merge of the update; nothing else changes |
| Store.BudgetStore.DeleteExpense | src/contexts/BudgetContext.jsx:57-59 | the expenses lose the records with that id; nothing else changes |
| Store.BudgetStore.AddIncome | src/contexts/BudgetContext.jsx:60-62 | the new income is put at the head of the list; nothing else changes |
| Store.BudgetStore.DeleteIncome | src/contexts/BudgetContext.jsx:63-65 | the incomes lose the records with that id; nothing else changes |
| Store.BudgetStore.AddBudgetGoal | src/contexts/BudgetContext.jsx:66-68 | the new goal is appended at the end; nothing else changes |
| Store.BudgetStore.UpdateBudgetGoal | src/contexts/BudgetContext.jsx:69-71 | the goals become the by-id merge of the update; nothing else changes |
| Store.BudgetStore.DeleteBudgetGoal | src/contexts/BudgetContext.jsx:72-74 | the goals lose the records with that id; nothing else changes |
| Store.BudgetStore.SetCurrency | src/contexts/BudgetContext.jsx:94 | the currency is replaced; the lists are unchanged |
| Ledger.Find | Bugget_planer-main/backend/controller/budgetController.js:7-11 | returns the first budget matching user, month and year, and None exactly when no budget matches |
| Ledger.Charged | Bugget_planer-main/backend/controller/expenseController.js:35-36 | only the chosen budget changes, and its remaining amount falls by the expense amount |
| Ledger.SpentOnAppend | Bugget_planer-main/backend/controller/budgetController.js:47-51 | recording an expense adds its amount to the spending of its own budget only |
| Ledger.SpentOnUnlinked | Bugget_planer-main/backend/controller/budgetController.js:17-23 | a budget no expense links to has spent nothing |
| Ledger.ChargeKeepsInvariant | Bugget_planer-main/backend/controller/expenseController.js:26-36 | recording an expense against the month's budget and charging it keeps four things: ids are positions, every expense links to a budget of its user, month and year, one budget per month, and spent == total − remaining |
| Ledger.Ledger.constructor | Bugget_planer-main/backend/controller/budgetController.js:3-29 | an empty ledger satisfies the invariant |
| Ledger.Ledger.SetBudget | Bugget_planer-main/backend/controller/budgetController.js:3-29 | with a budget for that user and month already present: "already exists" and no change; otherwise a new budget whose remaining amount equals its total is appended; the invariant holds |
| Ledger.Ledger.CurrentBudget | Bugget_planer-main/backend/controller/budgetController.js:31-55 | not found exactly when the clock's month has no budget; otherwise it reports total, remaining, and a spent figure equal to the sum of that budget's expenses |
| Ledger.Ledger.AddExpense | Bugget_planer-main/backend/controller/expenseController.js:4-45 | without a budget: "set budget first" and no change; if the amount exceeds what remains: refused, no change; otherwise one expense dated by the clock is recorded, the budget is charged exactly the amount, the remaining amount stays ≥ 0, and the invariant holds |
| Ranking.Insert | src/pages/Expenses.jsx:67-68 | one more element, the same multiset plus the inserted one |
| Ranking.SortDesc | src/pages/Expenses.jsx:67-68 | the sort is a permutation of its input |
| Ranking.InsertBelow | src/pages/Expenses.jsx:67-68 | inserting never lifts an element above a common upper bound |
| Ranking.InsertDescending | src/pages/Expenses.jsx:67-68 | inserting into a descending list keeps it descending |
| Ranking.SortDescRanks | src/pages/AIChat.jsx:30 | the ranking is descending by amount and is a permutation of the categories |
| Ranking.FirstMax | src/pages/Dashboard.jsx:17 | the index of a largest amount, with every earlier amount strictly smaller |
| Ranking.SortDescTop | src/pages/Dashboard.jsx:17 | the stable sort puts the first largest category at the head |
| Ranking.InsertTies | src/pages/Dashboard.jsx:17 | one insertion step puts the new entry at the head of its group of equal amounts and leaves every other group as it was |
| Ranking.SortDescStable | src/pages/Dashboard.jsx:17 | stability: within every group of equal amounts the ranking keeps the order of appearance |
| Numbers.Round | src/pages/AIChat.jsx:52 | `Math.round` is within half a unit of its argument, with halves rounded up |
| Numbers.ToFixed1 | src/pages/AIChat.jsx:31 | rounding to tenths moves the value by at most 0.05 and keeps its sign |
| Numbers.SavingsRate | src/pages/Dashboard.jsx:11 | 0 without income; otherwise rate × income = balance × 100, with the sign of the balance |
| Numbers.ShownRate | src/pages/AIChat.jsx:31 | the shown rate is within 0.05 of the exact rate, 0 without income, and not negative when the balance is not |
| Numbers.PercentAtLeast | src/pages/AIChat.jsx:52-54 | a percentage reaches a threshold exactly when part × 100 reaches threshold × whole |
| Numbers.ToFixed1AtLeast | src/pages/AIChat.jsx:40-42 | the rounded rate reaches k tenths exactly when 10 × rate + 0.5 reaches k |
| Text.Contains | src/pages/AIChat.jsx:33 | `includes` holds exactly when the word occurs at some position |
| Text.Lower | src/pages/AIChat.jsx:29 | same length, each letter lower-cased, no upper-case letter left |
| Text.LowerIdempotent | src/pages/AIChat.jsx:29 | lower-casing twice is lower-casing once |
| Text.FirstWord | src/pages/Analytics.jsx:24 | the first word is a prefix without spaces, ended by a space or by the end of the name |
| Text.FirstWordWhole | src/pages/Analytics.jsx:24 | a name without a space is its own first word |
| Text.FirstWordBeforeSpace | src/pages/Analytics.jsx:24 | a word followed by a space and anything else has that word as its first word |
| Text.Pad2 | src/contexts/BudgetContext.jsx:76-77 | the month number as two digits whose value is the month |
| Text.MonthTag | src/contexts/BudgetContext.jsx:76-77 | the tag is the year's digits, a dash and two month digits |
| Text.ParseNatToString | src/contexts/BudgetContext.jsx:76-77 | reading back the decimal digits of a year gives the year |
| Text.MonthTagInjective | src/contexts/BudgetContext.jsx:76-77 | two months have the same tag only when they are the same month of the same year |
| Text.InMonthIff | src/contexts/BudgetContext.jsx:79-80 | a date written from a month tag passes the month filter exactly when it is of that month |
| Clock.MonthNumber | Bugget_planer-main/backend/controller/budgetController.js:33-35 | `getMonth() + 1` is between 1 and 12 |
| Clock.DaysInMonth | src/pages/Expenses.jsx:87 | between 28 and 31; February has 29 days exactly in leap years |
| Categories.ColorOrGrey | src/pages/Dashboard.jsx:13-15 | a known category's colour from the table, grey for any other |
| Categories.CategoriesDistinct | src/types/budget.js:1-4 | eight different categories |
| Categories.EveryCategoryHasColorAndIcon | src/types/budget.js:6-26 | the colour and icon tables cover exactly the categories |
| Categories.FiveCurrencies | src/types/budget.js:28-34 | five currencies, USD, EUR, GBP, JPY and INR, each with a symbol |
| Dashboard.PieData | src/pages/Dashboard.jsx:13-15 | one slice per category entry, same name and value, coloured by the category table (the analytics pie, src/pages/Analytics.jsx:11-13, is the same) |
| Dashboard.SliceTotalIsEntriesTotal | src/pages/Dashboard.jsx:13-15 | the slices add up to the grouped total |
| Dashboard.PieCoversMonth | src/pages/Dashboard.jsx:13-15 | the pie adds up to the month's expenses and has a slice exactly for each category spent on |
| Dashboard.TopCategory | src/pages/Dashboard.jsx:17 | there is no top category exactly when nothing was spent |
| Dashboard.TopCategoryIsFirstMax | src/pages/Dashboard.jsx:17 | the top category is the first category with the largest amount |
| Dashboard.RecentExpenses | src/pages/Dashboard.jsx:18 | the first five expenses, or all of them when there are fewer |
| Dashboard.RecentAfterAdd | src/pages/Dashboard.jsx:18 | after an add, the recent list is the new expense followed by the four before it |
| Dashboard.Insights | src/pages/Dashboard.jsx:20-24 | two or three lines; the top-category line exactly when something was spent; the savings line or the overspending line by the balance's sign; last, the tip to reduce the top category when it exceeds 300, otherwise the well-balanced note |
| ExpensesPage.Shown | src/pages/Expenses.jsx:21 | "All" shows every expense; any other filter shows exactly the expenses of that category |
| ExpensesPage.ShownTotal | src/pages/Expenses.jsx:21 | the filtered list adds up to the category's spending |
| ExpensesPage.ShownConcat | src/pages/Expenses.jsx:21 | filtering keeps order and multiplicity: the shown list of a concatenation is the concatenation of the shown lists |
| ExpensesPage.ShownSingle | src/pages/Expenses.jsx:21 | one expense is shown once under "All" or its own category and not at all under another |
| ExpensesPage.FormOf | src/pages/Expenses.jsx:37-41 | the edit form carries the expense's amount, category, date and note |
| ExpensesPage.PatchOf | src/pages/Expenses.jsx:26 | the update replaces every field with the form's value |
| ExpensesPage.EditRoundTrip | src/pages/Expenses.jsx:23-41 | an opened expense can be saved exactly when its note is not empty, and saving it unchanged writes back the same expense |
| ExpensesPage.ExpenseDialog.constructor | src/pages/Expenses.jsx:16-17 | closed, nothing being edited, blank form |
| ExpensesPage.ExpenseDialog.OpenEdit | src/pages/Expenses.jsx:37-41 | open, editing that id, form filled from the expense |
| ExpensesPage.ExpenseDialog.SetOpen | src/pages/Expenses.jsx:113 | opens or closes; closing forgets the edited id and keeps the form |
| ExpensesPage.ExpenseDialog.Edit | src/pages/Expenses.jsx:122-130 | the form takes the typed values; nothing else changes |
| ExpensesPage.ExpenseDialog.Submit | src/pages/Expenses.jsx:23-35 | an incomplete form changes nothing; otherwise it updates the edited expense or prepends a new one in the store's currency, then closes with a blank form; incomes, goals and currency are unchanged |
| ExpensesPage.Warning | src/pages/Expenses.jsx:56-64 | at most one warning per goal: over budget exactly when the limit is positive and spending reaches it; nearing exactly when spending is from 80% of the limit up to the limit; the warning carries the category, spending, limit and the rounded percentage |
| ExpensesPage.WarnsOverConcat | src/pages/Expenses.jsx:56-64 | an over-budget warning in two joined lists comes from one of them |
| ExpensesPage.GoalReachedSnoc | src/pages/Expenses.jsx:56-64 | a goal list with one more goal is reached exactly when the earlier goals were or the new goal is |
| ExpensesPage.GoalWarningsOver | src/pages/Expenses.jsx:56-64 | a category is flagged over budget exactly when one of its goals has a positive limit that spending reaches |
| ExpensesPage.RecordedSnoc | src/pages/Expenses.jsx:75-79 | an expense list with one more expense records a note and amount exactly when the earlier list did or the new expense matches |
| ExpensesPage.OutliersExactly | src/pages/Expenses.jsx:75-79 | an outlier is reported exactly for each month expense above 2.5 × the average |
| ExpensesPage.ProjectionExceeds | src/pages/Expenses.jsx:86-90 | the projected month exceeds 120% of the spending so far exactly when 6 × day < 5 × days in month |
| ExpensesPage.ProjectionFlag | src/pages/Expenses.jsx:86-90 | with any spending, one projection line, flagged to slow down exactly early in the month (day × 6 < 5 × days in month) |
| ExpensesPage.TopIsLargest | src/pages/Expenses.jsx:67-72 | the top-category insight names the first largest category, with that category's month spending |
| ExpensesPage.TopShareBounded | src/pages/Expenses.jsx:67-72 | with non-negative amounts, the top share is between 0 and 100 percent |
| ExpensesPage.SpentInBounds | src/pages/Expenses.jsx:50-51 | a category's spending lies between 0 and the month's total |
| ExpensesPage.SuggestionNeedsTwo | src/pages/Expenses.jsx:82-84 | the suggestion appears exactly when at least two categories were spent on, and names the same top category as the top-spending insight |
| ExpensesPage.PushWarnings | src/pages/Expenses.jsx:56-64 | the loop over the goals yields exactly the goal warnings |
| ExpensesPage.PushOutliers | src/pages/Expenses.jsx:75-79 | the loop appends exactly the outliers |
| ExpensesPage.PushTop | src/pages/Expenses.jsx:67-72 | appends exactly the top-category insight |
| ExpensesPage.PushSuggestion | src/pages/Expenses.jsx:82-84 | appends exactly the suggestion |
| ExpensesPage.PushProjection | src/pages/Expenses.jsx:86-90 | appends exactly the projection |
| ExpensesPage.Insights | src/pages/Expenses.jsx:44-93 | the analysis yields warnings, top category, outliers, suggestion and projection, in that order |
| GoalsPage.GoalFor | src/pages/BudgetGoals.jsx:20 | the first goal of the category, and None exactly when there is none |
| GoalsPage.UpsertShape | src/pages/BudgetGoals.jsx:20-25 | an existing goal gets the new limit in place; otherwise a new goal is appended; the other goals are unchanged |
| GoalsPage.GoalForFirst | src/pages/BudgetGoals.jsx:20 | the first goal of the category is the one found |
| GoalsPage.UpsertSetsLimit | src/pages/BudgetGoals.jsx:18-30 | after submitting, the category's goal has the submitted limit |
| GoalsPage.UpsertKeepsDistinct | src/pages/BudgetGoals.jsx:18-30 | submitting never creates a second goal for a category |
| GoalsPage.SubmitGoal | src/pages/BudgetGoals.jsx:18-30 | an empty limit is refused with no change; otherwise the goals become the upsert, reported as an update exactly when the category had a goal |
| GoalsPage.FilterMembership | src/pages/BudgetGoals.jsx:32 | filtering keeps exactly the members satisfying the test |
| GoalsPage.AvailableCategories | src/pages/BudgetGoals.jsx:32 | exactly the categories without a goal; empty exactly when all have one |
| GoalsPage.Pct | src/pages/BudgetGoals.jsx:62-66 | below the limit it is exactly spent / limit × 100; capped at 100, reaching 100 exactly at the limit and 80 exactly at 80% of it |
| GoalsPage.GoalCard | src/pages/BudgetGoals.jsx:62-66 | spending from the grouping; over exactly above the limit; near from 80% up to the limit; the caption shows the overrun or what is left |
| GoalsPage.AtLimitIsNear | src/pages/BudgetGoals.jsx:62-66 | spending exactly the limit shows 100% and is still "near", not over |
| Analytics.TrendData | src/pages/Analytics.jsx:16-20 | three points: fixed December and January figures, then February 2026 from the store |
| Analytics.FebruaryTagIff | src/pages/Analytics.jsx:16-20 | the clock's month tag is 2026-02 exactly in February 2026 |
| Analytics.FebruaryIsCurrentMonth | src/pages/Analytics.jsx:16-20 | in February 2026 the last point equals the month's totals |
| Analytics.BudgetData | src/pages/Analytics.jsx:23-27 | one bar per goal, labelled with the first word of its category, with its spending and limit |
| Analytics.CategoryLabel | src/pages/Analytics.jsx:24 | each of the eight categories is labelled Food, Transportation, Entertainment, Shopping, Health, Bills, Education or Travel |
| Analytics.LabelsDistinct | src/pages/Analytics.jsx:24 | the eight labels are pairwise different, so no two category bars share a name |
| IncomePage.ColorFor | src/pages/Income.jsx:18-25 | a named source's colour, otherwise the fallback colour at the position modulo five |
| IncomePage.ColorCycle | src/pages/Income.jsx:25 | a named source's colour ignores position; other sources repeat colours exactly every five places |
| IncomePage.FallbackDistinct | src/pages/Income.jsx:18-24 | five different fallback colours, none used by a named source |
| IncomePage.IconFor | src/pages/Income.jsx:10-15 | briefcase, chart or trend icon for the three named sources, wallet for every other |
| IncomePage.SourcesThisMonth | src/pages/Income.jsx:66 | the count of incomes dated in February 2026 |
| IncomePage.SourcesAfterAdd | src/pages/Income.jsx:66 | an add raises the count by one exactly when the income is dated in February 2026 |
| IncomePage.IncomeDialog.constructor | src/pages/Income.jsx:28-30 | closed with a blank form |
| IncomePage.IncomeDialog.SetOpen | src/pages/Income.jsx:44 | opens or closes the dialog; the form is kept either way |
| IncomePage.IncomeDialog.Edit | src/pages/Income.jsx:51-54 | the form takes the typed values |
| IncomePage.IncomeDialog.Submit | src/pages/Income.jsx:32-38 | without an amount or a source nothing changes; otherwise one income in the store's currency is prepended and the dialog closes with a blank form |
| Chat.Mentions | src/pages/AIChat.jsx:33 | true exactly when one of the words occurs in the question |
| Chat.Classify | src/pages/AIChat.jsx:28-89 | one branch per keyword group, tried in the order biggest, savings, overview, tips, income, budget: each branch is taken exactly when its group occurs in the lower-cased question and no earlier group does; the help text exactly when none does |
| Chat.ClassifyIgnoresCase | src/pages/AIChat.jsx:29 | a question and its lower-cased form get the same branch |
| Chat.StopMeansTop | src/pages/AIChat.jsx:33 | a question containing "stop" is routed to the biggest-expense answer ("top" occurs in it) |
| Chat.FirstChipAsksBiggest | src/pages/AIChat.jsx:8-13 | the first suggestion chip gets the biggest-expense answer |
| Chat.AdviceThresholds | src/pages/AIChat.jsx:40-42 | praise exactly from an exact rate of 19.95%, the aim-for-20% advice from 0.05% below that, the overspending warning below 0.05% |
| Chat.TinySurplusWarned | src/pages/AIChat.jsx:31-42 | saving 4 out of 10000 is reported as spending more than is earned |
| Chat.LightThresholds | src/pages/AIChat.jsx:52-54 | red exactly from 99.5% of the limit, yellow from 79.5% up to that |
| Chat.StatusLines | src/pages/AIChat.jsx:47-58 | one line per goal with its spending, limit, rounded percentage and light |
| Chat.StandingOf | src/pages/AIChat.jsx:82-83 | "remaining" exactly when within the limit, else "over by" a positive amount |
| Chat.GoalSections | src/pages/AIChat.jsx:76-86 | one section per goal with its limit, spending, rounded percentage and standing |
| Chat.IncomeLines | src/pages/AIChat.jsx:72-74 | one line per income with its source, amount and date |
| Chat.BiggestAnswer | src/pages/AIChat.jsx:33-38 | "no expenses yet" exactly without spending; otherwise a descending ranking of all categories, headed by the first largest |
| Chat.OverviewTopFive | src/pages/AIChat.jsx:44-58 | the month's income, expenses and balance, the rate within 0.05 of the exact rate, the ranking's first five entries (none left out above one listed), and one status line per goal with its category, spending and limit |
| Chat.TipsAnswer | src/pages/AIChat.jsx:60-70 | a reduce tip exactly when something was spent, naming the first largest category with its spending and a saving of 15% of that spending |
| Chat.IncomeAnswer | src/pages/AIChat.jsx:72-74 | the store's income total and one line per income, of every month |
| Chat.SavingsAnswer | src/pages/AIChat.jsx:40-42 | the month's income, expenses and balance, the rate within 0.05 of the exact rate, and praise from 19.95%, the aim-for-20% advice from 0.05%, the overspending warning below |
| Chat.HelpAnswer | src/pages/AIChat.jsx:88 | the help text is the answer exactly when the lower-cased question mentions no keyword |
| Chat.BudgetAnswer | src/pages/AIChat.jsx:76-86 | "no goals yet" exactly without goals; otherwise one section per goal with its category, limit and month spending, over exactly when that spending is above the limit |
| Chat.ChatSession.constructor | src/pages/AIChat.jsx:17-21 | the greeting alone, empty input, not typing, no reply waiting |
| Chat.ChatSession.Type | src/pages/AIChat.jsx:214 | the input takes the typed text; nothing else changes |
| Chat.ChatSession.Send | src/pages/AIChat.jsx:91-102 | a blank message changes nothing; otherwise the message is shown, the input is cleared, typing starts, and its reply waits |
| Chat.ChatSession.Deliver | src/pages/AIChat.jsx:97-101 | a waiting reply, in any order, is shown and leaves the queue; typing stops |
| LegacyIncome.BlankForm | Bugget_planer-main/src/views/pages/Income.jsx:54-58 | source and amount empty, dated today |
| LegacyIncome.IncomePage.constructor | Bugget_planer-main/src/views/pages/Income.jsx:7-14 | empty list, total 0, blank form, not loading |
| LegacyIncome.IncomePage.Edit | Bugget_planer-main/src/views/pages/Income.jsx:25-31 | the form takes the typed values; list and total unchanged |
| LegacyIncome.IncomePage.AddIncome | Bugget_planer-main/src/views/pages/Income.jsx:33-65 | an incomplete form changes nothing; otherwise one item stamped with the clock is appended, the total grows by its amount and stays the sum of the list, and the form is cleared |
| LegacyIncome.TotalConcat | Bugget_planer-main/src/views/pages/Income.jsx:53 | the total over several adds is the earlier total plus the sum of what they added |
| LegacyIncome.TotalNonNegative | Bugget_planer-main/src/views/pages/Income.jsx:53 | with non-negative amounts the total is not negative |
| LegacyIncome.TotalNeverFalls | Bugget_planer-main/src/views/pages/Income.jsx:53 | adding an item with a non-negative amount never lowers the total |
| LegacyExpenses.BlankForm | Bugget_planer-main/src/views/pages/Expenses.jsx:58-63 | every field empty, dated today |
| LegacyExpenses.RequestOf | Bugget_planer-main/src/views/pages/Expenses.jsx:45-53 | the request carries the form's amount, category, description and date |
| LegacyExpenses.OutcomeOf | Bugget_planer-main/backend/controller/expenseController.js:18-41 | both refusals reach the page as errors; a created expense arrives as data with the remaining budget |
| LegacyExpenses.ExpensesPage.constructor | Bugget_planer-main/src/views/pages/Expenses.jsx:7-15 | empty list, total 0, blank form, nothing in flight |
| LegacyExpenses.ExpensesPage.Edit | Bugget_planer-main/src/views/pages/Expenses.jsx:27-33 | the form takes the typed values, even while loading |
| LegacyExpenses.ExpensesPage.Send | Bugget_planer-main/src/views/pages/Expenses.jsx:35-53 | an incomplete form is refused before any request; otherwise loading starts with the form captured |
| LegacyExpenses.ExpensesPage.Settle | Bugget_planer-main/src/views/pages/Expenses.jsx:55-70 | an answer with data is appended and the total grows by the amount that was sent; otherwise list and total are unchanged; loading always ends |
| LegacyExpenses.ExpensesPage.SubmitTo | Bugget_planer-main/src/views/pages/Expenses.jsx:35-71 | an incomplete form is refused with page and ledger unchanged; a sent request always has an outcome; the round trip keeps the page's total equal to the sum of its stored expenses and keeps the ledger's invariant; an accepted expense is appended to both the page and the ledger, a refused one to neither |

## Left out

- Floating point: amounts are exact reals. `parseFloat`, `NaN`, `Infinity` and binary rounding are not modelled. Non-positive limits are excluded by the preconditions of `GoalsPage.Pct`, `GoalsPage.GoalCard`, `Chat.RoundedPct` and `Chat.CanAnswer`. With a zero limit the source divides by zero, and a negative limit, which the goal form accepts, gives a percentage of zero or below and marks the goal as over budget in the source.
- GoalsPage.Pct: requires a positive limit, because `spent / limit` with a zero limit is `NaN` or `Infinity` in the source.
- Chat.Respond: has no contract of its own. Its lemmas per branch (`BiggestAnswer`, `SavingsAnswer`, `OverviewTopFive`, `TipsAnswer`, `IncomeAnswer`, `BudgetAnswer`, `HelpAnswer`) state what it answers. The overview and budget branches require positive limits.
- IncomePage.ColorFor / IncomePage.IconFor: lookups by names inherited from `Object.prototype` are not modelled. For a free-text source such as "toString", "constructor" or "hasOwnProperty", the source's plain-object lookup returns the inherited member instead of a palette colour or the wallet icon. The model gives the fallback colour and the wallet icon, and `IncomePage.ColorCycle`'s claim about other sources assumes such names are not used.
- Concurrency: each ledger request is handled as one atomic step. Two concurrent `addExpense` requests that both pass the remaining-budget check before either records its expense could together overspend the budget. `Ledger.ChargeKeepsInvariant` does not cover that interleaving.
- Text: formatting is not modelled: `formatAmount`, locale number formatting, markdown and emoji text. Replies and insights are structured values, not strings.
- Text.Lower: lower-cases ASCII letters only.
- UI effects are not modelled: toasts, alerts, animations, the typing indicator's timer delay and the "AI Analyze" button's delay. `ChatSession.Deliver` lets a waiting reply arrive in any order in place of the random timers.
- Ids and the clock are parameters: `uid()`, `Date.now()`, `new Date()` and the date strings. The demo seed data of the store is not part of this model.
- Persistence and transport are not modelled: HTTP, the auth token, `localStorage`, the Mongoose models' casting and validation, and the backend's 500 error paths.
- LegacyExpenses.ExpensesPage.Send: requires the page not to be loading, because the submit button is disabled then.
- Fetches on page load: the earlier pages' effects that load lists from the backend are not modelled.
- GoalsPage.SubmitGoal: models the goal upsert only. Closing the dialog and resetting its form (src/pages/BudgetGoals.jsx:28-29) is not modelled.
- Suggestion chips: the chips after the first are plain text passed to `Send`. Only the first gets its own lemma.
- Bugget_planer-main/src/views/pages/Summary.jsx and the other context files are not part of this model.
