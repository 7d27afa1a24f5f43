# Personal finance tracker — verified model of its core logic

This project is a Dafny model of the statable logic inside a personal
finance web application. Users record income and expense transactions,
set monthly budgets per spending category, export their transactions,
and choose a currency and a colour theme. The model covers the following
parts of the application:

- **The export helpers** (`Helpers`):
  - The CSV file: a header line, then one comma-separated row per
    transaction. The description is enclosed in double quotes and each
    quote inside it is doubled, as in section 2 of RFC 4180. Lines are
    separated by `\n`, not CRLF, and the last line has no line feed.
  - The plain-text report, accumulated line by line in a loop.
  - The escaping is proved invertible. The whole file is proved to read
    back, through an RFC 4180-style reader (`CsvReader`), as the header
    names followed by each transaction's fields.
- **The budget list** (`BudgetList`):
  - The `reduce` that folds the transactions into a category→total
    dictionary, as a loop over a map.
  - Each budget card: spent, remaining, the progress value clamped at 100,
    the destructive style and the "remaining"/"over budget" footer, with
    the lemmas that tie these together.
- **The two dialogs** (`BudgetDialog`, `TransactionDialog`):
  - The categories each one offers, as order-preserving filters.
  - The form state as classes whose methods are the effects and handlers.
  - The record `handleSubmit` hands to `onSave`, with the `x || y`
    fallbacks for id, user and month.
- **The preferences hook** (`UsePreferences`):
  - The document path, the overlay of a partial update on the stored
    preferences, and the outcome of `updatePreferences`.
  - The theme effect, which edits the root element's class list in place.
- **The currency hook** (`UseCurrency`): the symbol table, the USD
  default, and the branch `formatShort` picks.
- **The data hooks** (`UseBudgets`, `UseTransactions`):
  - The month-key filter and the inclusive date-range filter.
  - The `loading` flag around the simulated fetch.
  - The mutator stubs, which change nothing.
- **The authentication gate** (`AuthGate`): loader, children or nothing,
  and the redirect to `/login`.
- **The records** (`Types`):
  - Transactions, budgets and the eight-value category union.
  - A budget's category is the subset type `BudgetCategory`, which
    excludes `Income`.

Some conventions hold across the whole model:

- Amounts are `real`. Dates are `Timestamp`, the instant an ISO date
  string denotes.
- Formatting functions are parameters of the members that use them:
  - date formatting (`dayText`);
  - `toFixed` (`fixed2`, `oneDecimal`);
  - `toLocaleString` (`twoDecimals`);
  - `toString` on an amount (`numberText`);
  - `parseFloat` (`parseNumber`).
- Fresh ids, the current month and the "now" instant are parameters too.
- `Seqs` holds the shared vocabulary:
  - `Option`;
  - `Filter`, which is JavaScript's `Array.prototype.filter`;
  - the subsequence relation that states "order preserved";
  - `NoDuplicates`;
  - `Join`, which is `Array.prototype.join`.

## Model

| member | source | states |
|---|---|---|
| Types.CategoriesEnumerated | src/lib/types.ts:1 | The category union has exactly eight distinct members, every category is listed, and distinct categories have distinct names |
| Types.CategoryIndex | src/lib/types.ts:1 | Each category sits at one position of the union, in the order the selectors list it |
| Types.TypeName | src/lib/types.ts:6 | A transaction's type is `income` or `expense` |
| Helpers.EscapeQuotes | src/lib/helpers.ts:12 | Doubling the quotes lengthens the text by exactly its number of `"` characters |
| Helpers.QuoteField | src/lib/helpers.ts:12 | The description cell starts and ends with `"` and is as long as the text plus its quotes plus 2 |
| Helpers.EscapedQuotesDoubled | src/lib/helpers.ts:12 | Every `"` in the escaped text is one of an adjacent pair (section 2, item 7 of RFC 4180) |
| Helpers.CollapseEscape | src/lib/helpers.ts:12 | Collapsing `""` to `"` undoes the escaping for every text |
| Helpers.EscapeCollapse | src/lib/helpers.ts:12 | Escaping undoes collapsing on every text whose quotes are all doubled: the two are inverse |
| Helpers.UnquoteQuoteField | src/lib/helpers.ts:12 | Stripping the outer quotes and collapsing recovers the description exactly |
| Helpers.CsvRowFields | src/lib/helpers.ts:7-13 | A row is the date, type, category, amount and quoted description, in that order, separated by commas |
| Helpers.HeaderRecord | src/lib/helpers.ts:6 | The header line is the five column names joined by commas, and it reads back as those five names |
| Helpers.CsvLines | src/lib/helpers.ts:15 | The file has one line more than there are transactions, and its first line is the header |
| Helpers.CsvContent | src/lib/helpers.ts:15 | The content starts with the header, is only the header for no transactions, and does not end in a line feed |
| Helpers.ReadQuotedEscaped | src/lib/helpers.ts:12 | The reader finds the end of the escaped description exactly at its closing quote and returns the original text |
| Helpers.ReadCsvRecord | src/lib/helpers.ts:7-13 | A comma-joined record of encoded cells reads back as the cell texts, in order |
| Helpers.ReadCsvDocument | src/lib/helpers.ts:15 | Records joined by `\n` read back as the list of their texts, in order |
| Helpers.CsvRoundTrip | src/lib/helpers.ts:5-15 | Reading the CSV content gives the header names, then each transaction's date, type, category, amount and exact description, in input order, whenever the formatted date and amount need no quoting |
| Helpers.AllBlockLines | src/lib/helpers.ts:33-40 | The report body has six lines per transaction |
| Helpers.ReportLineAt | src/lib/helpers.ts:28-40 | The report is the title, the "Generated on" line, the rule and a blank line, then for transaction k at lines 4+6k… its Date/Type/Category/Amount (after `$`)/Description block ending in the rule |
| Helpers.HeadText | src/lib/helpers.ts:29-31 | The three opening appends produce exactly the four opening lines |
| Helpers.AppendBlock | src/lib/helpers.ts:33-40 | The six appends of the loop body add exactly one transaction's block of lines |
| Helpers.ExportReport | src/lib/helpers.ts:28-40 | The report accumulated by the loop is the text of the opening lines followed by every transaction's block in input order |
| BudgetList.AddSpending | src/components/budgets/budget-list.tsx:28-33 | One step of the fold adds the transaction's category as a key, raises only that entry by the amount (from 0 when absent or zero) and leaves every other entry unchanged |
| BudgetList.SpendingStep | src/components/budgets/budget-list.tsx:27-34 | Folding one more transaction into the dictionary of a prefix gives the dictionary of the longer list |
| BudgetList.SumForAbsent | src/components/budgets/budget-list.tsx:76 | A category no transaction carries totals zero |
| BudgetList.SpendingByCategory | src/components/budgets/budget-list.tsx:26-35 | The dictionary's keys are exactly the categories present, and each entry is the sum of all that category's amounts, income and expense alike |
| BudgetList.SpentIsSum | src/components/budgets/budget-list.tsx:76 | `spendingByCategory[c] \|\| 0` is the category's total, zero when absent |
| BudgetList.Progress | src/components/budgets/budget-list.tsx:78 | The progress is `spent/amount*100` for a non-zero amount; for a zero amount it is +Infinity when the spending is positive, -Infinity when it is negative and NaN when it is zero |
| BudgetList.CardFor | src/components/budgets/budget-list.tsx:75-78 | A card's spent is the looked-up total, remaining is the amount minus spent, progress as above |
| BudgetList.CardShape | src/components/budgets/budget-list.tsx:106-121 | The bar never exceeds 100, is destructive exactly when the progress exceeds 100, and the footer shows what remains when spent ≤ amount and the positive overspend otherwise |
| BudgetList.ProgressAbove100 | src/components/budgets/budget-list.tsx:78 | For a positive amount the progress exceeds 100 exactly when more than the amount was spent |
| BudgetList.OverBudgetConsistent | src/components/budgets/budget-list.tsx:106-113 | For a non-negative amount the bar is destructive exactly when the footer says "over budget", i.e. when spent > amount |
| BudgetList.RenderBudgetList | src/components/budgets/budget-list.tsx:37-78 | Three skeletons while loading, the empty state for no budgets, otherwise one card per budget in order showing its category's total |
| BudgetDialog.BudgetCategoriesFixed | src/components/budgets/budget-dialog.tsx:26 | The fixed list has seven entries, lacks only `Income`, and keeps the union's order |
| BudgetDialog.AvailableCategories | src/components/budgets/budget-dialog.tsx:70 | Editing offers all seven; creating never offers more than the seven |
| BudgetDialog.AvailableMembers | src/components/budgets/budget-dialog.tsx:70 | When creating, a category is offered exactly when it is not `Income` and no existing budget has its name |
| BudgetDialog.AvailableInOrder | src/components/budgets/budget-dialog.tsx:70 | Editing or creating, the offer keeps the fixed list's order |
| BudgetDialog.FirstAvailable | src/components/budgets/budget-dialog.tsx:41-49 | The category a new budget should start on is the first one offered, which has no budget yet; `Food` when nothing is left |
| BudgetDialog.SavedBudget | src/components/budgets/budget-dialog.tsx:58-64 | The saved record has the form's category and parsed amount; editing keeps id, user and month unless empty; creating uses the fresh id, `mock-user-id` and the current month |
| BudgetDialog.EditChangesOnlyAmount | src/components/budgets/budget-dialog.tsx:58-64 | Saving an edit is the edited budget with only its amount replaced |
| BudgetDialog.BudgetForm.constructor | src/components/budgets/budget-dialog.tsx:37-39 | The form starts empty on `Food`, not loading |
| BudgetDialog.BudgetForm.Reset | src/components/budgets/budget-dialog.tsx:41-49 | With a budget the form copies its amount and category; without one it is `''` and `Food`; the form never holds `Income` |
| BudgetDialog.BudgetForm.ResetOffering | src/components/budgets/budget-dialog.tsx:41-49 | Corrected reset: editing copies the budget as before; a new budget starts on `FirstAvailable`, the first category still without a budget |
| BudgetDialog.BudgetForm.EnterAmount | src/components/budgets/budget-dialog.tsx:98 | Typing changes only the amount |
| BudgetDialog.BudgetForm.ChooseCategory | src/components/budgets/budget-dialog.tsx:85 | The selector, disabled while editing, is called only with a category that has no budget yet, sets it and changes nothing else; the form never holds `Income` |
| BudgetDialog.BudgetForm.Submit | src/components/budgets/budget-dialog.tsx:51-68 | Submitting hands `onSave` the record built from the form and ends closed and not loading |
| BudgetDialog.SecondFoodBudget | src/components/budgets/budget-dialog.tsx:41-49 | As written: with a `Food` budget in place, creating, typing an amount and saving yields a second `Food` budget, a category not offered |
| BudgetDialog.NewBudgetAvoidsExisting | src/components/budgets/budget-dialog.tsx:41-70 | With the corrected reset, whenever some category still has no budget, the same steps save a budget for a category that has none, one the selector offers |
| TransactionDialog.FilteredCategories | src/components/transactions/transaction-dialog.tsx:85 | Neither offer is longer than the full category list |
| TransactionDialog.ExpenseCategoriesListed | src/components/transactions/transaction-dialog.tsx:30-85 | The expense offer is exactly the category list filtered by `c !== 'Income'` |
| TransactionDialog.OfferedMembers | src/components/transactions/transaction-dialog.tsx:85 | Income offers only `Income`; an expense offers exactly the categories other than `Income` |
| TransactionDialog.OfferInListOrder | src/components/transactions/transaction-dialog.tsx:85 | Either offer keeps the order of the full category list |
| TransactionDialog.FirstOffered | src/components/transactions/transaction-dialog.tsx:85-99 | Both offers are non-empty; the first is `Income` for income and `Food` for an expense |
| TransactionDialog.SavedTransaction | src/components/transactions/transaction-dialog.tsx:72-80 | The saved record carries the form's type, category and description, the parsed amount and the picked date; editing keeps id and user unless empty, creating uses the fresh id and `mock-user-id` |
| TransactionDialog.TransactionForm.constructor | src/components/transactions/transaction-dialog.tsx:40-45 | The form starts as an expense on `Food`, empty, dated now, not loading |
| TransactionDialog.TransactionForm.Reset | src/components/transactions/transaction-dialog.tsx:47-62 | With a transaction the form copies its type, amount, category, description and date; without one it is back to expense/`''`/`Food`/`''`/now |
| TransactionDialog.TransactionForm.ChooseType | src/components/transactions/transaction-dialog.tsx:99 | As written: the type changes and the category stays |
| TransactionDialog.TransactionForm.ChooseTypeKeepingOffer | src/components/transactions/transaction-dialog.tsx:99 | Corrected: after a type change the category is one the selector offers for the new type |
| TransactionDialog.TransactionForm.ChooseCategory | src/components/transactions/transaction-dialog.tsx:117-124 | The selector sets one of the categories offered for the current type and nothing else |
| TransactionDialog.TransactionForm.EnterAmount | src/components/transactions/transaction-dialog.tsx:113 | Typing changes only the amount |
| TransactionDialog.TransactionForm.EnterDescription | src/components/transactions/transaction-dialog.tsx:131 | Typing changes only the description |
| TransactionDialog.TransactionForm.PickDate | src/components/transactions/transaction-dialog.tsx:149-152 | The calendar sets or clears the date and nothing else |
| TransactionDialog.TransactionForm.Submit | src/components/transactions/transaction-dialog.tsx:64-83 | Without a date nothing is saved and nothing changes; otherwise the record built from the form is saved and the dialog ends closed and not loading |
| TransactionDialog.IncomeSavedUnderFood | src/components/transactions/transaction-dialog.tsx:99 | As written: a new transaction switched to income, with an amount and a description typed, is saved under `Food`, a category not offered for income |
| TransactionDialog.IncomeSavedUnderIncome | src/components/transactions/transaction-dialog.tsx:85-99 | With the corrected type change the same steps save the income under `Income` |
| UsePreferences.UserDocPath | src/firebase/firestore/use-preferences.ts:14-17 | A document path exists exactly when there is a user and a store, and it is `users/<uid>` |
| UsePreferences.Merge | src/firebase/firestore/use-preferences.ts:43-47 | Fields set by the update take its values; the others keep the stored ones, or are absent when nothing is stored |
| UsePreferences.MergeWithNothingStored | src/firebase/firestore/use-preferences.ts:45 | With no stored preferences the written preferences are the update itself |
| UsePreferences.MergeEmptyUpdate | src/firebase/firestore/use-preferences.ts:44-47 | An empty update writes back the stored preferences unchanged |
| UsePreferences.MergeIdempotent | src/firebase/firestore/use-preferences.ts:44-47 | Applying the same update twice gives what applying it once gives |
| UsePreferences.MergeSequential | src/firebase/firestore/use-preferences.ts:44-47 | Two updates in a row equal one update: the first overlaid by the second |
| UsePreferences.FailedToast | src/firebase/firestore/use-preferences.ts:54-59 | The failure toast is destructive, titled "Update Failed", and shows the error's message or the fixed text when it is empty |
| UsePreferences.UpdatePreferences | src/firebase/firestore/use-preferences.ts:37-61 | Without a document path nothing is written and no toast is shown; a successful write stores the overlay and shows "Preferences Updated"; a failed one keeps the store and shows the failure toast |
| UsePreferences.UpdateTwice | src/firebase/firestore/use-preferences.ts:43-48 | Saving the same update twice stores what saving it once stores |
| UsePreferences.ThemeClass | src/firebase/firestore/use-preferences.ts:28-33 | The class is `light` or `dark`: the theme's own, or the system's scheme for `auto` |
| UsePreferences.Without | src/firebase/firestore/use-preferences.ts:27 | Removing classes keeps exactly the others, in order, without creating duplicates |
| UsePreferences.ThemedTokensShape | src/firebase/firestore/use-preferences.ts:26-33 | Afterwards exactly one of `light`/`dark` is present (the theme's class), every other class is present exactly when it was before and in the same order, and no class repeats |
| UsePreferences.ClassList.Remove | src/firebase/firestore/use-preferences.ts:27 | `classList.remove` leaves the list without the named classes, order kept |
| UsePreferences.ClassList.Add | src/firebase/firestore/use-preferences.ts:30-32 | `classList.add` appends an absent class and leaves a present one alone |
| UsePreferences.ApplyTheme | src/firebase/firestore/use-preferences.ts:23-35 | With no theme the class list is unchanged; with one it becomes the list without `light`/`dark` plus the theme's class |
| UseCurrency.Symbol | src/hooks/use-currency.ts:6-12 | Each currency's symbol is one character |
| UseCurrency.SymbolTable | src/hooks/use-currency.ts:6-12 | The table covers exactly five currencies, each with a distinct symbol |
| UseCurrency.CurrencyOf | src/hooks/use-currency.ts:16 | The currency is the preferred one, `USD` when preferences or the currency are missing |
| UseCurrency.UseCurrencyHook | src/hooks/use-currency.ts:14-17 | The hook's symbol is the table's entry for the preferred currency, `$` when no currency is preferred |
| UseCurrency.FormatNamesCurrency | src/hooks/use-currency.ts:16-20 | Two amounts formatted by the hook start with the same character exactly when both preferences resolve to the same currency |
| UseCurrency.Format | src/hooks/use-currency.ts:19-21 | `format(v)` begins with the symbol, followed by the two-decimal rendering |
| UseCurrency.ShortFormOf | src/hooks/use-currency.ts:24-30 | Millions exactly when v ≥ 1000000, thousands exactly when 1000 ≤ v < 1000000, full otherwise |
| UseCurrency.FormatShort | src/hooks/use-currency.ts:23-31 | `formatShort(v)` begins with the symbol; millions end in `m`, thousands in `k`, and below 1000 (negatives included) it equals `format(v)` |
| UseCurrency.ShortSuffix | src/hooks/use-currency.ts:24-29 | Whenever the two-decimal rendering is a non-empty number text (digits, `.`, `,`, `-`), the text ends in `m` exactly when v ≥ 1000000 and in `k` exactly when 1000 ≤ v < 1000000 |
| UseBudgets.BudgetsInMonth | src/hooks/use-budgets.ts:22 | Exactly the budgets whose month is the key, in the original order; the whole list when every budget is in that month |
| UseBudgets.BudgetsInMonthCounts | src/hooks/use-budgets.ts:22 | Each budget of the month is kept as many times as it occurs in the list, and no other budget is kept |
| UseBudgets.MockBudgetMonths | src/hooks/use-budgets.ts:8-13 | All four mock budgets are in `2024-05`; every other month has none |
| UseBudgets.BudgetsHook.constructor | src/hooks/use-budgets.ts:16-17 | The hook starts with no budgets, loading |
| UseBudgets.BudgetsHook.BeginLoad | src/hooks/use-budgets.ts:20-22 | The effect sets loading and computes the month's budgets without changing the list shown |
| UseBudgets.BudgetsHook.TimerFires | src/hooks/use-budgets.ts:24-27 | The timer shows the pending list and ends loading |
| UseBudgets.BudgetsHook.LoadMonth | src/hooks/use-budgets.ts:19-30 | After the effect completes, the list is exactly the month's mock budgets and loading is false |
| UseBudgets.BudgetsHook.SetBudget | src/hooks/use-budgets.ts:32-35 | `setBudget` leaves budgets and loading unchanged |
| UseBudgets.BudgetsHook.DeleteBudget | src/hooks/use-budgets.ts:37-40 | `deleteBudget` leaves budgets and loading unchanged |
| UseTransactions.TransactionsInRange | src/hooks/use-transactions.ts:33-36 | Exactly the transactions dated within [start, end], both bounds included, each kept as many times as it occurs, in mock-list order |
| UseTransactions.BoundsIncluded | src/hooks/use-transactions.ts:35 | A transaction dated exactly on either bound is kept |
| UseTransactions.TransactionsHook.constructor | src/hooks/use-transactions.ts:24-25 | The hook starts with no transactions, loading |
| UseTransactions.TransactionsHook.BeginLoad | src/hooks/use-transactions.ts:27-36 | The effect sets loading and picks the month's transactions without changing the list shown |
| UseTransactions.TransactionsHook.TimerFires | src/hooks/use-transactions.ts:38-41 | The timer shows the pending list and ends loading |
| UseTransactions.TransactionsHook.LoadMonth | src/hooks/use-transactions.ts:27-44 | After the effect completes, the list is exactly the mock transactions in range and loading is false |
| UseTransactions.TransactionsHook.AddTransaction | src/hooks/use-transactions.ts:46-49 | `addTransaction` leaves the state unchanged |
| UseTransactions.TransactionsHook.UpdateTransaction | src/hooks/use-transactions.ts:51-54 | `updateTransaction` leaves the state unchanged |
| UseTransactions.TransactionsHook.DeleteTransaction | src/hooks/use-transactions.ts:56-59 | `deleteTransaction` leaves the state unchanged |
| AuthGate.Gate | src/components/auth/auth-gate.tsx:17-43 | Loader while loading whatever the user; children exactly when loaded with a user; nothing and a redirect to `/login` exactly when loaded without one |
| AuthGate.NothingIffRedirect | src/components/auth/auth-gate.tsx:19-43 | The gate renders nothing exactly when it redirects |

## Left out

- Download mechanics: `exportToCsv` and `exportToTxt` end by creating a Blob and a hidden link and clicking it (src/lib/helpers.ts:16-24, 42-50). This is browser I/O.
- Floating point: amounts are exact reals.
  - `toFixed`, `toLocaleString`, `toString`, `parseFloat` and date-fns `format` are function parameters. Only two lemmas assume anything of them. The round-trip lemma `Helpers.CsvRoundTrip` asks that the formatted date and amount contain no comma, quote or line feed. `UseCurrency.ShortSuffix` asks that the two-decimal rendering be a non-empty run of digits, `.`, `,` and `-`.
  - `parseFloat` returning `NaN` for a non-numeric amount is not represented.
- `Date.now()`-based ids, `new Date()` and the current `yyyy-MM` month are parameters (`freshId`, `now`, `currentMonth`, `generatedOn`, `monthKey`). The month bounds `startOfMonth`/`endOfMonth` are parameters too (`start`, `end`).
- Dates are instants. Parsing an ISO string (`new Date(t.date)`) and writing one back (`toISOString`) are treated as the identity on `Timestamp`.
- React scheduling:
  - Effects, the 500 ms and 1000 ms timers, `clearTimeout` on unmount or on a month change, and the asynchronous `await` in the submit handlers are not modelled as time.
  - Each effect is split into its synchronous start (`BeginLoad`) and the timer callback (`TimerFires`). A cancelled timer is a `TimerFires` that never happens.
- Toasts are returned as values; the toast queue is not modelled. The Firestore write is reduced to its outcome, the `writeError` parameter.
- `UsePreferences.UpdatePreferences`: the store's `merge: true` deep merge is modelled as replacing the stored preferences with the overlay. This is what it amounts to when the hook's view of the preferences is the stored one.
- `UsePreferences.Merge`: an update carrying an explicit `undefined` for a field (which the object spread copies) is not representable. An absent field and an `undefined` one are the same `None`.
- `src/lib/types.ts` does not declare `UserPreferences` or `Currency`, although the preferences and currency hooks import them from it. The model infers them from the five-entry symbol table and the settings page's light/dark/auto themes.
- A stored currency outside the table (which would give the symbol `undefined`) cannot occur in the typed model.
- `UsePreferences.ClassList.Add`: `DOMTokenList.add` throwing on an empty or whitespace token is not modelled. The effect only adds `light` or `dark`.
- The 25 mock transactions are drawn with `Math.random`. They are not modelled; the mock list is a parameter of the transactions hook's load.
- `BudgetList.OverBudgetConsistent`: only for budgets whose amount is not negative. For a negative amount the progress sign flips and the bar and the footer can disagree.
- `TransactionDialog.SavedTransaction`: an edited transaction's `receiptUrl` is dropped by the source's record literal. The model states this (`receiptUrl == None`) rather than keeping it.
- `BudgetDialog.BudgetForm.Submit` and `TransactionDialog.TransactionForm.Submit` model `handleSubmit` itself. The browser's `required` check on the amount and description inputs, which stops an empty field from being submitted, is not modelled. The demonstrations of the two findings fill those inputs before saving.
- Rendering (markup, icons, classes other than the theme), the delete menu, and the dialog's open/close callbacks from outside are not modelled.

## Findings

| source | as written | input that shows it | evidently intended | confidence | as-written member | corrected member |
|---|---|---|---|---|---|---|
| src/components/transactions/transaction-dialog.tsx:99 | The type radio sets only `type`; the category keeps its value even when the selector no longer offers it | Open the dialog for a new transaction (category `Food`), choose "Income", enter an amount and a description and save: the record is an income filed under `Food` | After a type change the category is one offered for the new type (`Income` for income) | medium, not executed | TransactionDialog.IncomeSavedUnderFood | TransactionDialog.TransactionForm.ChooseTypeKeepingOffer |
| src/components/budgets/budget-dialog.tsx:41-49 | Opening the dialog to create a budget resets the category to `Food`, whether or not `Food` already has a budget; the selector then offers only the other categories | With a `Food` budget in place, open "Set Budget", enter an amount and save: a second `Food` budget is created | A new budget starts on a category that is still available | medium, not executed | BudgetDialog.SecondFoodBudget | BudgetDialog.BudgetForm.ResetOffering |
