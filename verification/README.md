# FinBot ledger core in Dafny

This project models the transaction ledger of the FinBot personal-finance
web app. It covers three parts:

- **The store** (`TransactionStore`). It holds the transactions, the
  categories and the current filter. Its mutations are add, delete, update,
  add-category and set-filter. Its queries are the filtered, newest-first
  transaction list, the income/expense summary, the expenses-by-category pie
  chart and the six-month income/expense bar chart.
- **The entry form** (`TransactionForm`). It offers only the categories that
  fit the chosen type, falls back to a default category, strips everything
  but digits and `.` from the amount, and validates the three required
  fields with one message each. On submit it either updates the edited
  transaction or adds a new one.
- **The filter bar** on the transactions page. Its controls each patch one
  filter field. "Clear filters" restores the defaults, and `isFiltered`
  decides whether that button shows.

Modules, one per file:

| module | file | contents |
|---|---|---|
| `Wrappers` | `wrappers.dfy` | `Option` |
| `Seqs` | `seqs.dfy` | an order-keeping `Filter` with its laws |
| `Text` | `text.dfy` | ASCII lower-casing, substring search, ECMAScript `trim`, amount sanitising and `parseFloat` on the sanitised text |
| `Ledger` | `ledger.dfy` | the records, calendar dates and months, the clock readings and `find` by id |
| `LedgerQueries` | `query.dfy` | the filter, the in-place newest-first sort, the sums, the summary and the two chart builders |
| `LedgerStore` | `store.dfy` | the initial data, the mutations as functions on values, the `TransactionStore` class, and lemmas on how a mutation moves the filtered view |
| `EntryForm` | `form.dfy` | the form class |
| `FilterBar` | `filterbar.dfy` | the filter-bar patches |

How the source maps onto the model:

- **Amounts** are `real`, and sums are left folds starting at 0, like
  `reduce`.
- **Dates** are calendar days (`Date(year, month, day)`) ordered
  lexicographically. `isAfter(parseISO(date), cutoff)` holds exactly when the
  date is a later calendar day than the cutoff's day, because `parseISO` of a
  bare date is local midnight.
- **The clock** is a parameter. It gives today's date and the three cutoffs
  that `subDays`/`subMonths`/`subYears` compute.
- **Generated values.** The ids and `createdAt` stamps that the source takes
  from `Date.now()` and `new Date()` are parameters too.
- **The six chart months** are named by year and month. The month `i` months
  before today is computed exactly: `subMonths` clamps only the day, never
  the month.

## Model

| member | source | states |
|---|---|---|
| `Seqs.FilterConcat` | src/stores/transactionStore.ts:117 | filtering a concatenation is the concatenation of the filtered parts: `Array.filter` keeps order |
| `Seqs.FilterLength` | src/stores/transactionStore.ts:117 | a filter drops exactly the elements that fail its test |
| `Seqs.FilterAll` | src/stores/transactionStore.ts:155-174 | a filter every element passes returns the list unchanged |
| `Seqs.FilterTwice` | src/stores/transactionStore.ts:177-195 | two filters applied in turn equal one filter with both tests |
| `Seqs.FilterIdempotent` | src/stores/transactionStore.ts:177-195 | filtering twice with the same test is filtering once |
| `Seqs.FilterSameTest` | src/stores/transactionStore.ts:177-195 | filters whose tests agree on every element agree |
| `Text.Lower` | src/stores/transactionStore.ts:189 | `toLowerCase` keeps the length and leaves no upper-case letter |
| `Text.LowerIdempotent` | src/stores/transactionStore.ts:189-193 | lower-casing twice is lower-casing once |
| `Text.ContainsIff` | src/stores/transactionStore.ts:192-193 | `includes` holds exactly when the needle occurs at some index |
| `Text.TrimStartEmpty` | src/components/TransactionForm.tsx:84 | trimming the start leaves nothing exactly when every character is whitespace |
| `Text.TrimEndEmpty` | src/components/TransactionForm.tsx:84 | trimming the end leaves nothing exactly when every character is whitespace |
| `Text.BlankIff` | src/components/TransactionForm.tsx:84 | `trim()` is empty exactly when every character is whitespace or a line terminator |
| `Text.TrimStartSuffix` | src/components/TransactionForm.tsx:84 | trimming the start removes a whitespace prefix and stops at a non-whitespace character |
| `Text.SanitizeAmount` | src/components/TransactionForm.tsx:59-62 | the sanitised amount holds only digits and `.`, and keeps every digit and `.` of the input |
| `Text.SanitizeConcat` | src/components/TransactionForm.tsx:61 | sanitising works character by character and keeps order |
| `Text.SanitizeIdempotent` | src/components/TransactionForm.tsx:61 | sanitising an already sanitised amount changes nothing |
| `Text.SanitizeKeepsClean` | src/components/TransactionForm.tsx:61 | text of digits and `.` passes through unchanged |
| `Text.ParseAmount` | src/components/TransactionForm.tsx:103 | `parseFloat` of a sanitised amount is never negative, and of a digit string is its decimal value |
| `Text.LeadingDigitsOf` | src/components/TransactionForm.tsx:103 | `parseFloat` reads the integer digits up to the first character that is not a digit |
| `Text.ParseDecimal` | src/components/TransactionForm.tsx:103 | digits `w`, a `.`, digits `f` and anything not starting with a digit are read as `w` plus `f` divided by 10 to the power of the length of `f` |
| `Text.ParseTwoDecimals` | src/components/TransactionForm.tsx:103 | `"12.50"` is read as 12.5 |
| `Ledger.MonthIndexInjective` | src/stores/transactionStore.ts:284 | the month index is one-to-one on year-month pairs, so equal indices mean the same `M yyyy` bucket |
| `Ledger.DateBeforeMonth` | src/stores/transactionStore.ts:171-173 | a date after another lies in the same month or a later one |
| `Ledger.MonthsBefore` | src/stores/transactionStore.ts:277 | `subMonths(now, n)` lies exactly `n` calendar months before now |
| `Ledger.FindCategory` | src/stores/transactionStore.ts:193 | `find` by id returns a category with that id, and returns nothing exactly when no category has it |
| `Ledger.FindCategoryFirst` | src/stores/transactionStore.ts:245 | `find` returns the first category with the id |
| `LedgerQueries.SortNewestFirst` | src/stores/transactionStore.ts:198 | the sort leaves every later date before every earlier one and keeps the same transactions |
| `LedgerQueries.FilterSteps` | src/stores/transactionStore.ts:155-195 | the four filter stages, each applied only when its filter field is set, keep exactly the transactions in the window, of the type, in the category and matching the search |
| `LedgerQueries.ApplyFilter` | src/stores/transactionStore.ts:150-199 | the result holds exactly the stored transactions that match the filter, each as often as stored, newest first |
| `LedgerQueries.SelectAllWhenUnfiltered` | src/stores/transactionStore.ts:155-195 | with time range `all`, type `all`, no category and no search, nothing is filtered out |
| `LedgerQueries.SumConcat` | src/stores/transactionStore.ts:205-211 | the `reduce` total of two lists is the sum of their totals |
| `LedgerQueries.SumPermutation` | src/stores/transactionStore.ts:202-211 | the totals do not depend on the order of the transactions |
| `LedgerQueries.SumNone` | src/stores/transactionStore.ts:205-211 | a total over no matching transaction is 0 |
| `LedgerQueries.SumNonNegative` | src/stores/transactionStore.ts:205-211 | totals of non-negative amounts are non-negative |
| `LedgerQueries.SumFiltered` | src/stores/transactionStore.ts:288-294 | pre-filtering with a weaker test does not change a total |
| `LedgerQueries.SumIncomeExpense` | src/stores/transactionStore.ts:205-211 | income plus expense is the total of all amounts |
| `LedgerQueries.Summarize` | src/stores/transactionStore.ts:202-218 | balance is total income minus total expense |
| `LedgerQueries.SummaryOfNothing` | src/stores/transactionStore.ts:205-217 | an empty list gives the zero summary |
| `LedgerQueries.SummaryPartition` | src/stores/transactionStore.ts:205-211 | income plus expense covers every transaction exactly once |
| `LedgerQueries.SummaryPermutation` | src/stores/transactionStore.ts:202-218 | the summary does not depend on order, so the sort does not change it |
| `LedgerQueries.SummaryBounds` | src/stores/transactionStore.ts:205-216 | with non-negative amounts, both totals are non-negative and the balance is at most the income |
| `LedgerQueries.SummaryConcat` | src/stores/transactionStore.ts:205-216 | the summary of two lists is the field-wise sum of their summaries |
| `LedgerQueries.CategoryExpenseStep` | src/stores/transactionStore.ts:231-237 | one more expense adds its amount to its own category's total and to no other |
| `LedgerQueries.CategoryExpenseUnused` | src/stores/transactionStore.ts:229-237 | a category no expense uses has total 0 |
| `LedgerQueries.ExpenseTotalsByCategory` | src/stores/transactionStore.ts:226-237 | the grouping has one key per category an expense uses, and its value is that category's expense total, despite the reset on a falsy running total |
| `LedgerQueries.CategoryChart` | src/stores/transactionStore.ts:221-265 | one entry per used category that exists, with its name, expense total and colour, no category twice, and none whose id is unknown; it also returns each entry's category id, which the source holds only as the loop variable |
| `LedgerQueries.MonthlyChart` | src/stores/transactionStore.ts:268-319 | six consecutive months ending with the current one, each with that month's income and expense totals |
| `LedgerQueries.EmptyMonthIsZero` | src/stores/transactionStore.ts:281-297 | a month with no transaction of the type gets 0 |
| `LedgerQueries.MonthBeforeCutoffIsZero` | src/stores/transactionStore.ts:171-173 | when every transaction is after the cutoff, months before the cutoff's month get 0 |
| `LedgerStore.WithoutId` | src/stores/transactionStore.ts:115-119 | delete keeps exactly the transactions with another id |
| `LedgerStore.DeleteKeepsOrder` | src/stores/transactionStore.ts:117 | delete keeps the order of the remaining transactions |
| `LedgerStore.DeleteLength` | src/stores/transactionStore.ts:117 | delete removes as many transactions as carry the id |
| `LedgerStore.DeleteUnknownId` | src/stores/transactionStore.ts:117 | deleting an unknown id changes nothing |
| `LedgerStore.ApplyPatch` | src/stores/transactionStore.ts:125 | an update never changes a transaction's id or creation time |
| `LedgerStore.PatchOverwritesPresentFields` | src/stores/transactionStore.ts:125 | `{ ...t, ...data }` takes each field the patch carries and keeps every other field |
| `LedgerStore.PatchById` | src/stores/transactionStore.ts:122-128 | update keeps length, position, ids and creation times, patches each transaction with the id and leaves those with another id unchanged |
| `LedgerStore.UpdateUnknownId` | src/stores/transactionStore.ts:124-126 | updating an unknown id changes nothing |
| `LedgerStore.UpdateIdempotent` | src/stores/transactionStore.ts:124-126 | applying the same update twice is applying it once |
| `LedgerStore.MergeOverwritesPresentFields` | src/stores/transactionStore.ts:143-147 | set-filter overwrites exactly the fields the patch carries |
| `LedgerStore.MergeIdempotent` | src/stores/transactionStore.ts:143-147 | the same patch twice is the patch once, and the empty patch changes nothing |
| `LedgerStore.SelectAfterAdd` | src/stores/transactionStore.ts:102-112 | after an add, the filtered view gains the new transaction exactly when it matches the filter |
| `LedgerStore.SelectAfterDelete` | src/stores/transactionStore.ts:115-119 | deleting then filtering equals filtering then deleting |
| `LedgerStore.SummaryAfterAdd` | src/stores/transactionStore.ts:102-112 | adding a matching transaction moves its amount into its own type's total, and a non-matching one changes nothing |
| `LedgerStore.MonthlyChartHonoursTimeRange` | src/stores/transactionStore.ts:268-286 | the monthly chart is built from the filtered list, so months before the time range's cutoff show 0 |
| `LedgerStore.TransactionStore.constructor` | src/stores/transactionStore.ts:91-99 | the store starts with the sample transactions, the default categories and the filter `all`/none/`month`/empty |
| `LedgerStore.TransactionStore.AddTransaction` | src/stores/transactionStore.ts:102-112 | the stamped transaction goes to the front and the rest stay as they were |
| `LedgerStore.TransactionStore.DeleteTransaction` | src/stores/transactionStore.ts:115-119 | the transactions become those with another id |
| `LedgerStore.TransactionStore.UpdateTransaction` | src/stores/transactionStore.ts:122-128 | the transactions with the id get the patch, in place |
| `LedgerStore.TransactionStore.AddCategory` | src/stores/transactionStore.ts:131-140 | the new category with the given id goes to the end |
| `LedgerStore.TransactionStore.SetFilter` | src/stores/transactionStore.ts:143-147 | the filter is merged with the patch |
| `LedgerStore.TransactionStore.GetFilteredTransactions` | src/stores/transactionStore.ts:150-199 | the stored transactions that match the current filter, newest first |
| `LedgerStore.TransactionStore.GetTransactionSummary` | src/stores/transactionStore.ts:202-218 | the summary of the matching transactions |
| `LedgerStore.TransactionStore.GetCategoryChartData` | src/stores/transactionStore.ts:221-265 | the category chart of the matching transactions |
| `LedgerStore.TransactionStore.GetMonthlyChartData` | src/stores/transactionStore.ts:268-319 | the six-month chart of the matching transactions |
| `EntryForm.OfferedCategories` | src/components/TransactionForm.tsx:41-44 | the form offers exactly the categories that are `both` or of the chosen type |
| `EntryForm.OfferedKeepsOrder` | src/components/TransactionForm.tsx:42-44 | offered categories keep the store's order |
| `EntryForm.DefaultCategory` | src/components/TransactionForm.tsx:46-52 | an offered selection is kept; otherwise the first offered id is chosen, or the empty id when nothing is offered; the result is empty or offered |
| `EntryForm.DefaultCategoryStable` | src/components/TransactionForm.tsx:47-52 | once the effect has run, running it again changes nothing |
| `EntryForm.DescriptionGivenIff` | src/components/TransactionForm.tsx:84-86 | a description passes exactly when it has a character that is not whitespace |
| `EntryForm.TransactionForm.constructor` | src/components/TransactionForm.tsx:27-39 | the given initial values, or a zero-amount expense dated today, and no errors |
| `EntryForm.TransactionForm.SelectType` | src/components/TransactionForm.tsx:126-131 | a radio button changes the type only |
| `EntryForm.TransactionForm.ResetCategory` | src/components/TransactionForm.tsx:46-52 | the category becomes the default one, which is empty or offered for the type |
| `EntryForm.TransactionForm.HandleChange` | src/components/TransactionForm.tsx:54-71 | the named field gets the new value, the amount sanitised; that field's error, and only that one, is cleared |
| `EntryForm.TransactionForm.Validate` | src/components/TransactionForm.tsx:73-95 | each failing field gets its message and each passing one none; the result is true exactly when all three pass |
| `EntryForm.TransactionForm.HandleSubmit` | src/components/TransactionForm.tsx:97-117 | the errors become validation's messages; invalid input leaves the store alone; edit mode with an id updates that id with all fields; anything else adds the parsed transaction to the front |
| `FilterBar.ClearFiltersRestoresInitial` | src/pages/Transactions.tsx:28-35 | clearing gives back the store's initial filter, which is not filtered |
| `FilterBar.IsFilteredIff` | src/pages/Transactions.tsx:48-52 | `isFiltered` holds exactly when the filter differs from the initial one |
| `FilterBar.SingleFieldHandlers` | src/pages/Transactions.tsx:12-26 | the time-range, type and search controls each change their own field and nothing else |
| `FilterBar.CategoryHandler` | src/pages/Transactions.tsx:20-22 | the category control sets `null` for the empty option and the id otherwise, so the store's category test is on exactly when a category is set |

## Left out

- Rendering, routing, toasts, icons, the `onSuccess`/`onCancel` callbacks and the dataset styling (chart label, border colours, widths) are left out.
- Persistence to local storage (src/stores/transactionStore.ts:321-327) is left out; the model is one in-memory store.
- Authentication, the theme store and currency and date formatting are left out.
- Time is a parameter. `Date.now()`, `new Date()` and the date-fns cutoffs (`subDays`, `subMonths`, `subYears` of now) are supplied by the caller, and the model does not check that they are consistent with each other.
- Ids are parameters. Uniqueness of `Date.now()` ids is not claimed, and delete and update act on every transaction with the id.
- Floating point is not modelled. Amounts are exact reals, so rounding in sums is not captured.
- `Text.ParseAmount`: `parseFloat` gives `NaN` for sanitised text with no digit before its first `.` and none right after it (`"."`, `"..5"`); the model gives 0 there. Text such as `".5"` is read as 0.5, as in the source. Exponent notation never reaches it because sanitising removes `e`.
- `Text.Lower`: only ASCII `A`–`Z` is lower-cased; Unicode case mapping is not modelled.
- `LedgerQueries.SortNewestFirst`: proved sorted and a permutation, but not stable, though the engine's sort is stable; the order among transactions of the same day is not stated.
- `LedgerQueries.ApplyFilter`: like the sort it calls, the order among same-day transactions is not stated.
- `LedgerQueries.CategoryChart`: the order of the entries is not stated; it follows `Object.entries` key order, which puts integer-like ids first.
- Dates are calendar days. An unparsable or empty date string, and clearing the form's date input, are not modelled. The form's `|| today` fallback applies only when no initial values are given.
- The form's type radio buttons call `SelectType`. The category `select` offering only `OfferedCategories` is not enforced on `HandleChange`.
- Month labels are year-month pairs; the `MMM yyyy` text formatting is left out.
- The monthly chart is filled from the already-filtered list (src/stores/transactionStore.ts:269), so months before the time range's cutoff show 0 (`LedgerStore.MonthlyChartHonoursTimeRange`).
- `EntryForm.TransactionForm.ResetCategory`: when the reset runs is left to the caller. In the source the effect depends on `filteredCategories`, a new array on every render, so it runs after every render and not only when the type changes. In the source a submitted category of `''` can then occur only when no category is offered.
