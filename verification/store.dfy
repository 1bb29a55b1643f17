/**
 * The transaction store: the transaction list, the category list and the
 * filter, the five mutations that replace them, and the four queries that
 * read a snapshot of all three.
 */
module LedgerStore {
  import opened Wrappers
  import opened Seqs
  import opened Ledger
  import opened LedgerQueries

  /** The filter the store starts with, and the one the filter bar's reset restores. */
  const InitialFilter := TxFilter(AllTypes, None, Month, "")

  const DefaultCategories: seq<Category> := [
    Category("1", "Salary", "#10B981", "briefcase", IncomeOnly),
    Category("2", "Freelance", "#6366F1", "laptop", IncomeOnly),
    Category("3", "Investments", "#F59E0B", "trending-up", IncomeOnly),
    Category("4", "Food", "#EF4444", "utensils", ExpenseOnly),
    Category("5", "Housing", "#8B5CF6", "home", ExpenseOnly),
    Category("6", "Transportation", "#3B82F6", "car", ExpenseOnly),
    Category("7", "Entertainment", "#EC4899", "film", ExpenseOnly),
    Category("8", "Shopping", "#F97316", "shopping-bag", ExpenseOnly),
    Category("9", "Health", "#14B8A6", "activity", ExpenseOnly),
    Category("10", "Other", "#6B7280", "more-horizontal", Both)
  ]

  const SampleTransactions: seq<Transaction> := [
    Transaction("1", 3500.0, "Monthly Salary", "1", Date(2025, 1, 1), Income, "2025-01-01T10:00:00Z"),
    Transaction("2", 800.0, "Freelance Project", "2", Date(2025, 1, 15), Income, "2025-01-15T14:30:00Z"),
    Transaction("3", 1200.0, "Rent Payment", "5", Date(2025, 1, 5), Expense, "2025-01-05T09:15:00Z"),
    Transaction("4", 85.0, "Grocery Shopping", "4", Date(2025, 1, 10), Expense, "2025-01-10T18:45:00Z"),
    Transaction("5", 150.0, "Concert Tickets", "7", Date(2025, 1, 20), Expense, "2025-01-20T20:00:00Z")
  ]

  // ---------------------------------------------------------------------------
  // Mutations on values

  /** `addTransaction`'s new record: the supplied fields, a fresh id and a creation time. */
  function Stamp(input: TransactionInput, id: string, createdAt: string): Transaction
  {
    Transaction(id, input.amount, input.description, input.category, input.date, input.kind, createdAt)
  }

  /** `deleteTransaction`: `filter((t) => t.id !== id)`. */
  function WithoutId(txs: seq<Transaction>, id: string): (r: seq<Transaction>)
    ensures forall t :: t in r <==> t in txs && t.id != id
  {
    Filter(txs, (t: Transaction) => t.id != id)
  }

  /** Deleting works record by record, so the records kept stay in their order. */
  lemma DeleteKeepsOrder(a: seq<Transaction>, b: seq<Transaction>, id: string)
    ensures WithoutId(a + b, id) == WithoutId(a, id) + WithoutId(b, id)
  {
    FilterConcat(a, b, (t: Transaction) => t.id != id);
  }

  /** Deleting drops exactly the records with the id: the length falls by their number. */
  lemma DeleteLength(txs: seq<Transaction>, id: string)
    ensures |WithoutId(txs, id)| == |txs| - Count(txs, (t: Transaction) => t.id == id)
  {
    FilterLength(txs, (t: Transaction) => t.id != id, (t: Transaction) => t.id == id);
  }

  /** Deleting an id no record has leaves the list as it was. */
  lemma DeleteUnknownId(txs: seq<Transaction>, id: string)
    requires forall t :: t in txs ==> t.id != id
    ensures WithoutId(txs, id) == txs
  {
    FilterAll(txs, (t: Transaction) => t.id != id);
  }

  /** `{ ...t, ...data }`: each field the patch carries replaces the record's. */
  function ApplyPatch(t: Transaction, patch: TransactionPatch): (r: Transaction)
    ensures r.id == t.id && r.createdAt == t.createdAt
  {
    Transaction(
      t.id,
      if patch.amount.Some? then patch.amount.value else t.amount,
      if patch.description.Some? then patch.description.value else t.description,
      if patch.category.Some? then patch.category.value else t.category,
      if patch.date.Some? then patch.date.value else t.date,
      if patch.kind.Some? then patch.kind.value else t.kind,
      t.createdAt)
  }

  /** An update overwrites exactly the fields the patch carries and keeps the others. */
  lemma PatchOverwritesPresentFields(t: Transaction, patch: TransactionPatch)
    ensures patch.amount.Some? ==> ApplyPatch(t, patch).amount == patch.amount.value
    ensures patch.amount.None? ==> ApplyPatch(t, patch).amount == t.amount
    ensures patch.description.Some? ==> ApplyPatch(t, patch).description == patch.description.value
    ensures patch.description.None? ==> ApplyPatch(t, patch).description == t.description
    ensures patch.category.Some? ==> ApplyPatch(t, patch).category == patch.category.value
    ensures patch.category.None? ==> ApplyPatch(t, patch).category == t.category
    ensures patch.date.Some? ==> ApplyPatch(t, patch).date == patch.date.value
    ensures patch.date.None? ==> ApplyPatch(t, patch).date == t.date
    ensures patch.kind.Some? ==> ApplyPatch(t, patch).kind == patch.kind.value
    ensures patch.kind.None? ==> ApplyPatch(t, patch).kind == t.kind
  {
  }

  /** `updateTransaction`: every record with the id is patched, the others are kept. */
  function PatchById(txs: seq<Transaction>, id: string, patch: TransactionPatch): (r: seq<Transaction>)
    ensures |r| == |txs|
    ensures forall i :: 0 <= i < |txs| ==> r[i].id == txs[i].id && r[i].createdAt == txs[i].createdAt
    ensures forall i :: 0 <= i < |txs| && txs[i].id != id ==> r[i] == txs[i]
    ensures forall i :: 0 <= i < |txs| && txs[i].id == id ==> r[i] == ApplyPatch(txs[i], patch)
  {
    seq(|txs|, i requires 0 <= i < |txs| => if txs[i].id == id then ApplyPatch(txs[i], patch) else txs[i])
  }

  /** Updating an id no record has leaves the list as it was. */
  lemma UpdateUnknownId(txs: seq<Transaction>, id: string, patch: TransactionPatch)
    requires forall t :: t in txs ==> t.id != id
    ensures PatchById(txs, id, patch) == txs
  {
  }

  /** Applying the same update twice is applying it once. */
  lemma UpdateIdempotent(txs: seq<Transaction>, id: string, patch: TransactionPatch)
    ensures PatchById(PatchById(txs, id, patch), id, patch) == PatchById(txs, id, patch)
  {
  }

  /** `setFilter`: `{ ...state.filter, ...filter }`. */
  function MergeFilter(f: TxFilter, patch: TxFilterPatch): TxFilter
  {
    TxFilter(
      if patch.kind.Some? then patch.kind.value else f.kind,
      if patch.category.Some? then patch.category.value else f.category,
      if patch.timeRange.Some? then patch.timeRange.value else f.timeRange,
      if patch.search.Some? then patch.search.value else f.search)
  }

  /** A merge overwrites exactly the fields the patch carries and keeps every other one. */
  lemma MergeOverwritesPresentFields(f: TxFilter, patch: TxFilterPatch)
    ensures patch.kind.Some? ==> MergeFilter(f, patch).kind == patch.kind.value
    ensures patch.kind.None? ==> MergeFilter(f, patch).kind == f.kind
    ensures patch.category.Some? ==> MergeFilter(f, patch).category == patch.category.value
    ensures patch.category.None? ==> MergeFilter(f, patch).category == f.category
    ensures patch.timeRange.Some? ==> MergeFilter(f, patch).timeRange == patch.timeRange.value
    ensures patch.timeRange.None? ==> MergeFilter(f, patch).timeRange == f.timeRange
    ensures patch.search.Some? ==> MergeFilter(f, patch).search == patch.search.value
    ensures patch.search.None? ==> MergeFilter(f, patch).search == f.search
  {
  }

  /** Merging the same patch twice is merging it once; an empty patch changes nothing. */
  lemma MergeIdempotent(f: TxFilter, patch: TxFilterPatch)
    ensures MergeFilter(MergeFilter(f, patch), patch) == MergeFilter(f, patch)
    ensures MergeFilter(f, TxFilterPatch(None, None, None, None)) == f
  {
  }

  // ---------------------------------------------------------------------------
  // How the mutations move the filtered view

  /** A new record appears at the head of the view's underlying selection iff it matches. */
  lemma SelectAfterAdd(t: Transaction, txs: seq<Transaction>, categories: seq<Category>, f: TxFilter, clock: Clock)
    ensures Select([t] + txs, categories, f, clock) ==
            (if Matches(t, categories, f, clock) then [t] else []) + Select(txs, categories, f, clock)
  {
    FilterConcat([t], txs, x => Matches(x, categories, f, clock));
    assert [t][..0] == [];
  }

  /** Deleting and filtering commute: the view after a delete is the old view without the id. */
  lemma SelectAfterDelete(txs: seq<Transaction>, id: string, categories: seq<Category>, f: TxFilter, clock: Clock)
    ensures Select(WithoutId(txs, id), categories, f, clock) == WithoutId(Select(txs, categories, f, clock), id)
  {
    var keep := (t: Transaction) => t.id != id;
    var matches := (t: Transaction) => Matches(t, categories, f, clock);
    var both := (t: Transaction) => keep(t) && matches(t);
    FilterTwice(txs, keep, matches, both);
    FilterTwice(txs, matches, keep, both);
  }

  /** Added income that passes the filter raises total income by its amount and nothing else. */
  lemma SummaryAfterAdd(t: Transaction, txs: seq<Transaction>, categories: seq<Category>, f: TxFilter, clock: Clock)
    ensures var before := Summarize(Select(txs, categories, f, clock));
            var after := Summarize(Select([t] + txs, categories, f, clock));
            var delta := if Matches(t, categories, f, clock) then t.amount else 0.0;
            after.totalIncome == before.totalIncome + (if t.kind == Income then delta else 0.0) &&
            after.totalExpense == before.totalExpense + (if t.kind == Expense then delta else 0.0)
  {
    SelectAfterAdd(t, txs, categories, f, clock);
    var head := if Matches(t, categories, f, clock) then [t] else [];
    SummaryConcat(head, Select(txs, categories, f, clock));
    assert [t][..0] == [];
    assert SumAmounts([t], IsIncome) == SumAmounts([], IsIncome) + (if IsIncome(t) then t.amount else 0.0);
    assert SumAmounts([t], IsExpense) == SumAmounts([], IsExpense) + (if IsExpense(t) then t.amount else 0.0);
    var delta := if Matches(t, categories, f, clock) then t.amount else 0.0;
    assert Summarize(head).totalIncome == (if t.kind == Income then delta else 0.0);
    assert Summarize(head).totalExpense == (if t.kind == Expense then delta else 0.0);
  }

  /** With a time range on, months that end before the cutoff's month show zero in the monthly chart. */
  lemma MonthlyChartHonoursTimeRange(
    txs: seq<Transaction>, categories: seq<Category>, f: TxFilter, clock: Clock, m: YearMonth, kind: TxType)
    requires Cutoff(f.timeRange, clock).Some?
    requires MonthIndex(m) < MonthIndex(MonthOf(Cutoff(f.timeRange, clock).value))
    ensures MonthTotal(Select(txs, categories, f, clock), m, kind) == 0.0
  {
    var cutoff := Cutoff(f.timeRange, clock).value;
    forall t | t in Select(txs, categories, f, clock)
      ensures DateBefore(cutoff, t.date)
    {
      assert InWindow(t, f.timeRange, clock);
    }
    MonthBeforeCutoffIsZero(Select(txs, categories, f, clock), cutoff, m, kind);
  }

  // ---------------------------------------------------------------------------
  // The store

  class TransactionStore {
    var transactions: seq<Transaction>
    var categories: seq<Category>
    var filter: TxFilter

    constructor ()
      ensures transactions == SampleTransactions && categories == DefaultCategories
      ensures filter == InitialFilter
    {
      transactions := SampleTransactions;
      categories := DefaultCategories;
      filter := InitialFilter;
    }

    /** Prepends the new record; `id` and `createdAt` stand for `Date.now()` and the current time. */
    method AddTransaction(input: TransactionInput, id: string, createdAt: string)
      modifies this`transactions
      ensures transactions == [Stamp(input, id, createdAt)] + old(transactions)
      ensures |transactions| == |old(transactions)| + 1 && transactions[1..] == old(transactions)
    {
      transactions := [Stamp(input, id, createdAt)] + transactions;
    }

    method DeleteTransaction(id: string)
      modifies this`transactions
      ensures transactions == WithoutId(old(transactions), id)
    {
      transactions := WithoutId(transactions, id);
    }

    method UpdateTransaction(id: string, patch: TransactionPatch)
      modifies this`transactions
      ensures transactions == PatchById(old(transactions), id, patch)
    {
      transactions := PatchById(transactions, id, patch);
    }

    /** Appends the new category; `id` stands for `Date.now()`. */
    method AddCategory(input: CategoryInput, id: string)
      modifies this`categories
      ensures categories == old(categories) + [Category(id, input.name, input.color, input.icon, input.kind)]
    {
      categories := categories + [Category(id, input.name, input.color, input.icon, input.kind)];
    }

    method SetFilter(patch: TxFilterPatch)
      modifies this`filter
      ensures filter == MergeFilter(old(filter), patch)
    {
      filter := MergeFilter(filter, patch);
    }

    /** The filtered view of the current snapshot; the stored list is not reordered. */
    method GetFilteredTransactions(clock: Clock) returns (r: seq<Transaction>)
      ensures multiset(r) == multiset(Select(transactions, categories, filter, clock))
      ensures forall t :: t in r <==> t in transactions && Matches(t, categories, filter, clock)
      ensures NewestFirst(r)
    {
      r := ApplyFilter(transactions, categories, filter, clock);
    }

    /** The summary of the filtered view, which is that of the matching records in any order. */
    method GetTransactionSummary(clock: Clock) returns (s: Summary)
      ensures s == Summarize(Select(transactions, categories, filter, clock))
    {
      var view := GetFilteredTransactions(clock);
      s := Summarize(view);
      SummaryPermutation(view, Select(transactions, categories, filter, clock));
    }

    /** The category chart of the filtered view. */
    method GetCategoryChartData(clock: Clock)
      returns (labels: seq<string>, data: seq<real>, colors: seq<string>, ids: seq<string>)
      ensures |labels| == |ids| && |data| == |ids| && |colors| == |ids|
      ensures forall k :: 0 <= k < |ids| ==>
        var matching := Select(transactions, categories, filter, clock);
        ids[k] in ExpenseCategoryIds(matching) &&
        ShowsCategory(categories, ids[k], CategoryExpense(matching, ids[k]), labels[k], data[k], colors[k])
      ensures forall k, l :: 0 <= k < l < |ids| ==> ids[k] != ids[l]
      ensures forall id ::
        (id in ExpenseCategoryIds(Select(transactions, categories, filter, clock)) &&
         FindCategory(categories, id).Some?) ==> id in ids
    {
      var view := GetFilteredTransactions(clock);
      labels, data, colors, ids := CategoryChart(view, categories);
      var matching := Select(transactions, categories, filter, clock);
      assert ExpenseCategoryIds(view) == ExpenseCategoryIds(matching) by {
        assert forall t :: t in view <==> t in matching by {
          assert forall t :: t in view <==> t in multiset(view);
        }
      }
      forall id {
        SumPermutation(view, matching, (t: Transaction) => t.kind == Expense && t.category == id);
      }
    }

    /** The six-month chart of the filtered view. */
    method GetMonthlyChartData(clock: Clock)
      returns (months: seq<YearMonth>, incomeData: seq<real>, expenseData: seq<real>)
      ensures |months| == 6 && |incomeData| == 6 && |expenseData| == 6
      ensures months[5] == MonthOf(clock.today)
      ensures forall k :: 0 <= k < 5 ==> MonthIndex(months[k + 1]) == MonthIndex(months[k]) + 1
      ensures forall k :: 0 <= k < 6 ==>
        var matching := Select(transactions, categories, filter, clock);
        incomeData[k] == MonthTotal(matching, months[k], Income) &&
        expenseData[k] == MonthTotal(matching, months[k], Expense)
    {
      var view := GetFilteredTransactions(clock);
      months, incomeData, expenseData := MonthlyChart(view, clock.today);
      var matching := Select(transactions, categories, filter, clock);
      forall m: YearMonth, kind: TxType {
        SumPermutation(view, matching, (t: Transaction) => MonthOf(t.date) == m && t.kind == kind);
      }
    }
  }
}
