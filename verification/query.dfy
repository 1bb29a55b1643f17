/**
 * The store's derived views: the filtered, newest-first transaction list, the
 * income/expense summary, the per-category expense chart and the six-month
 * income/expense chart. Each takes the snapshot it reads as parameters.
 */
module LedgerQueries {
  import opened Wrappers
  import opened Seqs
  import opened Text
  import opened Ledger

  // ---------------------------------------------------------------------------
  // Filtering

  /** Step 1: the date is strictly after the range's cutoff day, unless the range is `all`. */
  predicate InWindow(t: Transaction, range: TimeRange, clock: Clock)
  {
    match Cutoff(range, clock)
    case None => true
    case Some(cutoff) => DateBefore(cutoff, t.date)
  }

  /** Step 2: the type equals the filter's type, unless that is `all`. */
  predicate TypeMatches(t: Transaction, kind: TypeFilter)
  {
    kind.AllTypes? || t.kind == kind.kind
  }

  /** `if (filter.category)`: both `null` and the empty id switch the category test off. */
  predicate CategoryFilterActive(category: Option<string>)
  {
    category.Some? && category.value != ""
  }

  /** Step 3: the category equals the filter's category when that test is on. */
  predicate CategoryMatches(t: Transaction, category: Option<string>)
  {
    !CategoryFilterActive(category) || t.category == category.value
  }

  /**
   * Step 4: for a non-empty search, the lower-cased description or the
   * lower-cased name of the transaction's category contains the lower-cased
   * search; an id that names no category matches through its description only.
   */
  predicate SearchMatches(t: Transaction, categories: seq<Category>, search: string)
  {
    search == "" ||
    Contains(Lower(t.description), Lower(search)) ||
    match FindCategory(categories, t.category)
    case None => false
    case Some(c) => Contains(Lower(c.name), Lower(search))
  }

  /** All four filter tests, combined by AND. */
  predicate Matches(t: Transaction, categories: seq<Category>, f: TxFilter, clock: Clock)
  {
    InWindow(t, f.timeRange, clock) && TypeMatches(t, f.kind) &&
    CategoryMatches(t, f.category) && SearchMatches(t, categories, f.search)
  }

  /** The matching transactions in stored order: what the filtered view is a permutation of. */
  function Select(txs: seq<Transaction>, categories: seq<Category>, f: TxFilter, clock: Clock): seq<Transaction>
  {
    Filter(txs, t => Matches(t, categories, f, clock))
  }

  /** Newest first: no transaction is dated before one that follows it. */
  predicate NewestFirst(s: seq<Transaction>)
  {
    forall i, j :: 0 <= i < j < |s| ==> !DateBefore(s[i].date, s[j].date)
  }

  /** The in-place `sort` by date, newest first (an insertion sort moving a record past strictly older ones). */
  method SortNewestFirst(a: array<Transaction>)
    modifies a
    ensures NewestFirst(a[..])
    ensures multiset(a[..]) == multiset(old(a[..]))
  {
    var i := 0;
    while i < a.Length
      invariant 0 <= i <= a.Length
      invariant forall k, l :: 0 <= k < l < i ==> !DateBefore(a[k].date, a[l].date)
      invariant multiset(a[..]) == multiset(old(a[..]))
    {
      var j := i;
      while j > 0 && DateBefore(a[j - 1].date, a[j].date)
        invariant 0 <= j <= i
        invariant forall k, l :: 0 <= k < l <= i && k != j && l != j ==> !DateBefore(a[k].date, a[l].date)
        invariant forall l :: j < l <= i ==> DateBefore(a[l].date, a[j].date)
        invariant multiset(a[..]) == multiset(old(a[..]))
      {
        a[j - 1], a[j] := a[j], a[j - 1];
        j := j - 1;
      }
      i := i + 1;
    }
  }

  /**
   * The four filter steps of `getFilteredTransactions`, in order, each applied
   * only when it is active; the result is the matching records in stored order.
   */
  method FilterSteps(txs: seq<Transaction>, categories: seq<Category>, f: TxFilter, clock: Clock)
    returns (filtered: seq<Transaction>)
    ensures filtered == Select(txs, categories, f, clock)
  {
    ghost var p1 := (t: Transaction) => InWindow(t, f.timeRange, clock);
    ghost var p2 := (t: Transaction) => p1(t) && TypeMatches(t, f.kind);
    ghost var p3 := (t: Transaction) => p2(t) && CategoryMatches(t, f.category);
    ghost var p4 := (t: Transaction) => p3(t) && SearchMatches(t, categories, f.search);

    // Step 1: time window
    filtered := txs;
    var cutoff := Cutoff(f.timeRange, clock);
    if cutoff.Some? {
      var afterCutoff := (t: Transaction) => DateBefore(cutoff.value, t.date);
      filtered := Filter(txs, afterCutoff);
      FilterSameTest(txs, afterCutoff, p1);
    } else {
      FilterAll(txs, p1);
    }

    // Step 2: type
    ghost var before := filtered;
    ghost var q2 := (t: Transaction) => TypeMatches(t, f.kind);
    if f.kind != AllTypes {
      var sameType := (t: Transaction) => t.kind == f.kind.kind;
      filtered := Filter(filtered, sameType);
      FilterSameTest(before, sameType, q2);
    } else {
      FilterAll(before, q2);
    }
    FilterTwice(txs, p1, q2, p2);

    // Step 3: category
    before := filtered;
    ghost var q3 := (t: Transaction) => CategoryMatches(t, f.category);
    if f.category.Some? && f.category.value != "" {
      var sameCategory := (t: Transaction) => t.category == f.category.value;
      filtered := Filter(filtered, sameCategory);
      FilterSameTest(before, sameCategory, q3);
    } else {
      FilterAll(before, q3);
    }
    FilterTwice(txs, p2, q3, p3);

    // Step 4: search
    before := filtered;
    ghost var q4 := (t: Transaction) => SearchMatches(t, categories, f.search);
    if f.search != "" {
      var searchLower := Lower(f.search);
      var found := (t: Transaction) =>
        Contains(Lower(t.description), searchLower) ||
        match FindCategory(categories, t.category)
        case None => false
        case Some(c) => Contains(Lower(c.name), searchLower);
      filtered := Filter(filtered, found);
      FilterSameTest(before, found, q4);
    } else {
      FilterAll(before, q4);
    }
    FilterTwice(txs, p3, q4, p4);
    FilterSameTest(txs, p4, t => Matches(t, categories, f, clock));
  }

  /**
   * `getFilteredTransactions`: the matching records, sorted newest first on a
   * copy, so the stored list keeps its order.
   */
  method ApplyFilter(txs: seq<Transaction>, categories: seq<Category>, f: TxFilter, clock: Clock)
    returns (r: seq<Transaction>)
    ensures multiset(r) == multiset(Select(txs, categories, f, clock))
    ensures forall t :: t in r <==> t in txs && Matches(t, categories, f, clock)
    ensures NewestFirst(r)
  {
    var filtered := FilterSteps(txs, categories, f, clock);
    var a := new Transaction[|filtered|](i requires 0 <= i < |filtered| => filtered[i]);
    assert a[..] == filtered;
    SortNewestFirst(a);
    r := a[..];
    forall t
      ensures t in r <==> t in txs && Matches(t, categories, f, clock)
    {
      calc {
        t in r;
        t in multiset(r);
        t in multiset(filtered);
        t in filtered;
      }
    }
  }

  /** With every test switched off, the view holds the whole list (in date order). */
  lemma SelectAllWhenUnfiltered(txs: seq<Transaction>, categories: seq<Category>, f: TxFilter, clock: Clock)
    requires f.timeRange == AllTime && f.kind == AllTypes && !CategoryFilterActive(f.category) && f.search == ""
    ensures Select(txs, categories, f, clock) == txs
  {
    FilterAll(txs, t => Matches(t, categories, f, clock));
  }

  // ---------------------------------------------------------------------------
  // Sums and the summary

  predicate IsIncome(t: Transaction) { t.kind == Income }
  predicate IsExpense(t: Transaction) { t.kind == Expense }

  /** `filter(p).reduce((sum, t) => sum + t.amount, 0)`: a left fold over the records that pass. */
  function SumAmounts(ts: seq<Transaction>, p: Transaction -> bool): real
  {
    if ts == [] then 0.0
    else SumAmounts(ts[..|ts| - 1], p) + (if p(ts[|ts| - 1]) then ts[|ts| - 1].amount else 0.0)
  }

  /** The sum over two lists laid end to end is the sum of the two sums. */
  lemma {:induction false} SumConcat(a: seq<Transaction>, b: seq<Transaction>, p: Transaction -> bool)
    ensures SumAmounts(a + b, p) == SumAmounts(a, p) + SumAmounts(b, p)
  {
    if b == [] {
      assert a + b == a;
    } else {
      assert (a + b)[..|a + b| - 1] == a + b[..|b| - 1];
      SumConcat(a, b[..|b| - 1], p);
    }
  }

  /** The sum does not depend on the order of the records. */
  lemma {:induction false} SumPermutation(a: seq<Transaction>, b: seq<Transaction>, p: Transaction -> bool)
    requires multiset(a) == multiset(b)
    ensures SumAmounts(a, p) == SumAmounts(b, p)
    decreases |a|
  {
    if a == [] {
      assert |multiset(b)| == 0;
    } else {
      var x := a[|a| - 1];
      assert x in multiset(b);
      var i :| 0 <= i < |b| && b[i] == x;
      var rest := b[..i] + b[i + 1..];
      assert b == b[..i] + [x] + b[i + 1..];
      assert a == a[..|a| - 1] + [x];
      assert multiset(rest) == multiset(b) - multiset{x};
      assert multiset(a[..|a| - 1]) == multiset(a) - multiset{x};
      SumPermutation(a[..|a| - 1], rest, p);
      SumConcat(b[..i], [x], p);
      SumConcat(b[..i] + [x], b[i + 1..], p);
      SumConcat(b[..i], b[i + 1..], p);
      assert SumAmounts([x], p) == SumAmounts(a, p) - SumAmounts(a[..|a| - 1], p);
    }
  }

  /** No record passes: the sum is zero. */
  lemma {:induction false} SumNone(ts: seq<Transaction>, p: Transaction -> bool)
    requires forall t :: t in ts ==> !p(t)
    ensures SumAmounts(ts, p) == 0.0
  {
    if ts != [] {
      assert forall t :: t in ts[..|ts| - 1] ==> t in ts;
      SumNone(ts[..|ts| - 1], p);
    }
  }

  /** Non-negative amounts give a non-negative sum. */
  lemma {:induction false} SumNonNegative(ts: seq<Transaction>, p: Transaction -> bool)
    requires forall t :: t in ts ==> t.amount >= 0.0
    ensures SumAmounts(ts, p) >= 0.0
  {
    if ts != [] {
      assert forall t :: t in ts[..|ts| - 1] ==> t in ts;
      SumNonNegative(ts[..|ts| - 1], p);
    }
  }

  /** Dropping records the test rejects anyway leaves the sum unchanged. */
  lemma {:induction false} SumFiltered(ts: seq<Transaction>, q: Transaction -> bool, p: Transaction -> bool)
    requires forall t :: p(t) ==> q(t)
    ensures SumAmounts(Filter(ts, q), p) == SumAmounts(ts, p)
  {
    if ts != [] {
      var last := ts[|ts| - 1];
      SumFiltered(ts[..|ts| - 1], q, p);
      SumConcat(Filter(ts[..|ts| - 1], q), if q(last) then [last] else [], p);
    }
  }

  /** Every record is income or expense, so the two sums split the total. */
  lemma {:induction false} SumIncomeExpense(ts: seq<Transaction>, any: Transaction -> bool)
    requires forall t :: any(t)
    ensures SumAmounts(ts, IsIncome) + SumAmounts(ts, IsExpense) == SumAmounts(ts, any)
  {
    if ts != [] {
      SumIncomeExpense(ts[..|ts| - 1], any);
    }
  }

  datatype Summary = Summary(totalIncome: real, totalExpense: real, balance: real)

  /** `getTransactionSummary` over a list of (already filtered) transactions. */
  function Summarize(ts: seq<Transaction>): (r: Summary)
    ensures r.balance == r.totalIncome - r.totalExpense
  {
    var totalIncome := SumAmounts(ts, IsIncome);
    var totalExpense := SumAmounts(ts, IsExpense);
    Summary(totalIncome, totalExpense, totalIncome - totalExpense)
  }

  /** An empty list gives an all-zero summary. */
  lemma SummaryOfNothing()
    ensures Summarize([]) == Summary(0.0, 0.0, 0.0)
  {
  }

  /** Income and expense totals together account for every amount in the list. */
  lemma SummaryPartition(ts: seq<Transaction>)
    ensures Summarize(ts).totalIncome + Summarize(ts).totalExpense == SumAmounts(ts, _ => true)
  {
    SumIncomeExpense(ts, _ => true);
  }

  /** The summary of a reordered list is the same, so sorting the view cannot change it. */
  lemma SummaryPermutation(a: seq<Transaction>, b: seq<Transaction>)
    requires multiset(a) == multiset(b)
    ensures Summarize(a) == Summarize(b)
  {
    SumPermutation(a, b, IsIncome);
    SumPermutation(a, b, IsExpense);
  }

  /** With non-negative amounts the totals are non-negative and the balance never exceeds income. */
  lemma SummaryBounds(ts: seq<Transaction>)
    requires forall t :: t in ts ==> t.amount >= 0.0
    ensures Summarize(ts).totalIncome >= 0.0 && Summarize(ts).totalExpense >= 0.0
    ensures Summarize(ts).balance <= Summarize(ts).totalIncome
  {
    SumNonNegative(ts, IsIncome);
    SumNonNegative(ts, IsExpense);
  }

  /** The summary is additive: the totals over two lists laid end to end add up. */
  lemma SummaryConcat(a: seq<Transaction>, b: seq<Transaction>)
    ensures Summarize(a + b).totalIncome == Summarize(a).totalIncome + Summarize(b).totalIncome
    ensures Summarize(a + b).totalExpense == Summarize(a).totalExpense + Summarize(b).totalExpense
    ensures Summarize(a + b).balance == Summarize(a).balance + Summarize(b).balance
  {
    SumConcat(a, b, IsIncome);
    SumConcat(a, b, IsExpense);
  }

  // ---------------------------------------------------------------------------
  // Category chart

  /** The sum of the amounts of the expense records filed under category `id`. */
  function CategoryExpense(ts: seq<Transaction>, id: string): real
  {
    SumAmounts(ts, (t: Transaction) => t.kind == Expense && t.category == id)
  }

  /** One more record adds its amount to its own category's total and nothing to the others. */
  lemma CategoryExpenseStep(s: seq<Transaction>, t: Transaction, id: string)
    ensures CategoryExpense(s + [t], id) ==
            CategoryExpense(s, id) + (if t.kind == Expense && t.category == id then t.amount else 0.0)
  {
    assert (s + [t])[..|s|] == s;
  }

  /** A category no expense record carries has a zero total. */
  lemma CategoryExpenseUnused(s: seq<Transaction>, id: string)
    requires id !in ExpenseCategoryIds(s)
    ensures CategoryExpense(s, id) == 0.0
  {
    SumNone(s, (t: Transaction) => t.kind == Expense && t.category == id);
  }

  /** The category ids that some expense record carries. */
  function ExpenseCategoryIds(ts: seq<Transaction>): set<string>
  {
    set t | t in ts && t.kind == Expense :: t.category
  }

  /**
   * The grouping half of `getCategoryChartData`: the expense records are
   * summed per category id into a record. A zero running total is falsy in
   * the source, which then stores the new amount instead of adding it; as
   * zero plus the amount is the amount, this is still the sum.
   */
  method ExpenseTotalsByCategory(ts: seq<Transaction>) returns (totals: map<string, real>)
    ensures totals.Keys == ExpenseCategoryIds(ts)
    ensures forall id :: id in totals ==> totals[id] == CategoryExpense(ts, id)
  {
    var expenses := Filter(ts, IsExpense);
    totals := map[];
    for i := 0 to |expenses|
      invariant totals.Keys == ExpenseCategoryIds(expenses[..i])
      invariant forall id :: id in totals ==> totals[id] == CategoryExpense(expenses[..i], id)
    {
      var t := expenses[i];
      assert t in expenses && t.kind == Expense;
      assert expenses[..i + 1] == expenses[..i] + [t];
      assert ExpenseCategoryIds(expenses[..i + 1]) == ExpenseCategoryIds(expenses[..i]) + {t.category};
      ghost var previous := totals;
      if t.category in totals && totals[t.category] != 0.0 {
        totals := totals[t.category := totals[t.category] + t.amount];
      } else {
        totals := totals[t.category := t.amount];
      }
      forall id | id in totals
        ensures totals[id] == CategoryExpense(expenses[..i + 1], id)
      {
        CategoryExpenseStep(expenses[..i], t, id);
        if id != t.category {
          assert totals[id] == previous[id];
        } else if id !in previous {
          CategoryExpenseUnused(expenses[..i], id);
        }
      }
    }
    assert expenses[..|expenses|] == expenses;
    assert ExpenseCategoryIds(expenses) == ExpenseCategoryIds(ts);
    forall id | id in totals
      ensures totals[id] == CategoryExpense(ts, id)
    {
      SumFiltered(ts, IsExpense, (t: Transaction) => t.kind == Expense && t.category == id);
    }
  }

  /** Chart entry (`name`, `value`, `color`) shows the known category `id` with total `total`. */
  predicate ShowsCategory(categories: seq<Category>, id: string, total: real, name: string, value: real, color: string)
  {
    match FindCategory(categories, id)
    case None => false
    case Some(c) => name == c.name && color == c.color && value == total
  }

  /**
   * `getCategoryChartData`: one entry (name, total, colour) per grouped
   * category id that names a known category; ids that name none are dropped.
   * `ids` holds the category id each entry stands for.
   */
  method CategoryChart(ts: seq<Transaction>, categories: seq<Category>)
    returns (labels: seq<string>, data: seq<real>, colors: seq<string>, ids: seq<string>)
    ensures |labels| == |ids| && |data| == |ids| && |colors| == |ids|
    ensures forall k :: 0 <= k < |ids| ==>
      ids[k] in ExpenseCategoryIds(ts) &&
      ShowsCategory(categories, ids[k], CategoryExpense(ts, ids[k]), labels[k], data[k], colors[k])
    ensures forall k, l :: 0 <= k < l < |ids| ==> ids[k] != ids[l]
    ensures forall id :: id in ExpenseCategoryIds(ts) && FindCategory(categories, id).Some? ==> id in ids
  {
    var totals := ExpenseTotalsByCategory(ts);
    labels, data, colors, ids := [], [], [], [];
    var remaining := totals.Keys;
    while remaining != {}
      invariant remaining <= totals.Keys
      invariant |labels| == |ids| && |data| == |ids| && |colors| == |ids|
      invariant forall k :: 0 <= k < |ids| ==>
        ids[k] in totals && ids[k] !in remaining &&
        ShowsCategory(categories, ids[k], totals[ids[k]], labels[k], data[k], colors[k])
      invariant forall k, l :: 0 <= k < l < |ids| ==> ids[k] != ids[l]
      invariant forall id :: id in totals && id !in remaining && FindCategory(categories, id).Some? ==> id in ids
      decreases remaining
    {
      var id :| id in remaining;
      var category := FindCategory(categories, id);
      if category.Some? {
        labels := labels + [category.value.name];
        data := data + [totals[id]];
        colors := colors + [category.value.color];
        ids := ids + [id];
      }
      remaining := remaining - {id};
    }
  }

  // ---------------------------------------------------------------------------
  // Monthly chart

  /** The sum of the amounts of the records of type `kind` dated in month `m`. */
  function MonthTotal(ts: seq<Transaction>, m: YearMonth, kind: TxType): real
  {
    SumAmounts(ts, (t: Transaction) => MonthOf(t.date) == m && t.kind == kind)
  }

  /**
   * `getMonthlyChartData`: six consecutive calendar months ending with the
   * current one, oldest first, and per month the income and expense totals.
   */
  method MonthlyChart(ts: seq<Transaction>, today: Date)
    returns (months: seq<YearMonth>, incomeData: seq<real>, expenseData: seq<real>)
    ensures |months| == 6 && |incomeData| == 6 && |expenseData| == 6
    ensures months[5] == MonthOf(today)
    ensures forall k :: 0 <= k < 5 ==> MonthIndex(months[k + 1]) == MonthIndex(months[k]) + 1
    ensures forall k :: 0 <= k < 6 ==>
      incomeData[k] == MonthTotal(ts, months[k], Income) &&
      expenseData[k] == MonthTotal(ts, months[k], Expense)
  {
    months, incomeData, expenseData := [], [], [];
    var i := 5;
    while i >= 0
      invariant -1 <= i <= 5
      invariant |months| == 5 - i && |incomeData| == 5 - i && |expenseData| == 5 - i
      invariant forall k :: 0 <= k < |months| ==> MonthIndex(months[k]) == MonthIndex(MonthOf(today)) - (5 - k)
      invariant forall k :: 0 <= k < |months| ==>
        incomeData[k] == MonthTotal(ts, months[k], Income) &&
        expenseData[k] == MonthTotal(ts, months[k], Expense)
    {
      var month := MonthsBefore(MonthOf(today), i);
      months := months + [month];
      incomeData := incomeData + [MonthTotal(ts, month, Income)];
      expenseData := expenseData + [MonthTotal(ts, month, Expense)];
      i := i - 1;
    }
    MonthIndexInjective(months[5], MonthOf(today));
  }

  /** A month with no records of a type holds zero for that type. */
  lemma EmptyMonthIsZero(ts: seq<Transaction>, m: YearMonth, kind: TxType)
    requires forall t :: t in ts && t.kind == kind ==> MonthOf(t.date) != m
    ensures MonthTotal(ts, m, kind) == 0.0
  {
    SumNone(ts, (t: Transaction) => MonthOf(t.date) == m && t.kind == kind);
  }

  /**
   * The buckets are filled from the filtered view, so the time range still
   * applies: a month entirely before the cutoff's month holds zero.
   */
  lemma MonthBeforeCutoffIsZero(ts: seq<Transaction>, cutoff: Date, m: YearMonth, kind: TxType)
    requires forall t :: t in ts ==> DateBefore(cutoff, t.date)
    requires MonthIndex(m) < MonthIndex(MonthOf(cutoff))
    ensures MonthTotal(ts, m, kind) == 0.0
  {
    forall t | t in ts && t.kind == kind
      ensures MonthOf(t.date) != m
    {
      DateBeforeMonth(cutoff, t.date);
    }
    EmptyMonthIsZero(ts, m, kind);
  }
}
