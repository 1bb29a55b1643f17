/**
 * The ledger's records: transactions, categories and the filter, with the
 * calendar dates they carry and the clock readings the queries depend on.
 */
module Ledger {
  import opened Wrappers

  datatype TxType = Income | Expense

  /** Which transaction types may select a category. */
  datatype CategoryType = IncomeOnly | ExpenseOnly | Both

  type MonthNumber = m: int | 1 <= m <= 12 witness 1
  type DayNumber = d: int | 1 <= d <= 31 witness 1

  /** A `YYYY-MM-DD` calendar date (ISO 8601 extended complete form). */
  datatype Date = Date(year: int, month: MonthNumber, day: DayNumber)

  /** `a` is a strictly earlier calendar day than `b`: year, then month, then day. */
  predicate DateBefore(a: Date, b: Date)
  {
    a.year < b.year ||
    (a.year == b.year && (a.month < b.month || (a.month == b.month && a.day < b.day)))
  }

  /** Months are numbered consecutively, one index per calendar month. */
  lemma MonthIndexInjective(a: YearMonth, b: YearMonth)
    ensures MonthIndex(a) == MonthIndex(b) <==> a == b
  {
  }

  /** An earlier day never lies in a later month. */
  lemma DateBeforeMonth(a: Date, b: Date)
    requires DateBefore(a, b)
    ensures MonthIndex(MonthOf(a)) <= MonthIndex(MonthOf(b))
  {
  }

  /** A calendar month of a given year. */
  datatype YearMonth = YearMonth(year: int, month: MonthNumber)

  function MonthOf(d: Date): YearMonth
  {
    YearMonth(d.year, d.month)
  }

  /** Months counted from January of year 0, so that consecutive months differ by one. */
  function MonthIndex(m: YearMonth): int
  {
    m.year * 12 + m.month - 1
  }

  /**
   * The calendar month `n` months before `m`: the month of `subMonths(now, n)`
   * (date-fns only clamps the day of the month, never the month itself).
   */
  function MonthsBefore(m: YearMonth, n: nat): (r: YearMonth)
    ensures MonthIndex(r) == MonthIndex(m) - n
  {
    var index := MonthIndex(m) - n;
    YearMonth(index / 12, index % 12 + 1)
  }

  datatype Transaction = Transaction(
    id: string,
    amount: real,
    description: string,
    category: string,
    date: Date,
    kind: TxType,
    createdAt: string)

  /** The fields a caller supplies when adding a transaction (all but `id` and `createdAt`). */
  datatype TransactionInput = TransactionInput(
    amount: real,
    description: string,
    category: string,
    date: Date,
    kind: TxType)

  /** A partial update of the caller-supplied fields; `None` leaves a field alone. */
  datatype TransactionPatch = TransactionPatch(
    amount: Option<real>,
    description: Option<string>,
    category: Option<string>,
    date: Option<Date>,
    kind: Option<TxType>)

  datatype Category = Category(id: string, name: string, color: string, icon: string, kind: CategoryType)

  /** The fields a caller supplies when adding a category (all but `id`). */
  datatype CategoryInput = CategoryInput(name: string, color: string, icon: string, kind: CategoryType)

  datatype TypeFilter = AllTypes | OnlyType(kind: TxType)

  datatype TimeRange = Week | Month | Year | AllTime

  /** The store's filter; `category == None` is the source's `null`. */
  datatype TxFilter = TxFilter(kind: TypeFilter, category: Option<string>, timeRange: TimeRange, search: string)

  /** A partial filter: each field that is `Some` overwrites the current one. */
  datatype TxFilterPatch = TxFilterPatch(
    kind: Option<TypeFilter>,
    category: Option<Option<string>>,
    timeRange: Option<TimeRange>,
    search: Option<string>)

  /**
   * The clock readings the queries need: today's date and the three window
   * cutoffs `subDays(now, 7)`, `subMonths(now, 1)` and `subYears(now, 1)`, as
   * calendar days.
   */
  datatype Clock = Clock(today: Date, weekAgo: Date, monthAgo: Date, yearAgo: Date)

  /** The first instant a time range excludes, or `None` for `all`. */
  function Cutoff(range: TimeRange, clock: Clock): Option<Date>
  {
    match range
    case Week => Some(clock.weekAgo)
    case Month => Some(clock.monthAgo)
    case Year => Some(clock.yearAgo)
    case AllTime => None
  }

  /** `categories.find((c) => c.id === id)`: the first category with that id. */
  function FindCategory(categories: seq<Category>, id: string): (r: Option<Category>)
    ensures r.None? <==> forall c :: c in categories ==> c.id != id
    ensures r.Some? ==> r.value in categories && r.value.id == id
  {
    if categories == [] then None
    else if categories[0].id == id then Some(categories[0])
    else FindCategory(categories[1..], id)
  }

  /** `find` returns the first category with the id: none before it has that id. */
  lemma {:induction false} FindCategoryFirst(categories: seq<Category>, id: string)
    requires FindCategory(categories, id).Some?
    ensures exists i :: 0 <= i < |categories| && categories[i] == FindCategory(categories, id).value &&
                        forall j :: 0 <= j < i ==> categories[j].id != id
  {
    if categories[0].id != id {
      FindCategoryFirst(categories[1..], id);
      var i :| 0 <= i < |categories| - 1 && categories[1..][i] == FindCategory(categories, id).value &&
               forall j :: 0 <= j < i ==> categories[1..][j].id != id;
      assert categories[i + 1] == FindCategory(categories, id).value;
    } else {
      assert categories[0] == FindCategory(categories, id).value;
    }
  }
}
