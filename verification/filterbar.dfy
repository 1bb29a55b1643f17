/**
 * The filter bar of the transactions page: the single-field patches its
 * controls send to the store, the reset-to-defaults patch, and the
 * `isFiltered` test that decides whether the reset button shows.
 */
module FilterBar {
  import opened Wrappers
  import opened Ledger
  import opened LedgerQueries
  import opened LedgerStore

  function TimeRangePatch(range: TimeRange): TxFilterPatch
  {
    TxFilterPatch(None, None, Some(range), None)
  }

  function TypePatch(kind: TypeFilter): TxFilterPatch
  {
    TxFilterPatch(Some(kind), None, None, None)
  }

  /** The category select: the "All Categories" option has the empty value and means `null`. */
  function CategoryPatch(value: string): TxFilterPatch
  {
    TxFilterPatch(None, Some(if value == "" then None else Some(value)), None, None)
  }

  function SearchPatch(text: string): TxFilterPatch
  {
    TxFilterPatch(None, None, None, Some(text))
  }

  /** `clearFilters`: all four fields back to their defaults. */
  function ClearFiltersPatch(): TxFilterPatch
  {
    TxFilterPatch(Some(AllTypes), Some(None), Some(Month), Some(""))
  }

  /** `isFiltered`: some field differs from its default. */
  predicate IsFiltered(f: TxFilter)
  {
    f.kind != AllTypes || f.category != None || f.timeRange != Month || f.search != ""
  }

  /** The reset restores the store's initial filter, whatever the filter was. */
  lemma ClearFiltersRestoresInitial(f: TxFilter)
    ensures MergeFilter(f, ClearFiltersPatch()) == InitialFilter
    ensures !IsFiltered(MergeFilter(f, ClearFiltersPatch()))
  {
  }

  /** `isFiltered` holds exactly when the filter is not the initial one. */
  lemma IsFilteredIff(f: TxFilter)
    ensures IsFiltered(f) <==> f != InitialFilter
  {
  }

  /** The time-range, type and search controls each change their own field and nothing else. */
  lemma SingleFieldHandlers(f: TxFilter, range: TimeRange, kind: TypeFilter, text: string)
    ensures MergeFilter(f, TimeRangePatch(range)) == f.(timeRange := range)
    ensures MergeFilter(f, TypePatch(kind)) == f.(kind := kind)
    ensures MergeFilter(f, SearchPatch(text)) == f.(search := text)
  {
  }

  /**
   * The category control changes only the category: the empty option sets it
   * to `null`, any other option to its id, so the store's category test is on
   * exactly when `isFiltered` sees a category.
   */
  lemma CategoryHandler(f: TxFilter, value: string)
    ensures MergeFilter(f, CategoryPatch(value)) == f.(category := if value == "" then None else Some(value))
    ensures var g := MergeFilter(f, CategoryPatch(value));
            g.category != None <==> CategoryFilterActive(g.category)
  {
  }
}
