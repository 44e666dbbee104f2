/**
  The CryptoDataTable component: its state (the batch, the sort
  configuration, the filters and the current page), the rows it derives from
  that state on every render, and the user actions that change the state.
 */
module Controller {
  import opened Coins
  import opened SortEngine
  import opened FilterEngine
  import opened Pagination

  const InitialSortConfig: SortConfig := SortConfig(Name, Asc)
  const InitialFilters: Filters := Filters(0.0, false)
  const InitialPage: int := 1

  /** The edits the filter change handler merges into the filters (one field per event). */
  datatype FilterEdit = MinPrice(price: real) | PositiveChange(flag: bool)

  /**
    The derived pipeline, recomputed on every render: sort a copy of the
    batch, keep the rows the filters accept, cut out the current page. What
    the table shows is at most ten rows of the batch, each accepted by the
    filters, in the configured key order.
   */
  function VisibleRows(data: seq<Coin>, cfg: SortConfig, f: Filters, page: int): (rows: seq<Coin>)
    ensures |rows| <= ItemsPerPage
    ensures forall c :: c in rows ==> c in data && Keep(c, f)
    ensures page >= 0 ==> Sorted(rows, cfg)
  {
    var sorted := SortData(data, cfg);
    var filtered := FilterData(sorted, f);
    SortDataMembers(data, cfg);
    PageMembers(filtered, page);
    FilterKeepsSorted(sorted, f, cfg);
    if page >= 1 then
      SortedSlice(filtered, Min((page - 1) * ItemsPerPage, |filtered|),
                  Min(page * ItemsPerPage, |filtered|), cfg);
      Page(filtered, page)
    else
      Page(filtered, page)
  }

  /** Every coin the filters accept is shown on some page from 1 to `totalPages`. */
  lemma VisibleRowsCover(data: seq<Coin>, cfg: SortConfig, f: Filters, c: Coin)
    requires c in data && Keep(c, f)
    ensures exists p :: 1 <= p <= TotalPages(|FilterData(SortData(data, cfg), f)|) &&
                        c in VisibleRows(data, cfg, f, p)
  {
    var filtered := FilterData(SortData(data, cfg), f);
    SortDataMembers(data, cfg);
    assert c in filtered;
    var i :| 0 <= i < |filtered| && filtered[i] == c;
    PageOfIndex(filtered, i);
    var p := i / ItemsPerPage + 1;
    assert c in VisibleRows(data, cfg, f, p);
  }

  /**
    `handleSort(key)`: the key is always the clicked one; the direction turns
    descending only when that key was already active in ascending order.
   */
  function ToggleSort(prev: SortConfig, key: SortKey): (next: SortConfig)
    ensures next.key == key
    ensures next.direction == Desc <==> prev.key == key && prev.direction == Asc
  {
    SortConfig(key, if prev.key == key && prev.direction == Asc then Desc else Asc)
  }

  /** Sorting by the active key twice in a row restores the configuration. */
  lemma ToggleSortTwice(cfg: SortConfig)
    ensures ToggleSort(ToggleSort(cfg, cfg.key), cfg.key) == cfg
  {
  }

  /** `handleFilterChange`: `{ ...prev, [name]: value }` changes the named field only. */
  function MergeFilter(prev: Filters, edit: FilterEdit): (next: Filters)
    ensures edit.MinPrice? ==>
      next.minPrice == edit.price && next.positiveChange == prev.positiveChange
    ensures edit.PositiveChange? ==>
      next.positiveChange == edit.flag && next.minPrice == prev.minPrice
  {
    match edit
    case MinPrice(p) => prev.(minPrice := p)
    case PositiveChange(b) => prev.(positiveChange := b)
  }

  /** The checkbox handler: flips `positiveChange`, keeps `minPrice`. */
  function FlipPositiveChange(prev: Filters): (next: Filters)
    ensures next.minPrice == prev.minPrice
    ensures next.positiveChange != prev.positiveChange
  {
    prev.(positiveChange := !prev.positiveChange)
  }

  /** Ticking the checkbox twice gives the filters back. */
  lemma FlipPositiveChangeTwice(f: Filters)
    ensures FlipPositiveChange(FlipPositiveChange(f)) == f
  {
  }

  /** The Previous handler, `Math.max(prev - 1, 1)`: one page back, never below page 1. */
  function PreviousPage(p: int): (q: int)
    ensures q >= 1
    ensures p > 1 ==> q == p - 1
    ensures p <= 1 ==> q == 1
  {
    if p - 1 >= 1 then p - 1 else 1
  }

  /**
    The Next handler, `Math.min(prev + 1, totalPages)`: one page on, never
    past `totalPages`, which makes it 0 when there is nothing to show.
   */
  function NextPage(p: int, totalPages: nat): (q: int)
    ensures q <= totalPages
    ensures p < totalPages ==> q == p + 1
    ensures p >= totalPages ==> q == totalPages
    ensures p >= 0 ==> q >= 0
    ensures p >= 0 && totalPages == 0 ==> q == 0
  {
    if p + 1 <= totalPages then p + 1 else totalPages
  }

  /**
    The buttons are disabled exactly where clicking them would change
    nothing: Previous at page 1, Next at page `totalPages`.
   */
  lemma DisabledButtonsAreNoOps(p: int, totalPages: nat)
    ensures PreviousPage(p) == p <==> p == 1
    ensures NextPage(p, totalPages) == p <==> p == totalPages
  {
  }

  /** From a page in range, Previous and Next stay in range `1..totalPages`. */
  lemma PageMovesStayInRange(p: int, totalPages: nat)
    requires 1 <= p <= totalPages
    ensures 1 <= PreviousPage(p) <= totalPages
    ensures 1 <= NextPage(p, totalPages) <= totalPages
  {
  }

  /**
    Worked example on an empty table: Next on the first page moves to page 0,
    where the table is empty and Next is disabled; Previous then returns to
    page 1. The general facts are the contracts of `NextPage` and `Page`.
   */
  lemma NextOnEmptyTableReachesPageZero(rows: seq<Coin>)
    requires rows == []
    ensures NextPage(InitialPage, TotalPages(|rows|)) == 0
    ensures Page(rows, 0) == []
    ensures PreviousPage(0) == 1
  {
  }

  /**
    The page is not reset when the rows shrink: a page past the new last page
    shows no rows, and Next from it jumps back to the last page.
   */
  lemma StalePageAfterShrink(rows: seq<Coin>, p: int)
    requires p > TotalPages(|rows|)
    ensures Page(rows, p) == []
    ensures NextPage(p, TotalPages(|rows|)) == TotalPages(|rows|) < p
  {
  }

  /** The table component. Fields are the four pieces of React state. */
  class CryptoDataTable {
    var cryptoData: seq<Coin>
    var sortConfig: SortConfig
    var filters: Filters
    var currentPage: int

    /** The page never goes negative: Previous clamps at 1, Next at a count >= 0. */
    ghost predicate Valid()
      reads this
    {
      currentPage >= 0
    }

    /** The initial state: empty batch, sorted by name ascending, no filtering, page 1. */
    constructor ()
      ensures Valid()
      ensures cryptoData == []
      ensures sortConfig == SortConfig(Name, Asc)
      ensures filters == Filters(0.0, false)
      ensures currentPage == 1
    {
      cryptoData := [];
      sortConfig := InitialSortConfig;
      filters := InitialFilters;
      currentPage := InitialPage;
    }

    /** `sortedData`: the batch rearranged into key order; the batch itself is left as it is. */
    function SortedData(): (rows: seq<Coin>)
      reads this
      ensures multiset(rows) == multiset(cryptoData)
      ensures Sorted(rows, sortConfig)
    {
      SortData(cryptoData, sortConfig)
    }

    /** `filteredData`: exactly the accepted coins of the batch, still in key order. */
    function FilteredData(): (rows: seq<Coin>)
      reads this
      ensures forall c :: c in rows <==> c in cryptoData && Keep(c, filters)
      ensures Sorted(rows, sortConfig)
    {
      SortDataMembers(cryptoData, sortConfig);
      FilterKeepsSorted(SortedData(), filters, sortConfig);
      FilterData(SortedData(), filters)
    }

    /** `paginatedData`, the rows the table renders: at most ten, all from the batch, all accepted, in key order. */
    function PaginatedData(): (rows: seq<Coin>)
      requires Valid()
      reads this
      ensures |rows| <= ItemsPerPage
      ensures forall c :: c in rows ==> c in cryptoData && Keep(c, filters)
      ensures Sorted(rows, sortConfig)
      ensures rows == Page(FilteredData(), currentPage)
    {
      VisibleRows(cryptoData, sortConfig, filters, currentPage)
    }

    /** `totalPages`: the least number of ten-row pages that hold the filtered rows. */
    function PageCount(): (t: nat)
      reads this
      ensures t * ItemsPerPage >= |FilteredData()|
      ensures t > 0 ==> (t - 1) * ItemsPerPage < |FilteredData()|
      ensures t == 0 <==> forall c :: c in cryptoData ==> !Keep(c, filters)
    {
      var n := |FilteredData()|;
      assert n > 0 ==> FilteredData()[0] in FilteredData();
      TotalPages(n)
    }

    /** The Previous button's `disabled` prop: exactly when its handler would leave the page alone. */
    predicate PreviousDisabled()
      reads this
      ensures PreviousDisabled() <==> PreviousPage(currentPage) == currentPage
    {
      currentPage == 1
    }

    /** The Next button's `disabled` prop: exactly when its handler would leave the page alone. */
    predicate NextDisabled()
      reads this
      ensures NextDisabled() <==> NextPage(currentPage, PageCount()) == currentPage
    {
      currentPage == PageCount()
    }

    /** A fetched batch replaces the old one; sort, filters and page stay as they were. */
    method ReplaceData(batch: seq<Coin>)
      requires Valid()
      modifies this
      ensures Valid()
      ensures cryptoData == batch
      ensures sortConfig == old(sortConfig) && filters == old(filters)
      ensures currentPage == old(currentPage)
    {
      cryptoData := batch;
    }

    /** `handleSort(key)`: toggles or sets the sort; the page is not reset. */
    method HandleSort(key: SortKey)
      requires Valid()
      modifies this
      ensures Valid()
      ensures sortConfig == ToggleSort(old(sortConfig), key)
      ensures cryptoData == old(cryptoData) && filters == old(filters)
      ensures currentPage == old(currentPage)
    {
      sortConfig := ToggleSort(sortConfig, key);
    }

    /** `handleFilterChange`: merges one field into the filters; the page is not reset. */
    method HandleFilterChange(edit: FilterEdit)
      requires Valid()
      modifies this
      ensures Valid()
      ensures filters == MergeFilter(old(filters), edit)
      ensures cryptoData == old(cryptoData) && sortConfig == old(sortConfig)
      ensures currentPage == old(currentPage)
    {
      filters := MergeFilter(filters, edit);
    }

    /** The "Positive Change" checkbox: flips the flag; the page is not reset. */
    method TogglePositiveChange()
      requires Valid()
      modifies this
      ensures Valid()
      ensures filters == FlipPositiveChange(old(filters))
      ensures cryptoData == old(cryptoData) && sortConfig == old(sortConfig)
      ensures currentPage == old(currentPage)
    {
      filters := FlipPositiveChange(filters);
    }

    /** The Previous button (a no-op while disabled at page 1). */
    method Previous()
      requires Valid()
      modifies this
      ensures Valid()
      ensures currentPage == PreviousPage(old(currentPage))
      ensures currentPage >= 1
      ensures cryptoData == old(cryptoData) && sortConfig == old(sortConfig)
      ensures filters == old(filters)
    {
      if !PreviousDisabled() {
        currentPage := PreviousPage(currentPage);
      }
    }

    /** The Next button (a no-op while disabled at page `totalPages`). */
    method Next()
      requires Valid()
      modifies this
      ensures Valid()
      ensures currentPage == NextPage(old(currentPage), old(PageCount()))
      ensures currentPage <= PageCount()
      ensures cryptoData == old(cryptoData) && sortConfig == old(sortConfig)
      ensures filters == old(filters)
    {
      if !NextDisabled() {
        currentPage := NextPage(currentPage, PageCount());
      }
    }
  }
}
