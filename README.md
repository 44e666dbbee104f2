# Crypto data table — a verified model

This project models the data-table component `CryptoDataTable` of the cryptry
front end in Dafny. The component holds a batch of cryptocurrency quotes. On every
render it derives the rows to show:

1. it sorts a copy of the batch by the configured key and direction;
2. it keeps the rows that meet the minimum price and, when the "Positive
   Change" box is ticked, have a strictly positive 24h change;
3. it cuts out one page of ten rows.

It also derives the page count `ceil(rows / 10)`. Five user actions change its
state: sorting by a key, editing a filter field, ticking the checkbox, and the
Previous and Next buttons.

Layout, one module per component of the pipeline:

- `coins.dfy` (`Coins`): the quote record, the sort keys, and JavaScript
  string order. Strings are sequences of UTF-16 code units (`CodeUnit`,
  `JsString`), compared code unit by code unit, as JavaScript's `<` does. The
  comparator is modelled as written: it answers -1 on ties, for both argument
  orders.
- `sort.dfy` (`SortEngine`): the sort as an insertion sort driven by that
  comparator. It is proved to be a permutation of the batch, ordered by the key.
  Without ties it is proved to be the only such arrangement.
- `filter.dfy` (`FilterEngine`): the filter predicate and an order-preserving
  filter.
- `pagination.dfy` (`Pagination`): `Array.prototype.slice` with its clamping
  rules, the ten-row page and the page count.
- `controller.dfy` (`Controller`): the whole pipeline, the pure state
  transitions, and the class `CryptoDataTable`. Its fields are the four pieces
  of React state, and its methods are the user actions.
- `scenarios.dfy` (`Scenarios`): worked examples stated as lemmas.

The model follows the code as written:

- No action resets the page to 1: not sorting, not a filter change, not a new
  batch. A page past the end shows no rows, and Next from there jumps back to
  the last page (`StalePageAfterShrink`).
- Next is `min(page + 1, totalPages)`. With no rows it moves page 1 to page 0,
  and page 0 shows nothing (`NextOnEmptyTableReachesPageZero`). This is why
  `slice` is modelled with JavaScript's rules for negative indices.
- The comparator never answers 0, so the order of tied rows is up to the sort
  engine. Only "permutation, ordered by key" is claimed, not stability.
- `handleSort` is defined but no column header calls it. It is modelled as the
  action it would be.
- The card layout lists the raw batch, not the paginated rows. That is a
  rendering choice and is not modelled.

## Model

| member | source | states |
|---|---|---|
| `Coins.StrLessTotal` | src/components/DaTAble/DaTAble.jsx:138-140 | two different strings compare one way or the other under JS `<`/`>` |
| `Coins.StrLessTransitive` | src/components/DaTAble/DaTAble.jsx:138-140 | string comparison is transitive |
| `Coins.AboveTrichotomy` | src/components/DaTAble/DaTAble.jsx:138-140 | on any key two coins tie or are strictly ordered one way, never both ways |
| `Coins.NotAboveTransitive` | src/components/DaTAble/DaTAble.jsx:138-140 | `a[key] <= b[key] <= c[key]` gives `a[key] <= c[key]` |
| `Coins.Compare` | src/components/DaTAble/DaTAble.jsx:136-141 | the comparator answers only 1 or -1, and -1 whenever the two coins tie on the key |
| `Coins.CompareConsistency` | src/components/DaTAble/DaTAble.jsx:136-141 | the comparator answers only 1 or -1; it is antisymmetric off ties and answers -1 both ways on a tie |
| `Coins.InOrderTotal` | src/components/DaTAble/DaTAble.jsx:136-141 | any two coins may be placed one way round or the other |
| `Coins.InOrderTransitive` | src/components/DaTAble/DaTAble.jsx:136-141 | "may precede" is transitive in both directions |
| `SortEngine.Insert` | src/components/DaTAble/DaTAble.jsx:135-142 | inserting into a sorted sequence gives a sorted sequence holding one more coin |
| `SortEngine.SortData` | src/components/DaTAble/DaTAble.jsx:135-142 | the sorted copy is a permutation of the batch; ascending: no coin is above a later one; descending: no coin is below a later one |
| `SortEngine.SortDataMembers` | src/components/DaTAble/DaTAble.jsx:135 | sorting keeps the row count and exactly the coins of the batch |
| `SortEngine.SortedSlice` | src/components/DaTAble/DaTAble.jsx:151-154 | a contiguous piece of a sorted sequence is sorted |
| `SortEngine.SortedUnique` | src/components/DaTAble/DaTAble.jsx:135-142 | without ties, two sorted arrangements of the same coins are equal |
| `SortEngine.SortDataDetermined` | src/components/DaTAble/DaTAble.jsx:135-142 | without ties, the sort returns the one sorted arrangement of the batch, whatever the engine |
| `SortEngine.DescendingIsReversedAscending` | src/components/DaTAble/DaTAble.jsx:137-141 | without ties, the descending sort is the ascending sort reversed, element for element |
| `SortEngine.ReversedAscendingSorted` | src/components/DaTAble/DaTAble.jsx:137-141 | an ascending order read back to front is a descending order |
| `FilterEngine.Keep` | src/components/DaTAble/DaTAble.jsx:145-148 | a kept coin meets the minimum price; with the flag set a change of 0 or less is dropped; with the flag off a coin is kept iff it meets the minimum price |
| `FilterEngine.FilterData` | src/components/DaTAble/DaTAble.jsx:144-149 | a row is kept iff its price is at least `minPrice` and, with the flag set, its change is strictly above 0 |
| `FilterEngine.FilterCount` | src/components/DaTAble/DaTAble.jsx:144-149 | every occurrence of a kept row survives; a dropped row has none left |
| `FilterEngine.FilterAppend` | src/components/DaTAble/DaTAble.jsx:144 | filtering distributes over concatenation, so kept rows keep their relative order |
| `FilterEngine.FilterKeepsSorted` | src/components/DaTAble/DaTAble.jsx:144-149 | filtering sorted rows leaves them sorted |
| `Pagination.SliceIndex` | src/components/DaTAble/DaTAble.jsx:151-154 | a `slice` argument resolves into `0..len`, counting negative ones from the end |
| `Pagination.Slice` | src/components/DaTAble/DaTAble.jsx:151-154 | `slice` yields elements of the input, no more of them than it has; with nonnegative bounds, the elements from `start` to `min(end, len)` or none; a negative `end` counts from the end |
| `Pagination.Page` | src/components/DaTAble/DaTAble.jsx:151-154 | at most 10 rows; from page 1 on, rows `(p-1)*10 .. min(p*10, len)`; empty once `(p-1)*10 >= len` and at page 0 |
| `Pagination.TotalPages` | src/components/DaTAble/DaTAble.jsx:156 | the least page count that holds all rows; 0 exactly when there are none |
| `Pagination.PageMembers` | src/components/DaTAble/DaTAble.jsx:151-154 | every row of a page is a row of the filtered data |
| `Pagination.PageBeyondLast` | src/components/DaTAble/DaTAble.jsx:151-156 | a page after `totalPages` is empty |
| `Pagination.PageOfIndex` | src/components/DaTAble/DaTAble.jsx:151-156 | row `i` of the filtered data appears on page `i / 10 + 1`, a page within `1..totalPages` |
| `Pagination.PagesUpToPrefix` | src/components/DaTAble/DaTAble.jsx:151-154 | pages 1..k together are exactly the first `10*k` rows |
| `Pagination.PagesCoverAll` | src/components/DaTAble/DaTAble.jsx:151-156 | pages 1..`totalPages` together reproduce the filtered rows, with no gap or repeat |
| `Controller.VisibleRows` | src/components/DaTAble/DaTAble.jsx:135-154 | the rendered rows are at most 10 coins of the batch, each accepted by the filters, in key order on every page from 0 on |
| `Controller.VisibleRowsCover` | src/components/DaTAble/DaTAble.jsx:135-156 | every coin of the batch that the filters accept is shown on some page within `1..totalPages` |
| `Controller.ToggleSort` | src/components/DaTAble/DaTAble.jsx:158-163 | the key becomes the clicked key; descending iff that key was active and ascending |
| `Controller.ToggleSortTwice` | src/components/DaTAble/DaTAble.jsx:158-163 | sorting by the active key twice restores the configuration |
| `Controller.MergeFilter` | src/components/DaTAble/DaTAble.jsx:165-167 | the named field takes the new value and the other field is kept |
| `Controller.FlipPositiveChange` | src/components/DaTAble/DaTAble.jsx:197-202 | the flag is negated and `minPrice` kept |
| `Controller.FlipPositiveChangeTwice` | src/components/DaTAble/DaTAble.jsx:197-202 | ticking the checkbox twice restores the filters |
| `Controller.PreviousPage` | src/components/DaTAble/DaTAble.jsx:281 | one page back, never below 1 |
| `Controller.NextPage` | src/components/DaTAble/DaTAble.jsx:288 | one page on, never past `totalPages`; 0 from a page `>= 0` when `totalPages` is 0 |
| `Controller.DisabledButtonsAreNoOps` | src/components/DaTAble/DaTAble.jsx:280-292 | Previous leaves the page unchanged iff it is 1, and Next iff it is `totalPages`: the buttons are disabled exactly where their handlers change nothing |
| `Controller.PageMovesStayInRange` | src/components/DaTAble/DaTAble.jsx:280-292 | from a page in `1..totalPages`, both buttons stay in that range |
| `Controller.NextOnEmptyTableReachesPageZero` | src/components/DaTAble/DaTAble.jsx:286-292 | worked example: with no rows, Next moves page 1 to page 0, which shows nothing; Previous returns to 1 |
| `Controller.StalePageAfterShrink` | src/components/DaTAble/DaTAble.jsx:151-156 | a page past the end shows nothing, and Next from it drops back to the last page |
| `Controller.CryptoDataTable.constructor` | src/components/DaTAble/DaTAble.jsx:103-113 | initial state: empty batch, sort by `name` ascending, `minPrice` 0, flag off, page 1 |
| `Controller.CryptoDataTable.SortedData` | src/components/DaTAble/DaTAble.jsx:135-142 | `sortedData` is a permutation of the batch, in key order |
| `Controller.CryptoDataTable.FilteredData` | src/components/DaTAble/DaTAble.jsx:144-149 | `filteredData` holds exactly the coins of the batch the filters accept, in key order |
| `Controller.CryptoDataTable.PaginatedData` | src/components/DaTAble/DaTAble.jsx:151-154 | the rendered rows: at most 10, from the batch, accepted by the filters, in key order (for any page the state can reach); they are exactly page `currentPage` of `filteredData` |
| `Controller.CryptoDataTable.PageCount` | src/components/DaTAble/DaTAble.jsx:156 | `totalPages` is the least number of ten-row pages that holds all filtered rows; it is 0 iff the filters accept no coin of the batch |
| `Controller.CryptoDataTable.PreviousDisabled` | src/components/DaTAble/DaTAble.jsx:282 | Previous is disabled iff its handler would leave the page unchanged |
| `Controller.CryptoDataTable.NextDisabled` | src/components/DaTAble/DaTAble.jsx:290 | Next is disabled iff its handler would leave the page unchanged |
| `Controller.CryptoDataTable.ReplaceData` | src/components/DaTAble/DaTAble.jsx:129 | a fetched batch replaces the data; sort, filters and page unchanged |
| `Controller.CryptoDataTable.HandleSort` | src/components/DaTAble/DaTAble.jsx:158-163 | the sort becomes `ToggleSort(old, key)`; data, filters and page unchanged |
| `Controller.CryptoDataTable.HandleFilterChange` | src/components/DaTAble/DaTAble.jsx:165-167 | the filters become `MergeFilter(old, edit)`; data, sort and page unchanged |
| `Controller.CryptoDataTable.TogglePositiveChange` | src/components/DaTAble/DaTAble.jsx:197-202 | the flag flips; data, sort and page unchanged |
| `Controller.CryptoDataTable.Previous` | src/components/DaTAble/DaTAble.jsx:280-285 | page becomes `max(p-1, 1)`, so at least 1; nothing else changes |
| `Controller.CryptoDataTable.Next` | src/components/DaTAble/DaTAble.jsx:286-293 | page becomes `min(p+1, totalPages)`, so at most `totalPages` and never negative; nothing else changes |
| `Scenarios.PriceSortAscending` | src/components/DaTAble/DaTAble.jsx:135-142 | prices 100, 50, 200 sorted by price ascending come out 50, 100, 200 |
| `Scenarios.PriceSortDescending` | src/components/DaTAble/DaTAble.jsx:158-163 | a second click on the same key gives 200, 100, 50 |
| `Scenarios.PositiveChangeAtZero` | src/components/DaTAble/DaTAble.jsx:146-147 | with the flag ticked, a 0 change is dropped and a 0.01 change is kept |

## Left out

- The fetch from the CoinGecko markets endpoint (src/components/DaTAble/DaTAble.jsx:115-133) is network I/O run once on mount. Only its effect is modelled, as `ReplaceData(batch)`. A failed request throws inside the effect and leaves the state unchanged; that is not modelled separately.
- Styled components, framer-motion variants and JSX rendering (src/components/DaTAble/DaTAble.jsx:7-100, 169-296) are presentation only. That includes `toUpperCase`, `toLocaleString`, `toFixed` and the green/red colouring.
- The card layout (src/components/DaTAble/DaTAble.jsx:251-277) renders the raw batch. It has no logic of its own.
- The engine behind `Array.prototype.sort` is not part of the source. `SortData` fixes one engine, which inserts each coin before the first placed coin it compares below. Where coins tie, a different engine may order them differently. Only the properties every engine shares are stated about the source.
- `SortData`: does not claim stability. The comparator answers -1 on ties, so the order of tied rows depends on the engine.
- `handleFilterChange` writes `e.target.value`, a string, and JavaScript coerces it when it compares with the price. The model takes `minPrice` as a number already. The only input wired to this handler is `minPrice`; `FilterEdit` also covers `positiveChange` and no other field name.
- Strings are taken as the UTF-16 code units JavaScript holds; the JSON decoding that produces them is part of the network I/O above.
- Prices and changes are modelled as exact reals. Floating-point rounding, `NaN`, and missing or mixed-type fields (JavaScript comparisons of `undefined`) are not modelled.
- `Pagination.Page`: for a negative page number it states only the ten-row bound and that rows come from the input. The page never goes below 0, as `CryptoDataTable.Valid` keeps.
- src/App.jsx (window-size state and routing) and src/context/ContextVariables.jsx (a constant URL and three UI toggles) are not part of this model: they hold no table logic.
