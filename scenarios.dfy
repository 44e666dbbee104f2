/**
  Worked examples of the table on small batches, stated as lemmas about the
  model: sorting by price in both directions, and the positive-change filter
  at exactly zero.
 */
module Scenarios {
  import opened Coins
  import opened SortEngine
  import opened FilterEngine
  import opened Controller

  /** The batch is priced like 100, 50, 200: middle coin cheapest, last coin dearest. */
  predicate PricedLikeExample(batch: seq<Coin>)
  {
    |batch| == 3 && batch[1].currentPrice < batch[0].currentPrice < batch[2].currentPrice
  }

  lemma PricedLikeExampleNoTies(batch: seq<Coin>)
    requires PricedLikeExample(batch)
    ensures NoTies(batch, CurrentPrice)
  {
  }

  /** The first click on the price header sorts a batch priced 100, 50, 200 as 50, 100, 200. */
  lemma PriceSortAscending(batch: seq<Coin>, up: SortConfig)
    requires PricedLikeExample(batch)
    requires up == ToggleSort(InitialSortConfig, CurrentPrice)
    ensures SortData(batch, up) == [batch[1], batch[0], batch[2]]
  {
    var expected := [batch[1], batch[0], batch[2]];
    assert Sorted(expected, up);
    assert multiset(expected) == multiset(batch) by {
      assert batch == [batch[0], batch[1], batch[2]];
    }
    PricedLikeExampleNoTies(batch);
    SortDataDetermined(batch, up, expected);
  }

  /** Clicking the price header a second time sorts the same batch 200, 100, 50. */
  lemma PriceSortDescending(batch: seq<Coin>, down: SortConfig)
    requires PricedLikeExample(batch)
    requires down == ToggleSort(ToggleSort(InitialSortConfig, CurrentPrice), CurrentPrice)
    ensures SortData(batch, down) == [batch[2], batch[0], batch[1]]
  {
    var expected := [batch[2], batch[0], batch[1]];
    assert Sorted(expected, down);
    assert multiset(expected) == multiset(batch) by {
      assert batch == [batch[0], batch[1], batch[2]];
    }
    PricedLikeExampleNoTies(batch);
    SortDataDetermined(batch, down, expected);
  }

  /** With the flag ticked, a change of exactly 0 is dropped and a change of 0.01 is kept. */
  lemma PositiveChangeAtZero(flat: Coin, up: Coin)
    requires flat.currentPrice >= 0.0 && up.currentPrice >= 0.0
    requires flat.priceChange24h == 0.0 && up.priceChange24h == 0.01
    ensures FilterData([flat, up], FlipPositiveChange(InitialFilters)) == [up]
  {
  }
}
