/**
  The table's filter over the sorted rows: a minimum price and an optional
  "positive 24h change only" flag, combined by AND, keeping the sorted order.
 */
module FilterEngine {
  import opened Coins
  import opened SortEngine

  /** The `filters` state of the table. */
  datatype Filters = Filters(minPrice: real, positiveChange: bool)

  /** The predicate handed to `sortedData.filter`. */
  predicate Keep(c: Coin, f: Filters)
    ensures Keep(c, f) ==> c.currentPrice >= f.minPrice
    ensures f.positiveChange && c.priceChange24h <= 0.0 ==> !Keep(c, f)
    ensures !f.positiveChange ==> (Keep(c, f) <==> c.currentPrice >= f.minPrice)
  {
    var meetsPrice := c.currentPrice >= f.minPrice;
    var meetsChange := !f.positiveChange || c.priceChange24h > 0.0;
    meetsPrice && meetsChange
  }

  /**
    `sortedData.filter(...)`: exactly the rows that meet the minimum price
    and, when the flag is set, have a strictly positive 24h change (a row
    with a change of exactly 0 is dropped).
   */
  function FilterData(s: seq<Coin>, f: Filters): (r: seq<Coin>)
    ensures |r| <= |s|
    ensures forall c :: c in r <==> c in s && c.currentPrice >= f.minPrice &&
                                    (f.positiveChange ==> c.priceChange24h > 0.0)
  {
    if s == [] then []
    else (if Keep(s[0], f) then [s[0]] else []) + FilterData(s[1..], f)
  }

  /** Each kept row keeps all of its occurrences; each dropped row has none left. */
  lemma {:induction false} FilterCount(s: seq<Coin>, f: Filters, c: Coin)
    ensures multiset(FilterData(s, f))[c] == if Keep(c, f) then multiset(s)[c] else 0
  {
    if s != [] {
      FilterCount(s[1..], f, c);
      assert s == [s[0]] + s[1..];
    }
  }

  /** Filtering distributes over concatenation: the kept rows stay in their relative order. */
  lemma {:induction false} FilterAppend(s: seq<Coin>, t: seq<Coin>, f: Filters)
    ensures FilterData(s + t, f) == FilterData(s, f) + FilterData(t, f)
  {
    if s == [] {
      assert s + t == t;
    } else {
      assert (s + t)[1..] == s[1..] + t;
      FilterAppend(s[1..], t, f);
    }
  }

  /** Filtering a sorted sequence leaves it sorted: the sorted order is the displayed order. */
  lemma {:induction false} FilterKeepsSorted(s: seq<Coin>, f: Filters, cfg: SortConfig)
    requires Sorted(s, cfg)
    ensures Sorted(FilterData(s, f), cfg)
  {
    if s != [] {
      assert Sorted(s[1..], cfg) by {
        SortedSlice(s, 1, |s|, cfg);
      }
      FilterKeepsSorted(s[1..], f, cfg);
      var rest := FilterData(s[1..], f);
      if Keep(s[0], f) && |rest| > 0 {
        assert rest[0] in s[1..];
        SortedHeadFirst(s, rest[0], cfg);
        PrependSorted(s[0], rest, cfg);
      }
    }
  }
}
