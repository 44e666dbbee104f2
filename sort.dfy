/**
  The table's sort: a fresh copy of the batch, ordered by the configured
  comparator. The engine behind `Array.prototype.sort` is not part of the
  source; it is modelled by an insertion sort that takes the coins front to
  back and inserts each before the first already-placed coin the comparator
  puts it ahead of.
  Only what any correct engine guarantees is claimed: the result is a
  permutation of the batch and is ordered by the key.
 */
module SortEngine {
  import opened Coins

  /** Every earlier coin may be placed before every later one. */
  predicate Sorted(s: seq<Coin>, cfg: SortConfig)
  {
    forall i, j :: 0 <= i < j < |s| ==> InOrder(s[i], s[j], cfg)
  }

  lemma PrependSorted(y: Coin, r: seq<Coin>, cfg: SortConfig)
    requires Sorted(r, cfg)
    requires |r| > 0 ==> InOrder(y, r[0], cfg)
    ensures Sorted([y] + r, cfg)
  {
    forall j | 0 < j < |r| ensures InOrder(y, r[j], cfg) {
      InOrderTransitive(y, r[0], r[j], cfg);
    }
  }

  /** The first coin of a sorted sequence may precede each of its members. */
  lemma SortedHeadFirst(s: seq<Coin>, c: Coin, cfg: SortConfig)
    requires Sorted(s, cfg) && |s| > 0 && c in s[1..]
    ensures InOrder(s[0], c, cfg)
  {
  }

  /** The recursive step of Insert: `s[0]` may precede whatever the rest of the insertion produced. */
  lemma InsertStep(x: Coin, s: seq<Coin>, r: seq<Coin>, cfg: SortConfig)
    requires Sorted(s, cfg) && |s| > 0 && !InOrder(x, s[0], cfg)
    requires Sorted(r, cfg) && multiset(r) == multiset(s[1..]) + multiset{x}
    ensures Sorted([s[0]] + r, cfg)
  {
    if |r| > 0 {
      assert r[0] in multiset(r);
      if r[0] == x {
        InOrderTotal(s[0], x, cfg);
      } else {
        assert r[0] in multiset(s[1..]);
        SortedHeadFirst(s, r[0], cfg);
      }
    }
    PrependSorted(s[0], r, cfg);
  }

  /** Insert `x` into the sorted sequence `s` ahead of the first coin the comparator puts it before. */
  function Insert(x: Coin, s: seq<Coin>, cfg: SortConfig): (r: seq<Coin>)
    requires Sorted(s, cfg)
    ensures multiset(r) == multiset(s) + multiset{x}
    ensures Sorted(r, cfg)
    decreases |s|
  {
    if s == [] then [x]
    else if Compare(x, s[0], cfg) < 0 then
      PrependSorted(x, s, cfg);
      [x] + s
    else
      assert s == [s[0]] + s[1..];
      var r := Insert(x, s[1..], cfg);
      InsertStep(x, s, r, cfg);
      [s[0]] + r
  }

  /**
    `[...cryptoData].sort(comparator)`: a new sequence holding exactly the
    coins of the batch, ascending by the key (`Asc`) or descending (`Desc`).
   */
  function SortData(s: seq<Coin>, cfg: SortConfig): (r: seq<Coin>)
    ensures multiset(r) == multiset(s)
    ensures Sorted(r, cfg)
    ensures cfg.direction == Asc ==>
      forall i, j :: 0 <= i < j < |r| ==> !Above(r[i], r[j], cfg.key)
    ensures cfg.direction == Desc ==>
      forall i, j :: 0 <= i < j < |r| ==> !Above(r[j], r[i], cfg.key)
    decreases |s|
  {
    if s == [] then []
    else
      var n := |s| - 1;
      assert s == s[..n] + [s[n]];
      Insert(s[n], SortData(s[..n], cfg), cfg)
  }

  /** Sorting yields the same number of rows and no coin that was not in the batch. */
  lemma SortDataMembers(s: seq<Coin>, cfg: SortConfig)
    ensures |SortData(s, cfg)| == |s|
    ensures forall c :: c in SortData(s, cfg) <==> c in s
  {
    var r := SortData(s, cfg);
    assert multiset(r) == multiset(s);
    assert |r| == |multiset(r)|;
    forall c ensures c in r <==> c in s {
      assert c in r <==> c in multiset(r);
      assert c in s <==> c in multiset(s);
    }
  }

  /** Any contiguous piece of a sorted sequence is sorted. */
  lemma SortedSlice(s: seq<Coin>, lo: nat, hi: nat, cfg: SortConfig)
    requires Sorted(s, cfg) && lo <= hi <= |s|
    ensures Sorted(s[lo..hi], cfg)
  {
  }

  /** No two different coins of `s` carry the same value in the `key` field. */
  ghost predicate NoTies(s: seq<Coin>, key: SortKey)
  {
    forall x, y :: x in s && y in s && SameKey(x, y, key) ==> x == y
  }

  /** Two sorted arrangements of the same coins start with the same coin when nothing ties. */
  lemma SortedSameHead(a: seq<Coin>, b: seq<Coin>, cfg: SortConfig)
    requires Sorted(a, cfg) && Sorted(b, cfg)
    requires multiset(a) == multiset(b) && |a| > 0 && |b| > 0
    requires NoTies(a, cfg.key)
    ensures a[0] == b[0]
  {
    assert a[0] in multiset(b) && b[0] in multiset(a);
    var k :| 0 <= k < |b| && b[k] == a[0];
    var m :| 0 <= m < |a| && a[m] == b[0];
    assert InOrder(a[0], b[0], cfg) by {
      if m > 0 { assert InOrder(a[0], a[m], cfg); }
      else { InOrderTotal(a[0], a[0], cfg); }
    }
    assert InOrder(b[0], a[0], cfg) by {
      if k > 0 { assert InOrder(b[0], b[k], cfg); }
      else { InOrderTotal(b[0], b[0], cfg); }
    }
    CompareConsistency(a[0], b[0], cfg);
  }

  /** Removing the same first element from two equal multisets leaves equal multisets. */
  lemma MultisetTail(a: seq<Coin>, b: seq<Coin>)
    requires multiset(a) == multiset(b) && |a| > 0 && |b| > 0 && a[0] == b[0]
    ensures multiset(a[1..]) == multiset(b[1..])
  {
    assert a == [a[0]] + a[1..] && b == [b[0]] + b[1..];
    assert multiset(a[1..]) == multiset(a) - multiset{a[0]};
    assert multiset(b[1..]) == multiset(b) - multiset{b[0]};
  }

  /** Dropping the common first coin keeps both arrangements sorted, equal as multisets and tie-free. */
  lemma SortedTails(a: seq<Coin>, b: seq<Coin>, cfg: SortConfig)
    requires Sorted(a, cfg) && Sorted(b, cfg)
    requires multiset(a) == multiset(b) && |a| > 0 && |b| > 0 && a[0] == b[0]
    requires NoTies(a, cfg.key)
    ensures Sorted(a[1..], cfg) && Sorted(b[1..], cfg)
    ensures multiset(a[1..]) == multiset(b[1..])
    ensures NoTies(a[1..], cfg.key)
  {
    MultisetTail(a, b);
    SortedSlice(a, 1, |a|, cfg);
    SortedSlice(b, 1, |b|, cfg);
    assert forall x :: x in a[1..] ==> x in a;
  }

  /**
    Without ties the sorted order is determined: two sorted arrangements of the
    same coins are equal, whatever sort engine produced them.
   */
  lemma {:induction false} SortedUnique(a: seq<Coin>, b: seq<Coin>, cfg: SortConfig)
    requires Sorted(a, cfg) && Sorted(b, cfg)
    requires multiset(a) == multiset(b)
    requires NoTies(a, cfg.key)
    ensures a == b
  {
    assert |a| == |multiset(a)| == |multiset(b)| == |b|;
    if |a| > 0 {
      SortedSameHead(a, b, cfg);
      SortedTails(a, b, cfg);
      SortedUnique(a[1..], b[1..], cfg);
      assert a == [a[0]] + a[1..] && b == [b[0]] + b[1..];
    }
  }

  /** `s` read back to front. */
  function Reversed(s: seq<Coin>): (r: seq<Coin>)
    ensures |r| == |s|
    ensures multiset(r) == multiset(s)
    ensures forall i :: 0 <= i < |s| ==> r[i] == s[|s| - 1 - i]
  {
    if s == [] then []
    else
      assert s == [s[0]] + s[1..];
      Reversed(s[1..]) + [s[0]]
  }

  /** An ascending arrangement read back to front is a descending one. */
  lemma ReversedAscendingSorted(up: seq<Coin>, key: SortKey)
    requires Sorted(up, SortConfig(key, Asc))
    ensures Sorted(Reversed(up), SortConfig(key, Desc))
  {
  }

  /**
    Without ties the sort's result is pinned down: it is the one sorted
    arrangement of the batch.
   */
  lemma SortDataDetermined(s: seq<Coin>, cfg: SortConfig, expected: seq<Coin>)
    requires NoTies(s, cfg.key)
    requires Sorted(expected, cfg) && multiset(expected) == multiset(s)
    ensures SortData(s, cfg) == expected
  {
    var sorted := SortData(s, cfg);
    SortDataMembers(s, cfg);
    assert NoTies(sorted, cfg.key);
    SortedUnique(sorted, expected, cfg);
  }

  /**
    When no two coins tie on the key, sorting descending gives the ascending
    order reversed, element for element.
   */
  lemma DescendingIsReversedAscending(s: seq<Coin>, key: SortKey)
    requires NoTies(s, key)
    ensures SortData(s, SortConfig(key, Desc)) == Reversed(SortData(s, SortConfig(key, Asc)))
  {
    var up := SortData(s, SortConfig(key, Asc));
    ReversedAscendingSorted(up, key);
    SortDataDetermined(s, SortConfig(key, Desc), Reversed(up));
  }
}
