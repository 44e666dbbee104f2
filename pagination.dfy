/**
  The table's pagination: pages of ten rows cut out of the filtered rows with
  `Array.prototype.slice`, and the page count `Math.ceil(length / 10)`.
 */
module Pagination {

  /** `itemsPerPage`. */
  const ItemsPerPage: nat := 10

  function Min(a: int, b: int): (m: int)
    ensures m <= a && m <= b
    ensures m == a || m == b
  {
    if a <= b then a else b
  }

  /** How `slice` resolves one of its arguments against a length: negative counts from the end. */
  function SliceIndex(i: int, len: nat): (k: nat)
    ensures k <= len
    ensures 0 <= i ==> k == Min(i, len)
    ensures i < 0 ==> k == if len + i < 0 then 0 else len + i
  {
    if i < 0 then (if len + i < 0 then 0 else len + i)
    else if i < len then i
    else len
  }

  /** `s.slice(start, end)`: the elements between the two resolved indices, or none. */
  function Slice<T>(s: seq<T>, start: int, end: int): (r: seq<T>)
    ensures forall x :: x in r ==> x in s
    ensures 0 <= start && 0 <= end ==>
      r == if start < end && start < |s| then s[start..Min(end, |s|)] else []
    ensures |r| <= |s|
    ensures 0 <= start && end < 0 ==>
      r == if start < |s| + end then s[start..|s| + end] else []
  {
    var from := SliceIndex(start, |s|);
    var to := SliceIndex(end, |s|);
    if from < to then s[from..to] else []
  }

  /**
    `filteredData.slice((currentPage - 1) * itemsPerPage, currentPage * itemsPerPage)`.
    At most ten rows; for a page from 1 on, the ten rows starting at
    `(page - 1) * 10`, clipped to the end; page 0 (which Next can produce) is empty.
   */
  function Page<T>(s: seq<T>, page: int): (r: seq<T>)
    ensures |r| <= ItemsPerPage
    ensures page >= 1 ==>
      r == s[Min((page - 1) * ItemsPerPage, |s|)..Min(page * ItemsPerPage, |s|)]
    ensures page >= 1 && (page - 1) * ItemsPerPage < |s| ==>
      r == s[(page - 1) * ItemsPerPage..Min(page * ItemsPerPage, |s|)]
    ensures (page - 1) * ItemsPerPage >= |s| ==> r == []
    ensures page == 0 ==> r == []
  {
    Slice(s, (page - 1) * ItemsPerPage, page * ItemsPerPage)
  }

  /** `Math.ceil(length / itemsPerPage)`: the least number of ten-row pages that hold `n` rows. */
  function TotalPages(n: nat): (t: nat)
    ensures t * ItemsPerPage >= n
    ensures t > 0 ==> (t - 1) * ItemsPerPage < n
    ensures t == 0 <==> n == 0
  {
    (n + ItemsPerPage - 1) / ItemsPerPage
  }

  /** Every row of a page is a row of the sequence it was cut from, for any page number. */
  lemma PageMembers<T>(s: seq<T>, page: int)
    ensures forall x :: x in Page(s, page) ==> x in s
  {
  }

  /** A page after the last one is empty. */
  lemma PageBeyondLast<T>(s: seq<T>, page: int)
    requires page > TotalPages(|s|)
    ensures Page(s, page) == []
  {
  }

  /** Row `i` is shown on page `i / 10 + 1`, which is a page from 1 to `totalPages`. */
  lemma PageOfIndex<T>(s: seq<T>, i: nat)
    requires i < |s|
    ensures 1 <= i / ItemsPerPage + 1 <= TotalPages(|s|)
    ensures s[i] in Page(s, i / ItemsPerPage + 1)
  {
    var p := i / ItemsPerPage + 1;
    var lo := (p - 1) * ItemsPerPage;
    assert lo <= i < p * ItemsPerPage;
    assert Page(s, p)[i - lo] == s[i];
  }

  /** Pages 1 to `k` laid end to end. */
  function PagesUpTo<T>(s: seq<T>, k: nat): (r: seq<T>)
    ensures |r| <= k * ItemsPerPage
  {
    if k == 0 then [] else PagesUpTo(s, k - 1) + Page(s, k)
  }

  /** Pages 1 to `k` together are exactly the first `10 * k` rows: no gap, no repeat. */
  lemma {:induction false} PagesUpToPrefix<T>(s: seq<T>, k: nat)
    ensures PagesUpTo(s, k) == s[..Min(k * ItemsPerPage, |s|)]
  {
    if k > 0 {
      PagesUpToPrefix(s, k - 1);
      var lo := Min((k - 1) * ItemsPerPage, |s|);
      var hi := Min(k * ItemsPerPage, |s|);
      assert s[..lo] + s[lo..hi] == s[..hi];
    }
  }

  /** Pages 1 to `totalPages` together reproduce the filtered rows exactly. */
  lemma PagesCoverAll<T>(s: seq<T>)
    ensures PagesUpTo(s, TotalPages(|s|)) == s
  {
    PagesUpToPrefix(s, TotalPages(|s|));
    assert s[..|s|] == s;
  }
}
