/** AttendanceService.paginate: clamp the requested page into range, cut that
    page out of the list and report the neighbouring pages. */
module Pagination {
  import opened Common

  datatype Page<T> = Page(
    currentPage: int,
    totalItems: nat,
    totalPages: nat,
    pageSize: int,
    nextPage: Option<int>,
    previousPage: Option<int>,
    hasPreviousPage: bool,
    hasNextPage: bool,
    items: seq<T>)

  /** Math.ceil(n / d) for a positive divisor. */
  function CeilDiv(n: nat, d: int): (q: nat)
    requires d >= 1
    ensures n == 0 <==> q == 0
    ensures n > 0 ==> (q - 1) * d < n <= q * d
  {
    var q := if n % d == 0 then n / d else n / d + 1;
    assert n == d * (n / d) + n % d;
    q
  }

  /** Array.prototype.slice(start, end) for non-negative arguments: both are
      clamped to the length, and an empty list results when end <= start. */
  function JsSlice<T>(a: seq<T>, start: nat, end: nat): seq<T>
  {
    var s := Min(start, |a|);
    var e := Min(end, |a|);
    if e <= s then [] else a[s..e]
  }

  /** The page of `list` that `currentPage` asks for, `pageSize` items per
      page (the query validation guarantees a page size of at least 1). */
  function Paginate<T>(list: seq<T>, pageSize: int, currentPage: int): (p: Page<T>)
    requires pageSize >= 1
    // the totals: every item lies on exactly one of the totalPages pages
    ensures p.totalItems == |list| && p.pageSize == pageSize
    ensures |list| == 0 <==> p.totalPages == 0
    ensures |list| > 0 ==> (p.totalPages - 1) * pageSize < |list| <= p.totalPages * pageSize
    // the page shown is the requested one, clamped into [1, max(1, totalPages)]
    ensures 1 <= p.currentPage <= Max(1, p.totalPages)
    ensures 1 <= currentPage <= p.totalPages ==> p.currentPage == currentPage
    ensures currentPage < 1 ==> p.currentPage == 1
    ensures currentPage > p.totalPages >= 1 ==> p.currentPage == p.totalPages
    // its items are one contiguous, in-bounds slice of at most pageSize items
    ensures 0 <= (p.currentPage - 1) * pageSize <= Min(p.currentPage * pageSize, |list|) <= |list|
    ensures p.items == list[(p.currentPage - 1) * pageSize .. Min(p.currentPage * pageSize, |list|)]
    ensures |p.items| <= pageSize
    ensures |list| > 0 ==> |p.items| > 0
    // the neighbours
    ensures p.hasNextPage <==> p.currentPage < p.totalPages
    ensures p.nextPage == if p.hasNextPage then Some(p.currentPage + 1) else None
    ensures p.hasPreviousPage <==> p.currentPage > 1
    ensures p.previousPage == if p.hasPreviousPage then Some(p.currentPage - 1) else None
    // an empty list gives page 1 of 0, with nothing on it
    ensures |list| == 0 ==> p.currentPage == 1 && p.totalPages == 0 && p.items == []
  {
    var totalItems := |list|;
    var totalPages := CeilDiv(totalItems, pageSize);
    var current := Max(1, Min(currentPage, totalPages));
    var startIndex := (current - 1) * pageSize;
    var endIndex := Min(startIndex + pageSize, totalItems);
    PageBounds(totalItems, pageSize, totalPages, current);
    Page(current, totalItems, totalPages, pageSize,
         if current < totalPages then Some(current + 1) else None,
         if current > 1 then Some(current - 1) else None,
         current > 1,
         current < totalPages,
         JsSlice(list, startIndex, endIndex))
  }

  /** A page within range starts inside the list. */
  lemma PageBounds(n: nat, size: int, total: nat, current: int)
    requires size >= 1
    requires n == 0 <==> total == 0
    requires n > 0 ==> (total - 1) * size < n
    requires 1 <= current && (n > 0 ==> current <= total) && (n == 0 ==> current == 1)
    ensures 0 <= (current - 1) * size
    ensures n > 0 ==> (current - 1) * size < n
    ensures n == 0 ==> (current - 1) * size == 0
    ensures current * size == (current - 1) * size + size
  {
    if n > 0 {
      MulMonotone(current - 1, total - 1, size);
    }
  }

  lemma {:induction false} MulMonotone(a: nat, b: nat, c: nat)
    requires a <= b
    ensures a * c <= b * c
    decreases b - a
  {
    if a < b {
      MulMonotone(a, b - 1, c);
      assert (b - 1) * c + c == b * c;
    }
  }

  /** The items of pages 1 .. count, one after the other. */
  function PagesUpTo<T>(list: seq<T>, pageSize: int, count: nat): seq<T>
    requires pageSize >= 1
  {
    if count == 0 then [] else PagesUpTo(list, pageSize, count - 1) + Paginate(list, pageSize, count).items
  }

  /** Paging through 1 .. totalPages yields every item once, in order. */
  lemma PagesCoverArray<T>(list: seq<T>, pageSize: int)
    requires pageSize >= 1
    ensures PagesUpTo(list, pageSize, Paginate(list, pageSize, 1).totalPages) == list
  {
    var total := Paginate(list, pageSize, 1).totalPages;
    PagesPrefix(list, pageSize, total);
    if |list| > 0 {
      assert total * pageSize >= |list|;
    }
  }

  lemma {:induction false} PagesPrefix<T>(list: seq<T>, pageSize: int, count: nat)
    requires pageSize >= 1
    requires count <= Paginate(list, pageSize, 1).totalPages
    ensures PagesUpTo(list, pageSize, count) == list[..Min(count * pageSize, |list|)]
  {
    if count > 0 {
      var total := Paginate(list, pageSize, 1).totalPages;
      PagesPrefix(list, pageSize, count - 1);
      var p := Paginate(list, pageSize, count);
      assert p.currentPage == count;
      var a := (count - 1) * pageSize;
      var b := Min(count * pageSize, |list|);
      MulMonotone(count - 1, total - 1, pageSize);
      assert a < |list|;
      assert PagesUpTo(list, pageSize, count - 1) == list[..a];
      assert p.items == list[a..b];
      SliceConcat(list, a, b);
    }
  }

  lemma SliceConcat<T>(list: seq<T>, a: nat, b: nat)
    requires a <= b <= |list|
    ensures list[..a] + list[a..b] == list[..b]
  {
  }
}
