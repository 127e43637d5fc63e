/**
 * The page arithmetic shared by the paged discovery queries: how many
 * pages of a given size a reported total fills, which is what the
 * `hasMore` rules of the container and programme-guide queries amount to.
 */
module Paging {

  /** The number of pages of `pageSize` items needed for `total` items (0 when there are none). */
  function PageCount(total: int, pageSize: int): nat
    requires pageSize > 0
  {
    if total <= 0 then 0 else (total + pageSize - 1) / pageSize
  }

  /** `PageCount` pages hold the total, and one page fewer does not. */
  lemma PageCountBounds(total: int, pageSize: int)
    requires pageSize > 0 && total > 0
    ensures (PageCount(total, pageSize) - 1) * pageSize < total <= PageCount(total, pageSize) * pageSize
  {
    var q := (total + pageSize - 1) / pageSize;
    var r := (total + pageSize - 1) % pageSize;
    assert total + pageSize - 1 == q * pageSize + r && 0 <= r < pageSize;
    assert (q - 1) * pageSize == q * pageSize - pageSize;
  }

  lemma MulMonotone(a: int, b: int, s: nat)
    requires a <= b
    ensures a * s <= b * s
  {
    assert b * s - a * s == (b - a) * s;
  }

  /**
   * After `pagesFetched` full pages, items remain exactly when fewer pages
   * than `PageCount` have been fetched: the last page is the first whose
   * fetch leaves nothing more.
   */
  lemma {:induction false} MoreIffBeforeLastPage(total: int, pageSize: int, pagesFetched: nat)
    requires pageSize > 0
    ensures pageSize * pagesFetched < total <==> pagesFetched < PageCount(total, pageSize)
  {
    if total > 0 {
      var c := PageCount(total, pageSize);
      PageCountBounds(total, pageSize);
      if pagesFetched < c {
        MulMonotone(pagesFetched, c - 1, pageSize);
      } else {
        MulMonotone(c, pagesFetched, pageSize);
      }
    }
  }
}
