/** The database window (`take`, `skip`) of a page request. */
module TakeSkip {
  import opened Paginator

  datatype Window = Window(take: int, skip: int)

  /** `calculateTakeSkip`: `take` is the page size and `skip` the records on the earlier pages. */
  function CalculateTakeSkip(param: PaginatorReq): (w: Window)
    ensures w.take == param.pageSize
    ensures w.skip + w.take == param.currentPage * param.pageSize
  {
    Window(param.pageSize, (param.currentPage - 1) * param.pageSize)
  }

  /** Record `index` falls inside the window. */
  predicate InWindow(index: int, w: Window) {
    w.skip <= index < w.skip + w.take
  }

  /** Page 1 starts at the first record: (1, 10) gives take 10, skip 0. */
  lemma FirstPage(pageSize: int)
    ensures CalculateTakeSkip(PaginatorReq(1, pageSize)) == Window(pageSize, 0)
    ensures CalculateTakeSkip(PaginatorReq(1, 10)) == Window(10, 0)
  {
  }

  /** Consecutive pages touch: the next page starts where this one ends. */
  lemma Adjacent(page: int, pageSize: int)
    ensures var w := CalculateTakeSkip(PaginatorReq(page, pageSize));
            CalculateTakeSkip(PaginatorReq(page + 1, pageSize)).skip == w.skip + w.take
  {
    assert page * pageSize == (page - 1) * pageSize + pageSize;
  }

  /** A multiple of `n` leaves no remainder. */
  lemma {:induction false} ModOfMultiple(k: int, n: int)
    requires 1 <= n
    ensures (k * n) % n == 0 && (k * n) / n == k
  {
    var q := (k * n) / n;
    var r := (k * n) % n;
    assert k * n == q * n + r && 0 <= r < n;
    assert (k - q) * n == r;
    if k - q >= 1 {
      MulMonotone(1, k - q, n);
    } else if k - q <= -1 {
      MulMonotone(k - q, -1, n);
    }
  }

  /** For a page of at least 1, `skip` is non-negative and a whole number of pages. */
  lemma SkipIsWholePages(page: int, pageSize: int)
    requires page >= 1 && pageSize >= 1
    ensures var w := CalculateTakeSkip(PaginatorReq(page, pageSize));
            w.take == pageSize && 0 <= w.skip && w.skip % pageSize == 0 && w.skip / pageSize == page - 1
  {
    MulMonotone(0, page - 1, pageSize);
    ModOfMultiple(page - 1, pageSize);
  }

  /**
   * The windows partition the records: record `index` is on page `p`
   * exactly when `p` is `index / pageSize + 1`, so no record is on two
   * pages and none is skipped.
   */
  lemma {:induction false} WindowMembership(index: nat, page: int, pageSize: int)
    requires page >= 1 && pageSize >= 1
    ensures InWindow(index, CalculateTakeSkip(PaginatorReq(page, pageSize))) <==> index / pageSize + 1 == page
  {
    var q := index / pageSize;
    var r := index % pageSize;
    assert index == q * pageSize + r && 0 <= r < pageSize;
    var w := CalculateTakeSkip(PaginatorReq(page, pageSize));
    assert w.skip == (page - 1) * pageSize;
    assert w.skip + w.take == page * pageSize by {
      assert page * pageSize == (page - 1) * pageSize + pageSize;
    }
    assert (q + 1) * pageSize == q * pageSize + pageSize;
    if q + 1 < page {
      MulMonotone(q + 1, page - 1, pageSize);
      assert !InWindow(index, w);
    } else if q + 1 > page {
      MulMonotone(page, q, pageSize);
      assert !InWindow(index, w);
    } else {
      assert InWindow(index, w);
    }
  }

  /**
   * With at least one record, the last page reported by the response
   * holds the last record and the page after it is empty.
   */
  lemma LastPageWindow(req: PaginatorReq, count: nat)
    requires ValidReq(req) && count >= 1
    ensures var last := OkPaginator(req, [0], count).data.paginator.totalPage;
            InWindow(count - 1, CalculateTakeSkip(PaginatorReq(last, req.pageSize))) &&
            CalculateTakeSkip(PaginatorReq(last + 1, req.pageSize)).skip >= count
  {
    var last := CeilDiv(count, req.pageSize);
    Adjacent(last, req.pageSize);
  }
}
