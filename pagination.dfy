/** Package `dbutil`: `Pagination` fills in defaults for the paging
    parameters that are exactly zero or empty, and yields the query scope
    that applies offset, limit and order. */
module DbUtil {
  import opened Util
  import opened Request
  import Constant

  /** The defaulting of `Pagination`: only an exact zero or an empty string
      is replaced; every other value, negative ones included, is kept. */
  function Defaulted(p: Page): (q: Page)
    ensures q.page != 0 && q.size != 0 && q.sort != ""
    ensures p.page != 0 ==> q.page == p.page
    ensures p.size != 0 ==> q.size == p.size
    ensures p.sort != "" ==> q.sort == p.sort
    ensures p.page == 0 ==> q.page == Constant.DefaultPage
    ensures p.size == 0 ==> q.size == Constant.DefaultPageSize
    ensures p.sort == "" ==> q.sort == Constant.DefaultPageSort
  {
    Page(if p.page == 0 then Constant.DefaultPage else p.page,
         if p.size == 0 then Constant.DefaultPageSize else p.size,
         if p.sort == "" then Constant.DefaultPageSort else p.sort)
  }

  /** Defaulting its own output changes nothing, and the pages it leaves
      alone are exactly those with no zero or empty field. */
  lemma DefaultedIdempotent(p: Page)
    ensures Defaulted(Defaulted(p)) == Defaulted(p)
    ensures Defaulted(p) == p <==> p.page != 0 && p.size != 0 && p.sort != ""
  {
  }

  /** What the returned closure does to a query: `db.Offset(offset).Limit(limit).Order(order)`. */
  datatype Scope = Scope(offset: Int64, limit: Int64, order: string)

  /** `Pagination`: overwrites the fields of its copy of `page` one at a
      time, then computes `(Page-1)*Size` in 64-bit arithmetic. */
  method Pagination(page: Page) returns (scope: Scope)
    ensures var q := Defaulted(page);
      scope == Scope(Wrap64(Wrap64(q.page - 1) * q.size), q.size, q.sort)
    ensures page == Page(0, 0, "") ==> scope == Scope(0, Constant.DefaultPageSize, Constant.DefaultPageSort)
  {
    var p := page;
    if p.size == 0 {
      p := p.(size := Constant.DefaultPageSize);
    }
    if p.sort == "" {
      p := p.(sort := Constant.DefaultPageSort);
    }
    if p.page == 0 {
      p := p.(page := Constant.DefaultPage);
    }
    var pageMinusOne := Wrap64(p.page - 1);
    scope := Scope(Wrap64(pageMinusOne * p.size), p.size, p.sort);
  }

  /** When `(Page-1)*Size` fits in 64 bits the offset is exactly that
      product, for negative pages and sizes too. */
  lemma OffsetExact(page: Page)
    requires var q := Defaulted(page); MinInt64 <= (q.page - 1) * q.size <= MaxInt64
    ensures var q := Defaulted(page); Wrap64(Wrap64(q.page - 1) * q.size) == (q.page - 1) * q.size
  {
    var q := Defaulted(page);
    if q.page == MinInt64 {
      // Page-1 itself leaves the range, and a non-zero size keeps the product out of it
      assert false;
    }
  }

  /** A very large page number wraps the offset round to a negative value. */
  lemma OffsetWrapsForHugePage()
    ensures var q := Defaulted(Page(MaxInt64, 10, ""));
      Wrap64(Wrap64(q.page - 1) * q.size) == -20
  {
  }
}
