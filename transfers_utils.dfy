/**
 * Query parameters and pagination of the transfers listing.
 *
 * The request's numeric fields arrive already read by `parseInt`: `None`
 * stands for a field that is missing or does not parse (NaN). Like the
 * `||` operator of the source, a value of 0 also falls back to the default.
 * `fromTime`/`toTime` arrive already converted by the timestamp parser.
 */
module TransfersUtils {
  import opened Optional

  const DefaultLimit: int := 50
  const DefaultOffset: int := 0
  const DefaultPage: int := 1

  datatype TransfersRequest = TransfersRequest(
    limit: Option<int>,
    offset: Option<int>,
    page: Option<int>,
    pageSize: Option<int>,
    address: Option<string>,
    direction: Option<string>,
    minAmount: Option<real>,
    fromTime: Option<int>,
    toTime: Option<int>)

  datatype TransfersQueryParams = TransfersQueryParams(
    limit: int,
    offset: int,
    address: Option<string>,
    direction: Option<string>,
    minAmount: Option<real>,
    startTime: Option<int>,
    endTime: Option<int>)

  datatype Pagination = Pagination(page: int, pageSize: int, offset: int)

  datatype PaginationResponse = PaginationResponse(total: int, page: int, pageSize: int, totalPages: Option<int>)

  /** `x || fallback` on a parsed integer: NaN (None) and 0 are falsy. */
  function OrElse(x: Option<int>, fallback: int): (r: int)
    ensures x.Some? && x.value != 0 ==> r == x.value
    ensures x.None? || x.value == 0 ==> r == fallback
  {
    if x.Some? && x.value != 0 then x.value else fallback
  }

  function Limit(req: TransfersRequest): int {
    OrElse(req.limit, DefaultLimit)
  }

  function Page(req: TransfersRequest): int {
    OrElse(req.page, DefaultPage)
  }

  function PageSize(req: TransfersRequest): int {
    OrElse(req.pageSize, Limit(req))
  }

  /** The offset of the source: an explicit nonzero offset, else `(page - 1) * limit`. */
  function ActualOffset(req: TransfersRequest): int {
    OrElse(Some(OrElse(req.offset, DefaultOffset)), (Page(req) - 1) * Limit(req))
  }

  /** The offset paged by the page size actually requested. */
  function CorrectedOffset(req: TransfersRequest): int {
    OrElse(Some(OrElse(req.offset, DefaultOffset)), (Page(req) - 1) * PageSize(req))
  }

  /** The query and pagination records for a given offset. */
  function Assemble(req: TransfersRequest, offset: int): (TransfersQueryParams, Pagination) {
    (TransfersQueryParams(PageSize(req), offset, req.address, req.direction, req.minAmount, req.fromTime, req.toTime),
     Pagination(Page(req), PageSize(req), offset))
  }

  /**
   * The listing's query parameters, as the source computes them. The query
   * fetches `pageSize` rows; the pagination echoes what was used.
   */
  function BuildTransfersQueryParams(req: TransfersRequest): (r: (TransfersQueryParams, Pagination))
    ensures r.0.limit == r.1.pageSize && r.0.offset == r.1.offset
    ensures r.1.page != 0 && r.1.pageSize != 0
    ensures req.page.None? || req.page.value == 0 ==> r.1.page == 1
    ensures req.page.Some? && req.page.value != 0 ==> r.1.page == req.page.value
    ensures req.limit.Some? && req.limit.value != 0 && (req.pageSize.None? || req.pageSize.value == 0) ==> r.1.pageSize == req.limit.value
    ensures (req.limit.None? || req.limit.value == 0) && (req.pageSize.None? || req.pageSize.value == 0) ==> r.1.pageSize == 50
    ensures req.pageSize.Some? && req.pageSize.value != 0 ==> r.1.pageSize == req.pageSize.value
    ensures req.offset.Some? && req.offset.value != 0 ==> r.1.offset == req.offset.value
    ensures req.offset.None? || req.offset.value == 0 ==> r.1.offset == (r.1.page - 1) * Limit(req)
    ensures r.0.address == req.address && r.0.direction == req.direction && r.0.minAmount == req.minAmount
    ensures r.0.startTime == req.fromTime && r.0.endTime == req.toTime
  {
    Assemble(req, ActualOffset(req))
  }

  /** The same records with the offset stepped by the page size. */
  function BuildTransfersQueryParamsCorrected(req: TransfersRequest): (r: (TransfersQueryParams, Pagination))
    ensures r.0.limit == r.1.pageSize && r.0.offset == r.1.offset
    ensures req.offset.Some? && req.offset.value != 0 ==> r.1.offset == req.offset.value
    ensures req.offset.None? || req.offset.value == 0 ==> r.1.offset == (r.1.page - 1) * r.1.pageSize
    ensures BuildTransfersQueryParams(req).1.page == r.1.page && BuildTransfersQueryParams(req).1.pageSize == r.1.pageSize
  {
    Assemble(req, CorrectedOffset(req))
  }

  /** A request for page `page` of `pageSize` rows, with nothing else set. */
  function PageRequest(page: int, pageSize: int): TransfersRequest {
    TransfersRequest(None, None, Some(page), Some(pageSize), None, None, None, None, None)
  }

  /**
   * As written: with a page size of 20 and no limit, page 1 is rows 0-19
   * and page 2 starts at row 50, so rows 20-49 are never listed.
   */
  lemma PageOffsetSkipsRows()
    ensures var first := BuildTransfersQueryParams(PageRequest(1, 20)).1;
            var second := BuildTransfersQueryParams(PageRequest(2, 20)).1;
            first.offset == 0 && first.pageSize == 20 && second.offset == 50
  {
  }

  /** Corrected: without an explicit offset, page `p + 1` starts right where page `p` ends. */
  lemma CorrectedPagesAdjacent(page: int, pageSize: int)
    requires page >= 1 && pageSize != 0
    ensures var here := BuildTransfersQueryParamsCorrected(PageRequest(page, pageSize)).1;
            var next := BuildTransfersQueryParamsCorrected(PageRequest(page + 1, pageSize)).1;
            next.offset == here.offset + here.pageSize
  {
    if page == 1 {
      assert CorrectedOffset(PageRequest(page, pageSize)) == 0;
    }
  }

  /** `Math.ceil(a / b)` for `b != 0`: the least n with `n * b >= a` when b is positive. */
  function CeilDiv(a: int, b: int): (r: int)
    requires b != 0
    ensures b > 0 ==> (r - 1) * b < a <= r * b
    ensures b < 0 ==> r * b <= a < (r - 1) * b
  {
    if b > 0 then -((-a) / b) else -(a / (-b))
  }

  /**
   * The pagination summary. Dividing by a zero page size gives no finite
   * page count, here `None`.
   */
  function CreatePaginationResponse(total: int, page: int, pageSize: int): (r: PaginationResponse)
    ensures r.total == total && r.page == page && r.pageSize == pageSize
    ensures r.totalPages.None? <==> pageSize == 0
    ensures pageSize > 0 ==> (r.totalPages.value - 1) * pageSize < total <= r.totalPages.value * pageSize
    ensures pageSize > 0 && total == 0 ==> r.totalPages == Some(0)
  {
    PaginationResponse(total, page, pageSize, if pageSize == 0 then None else Some(CeilDiv(total, pageSize)))
  }

  lemma MulMonotone(x: int, y: int, b: int)
    requires x <= y && b > 0
    ensures x * b <= y * b
  {
    assert y * b - x * b == (y - x) * b;
  }

  lemma FloorDivBounds(row: int, b: int)
    requires b > 0
    ensures (row / b) * b <= row < (row / b + 1) * b
  {
    assert row == (row / b) * b + row % b;
  }

  /** With the corrected offset, every row of the total is on one of the reported pages. */
  lemma EveryRowOnAPage(total: int, pageSize: int, row: int)
    requires pageSize > 0 && 0 <= row < total
    ensures var pages := CreatePaginationResponse(total, 1, pageSize).totalPages.value;
            var page := row / pageSize + 1;
            var window := BuildTransfersQueryParamsCorrected(PageRequest(page, pageSize)).1;
            1 <= page <= pages && window.offset <= row < window.offset + window.pageSize
  {
    var pages := CreatePaginationResponse(total, 1, pageSize).totalPages.value;
    var q := row / pageSize;
    FloorDivBounds(row, pageSize);
    assert q >= 0;
    if q >= pages {
      MulMonotone(pages, q, pageSize);
      assert false;
    }
    var req := PageRequest(q + 1, pageSize);
    assert Page(req) == q + 1 && PageSize(req) == pageSize;
    if q == 0 {
      assert CorrectedOffset(req) == 0;
    } else {
      assert CorrectedOffset(req) == q * pageSize;
    }
  }
}
