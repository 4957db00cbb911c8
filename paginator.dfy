/**
 * Page requests (bounds and defaults of the two request schemas) and the
 * paginated response envelope built by `okPaginator`.
 */
module Paginator {
  import opened Wrappers
  import opened Common

  /** A numeric request field as the schema sees it before parsing. */
  datatype NumberField = Absent | Integer(n: int) | NonInteger | NotNumber

  /** An optional text field as the schema sees it before parsing. */
  datatype TextField = NoText | Text(s: string) | NotText

  datatype PaginatorReq = PaginatorReq(currentPage: int, pageSize: int)

  datatype PaginatorSearchReq = PaginatorSearchReq(currentPage: int, pageSize: int, searchWord: Option<string>)

  const MaxCurrentPage := 100
  const DefaultCurrentPage := 1
  const MaxPageSize := 50
  const DefaultPageSize := 20

  /** What a parsed request always satisfies. */
  predicate ValidReq(req: PaginatorReq) {
    1 <= req.currentPage <= MaxCurrentPage && 1 <= req.pageSize <= MaxPageSize
  }

  /** `.number().int().positive().lte(upper).optional().default(default)`. */
  function BoundedInt(f: NumberField, upper: int, default: int): (r: Option<int>)
    ensures r.Some? <==> FieldOk(f, upper)
    ensures f.Absent? ==> r == Some(default)
    ensures f.Integer? && r.Some? ==> r.value == f.n
  {
    match f
    case Absent => Some(default)
    case Integer(n) => if 0 < n && n <= upper then Some(n) else None
    case NonInteger => None
    case NotNumber => None
  }

  /** A field the schema accepts: absent, or an integer in `1..upper`. */
  predicate FieldOk(f: NumberField, upper: int) {
    f.Absent? || (f.Integer? && 1 <= f.n <= upper)
  }

  /** `paginatorReqSchema.safeParse`: both fields must pass; absent fields take their defaults. */
  function ParsePaginatorReq(currentPage: NumberField, pageSize: NumberField): (r: Option<PaginatorReq>)
    ensures r.Some? <==> FieldOk(currentPage, MaxCurrentPage) && FieldOk(pageSize, MaxPageSize)
    ensures r.Some? ==> ValidReq(r.value)
    ensures r.Some? && currentPage.Absent? ==> r.value.currentPage == DefaultCurrentPage
    ensures r.Some? && currentPage.Integer? ==> r.value.currentPage == currentPage.n
    ensures r.Some? && pageSize.Absent? ==> r.value.pageSize == DefaultPageSize
    ensures r.Some? && pageSize.Integer? ==> r.value.pageSize == pageSize.n
  {
    match (BoundedInt(currentPage, MaxCurrentPage, DefaultCurrentPage), BoundedInt(pageSize, MaxPageSize, DefaultPageSize))
    case (Some(page), Some(size)) => Some(PaginatorReq(page, size))
    case _ => None
  }

  /** `paginatorSearchReqSchema.safeParse`: the same two fields and an optional string `searchWord`. */
  function ParsePaginatorSearchReq(currentPage: NumberField, pageSize: NumberField, searchWord: TextField)
    : (r: Option<PaginatorSearchReq>)
    ensures r.Some? <==> ParsePaginatorReq(currentPage, pageSize).Some? && !searchWord.NotText?
    ensures r.Some? ==> r.value.currentPage == ParsePaginatorReq(currentPage, pageSize).value.currentPage
    ensures r.Some? ==> r.value.pageSize == ParsePaginatorReq(currentPage, pageSize).value.pageSize
    ensures r.Some? ==> (r.value.searchWord.Some? <==> searchWord.Text?)
    ensures r.Some? && searchWord.Text? ==> r.value.searchWord == Some(searchWord.s)
  {
    match (ParsePaginatorReq(currentPage, pageSize), searchWord)
    case (None, _) => None
    case (_, NotText) => None
    case (Some(req), NoText) => Some(PaginatorSearchReq(req.currentPage, req.pageSize, None))
    case (Some(req), Text(s)) => Some(PaginatorSearchReq(req.currentPage, req.pageSize, Some(s)))
  }

  /** The input fields that describe a given request. */
  function ReqFields(req: PaginatorReq): (NumberField, NumberField) {
    (Integer(req.currentPage), Integer(req.pageSize))
  }

  /** A request that is already valid passes through unchanged, and nothing else is accepted from explicit integers. */
  lemma ParseReqRoundTrip(req: PaginatorReq)
    ensures ParsePaginatorReq(ReqFields(req).0, ReqFields(req).1) == (if ValidReq(req) then Some(req) else None)
  {
  }

  /** Same for the search request, with or without a search word. */
  lemma ParseSearchReqRoundTrip(req: PaginatorSearchReq)
    requires 1 <= req.currentPage <= MaxCurrentPage && 1 <= req.pageSize <= MaxPageSize
    ensures var word := if req.searchWord.Some? then Text(req.searchWord.value) else NoText;
            ParsePaginatorSearchReq(Integer(req.currentPage), Integer(req.pageSize), word) == Some(req)
  {
  }

  /** An empty request gets page 1 of size 20; out-of-range values are rejected. */
  lemma ParseReqExamples()
    ensures ParsePaginatorReq(Absent, Absent) == Some(PaginatorReq(1, 20))
    ensures ParsePaginatorReq(Integer(2), Integer(10)) == Some(PaginatorReq(2, 10))
    ensures ParsePaginatorReq(Integer(-1), Integer(10)) == None
    ensures ParsePaginatorReq(Integer(1), Integer(100)) == None
    ensures ParsePaginatorReq(Integer(101), Absent) == None
    ensures ParsePaginatorReq(Integer(0), Absent) == None
    ensures ParsePaginatorReq(Absent, Integer(51)) == None
  {
  }

  // ---------------------------------------------------------------------
  // Response

  datatype PageInfo = PageInfo(currentPage: int, pageSize: int, totalPage: int, totalRecord: int)

  datatype PaginatorData<T> = PaginatorData(list: seq<T>, paginator: PageInfo)

  /** `Math.ceil(count / size)` on integers: the least number of pages of `size` records holding `count` records. */
  function CeilDiv(count: nat, size: int): (pages: nat)
    requires 1 <= size
    ensures count <= pages * size
    ensures pages == 0 || (pages - 1) * size < count
  {
    (count + size - 1) / size
  }

  /** `okPaginator`: code OK, message 'ok', the list unchanged, the request echoed, the record count and the page count. */
  function OkPaginator<T>(req: PaginatorReq, list: seq<T>, count: nat): (r: BaseResponse<PaginatorData<T>>)
    requires 1 <= req.pageSize
    ensures r.code == Ok && r.message == "ok"
    ensures r.data.list == list
    ensures r.data.paginator.currentPage == req.currentPage && r.data.paginator.pageSize == req.pageSize
    ensures r.data.paginator.totalRecord == count
    ensures count <= r.data.paginator.totalPage * req.pageSize
    ensures r.data.paginator.totalPage == 0 || (r.data.paginator.totalPage - 1) * req.pageSize < count
  {
    BaseResponse(Ok, "ok", PaginatorData(list, PageInfo(req.currentPage, req.pageSize,
                                                        CeilDiv(count, req.pageSize), count)))
  }

  lemma MulMonotone(a: int, b: int, n: int)
    requires a <= b && 0 <= n
    ensures a * n <= b * n
  {
    assert b * n - a * n == (b - a) * n;
  }

  /** The page count is the unique ceiling: any `q` with the two ceiling bounds equals it. */
  lemma {:induction false} CeilDivUnique(count: nat, size: int, q: nat)
    requires 1 <= size
    requires count <= q * size && (q == 0 || (q - 1) * size < count)
    ensures q == CeilDiv(count, size)
  {
    var p := CeilDiv(count, size);
    if q < p {
      MulMonotone(q, p - 1, size);
    } else if p < q {
      MulMonotone(p, q - 1, size);
    }
  }

  /** The cases exercised for the response: 25/10, 30/10 and 31/10 records per page. */
  lemma TotalPageExamples()
    ensures CeilDiv(25, 10) == 3 && CeilDiv(30, 10) == 3 && CeilDiv(31, 10) == 4
    ensures OkPaginator(PaginatorReq(2, 10), [11, 12, 13], 25).data.paginator == PageInfo(2, 10, 3, 25)
  {
  }

  /** There is at least one page exactly when there is at least one record. */
  lemma TotalPagePositiveIff(count: nat, size: int)
    requires 1 <= size
    ensures CeilDiv(count, size) >= 1 <==> count >= 1
  {
  }

  /** What the declared response schema demands of the page information. */
  predicate PageInfoConforms(p: PageInfo) {
    p.currentPage >= 1 && p.pageSize >= 1 && p.totalPage >= 1 && p.totalRecord >= 1
  }

  /**
   * The response for a valid request conforms to the declared schema
   * exactly when there is at least one record: an empty result has
   * `totalPage = 0` and `totalRecord = 0`, which the schema's `positive()`
   * rejects.
   */
  lemma ResponseConformsIffNonEmpty<T>(req: PaginatorReq, list: seq<T>, count: nat)
    requires ValidReq(req)
    ensures PageInfoConforms(OkPaginator(req, list, count).data.paginator) <==> count >= 1
  {
    TotalPagePositiveIff(count, req.pageSize);
  }
}
