/** `getPaginationData`: the page numbers a list endpoint reports. */
module Pagination {
  import opened Wrappers
  import opened Json

  /** `Math.ceil(a / b)` for a positive divisor. */
  function CeilDiv(a: int, b: int): (q: int)
    requires b > 0
    ensures (q - 1) * b < a <= q * b
  {
    -((-a) / b)
  }

  /** `PaginationReturnType['pagination']`; `null` neighbours are `None`. */
  datatype Pagination = Pagination(totalData: int, totalPage: int, currentPage: int, nextPage: Option<int>, prevPage: Option<int>)

  /** `getPaginationData(total, page, limit)`: `totalPage` is the least number
      of `limit`-sized pages holding `total` items; there is no next page on
      the page numbered `totalPage` and no previous page on page 1, and
      neither when there is no data. */
  function GetPaginationData(total: int, page: int, limit: int): (p: Pagination)
    requires limit > 0
    ensures (p.totalPage - 1) * limit < total <= p.totalPage * limit
    ensures p.totalData == total && p.currentPage == page
    ensures p.nextPage.None? <==> page == p.totalPage || total == 0
    ensures p.prevPage.None? <==> page == 1 || total == 0
    ensures p.nextPage.Some? ==> p.nextPage.value == page + 1
    ensures p.prevPage.Some? ==> p.prevPage.value == page - 1
  {
    var totalPage := CeilDiv(total, limit);
    var isNotData := total == 0;
    var nextPage := if page == totalPage || isNotData then None else Some(page + 1);
    var prevPage := if page == 1 || isNotData then None else Some(page - 1);
    Pagination(total, totalPage, page, nextPage, prevPage)
  }

  /** On a page that exists, the neighbours reported are pages that exist,
      and the last page is the one without a next page. */
  lemma {:induction false} NeighboursInRange(total: nat, page: int, limit: int)
    requires limit > 0 && total > 0
    requires 1 <= page <= GetPaginationData(total, page, limit).totalPage
    ensures var p := GetPaginationData(total, page, limit);
      p.totalPage >= 1 &&
      (p.nextPage.Some? ==> 2 <= p.nextPage.value <= p.totalPage) &&
      (p.prevPage.Some? ==> 1 <= p.prevPage.value < p.totalPage) &&
      (p.nextPage.None? <==> page == p.totalPage)
  {
    var p := GetPaginationData(total, page, limit);
  }

  /** The last-page test is an equality: a page past the end still reports
      a next page. */
  lemma PastTheEnd()
    ensures GetPaginationData(10, 3, 5) == Pagination(10, 2, 3, Some(4), Some(2))
  {
  }

  function OptNumber(v: Option<int>): Json {
    match v
    case None => JNull
    case Some(n) => JNum(n)
  }

  /** The `pagination` object as sent. */
  function PaginationJson(p: Pagination): (j: Json)
    ensures ObjectKeys(j) == ["totalData", "totalPage", "currentPage", "nextPage", "prevPage"]
    ensures Field(j, "totalData") == Some(JNum(p.totalData)) && Field(j, "totalPage") == Some(JNum(p.totalPage))
    ensures Field(j, "currentPage") == Some(JNum(p.currentPage))
    ensures Field(j, "nextPage") == Some(OptNumber(p.nextPage)) && Field(j, "prevPage") == Some(OptNumber(p.prevPage))
  {
    var fields := [("totalData", JNum(p.totalData)), ("totalPage", JNum(p.totalPage)), ("currentPage", JNum(p.currentPage)),
                   ("nextPage", OptNumber(p.nextPage)), ("prevPage", OptNumber(p.prevPage))];
    GetAt(fields, 1);
    GetAt(fields, 2);
    GetAt(fields, 3);
    GetAt(fields, 4);
    JObj(fields)
  }
}
