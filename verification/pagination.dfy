/**
 * The pagination capability (`PaginationMixin`): page state read from
 * `results.paging_status`, and the derived "is this collection paginated".
 */
module Pagination {
  import opened Options
  import opened Json
  import opened Coerce

  datatype PageState = PageState(
    pageLength: Option<int>,
    pageNumber: Option<int>,
    pagesRemaining: Option<int>,
    resultsRemaining: Option<int>,
    totalResults: Option<int>)

  /** The `paging_status` mapping inside `results`, or the empty mapping. */
  function PagingStatus(data: Payload): Payload
  {
    AsMapping(Get(AsMapping(Get(data, "results")), "paging_status"))
  }

  /** `PaginationMixin.from_api_data`: four keys copied, `total_unpaged_results` renamed. */
  function FromApiData(data: Payload): (p: PageState)
    ensures p.pageLength == AsInt(Get(PagingStatus(data), "page_length"))
    ensures p.pageNumber == AsInt(Get(PagingStatus(data), "page_number"))
    ensures p.pagesRemaining == AsInt(Get(PagingStatus(data), "pages_remaining"))
    ensures p.resultsRemaining == AsInt(Get(PagingStatus(data), "results_remaining"))
    ensures p.totalResults == AsInt(Get(PagingStatus(data), "total_unpaged_results"))
    ensures Get(data, "results") == JNull ==> p == PageState(None, None, None, None, None)
  {
    var paging := PagingStatus(data);
    PageState(
      AsInt(Get(paging, "page_length")),
      AsInt(Get(paging, "page_number")),
      AsInt(Get(paging, "pages_remaining")),
      AsInt(Get(paging, "results_remaining")),
      AsInt(Get(paging, "total_unpaged_results")))
  }

  /** The payload the API would send for a page state: the inverse partner of `FromApiData`. */
  function ToApiData(p: PageState): (data: Payload)
    ensures |data| == 1
  {
    [("results", JObj([("paging_status", JObj([
      ("page_length", IntJson(p.pageLength)),
      ("page_number", IntJson(p.pageNumber)),
      ("pages_remaining", IntJson(p.pagesRemaining)),
      ("results_remaining", IntJson(p.resultsRemaining)),
      ("total_unpaged_results", IntJson(p.totalResults))]))]))]
  }

  lemma RoundTrip(p: PageState)
    ensures FromApiData(ToApiData(p)) == p
  {
    var data := ToApiData(p);
    GetUnique(data, 0);
    var results := Get(data, "results").fields;
    GetUnique(results, 0);
    var status := Get(results, "paging_status").fields;
    assert UniqueKeys(status);
    GetUnique(status, 0);
    GetUnique(status, 1);
    GetUnique(status, 2);
    GetUnique(status, 3);
    GetUnique(status, 4);
  }

  /**
   * `is_paginated()`. An incomplete state, in which the page length, the
   * page number or the remaining-page count is missing, is taken as not paginated;
   * otherwise more pages follow, or this is not the first page.
   */
  function IsPaginated(p: PageState): (paginated: bool)
    ensures paginated ==> p.pageLength.Some? && p.pageNumber.Some? && p.pagesRemaining.Some?
    ensures paginated ==> p.pagesRemaining.value > 0 || p.pageNumber.value > 1
    ensures (p.pageLength.Some? && p.pageNumber.Some? && p.pagesRemaining.Some?
             && (p.pagesRemaining.value > 0 || p.pageNumber.value > 1)) ==> paginated
  {
    if p.pageLength.None? || p.pageNumber.None? || p.pagesRemaining.None? then false
    else p.pagesRemaining.value > 0 || p.pageNumber.value > 1
  }

  /**
   * With the three counts present and in range, the collection is paginated
   * exactly when it spans more than one page: the pages up to this one
   * plus the pages still to come.
   */
  lemma PaginatedIffMoreThanOnePage(p: PageState)
    requires p.pageLength.Some? && p.pageNumber.Some? && p.pagesRemaining.Some?
    requires p.pageNumber.value >= 1 && p.pagesRemaining.value >= 0
    ensures IsPaginated(p) <==> p.pageNumber.value + p.pagesRemaining.value > 1
  {
  }

  /** A state with any of the three counts missing is not paginated, whatever the others say. */
  lemma MissingCountsNeverPaginate(p: PageState)
    ensures p.pageLength.None? || p.pageNumber.None? || p.pagesRemaining.None? ==> !IsPaginated(p)
    ensures p == PageState(None, None, None, None, None) ==> !IsPaginated(p)
  {
  }

  /** Page 1 with no pages remaining is not paginated; any later page is. */
  lemma FirstPageBoundary(length: int, total: Option<int>, page: int)
    ensures !IsPaginated(PageState(Some(length), Some(1), Some(0), None, total))
    ensures page > 1 ==> IsPaginated(PageState(Some(length), Some(page), Some(0), None, total))
  {
  }

  /** The example payload: (50, 2, 3, 150, 250), paginated. */
  lemma Example()
    ensures var p := FromApiData([("results", JObj([("paging_status", JObj([
              ("page_length", JInt(50)), ("page_number", JInt(2)), ("pages_remaining", JInt(3)),
              ("results_remaining", JInt(150)), ("total_unpaged_results", JInt(250))]))]))]);
            p == PageState(Some(50), Some(2), Some(3), Some(150), Some(250)) && IsPaginated(p)
  {
    RoundTrip(PageState(Some(50), Some(2), Some(3), Some(150), Some(250)));
  }
}
