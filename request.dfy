/**
 * Request payloads and their checks: the review payload (a value check) and
 * the product-list filter, whose check also applies the paging defaults to
 * the filter in place.
 */
module Request {

  import opened Wrappers
  import opened GoInts
  import opened ErrorHelper

  const DefaultPage: Int64 := 1
  const DefaultSize: Int64 := 10

  /** The body of a review submission. */
  datatype ReviewProductRequest = ReviewProductRequest(rating: Int32, comment: string)

  /** `ReviewProductRequest.Validate`: the rating must lie in 1..5; the comment is free. */
  function ValidateReview(req: ReviewProductRequest): (err: Option<Error>)
    ensures err.None? <==> 1 <= req.rating <= 5
    ensures err.Some? ==> err == Some(New("invalid rating range"))
  {
    if req.rating < 1 || req.rating > 5 then Some(New("invalid rating range")) else None
  }

  /** The value of a `GetProductListFilter` struct. */
  datatype ListFilter = ListFilter(
    search: string,
    categoryId: int,
    sortColumn: string,
    sortType: string,
    page: Int64,
    size: Int64)

  /** The filter of an empty query string: every field zero. */
  const EmptyFilter := ListFilter("", 0, "", "", 0, 0)

  predicate ValidSortType(t: string) { t == "" || t == "asc" || t == "desc" }

  predicate ValidSortColumn(c: string) { c == "" || c == "created_at" || c == "rating" }

  /**
   * The error the filter check returns: the sort type is looked at first,
   * then the sort column; paging values are never an error.
   */
  function FilterError(f: ListFilter): (err: Option<Error>)
    ensures err.None? <==> ValidSortType(f.sortType) && ValidSortColumn(f.sortColumn)
    ensures !ValidSortType(f.sortType) ==> err == Some(New("invalid sort type"))
    ensures ValidSortType(f.sortType) && !ValidSortColumn(f.sortColumn) ==> err == Some(New("invalid sort column"))
  {
    if f.sortType != "" && f.sortType != "asc" && f.sortType != "desc" then Some(New("invalid sort type"))
    else if f.sortColumn != "" && f.sortColumn != "created_at" && f.sortColumn != "rating" then Some(New("invalid sort column"))
    else None
  }

  /**
   * The filter after a successful check: a non-positive page becomes 1 and a
   * non-positive size becomes 10; everything else is kept.
   */
  function Normalize(f: ListFilter): (g: ListFilter)
    ensures g.page >= 1 && g.size >= 1
    ensures f.page > 0 ==> g.page == f.page
    ensures f.size > 0 ==> g.size == f.size
    ensures f.page <= 0 ==> g.page == DefaultPage
    ensures f.size <= 0 ==> g.size == DefaultSize
    ensures g.search == f.search && g.categoryId == f.categoryId
    ensures g.sortColumn == f.sortColumn && g.sortType == f.sortType
  {
    var p := if f.page <= 0 then DefaultPage else f.page;
    var s := if f.size <= 0 then DefaultSize else f.size;
    f.(page := p, size := s)
  }

  /** Normalizing twice is normalizing once, and it does not change the verdict of the check. */
  lemma NormalizeIdempotent(f: ListFilter)
    ensures Normalize(Normalize(f)) == Normalize(f)
    ensures FilterError(Normalize(f)) == FilterError(f)
  {
  }

  /** A filter whose paging is already positive is a fixed point of the normalization. */
  lemma NormalizeFixedPoint(f: ListFilter)
    ensures Normalize(f) == f <==> f.page >= 1 && f.size >= 1
  {
  }

  /** `GetProductListFilter`, addressed through a pointer: its `Validate` updates it in place. */
  class GetProductListFilter {
    var search: string
    var categoryId: int
    var sortColumn: string
    var sortType: string
    var page: Int64
    var size: Int64

    /** The struct's current value. */
    function Value(): ListFilter
      reads this
    {
      ListFilter(search, categoryId, sortColumn, sortType, page, size)
    }

    constructor (v: ListFilter)
      ensures Value() == v
    {
      search, categoryId, sortColumn, sortType, page, size :=
        v.search, v.categoryId, v.sortColumn, v.sortType, v.page, v.size;
    }

    /**
     * `(*GetProductListFilter).Validate`: on a bad sort type or sort column it
     * returns the error and leaves the filter as it was; otherwise it applies
     * the paging defaults in place and returns nil.
     */
    method Validate() returns (err: Option<Error>)
      modifies this
      ensures err == FilterError(old(Value()))
      ensures err.Some? ==> Value() == old(Value())
      ensures err.None? ==> Value() == Normalize(old(Value()))
    {
      if sortType != "" && sortType != "asc" && sortType != "desc" {
        return Some(New("invalid sort type"));
      }
      if sortColumn != "" && sortColumn != "created_at" && sortColumn != "rating" {
        return Some(New("invalid sort column"));
      }
      if page <= 0 {
        page := 1;
      }
      if size <= 0 {
        size := 10;
      }
      return None;
    }
  }

  /** Validating a filter a second time finds no error and changes nothing. */
  method ValidateTwice(v: ListFilter) returns (first: Option<Error>, second: Option<Error>, f: GetProductListFilter)
    ensures first == FilterError(v)
    ensures first.None? ==> second.None? && f.Value() == Normalize(v)
    ensures first.Some? ==> second == first && f.Value() == v
  {
    f := new GetProductListFilter(v);
    first := f.Validate();
    second := f.Validate();
    NormalizeIdempotent(v);
  }
}
