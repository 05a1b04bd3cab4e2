/** The shared paging and sorting parameters of every listing and search. */
module QueryParams {
  import opened Wrappers

  const DefaultPageNumber: int := 1
  const DefaultPageSize: int := 10

  /** Page number, page size and the sort directives (`field` or `-field`), in order. */
  datatype CommonQueryParams = CommonQueryParams(pageNumber: int, pageSize: int, sort: seq<string>)

  /** The constraint the HTTP layer enforces on every value it builds: both numbers are
      strictly positive. */
  predicate Valid(p: CommonQueryParams)
  {
    p.pageNumber > 0 && p.pageSize > 0
  }

  /** The dataclass constructor: every argument that is not given takes its default. */
  function Make(pageNumber: Option<int>, pageSize: Option<int>, sort: Option<seq<string>>): (p: CommonQueryParams)
    ensures pageNumber.None? ==> p.pageNumber == 1
    ensures pageSize.None? ==> p.pageSize == 10
    ensures sort.None? ==> p.sort == []
    ensures pageNumber.Some? ==> p.pageNumber == pageNumber.value
    ensures pageSize.Some? ==> p.pageSize == pageSize.value
    ensures sort.Some? ==> p.sort == sort.value
  {
    CommonQueryParams(pageNumber.GetOr(DefaultPageNumber), pageSize.GetOr(DefaultPageSize), sort.GetOr([]))
  }

  /** `CommonQueryParams()`. */
  function Default(): CommonQueryParams
  {
    Make(None, None, None)
  }

  /** `CommonQueryParams(page_size=n)`. */
  function WithPageSize(n: int): CommonQueryParams
  {
    Make(None, Some(n), None)
  }

  /** The defaults satisfy the positivity constraint, so does any positive page size alone. */
  lemma DefaultsAreValid(n: int)
    requires n > 0
    ensures Valid(Default()) && Valid(WithPageSize(n))
    ensures Default() == CommonQueryParams(1, 10, [])
    ensures WithPageSize(n) == CommonQueryParams(1, n, [])
  {
  }
}
