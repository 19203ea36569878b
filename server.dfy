/**
 * The `GET /movies` handler's own derivations (the merged filter, the skip
 * count and the page links of the response), the 404 fallback route and the
 * error-handling middleware of the Express application.
 */
module Server {
  import opened Wrappers
  import opened JsNumbers
  import opened QueryString
  import opened MovieDataUtils

  /** `(page - 1) * limit`: how many matching movies the page skips. */
  function Skip(page: Number, limit: Number): (skip: Number)
    ensures skip.Int? <==> page.Int? && limit.Int?
    ensures skip.Int? ==> skip.value == (page.value - 1) * limit.value
  {
    Mul(Sub(page, Int(1)), limit)
  }

  /** `page === 1 ? null : page - 1`: no lower bound, so page 0 links back to -1. */
  function PreviousPage(page: Number): (prev: Option<Number>)
    ensures prev.None? <==> page == Int(1)
    ensures prev.Some? ==> prev.value == Sub(page, Int(1))
  {
    if page == Int(1) then None else Some(Sub(page, Int(1)))
  }

  /** `page + 1`, whatever the page and however many movies there are. */
  function NextPage(page: Number): (next: Number)
    ensures next.Int? <==> page.Int?
    ensures next.Int? ==> next.value == page.value + 1
  {
    Add(page, Int(1))
  }

  /** The handler's derivations do not reject page 0: its previous page is -1 and its next page 1. */
  lemma PageZeroLinksBack()
    ensures PreviousPage(Int(0)) == Some(Int(-1))
    ensures NextPage(Int(0)) == Int(1)
  {
  }

  /** `{ ...main, ...extra }`: every key of either, the later object winning. */
  function MergeFilters(main: Filter, extra: Filter): (f: Filter)
    ensures f.Keys == main.Keys + extra.Keys
    ensures forall k :: k in extra ==> f[k] == extra[k]
    ensures forall k :: k in main && k !in extra ==> f[k] == main[k]
  {
    main + extra
  }

  /** `Object.assign(target, source)`, as a value: the source's keys copied over the target's. */
  function ObjectAssign(target: Filter, source: Filter): (f: Filter)
    ensures f.Keys == target.Keys + source.Keys
    ensures forall k :: k in source ==> f[k] == source[k]
    ensures forall k :: k in target && k !in source ==> f[k] == target[k]
  {
    map k | k in target.Keys + source.Keys :: if k in source then source[k] else target[k]
  }

  /** The compiled handler's `Object.assign(Object.assign({}, main), extra)` is the spread. */
  lemma CompiledMergeAgrees(main: Filter, extra: Filter)
    ensures ObjectAssign(ObjectAssign(map[], main), extra) == MergeFilters(main, extra)
  {
  }

  /**
   * The main filter and the runtime/rating filter have no key in common, so
   * the merge keeps every clause of the main filter, the baseline with them.
   */
  lemma MergeKeepsMainFilter(query: Query)
    ensures FilterSpec(query).Keys !! RuntimeRatingSpec(query).Keys
    ensures var f := MergeFilters(FilterSpec(query), RuntimeRatingSpec(query));
      && HasBaseline(f)
      && (forall k :: k in FilterSpec(query) ==> f[k] == FilterSpec(query)[k])
      && (forall k :: k in RuntimeRatingSpec(query) ==> f[k] == RuntimeRatingSpec(query)[k])
  {
    var main, extra := FilterSpec(query), RuntimeRatingSpec(query);
    RuleKeysOutsideMainFilter(query);
    forall k | k in extra
      ensures k !in main
    {
    }
    var f := MergeFilters(main, extra);
    assert HasBaseline(f) by {
      forall k | k in BaselineFilter
        ensures k in f && f[k] == BaselineFilter[k]
      {
        assert k in main && k !in extra;
      }
    }
  }

  /** What the handler hands to the store and echoes in its response. */
  datatype MoviesPlan = MoviesPlan(
    filter: Filter,
    sort: SortDoc,
    limit: Number,
    skip: Number,
    previousPage: Option<Number>,
    currentPage: Number,
    nextPage: Number)

  /**
   * The `/movies` handler's derivations, in its order: pagination, the two
   * filters and their merge, then the sort, which may throw and so end the
   * request, then the skip count and the page links.
   */
  function PlanMovies(query: Query): (r: Result<MoviesPlan, JsError>)
    ensures r.Failure? <==> SortSpec(query).Failure?
    ensures r.Failure? ==> r.error == SortSpec(query).error
    ensures r.Success? ==>
      var p := PaginationSpec(query);
      && r.value.filter == MergeFilters(FilterSpec(query), RuntimeRatingSpec(query))
      && HasBaseline(r.value.filter)
      && r.value.sort == SortSpec(query).value
      && r.value.limit == p.limit
      && r.value.skip == Skip(p.page, p.limit)
      && r.value.currentPage == p.page
      && (r.value.previousPage.None? <==> p.page == Int(1))
      && r.value.previousPage == PreviousPage(p.page)
      && r.value.nextPage == NextPage(p.page)
  {
    var pagination := PaginationSpec(query);
    var filter := MergeFilters(FilterSpec(query), RuntimeRatingSpec(query));
    MergeKeepsMainFilter(query);
    match SortSpec(query)
    case Failure(e) => Failure(e)
    case Success(sort) =>
      var page := pagination.page;
      Success(MoviesPlan(filter, sort, pagination.limit, Skip(page, pagination.limit),
                         PreviousPage(page), page, NextPage(page)))
  }

  /** The handler as written: the translator's methods called in order, then the derivations. */
  method MoviesHandler(query: Query) returns (r: Result<MoviesPlan, JsError>)
    ensures r == PlanMovies(query)
  {
    var pagination := GetPaginationProperties(query);
    var mainFilter := ConvertToFilter(query);
    var runtimeAndRatingFilter := GetFilterByRuntimeAndRating(query);
    var filter := MergeFilters(mainFilter, runtimeAndRatingFilter);
    var sort := GetSortingProperties(query);
    if sort.Failure? {
      return Failure(sort.error);
    }
    var page, limit := pagination.page, pagination.limit;
    var skip := Skip(page, limit);
    var previousPage := PreviousPage(page);
    return Success(MoviesPlan(filter, sort.value, limit, skip, previousPage, page, NextPage(page)));
  }

  /** The `statusCode` and `message` properties of a thrown value; `None` where undefined. */
  datatype ErrorRecord = ErrorRecord(statusCode: Option<int>, message: Option<string>)

  /** An ExpressError carries both properties; a TypeError only a message. */
  function RecordOf(e: JsError): (r: ErrorRecord)
    ensures r.statusCode.Some? <==> e.ExpressError?
    ensures e.ExpressError? ==> r.statusCode == Some(e.statusCode)
    ensures r.message == Some(e.message)
  {
    match e
    case ExpressError(message, statusCode) => ErrorRecord(Some(statusCode), Some(message))
    case TypeError(message) => ErrorRecord(None, Some(message))
  }

  /** `res.status(status).json(body)`. */
  datatype ErrorResponse = ErrorResponse(status: int, body: string)

  /** The error middleware: the error's status and message, defaulting to 500 and "Something went wrong". */
  function HandleError(err: ErrorRecord): (r: ErrorResponse)
    ensures err.statusCode.Some? ==> r.status == err.statusCode.value
    ensures err.statusCode.None? ==> r.status == 500
    ensures err.message.Some? ==> r.body == err.message.value
    ensures err.message.None? ==> r.body == "Something went wrong"
  {
    var ErrorRecord(statusCode, message) := err;
    ErrorResponse(
      match statusCode case Some(c) => c case None => 500,
      match message case Some(m) => m case None => "Something went wrong")
  }

  /** What every request that no route matches is failed with. */
  function RouteNotFound(): (e: JsError)
    ensures RecordOf(e) == ErrorRecord(Some(404), Some("Page not found"))
  {
    ExpressError("Page not found", 404)
  }

  /** An unmatched route answers 404 "Page not found". */
  lemma UnmatchedRouteResponse()
    ensures HandleError(RecordOf(RouteNotFound())) == ErrorResponse(404, "Page not found")
  {
  }

  /** The error response of a `/movies` request, `None` when the handler does not throw. */
  function MoviesErrorResponse(query: Query): (resp: Option<ErrorResponse>)
    ensures resp.None? <==> PlanMovies(query).Success?
    ensures resp.Some? ==> resp.value == HandleError(RecordOf(PlanMovies(query).error))
  {
    match PlanMovies(query)
    case Failure(e) => Some(HandleError(RecordOf(e)))
    case Success(_) => None
  }

  /**
   * The handler's modelled derivations fail only through `sort_by`: with 400
   * "Invalid field" when it names a bad field or direction, and with a 500
   * carrying the TypeError's message when it has no `(`. (A failure of the
   * store itself, and the TypeError `String` throws for an operand object
   * with its own `toString` key, are outside the model.)
   */
  lemma MoviesErrors(query: Query)
    ensures TypeOf(Get(query, "sort_by")) != "string" ==> MoviesErrorResponse(query).None?
    ensures TypeOf(Get(query, "sort_by")) == "string" && '(' !in Get(query, "sort_by").value.s ==>
      MoviesErrorResponse(query) == Some(ErrorResponse(500, SplitOfUndefined.message))
    ensures MoviesErrorResponse(query).Some? ==>
      MoviesErrorResponse(query) == Some(ErrorResponse(400, "Invalid field"))
      || MoviesErrorResponse(query) == Some(ErrorResponse(500, SplitOfUndefined.message))
  {
  }

  /** `page=2&limit=5` is read as page 2 of 5. */
  lemma PageTwoOfFive(query: Query)
    requires query == [("page", Str("2")), ("limit", Str("5"))]
    ensures PaginationSpec(query) == Pagination(Int(2), Int(5))
    ensures TypeOf(Get(query, "sort_by")) == "undefined"
  {
    assert Get(query, "page") == Some(Str("2"));
    assert query[1..] == [("limit", Str("5"))];
    GetSingle("limit", Str("5"));
    SmallNumerals();
    PaginationRoundTrip(query, 2, 5);
  }

  /** `page=2&limit=5`: skip 5, previous page 1, current 2, next 3, limit 5. */
  lemma PageWindowExample(query: Query)
    requires query == [("page", Str("2")), ("limit", Str("5"))]
    ensures PlanMovies(query).Success?
    ensures var plan := PlanMovies(query).value;
      && plan.skip == Int(5)
      && plan.previousPage == Some(Int(1))
      && plan.currentPage == Int(2)
      && plan.nextPage == Int(3)
      && plan.limit == Int(5)
  {
    PageTwoOfFive(query);
  }

  /** With no page given, the first page has no previous page and skips nothing. */
  lemma FirstPageExample()
    ensures var r := PlanMovies([]);
      && r.Success?
      && r.value.previousPage.None? && r.value.currentPage == Int(1) && r.value.nextPage == Int(2)
      && r.value.skip == Int(0) && r.value.limit == Int(10)
      && r.value.sort == DefaultSort && r.value.filter == BaselineFilter
  {
  }
}
