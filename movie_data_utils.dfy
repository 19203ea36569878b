/**
 * The query translator of the movie API: it turns the parsed query string of
 * `GET /movies` into a MongoDB sort document, pagination numbers and a filter
 * document.
 *
 * The operations that build a local object field by field are methods that
 * do so, each proved equal to a declarative specification function; the
 * specification functions carry the properties, and the lemmas at the end of
 * each section check them against the unit tests' cases.
 */
module MovieDataUtils {
  import opened Wrappers
  import opened JsStrings
  import opened JsNumbers
  import opened QueryString

  /** What the translator throws. */
  datatype JsError =
    | ExpressError(message: string, statusCode: int)
    | TypeError(message: string)

  /** The one application error the translator raises. */
  const InvalidField: JsError := ExpressError("Invalid field", 400)

  /** What `sort_by.split("(")[1].split(")")` throws when `sort_by` has no `(`. */
  const SplitOfUndefined: JsError := TypeError("Cannot read properties of undefined (reading 'split')")

  // ---------------------------------------------------------------------
  // Field aliases
  // ---------------------------------------------------------------------

  /** The movie field a query alias stands for; `None` (null) for any other key. */
  function ConvertToMovieKey(key: string): (field: Option<string>)
    ensures key == "title" ==> field == Some("primaryTitle")
    ensures key == "rating" ==> field == Some("averageRating")
    ensures key == "year" ==> field == Some("startYear")
    ensures key == "runtime" ==> field == Some("runtimeMinutes")
    ensures field.Some? <==> key == "title" || key == "rating" || key == "year" || key == "runtime"
  {
    match key
    case "title" => Some("primaryTitle")
    case "rating" => Some("averageRating")
    case "year" => Some("startYear")
    case "runtime" => Some("runtimeMinutes")
    case _ => None
  }

  /** The alias of a canonical movie field, the inverse of ConvertToMovieKey. */
  function AliasOf(field: string): Option<string>
  {
    match field
    case "primaryTitle" => Some("title")
    case "averageRating" => Some("rating")
    case "startYear" => Some("year")
    case "runtimeMinutes" => Some("runtime")
    case _ => None
  }

  /** Every alias maps to a field whose alias it is: the mapping is injective. */
  lemma AliasRoundTrip(key: string)
    ensures ConvertToMovieKey(key).Some? ==> AliasOf(ConvertToMovieKey(key).value) == Some(key)
  {
  }

  /** The four canonical fields are exactly the images of the four aliases. */
  lemma FieldRoundTrip(field: string)
    ensures AliasOf(field).Some? ==> ConvertToMovieKey(AliasOf(field).value) == Some(field)
  {
  }

  /** The unit tests' cases: the four aliases, and `invalidKey` giving null. */
  lemma MovieKeyExamples()
    ensures ConvertToMovieKey("rating") == Some("averageRating")
    ensures ConvertToMovieKey("title") == Some("primaryTitle")
    ensures ConvertToMovieKey("runtime") == Some("runtimeMinutes")
    ensures ConvertToMovieKey("year") == Some("startYear")
    ensures ConvertToMovieKey("invalidKey") == None
    ensures ConvertToMovieKey("Title") == None
  {
  }

  // ---------------------------------------------------------------------
  // Sorting
  // ---------------------------------------------------------------------

  /** A MongoDB sort document: field name to 1 (ascending) or -1 (descending). */
  type SortDoc = map<string, int>

  /** The sort used when the query names none: top rating first. */
  const DefaultSort: SortDoc := map["averageRating" := -1]

  /** The commented-out "trending" default, which the unit test still expects. */
  const TrendingSort: SortDoc := map["startYear" := -1, "numVotes" := -1]

  /** The direction D of a `sort_by` value D(F): the text before its first `(`. */
  function SortDirection(s: string): (d: string)
    ensures d <= s && '(' !in d
    ensures |d| < |s| ==> s[|d|] == '('
  {
    BeforeAny(s, {'('})
  }

  /** The alias F of a `sort_by` value D(F): after the first `(`, up to the next `(` or `)`. */
  function SortAlias(s: string): (f: string)
    requires '(' in s
    ensures '(' !in f && ')' !in f
    ensures var after := s[IndexOf(s, '(') + 1..]; f <= after && (|f| < |after| ==> after[|f|] in {'(', ')'})
  {
    BeforeAny(s[IndexOf(s, '(') + 1..], {'(', ')'})
  }

  /**
   * What `getSortingProperties` returns or throws. No string `sort_by` gives
   * the default; a string without `(` makes the source call `split` on
   * undefined; otherwise an unknown field or a direction other than `asc` or
   * `desc` is the 400 error, and a valid pair is a one-entry sort document.
   */
  function SortSpec(query: Query): (r: Result<SortDoc, JsError>)
    ensures TypeOf(Get(query, "sort_by")) != "string" ==> r == Success(DefaultSort)
    ensures TypeOf(Get(query, "sort_by")) == "string" ==>
      var s := Get(query, "sort_by").value.s;
      && ('(' !in s ==> r == Failure(SplitOfUndefined))
      && ('(' in s ==>
            && (r.Success? <==> ConvertToMovieKey(SortAlias(s)).Some?
                                && (SortDirection(s) == "asc" || SortDirection(s) == "desc"))
            && (r.Failure? ==> r.error == InvalidField)
            && (r.Success? ==>
                  r.value == map[ConvertToMovieKey(SortAlias(s)).value := if SortDirection(s) == "asc" then 1 else -1]))
  {
    match Get(query, "sort_by")
    case Some(Str(s)) =>
      if '(' !in s then Failure(SplitOfUndefined)
      else
        (match ConvertToMovieKey(SortAlias(s))
         case None => Failure(InvalidField)
         case Some(field) =>
           var direction := SortDirection(s);
           if direction == "asc" then Success(map[field := 1])
           else if direction == "desc" then Success(map[field := -1])
           else Failure(InvalidField))
    case _ => Success(DefaultSort)
  }

  /** Every sort, the default included, is on one canonical movie field, ascending or descending. */
  lemma SortIsOneCanonicalField(query: Query)
    requires SortSpec(query).Success?
    ensures var sort := SortSpec(query).value;
      |sort| == 1 && forall f :: f in sort ==> AliasOf(f).Some? && (sort[f] == 1 || sort[f] == -1)
  {
    if TypeOf(Get(query, "sort_by")) == "string" {
      var s := Get(query, "sort_by").value.s;
      var field := ConvertToMovieKey(SortAlias(s)).value;
      AliasRoundTrip(SortAlias(s));
      assert AliasOf(field).Some?;
    } else {
      assert AliasOf("averageRating").Some?;
    }
  }

  /** The pieces `split("(")[0]` and `split("(")[1].split(")")[0]` are the direction and the alias. */
  lemma SortPieces(s: string)
    requires '(' in s
    ensures |Split(s, '(')| >= 2
    ensures Split(s, '(')[0] == SortDirection(s)
    ensures Split(Split(s, '(')[1], ')')[0] == SortAlias(s)
  {
    var rest := s[IndexOf(s, '(') + 1..];
    SplitAtFirst(s, '(');
    var pieces := Split(s, '(');
    assert pieces[0] == SortDirection(s);
    assert pieces[1] == Split(rest, '(')[0];
    SplitFirstPiece(rest, '(');
    SplitFirstPiece(pieces[1], ')');
    BeforeAnyTwice(rest, '(', ')');
  }

  /**
   * `getSortingProperties`: start from the default, and for a string
   * `sort_by` split it at `(` and `)`, check the field and then the
   * direction, and replace the default by a fresh one-entry document.
   */
  method GetSortingProperties(query: Query) returns (r: Result<SortDoc, JsError>)
    ensures r == SortSpec(query)
  {
    var sort: SortDoc := map["averageRating" := -1];
    var sortBy := Get(query, "sort_by");
    if TypeOf(sortBy) == "string" {
      var s := sortBy.value.s;
      var pieces := Split(s, '(');
      SplitHasSecondPiece(s, '(');
      if |pieces| < 2 {
        return Failure(SplitOfUndefined);
      }
      SortPieces(s);
      var field := ConvertToMovieKey(Split(pieces[1], ')')[0]);
      var direction := pieces[0];
      if field.None? {
        return Failure(InvalidField);
      }
      if direction != "asc" && direction != "desc" {
        return Failure(InvalidField);
      }
      var order := if direction == "asc" then 1 else -1;
      sort := map[];
      sort := sort[field.value := order];
    }
    return Success(sort);
  }

  datatype Direction = Asc | Desc

  function DirectionName(d: Direction): string
  {
    match d
    case Asc => "asc"
    case Desc => "desc"
  }

  function Order(d: Direction): int
  {
    match d
    case Asc => 1
    case Desc => -1
  }

  /** The `sort_by` value D(F) a client writes to sort by an alias. */
  function SortParam(d: Direction, alias: string): string
  {
    DirectionName(d) + "(" + alias + ")"
  }

  /** Reading D and F back out of a value written as D(F) followed by any tail. */
  lemma {:induction false} SortParamParts(name: string, alias: string, tail: string)
    requires forall i :: 0 <= i < |name| ==> name[i] != '('
    requires forall i :: 0 <= i < |alias| ==> alias[i] != '(' && alias[i] != ')'
    ensures var s := name + "(" + alias + ")" + tail;
      '(' in s && SortDirection(s) == name && SortAlias(s) == alias
  {
    var rest := alias + (")" + tail);
    SortParamRegrouped(name, alias, tail);
    BeforeAnyOfConcat(name, "(" + rest, {'('});
    IndexOfConcat(name, "(" + rest, '(');
    BeforeAnyOfConcat(alias, ")" + tail, {'(', ')'});
  }

  /** Proof step: the same `sort_by` text regrouped, and the part after its `(`. */
  lemma SortParamRegrouped(name: string, alias: string, tail: string)
    ensures var s := name + "(" + alias + ")" + tail;
      && s == name + ("(" + (alias + (")" + tail)))
      && s[|name| + 1..] == alias + (")" + tail)
  {
    var s := name + "(" + alias + ")" + tail;
    assert s == name + ("(" + (alias + (")" + tail)));
  }

  /**
   * Parsing inverts writing: `sort_by` = D(alias) followed by anything at all
   * sorts by the alias's field in direction D; the text after `)` is ignored.
   */
  lemma SortParamRoundTrip(query: Query, d: Direction, field: string, tail: string)
    requires AliasOf(field).Some?
    requires Get(query, "sort_by") == Some(Str(SortParam(d, AliasOf(field).value) + tail))
    ensures SortSpec(query) == Success(map[field := Order(d)])
  {
    var alias := AliasOf(field).value;
    var s := SortParam(d, alias) + tail;
    assert s == DirectionName(d) + "(" + alias + ")" + tail;
    NoParentheses(field);
    SortParamParts(DirectionName(d), alias, tail);
    FieldRoundTrip(field);
    assert ConvertToMovieKey(SortAlias(s)) == Some(field);
    assert SortDirection(s) == DirectionName(d);
    SortOfPieces(query, field, d);
  }

  /** Proof step: a `sort_by` whose alias names `field` and whose direction is `d` sorts by them. */
  lemma SortOfPieces(query: Query, field: string, d: Direction)
    requires TypeOf(Get(query, "sort_by")) == "string" && '(' in Get(query, "sort_by").value.s
    requires ConvertToMovieKey(SortAlias(Get(query, "sort_by").value.s)) == Some(field)
    requires SortDirection(Get(query, "sort_by").value.s) == DirectionName(d)
    ensures SortSpec(query) == Success(map[field := Order(d)])
  {
    match d
    case Asc =>
    case Desc => assert DirectionName(d) != "asc";
  }

  /** Proof step: no alias holds a parenthesis. */
  lemma NoParentheses(field: string)
    requires AliasOf(field).Some?
    ensures forall i :: 0 <= i < |AliasOf(field).value| ==>
      AliasOf(field).value[i] != '(' && AliasOf(field).value[i] != ')'
  {
  }

  /** The spelling of the unit tests' `sort_by` values. */
  lemma SortParamLiterals()
    ensures "desc(rating)" == SortParam(Desc, "rating") + ""
    ensures "asc(runtime)" == SortParam(Asc, "runtime") + ""
    ensures "invalidDirection(runtime)" == "invalidDirection" + "(" + "runtime" + ")" + ""
    ensures "asc(invalidKey)" == "asc" + "(" + "invalidKey" + ")" + ""
  {
  }

  /** Unit test: `desc(rating)` sorts by rating, descending. */
  lemma SortDescRatingExample()
    ensures SortSpec([("sort_by", Str("desc(rating)"))]) == Success(map["averageRating" := -1])
  {
    SortParamLiterals();
    GetSingle("sort_by", Str("desc(rating)"));
    SortParamRoundTrip([("sort_by", Str("desc(rating)"))], Desc, "averageRating", "");
  }

  /** Unit test: `asc(runtime)` sorts by runtime, ascending. */
  lemma SortAscRuntimeExample()
    ensures SortSpec([("sort_by", Str("asc(runtime)"))]) == Success(map["runtimeMinutes" := 1])
  {
    SortParamLiterals();
    GetSingle("sort_by", Str("asc(runtime)"));
    SortParamRoundTrip([("sort_by", Str("asc(runtime)"))], Asc, "runtimeMinutes", "");
  }

  /** Unit test: an unknown direction is the 400 error. */
  lemma SortInvalidDirectionExample()
    ensures SortSpec([("sort_by", Str("invalidDirection(runtime)"))]) == Failure(InvalidField)
  {
    SortParamLiterals();
    GetSingle("sort_by", Str("invalidDirection(runtime)"));
    SortParamParts("invalidDirection", "runtime", "");
  }

  /** Unit test: an unknown field is the 400 error. */
  lemma SortInvalidKeyExample()
    ensures SortSpec([("sort_by", Str("asc(invalidKey)"))]) == Failure(InvalidField)
  {
    SortParamLiterals();
    GetSingle("sort_by", Str("asc(invalidKey)"));
    SortParamParts("asc", "invalidKey", "");
    MovieKeyExamples();
  }

  /** With no `)` after it, the alias runs to the end of the text: D(F with nothing closing it. */
  lemma UnclosedSortParamParts(name: string, alias: string)
    requires forall i :: 0 <= i < |name| ==> name[i] != '('
    requires forall i :: 0 <= i < |alias| ==> alias[i] != '(' && alias[i] != ')'
    ensures var s := name + "(" + alias;
      '(' in s && SortDirection(s) == name && SortAlias(s) == alias
  {
    UnclosedRegrouped(name, alias);
    BeforeAnyOfConcat(name, "(" + alias, {'('});
    IndexOfConcat(name, "(" + alias, '(');
  }

  /** Proof step: an unclosed `sort_by` text regrouped, and the part after its `(`. */
  lemma UnclosedRegrouped(name: string, alias: string)
    ensures var s := name + "(" + alias;
      s == name + ("(" + alias) && s[|name| + 1..] == alias
  {
    var s := name + "(" + alias;
    assert s == name + ("(" + alias);
  }

  /** Proof step: the spelling of `asc(rating`. */
  lemma UnclosedLiteral()
    ensures "asc(rating" == "asc" + "(" + "rating"
  {
  }

  /** `asc(rating`, with no `)`, still sorts by rating, ascending. */
  lemma UnclosedAliasExample()
    ensures SortSpec([("sort_by", Str("asc(rating"))]) == Success(map["averageRating" := 1])
  {
    GetSingle("sort_by", Str("asc(rating"));
    UnclosedLiteral();
    UnclosedSortParamParts("asc", "rating");
  }

  /** A `sort_by` without `(` is not the 400 error but a TypeError. */
  lemma SortWithoutParenthesisExample()
    ensures SortSpec([("sort_by", Str("asc"))]) == Failure(SplitOfUndefined)
    ensures SplitOfUndefined != InvalidField
  {
    assert forall i :: 0 <= i < |"asc"| ==> "asc"[i] != '(';
  }

  /** The default sort is what `sort_by=desc(rating)` asks for: top rated first. */
  lemma DefaultSortIsDescendingRating()
    ensures SortSpec([]) == SortSpec([("sort_by", Str("desc(rating)"))])
    ensures DefaultSort == map[ConvertToMovieKey("rating").value := Order(Desc)]
  {
    SortDescRatingExample();
    MovieKeyExamples();
  }

  /**
   * The empty query sorts by top rating. The unit test for this case expects
   * the commented-out trending default instead, so that test would fail.
   */
  lemma EmptyQuerySortExample()
    ensures SortSpec([]) == Success(DefaultSort)
    ensures DefaultSort != TrendingSort
  {
    assert "averageRating" in DefaultSort && "averageRating" !in TrendingSort;
  }

  // ---------------------------------------------------------------------
  // Pagination
  // ---------------------------------------------------------------------

  datatype Pagination = Pagination(page: Number, limit: Number)

  /** One pagination field: `parseInt` of the query value if it is a string, else the default. */
  function PaginationField(query: Query, key: string, default: int): (n: Number)
    ensures TypeOf(Get(query, key)) != "string" ==> n == Int(default)
    ensures TypeOf(Get(query, key)) == "string" ==> n == ParseInt(Get(query, key).value.s)
  {
    match Get(query, key)
    case Some(Str(s)) => ParseInt(s)
    case _ => Int(default)
  }

  /** What `getPaginationProperties` returns: page defaults to 1, limit to 10. */
  function PaginationSpec(query: Query): (p: Pagination)
    ensures TypeOf(Get(query, "page")) != "string" ==> p.page == Int(1)
    ensures TypeOf(Get(query, "page")) == "string" ==> p.page == ParseInt(Get(query, "page").value.s)
    ensures TypeOf(Get(query, "limit")) != "string" ==> p.limit == Int(10)
    ensures TypeOf(Get(query, "limit")) == "string" ==> p.limit == ParseInt(Get(query, "limit").value.s)
  {
    Pagination(PaginationField(query, "page", 1), PaginationField(query, "limit", 10))
  }

  /**
   * `getPaginationProperties`: start from `{page: 1, limit: 10}` and overwrite
   * each field that the query gives as a string, with no bounds check.
   */
  method GetPaginationProperties(query: Query) returns (props: Pagination)
    ensures props == PaginationSpec(query)
  {
    props := Pagination(Int(1), Int(10));
    var page := Get(query, "page");
    if TypeOf(page) == "string" {
      props := props.(page := ParseInt(page.value.s));
    }
    var limit := Get(query, "limit");
    if TypeOf(limit) == "string" {
      props := props.(limit := ParseInt(limit.value.s));
    }
  }

  /** Each field is read from its own key only. */
  lemma PaginationFieldsIndependent(q1: Query, q2: Query)
    ensures Get(q1, "page") == Get(q2, "page") ==> PaginationSpec(q1).page == PaginationSpec(q2).page
    ensures Get(q1, "limit") == Get(q2, "limit") ==> PaginationSpec(q1).limit == PaginationSpec(q2).limit
  {
  }

  /** Pagination read back: numerals written for a page and a limit give those numbers. */
  lemma PaginationRoundTrip(query: Query, page: nat, limit: nat)
    requires Get(query, "page") == Some(Str(ToDecimal(page)))
    requires Get(query, "limit") == Some(Str(ToDecimal(limit)))
    ensures PaginationSpec(query) == Pagination(Int(page), Int(limit))
  {
    ParseNumeral(page, ToDecimal(page));
    ParseNumeral(limit, ToDecimal(limit));
    assert PaginationField(query, "page", 1) == Int(page);
    assert PaginationField(query, "limit", 10) == Int(limit);
  }

  /** A negative page, written with a minus sign, is read back unchanged. */
  lemma NegativePageRoundTrip(query: Query, n: nat)
    requires Get(query, "page") == Some(Str("-" + ToDecimal(n)))
    ensures PaginationSpec(query).page == Int(-(n as int))
  {
    assert ToDecimal(n) + "" == ToDecimal(n);
    NegativeDecimalRoundTrip(n, "");
  }

  /** No validation: a non-numeric page is NaN. */
  lemma NonNumericPageExample(query: Query)
    requires Get(query, "page") == Some(Str("abc"))
    ensures PaginationSpec(query).page == NaN
  {
    NoDigitsExample();
  }

  /** No validation: a negative limit passes through. */
  lemma NegativeLimitExample(query: Query)
    requires Get(query, "limit") == Some(Str("-5"))
    ensures PaginationSpec(query).limit == Int(-5)
  {
    NegativeNumeralExample();
  }

  /** The empty query gets the defaults. */
  lemma PaginationDefaults()
    ensures PaginationSpec([]) == Pagination(Int(1), Int(10))
  {
  }

  // ---------------------------------------------------------------------
  // Filter document
  // ---------------------------------------------------------------------

  /** `parseFloat(text)`, left unevaluated. */
  datatype Operand = Null | IntOperand(n: Number) | FloatOperand(text: string)

  /** The value of one key of a MongoDB filter document. */
  datatype Clause =
    | Compare(operator: string, bound: int)   // { $lte: 2023 }, { $gt: 50000 }
    | Pattern(source: string)                 // { $regex: /.../ }
    | AnyOf(values: seq<string>)              // { $in: [...] }
    | TextSearch(search: string)              // { $search: "..." }, under $text
    | Rule(criteria: map<string, Operand>)    // what convertToMongoFilterRule returns

  type Filter = map<string, Clause>

  /** The source of the regular expression that admits only ASCII titles. */
  const AsciiOnly: string := "^[\\x00-\\x7F]*$"

  /** The clauses every movie query carries. */
  const BaselineFilter: Filter := map[
    "startYear" := Compare("$lte", 2023),
    "primaryTitle" := Pattern(AsciiOnly),
    "originalTitle" := Pattern(AsciiOnly),
    "numVotes" := Compare("$gt", 50000)]

  /** `f` holds every baseline clause unchanged. */
  predicate HasBaseline(f: Filter)
  {
    forall k :: k in BaselineFilter ==> k in f && f[k] == BaselineFilter[k]
  }

  /** A filter that keeps the baseline has all four baseline keys, each with its clause. */
  lemma BaselineKept(f: Filter)
    requires HasBaseline(f)
    ensures BaselineKeys() <= f.Keys
    ensures f["startYear"] == Compare("$lte", 2023) && f["numVotes"] == Compare("$gt", 50000)
    ensures f["primaryTitle"] == Pattern(AsciiOnly) && f["originalTitle"] == Pattern(AsciiOnly)
  {
    BaselineClauses();
  }

  /** The four baseline keys. */
  function BaselineKeys(): set<string>
  {
    {"startYear", "primaryTitle", "originalTitle", "numVotes"}
  }

  /**
   * The baseline filter is four clauses: released by 2023, an ASCII primary
   * and original title, and more than 50000 votes.
   */
  lemma BaselineClauses()
    ensures BaselineFilter.Keys == BaselineKeys()
    ensures BaselineFilter["startYear"] == Compare("$lte", 2023)
    ensures BaselineFilter["numVotes"] == Compare("$gt", 50000)
    ensures BaselineFilter["primaryTitle"] == Pattern(AsciiOnly)
    ensures BaselineFilter["originalTitle"] == Pattern(AsciiOnly)
  {
  }

  /** The genre and text keys are not baseline keys, and differ from each other. */
  lemma ExtraFilterKeys()
    ensures "genres" !in BaselineFilter && "$text" !in BaselineFilter && "genres" != "$text"
  {
  }

  /** The exact-phrase search for a title: each `+` read as a space, the whole in double quotes. */
  function PhraseSearch(title: string): (r: string)
    ensures |r| == |title| + 2 && r[0] == '"' && r[|r| - 1] == '"'
    ensures forall i :: 0 <= i < |title| ==> r[i + 1] == (if title[i] == '+' then ' ' else title[i])
  {
    "\"" + ReplaceChar(title, '+', ' ') + "\""
  }

  /**
   * What `convertToFilter` returns: the baseline, a genre clause exactly when
   * `genre` is a string, and a phrase search exactly when `title` is a
   * nonempty string; nothing else.
   */
  function FilterSpec(query: Query): (f: Filter)
    ensures HasBaseline(f)
    ensures forall k :: k in f ==> k in BaselineFilter || k == "genres" || k == "$text"
    ensures "genres" in f <==> TypeOf(Get(query, "genre")) == "string"
    ensures "$text" in f <==> TypeOf(Get(query, "title")) == "string" && Get(query, "title").value.s != ""
    ensures "genres" in f ==> f["genres"] == AnyOf([Get(query, "genre").value.s])
    ensures "$text" in f ==> f["$text"] == TextSearch(PhraseSearch(Get(query, "title").value.s))
  {
    ExtraFilterKeys();
    var withGenre :=
      match Get(query, "genre")
      case Some(Str(g)) => BaselineFilter["genres" := AnyOf([g])]
      case _ => BaselineFilter;
    match Get(query, "title")
    case Some(Str(t)) => if t != "" then withGenre["$text" := TextSearch(PhraseSearch(t))] else withGenre
    case _ => withGenre
  }

  /**
   * `convertToFilter`: the four baseline clauses, then `genres` and `$text`
   * set on the same object when the query calls for them.
   */
  method ConvertToFilter(query: Query) returns (filter: Filter)
    ensures filter == FilterSpec(query)
  {
    filter := map[
      "startYear" := Compare("$lte", 2023),
      "primaryTitle" := Pattern(AsciiOnly),
      "originalTitle" := Pattern(AsciiOnly),
      "numVotes" := Compare("$gt", 50000)];
    var genre := Get(query, "genre");
    if TypeOf(genre) == "string" {
      filter := filter["genres" := AnyOf([genre.value.s])];
    }
    var title := Get(query, "title");
    if TypeOf(title) == "string" && title.value.s != "" {
      JoinSplitIsReplace(title.value.s, '+', ' ');
      filter := filter["$text" := TextSearch("\"" + Join(Split(title.value.s, '+'), " ") + "\"")];
    }
  }

  /** Two words joined by `+` in the query become the quoted phrase of the two words. */
  lemma PhraseOfTwoWords(a: string, b: string)
    requires '+' !in a && '+' !in b
    ensures PhraseSearch(a + "+" + b) == "\"" + a + " " + b + "\""
  {
    var t := a + "+" + b;
    var r := PhraseSearch(t);
    var e := "\"" + a + " " + b + "\"";
    assert |r| == |e|;
    forall i | 0 <= i < |r|
      ensures r[i] == e[i]
    {
      if i == 0 || i == |r| - 1 {
      } else if i <= |a| {
        assert t[i - 1] == a[i - 1] && e[i] == a[i - 1];
      } else if i == |a| + 1 {
        assert t[i - 1] == '+' && e[i] == ' ';
      } else {
        assert t[i - 1] == b[i - |a| - 2] && e[i] == b[i - |a| - 2];
      }
    }
  }

  /** `The+Matrix` is two words around one `+`. */
  lemma TheMatrixWords()
    ensures "The+Matrix" == "The" + "+" + "Matrix"
    ensures '+' !in "The" && '+' !in "Matrix"
  {
  }

  /** Proof step: the spelling of the quoted phrase `"The Matrix"`. */
  lemma TheMatrixPhrase()
    ensures "\"" + "The" + " " + "Matrix" + "\"" == "\"The Matrix\""
  {
  }

  /**
   * A parsed title `The+Matrix` (sent as `title=The%2BMatrix`; a bare `+` in
   * the URL already decodes to a space) searches for the phrase `"The Matrix"`.
   */
  lemma PhraseSearchExample()
    ensures PhraseSearch("The+Matrix") == "\"The Matrix\""
  {
    TheMatrixWords();
    PhraseOfTwoWords("The", "Matrix");
    TheMatrixPhrase();
  }

  // ---------------------------------------------------------------------
  // Comparison rules for runtime and rating
  // ---------------------------------------------------------------------

  datatype Operator = Eq | Gt | Gte | Lt | Lte | Ne

  /** The query-string spelling of an operator: `runtime[gt]=90`. */
  function OperatorName(op: Operator): (name: string)
    ensures name in {"eq", "gt", "gte", "lt", "lte", "ne"}
    ensures op == Gte || op == Lte <==> name in {"gte", "lte"}
  {
    match op
    case Eq => "eq"
    case Gt => "gt"
    case Gte => "gte"
    case Lt => "lt"
    case Lte => "lte"
    case Ne => "ne"
  }

  /** The operator a query-string key names, if any. */
  function ParseOperator(name: string): (op: Option<Operator>)
    ensures op.Some? ==> OperatorName(op.value) == name
    ensures forall o :: OperatorName(o) == name ==> op == Some(o)
  {
    match name
    case "eq" => Some(Eq)
    case "gt" => Some(Gt)
    case "gte" => Some(Gte)
    case "lt" => Some(Lt)
    case "lte" => Some(Lte)
    case "ne" => Some(Ne)
    case _ => None
  }

  /** The MongoDB spelling of an operator: `$gt`. */
  function OperatorKey(op: Operator): (key: string)
    ensures key == "$" + OperatorName(op)
  {
    match op
    case Eq => "$eq"
    case Gt => "$gt"
    case Gte => "$gte"
    case Lt => "$lt"
    case Lte => "$lte"
    case Ne => "$ne"
  }

  /** `gte` and `lte` read their operand with `parseInt`; the rest with `parseFloat`. */
  predicate ReadsInteger(op: Operator)
    ensures ReadsInteger(op) <==> OperatorName(op) in {"gte", "lte"}
  {
    op == Gte || op == Lte
  }

  /** The query-string and MongoDB spellings of each operator. */
  lemma OperatorSpellings()
    ensures ParseOperator("eq") == Some(Eq) && OperatorName(Eq) == "eq" && OperatorKey(Eq) == "$eq"
    ensures ParseOperator("gt") == Some(Gt) && OperatorName(Gt) == "gt" && OperatorKey(Gt) == "$gt"
    ensures ParseOperator("gte") == Some(Gte) && OperatorName(Gte) == "gte" && OperatorKey(Gte) == "$gte"
    ensures ParseOperator("lt") == Some(Lt) && OperatorName(Lt) == "lt" && OperatorKey(Lt) == "$lt"
    ensures ParseOperator("lte") == Some(Lte) && OperatorName(Lte) == "lte" && OperatorKey(Lte) == "$lte"
    ensures ParseOperator("ne") == Some(Ne) && OperatorName(Ne) == "ne" && OperatorKey(Ne) == "$ne"
  {
  }

  /** The operator named by the first key of the criteria object, if any. */
  function FirstOperator(criteria: QVal): (op: Option<Operator>)
    ensures op.Some? ==> FirstKey(criteria) == Some(OperatorName(op.value))
    ensures op.None? ==> FirstKey(criteria).None? || forall o :: OperatorName(o) != FirstKey(criteria).value
    ensures !criteria.Obj? ==> op.None?
  {
    match FirstKey(criteria)
    case Some(k) => ParseOperator(k)
    case None => None
  }

  /** `v ? parseFloat(v) : null`. */
  function FloatOrNull(v: Option<QVal>): (o: Operand)
    ensures o.Null? <==> !Truthy(v)
    ensures !o.Null? ==> o == FloatOperand(ToJsString(v.value))
  {
    if Truthy(v) then FloatOperand(ToJsString(v.value)) else Null
  }

  /** `v ? parseInt(v) : null`. */
  function IntOrNull(v: Option<QVal>): (o: Operand)
    ensures o.Null? <==> !Truthy(v)
    ensures !o.Null? ==> o == IntOperand(ParseInt(ToJsString(v.value)))
  {
    if Truthy(v) then IntOperand(ParseInt(ToJsString(v.value))) else Null
  }

  /** An operand given as `runtime[gte][]=90` is an array, and `parseInt(String(["90"]))` is 90. */
  lemma ArrayOperandExample()
    ensures IntOrNull(Some(Arr([Str("90")]))) == IntOperand(Int(90))
  {
    TwoDigitExample();
  }

  /**
   * `convertToMongoFilterRule`: only the first key is looked at. An operator
   * there gives a one-entry rule `$op` whose operand is the value parsed by
   * the operator's parser, or null when the value is falsy; any other first
   * key, or none, gives the empty rule.
   */
  function ConvertToMongoFilterRule(criteria: QVal): (rule: map<string, Operand>)
    ensures |rule| <= 1
    ensures FirstOperator(criteria).None? ==> rule == map[]
  {
    OperatorSpellings();
    var key := FirstKey(criteria);
    if key == Some("eq") then map["$eq" := FloatOrNull(Property(criteria, "eq"))]
    else if key == Some("gt") then map["$gt" := FloatOrNull(Property(criteria, "gt"))]
    else if key == Some("gte") then map["$gte" := IntOrNull(Property(criteria, "gte"))]
    else if key == Some("lt") then map["$lt" := FloatOrNull(Property(criteria, "lt"))]
    else if key == Some("lte") then map["$lte" := IntOrNull(Property(criteria, "lte"))]
    else if key == Some("ne") then map["$ne" := FloatOrNull(Property(criteria, "ne"))]
    else map[]
  }

  /**
   * The rule of a criteria object whose first key names an operator: one
   * entry, under the operator's MongoDB key, holding the operand read by
   * the operator's parser.
   */
  lemma RuleOfFirstOperator(criteria: QVal)
    requires FirstOperator(criteria).Some?
    ensures var op := FirstOperator(criteria).value;
      var operand := Property(criteria, OperatorName(op));
      ConvertToMongoFilterRule(criteria) ==
        map[OperatorKey(op) := if ReadsInteger(op) then IntOrNull(operand) else FloatOrNull(operand)]
  {
    var op := FirstOperator(criteria).value;
    var key := FirstKey(criteria);
    OperatorSpellings();
    match op
    case Eq => assert key == Some("eq");
    case Gt => assert key == Some("gt");
    case Gte => assert key == Some("gte");
    case Lt => assert key == Some("lt");
    case Lte => assert key == Some("lte");
    case Ne => assert key == Some("ne");
  }

  /** Later keys are ignored: only the first decides the rule. */
  lemma OnlyFirstKeyCounts(key: string, v: QVal, rest1: seq<(string, QVal)>, rest2: seq<(string, QVal)>)
    ensures ConvertToMongoFilterRule(Obj([(key, v)] + rest1)) == ConvertToMongoFilterRule(Obj([(key, v)] + rest2))
  {
  }

  /** `{gt: "90"}` compares with parseFloat("90"). */
  lemma FloatRuleExample()
    ensures ConvertToMongoFilterRule(Obj([("gt", Str("90"))])) == map["$gt" := FloatOperand("90")]
  {
    GetSingle("gt", Str("90"));
  }

  /** A criteria object with one key, an operator: the rule is that operator applied to the value. */
  lemma SingleOperatorRule(op: Operator, v: QVal)
    ensures ConvertToMongoFilterRule(Obj([(OperatorName(op), v)])) ==
      map[OperatorKey(op) := if ReadsInteger(op) then IntOrNull(Some(v)) else FloatOrNull(Some(v))]
  {
    GetSingle(OperatorName(op), v);
    var criteria := Obj([(OperatorName(op), v)]);
    assert FirstOperator(criteria) == Some(op);
    assert Property(criteria, OperatorName(op)) == Some(v);
    RuleOfFirstOperator(criteria);
  }

  /** `{gte: "90"}` compares with the integer 90. */
  lemma IntRuleExample()
    ensures ConvertToMongoFilterRule(Obj([("gte", Str("90"))])) == map["$gte" := IntOperand(Int(90))]
  {
    OperatorSpellings();
    SingleOperatorRule(Gte, Str("90"));
    TwoDigitExample();
  }

  /** `{eq: ""}` compares with null. */
  lemma NullRuleExample()
    ensures ConvertToMongoFilterRule(Obj([("eq", Str(""))])) == map["$eq" := Null]
  {
    GetSingle("eq", Str(""));
  }

  /** An unknown operator gives the empty rule. */
  lemma UnknownOperatorExample()
    ensures ConvertToMongoFilterRule(Obj([("between", Str("90"))])) == map[]
  {
  }

  // ---------------------------------------------------------------------
  // Runtime and rating filter
  // ---------------------------------------------------------------------

  /**
   * What `getFilterByRuntimeAndRating` returns: `runtimeMinutes` exactly when
   * `runtime` is an object, `averageRating` exactly when `rating` is, each
   * the rule its criteria translate to, and no other key.
   */
  function RuntimeRatingSpec(query: Query): (f: Filter)
    ensures forall k :: k in f ==> k == "runtimeMinutes" || k == "averageRating"
    ensures "runtimeMinutes" in f <==> TypeOf(Get(query, "runtime")) == "object"
    ensures "averageRating" in f <==> TypeOf(Get(query, "rating")) == "object"
    ensures "runtimeMinutes" in f ==> f["runtimeMinutes"] == Rule(ConvertToMongoFilterRule(Get(query, "runtime").value))
    ensures "averageRating" in f ==> f["averageRating"] == Rule(ConvertToMongoFilterRule(Get(query, "rating").value))
  {
    var runtime := Get(query, "runtime");
    var rating := Get(query, "rating");
    var withRuntime :=
      if runtime.Some? && !runtime.value.Str? then map["runtimeMinutes" := Rule(ConvertToMongoFilterRule(runtime.value))]
      else map[];
    if rating.Some? && !rating.value.Str? then withRuntime["averageRating" := Rule(ConvertToMongoFilterRule(rating.value))]
    else withRuntime
  }

  /** The keys the runtime and rating rules go under are not keys of the main filter. */
  lemma RuleKeysOutsideMainFilter(query: Query)
    ensures "runtimeMinutes" !in FilterSpec(query) && "averageRating" !in FilterSpec(query)
  {
    BaselineClauses();
  }

  /**
   * `getFilterByRuntimeAndRating`: an empty object that gets `runtimeMinutes`
   * and `averageRating` set when the query gives them as objects.
   */
  method GetFilterByRuntimeAndRating(query: Query) returns (filter: Filter)
    ensures filter == RuntimeRatingSpec(query)
  {
    filter := map[];
    var runtime := Get(query, "runtime");
    if TypeOf(runtime) == "object" {
      var runtimeCriteria := ConvertToMongoFilterRule(runtime.value);
      filter := filter["runtimeMinutes" := Rule(runtimeCriteria)];
    }
    var rating := Get(query, "rating");
    if TypeOf(rating) == "object" {
      var ratingCriteria := ConvertToMongoFilterRule(rating.value);
      filter := filter["averageRating" := Rule(ratingCriteria)];
    }
  }

  /** An array counts as an object; its first key is "0", so its rule is empty. */
  lemma ArrayCriteriaGiveEmptyRule(query: Query, items: seq<QVal>)
    requires Get(query, "runtime") == Some(Arr(items))
    ensures RuntimeRatingSpec(query)["runtimeMinutes"] == Rule(map[])
  {
  }
}
