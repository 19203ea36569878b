# IMDb-backend query translator in Dafny

This project models the query translator of the IMDb-backend movie API. The
translator turns the parsed query string of `GET /movies` into three inputs
for MongoDB:

- a **sort document**, read from `sort_by=D(F)` (direction and field alias);
- the **pagination** numbers, read from `page` and `limit` with `parseInt`;
- a **filter document**:
  - four baseline clauses that are always present;
  - a genre clause;
  - a quoted exact-phrase text search built from `title`;
  - comparison rules for `runtime[op]` and `rating[op]`.

The model also covers the handler's own derivations: the merge of the two
filters, the skip count and the page links. It covers the 404 fallback and
the defaults of the error-handling middleware too.

Modules:

- `Wrappers`: `Option` and `Result`.
- `JsStrings`: JavaScript's `split` and `join` with a one-character separator, and the prefix and search helpers that specify them.
- `JsNumbers`: the JavaScript number values the translator produces, `NaN` or an integer.
  - `parseInt` without a radix follows section 19.2.5 of ECMA-262: leading white space, an optional sign, a `0x`/`0X` prefix for hexadecimal, then the longest digit prefix, and `NaN` when there are no digits.
  - A decimal printer serves to state round trips.
- `QueryString`: the parsed query object.
  - A value is a string, an object or an array.
  - An object keeps its pairs in `Object.keys` order, because `convertToMongoFilterRule` looks only at the first key.
  - It also models `typeof`, truthiness, `String(v)`, `Object.keys(v)[0]` and property access.
- `MovieDataUtils`: the six functions of `src/utils/movieDataUtils.ts`.
  - `convertToMovieKey` and `convertToMongoFilterRule` are functions.
  - The four functions that build a local object field by field are methods that do the same. Each method is proved equal to a declarative specification function (`SortSpec`, `PaginationSpec`, `FilterSpec`, `RuntimeRatingSpec`). The properties are proved about those functions.
  - A thrown `ExpressError` or a crash is the `Failure` side of a `Result`.
- `Server`: the `/movies` handler as a plan: the filter, sort, limit, skip and page links it would hand to the store and echo back. It also holds the 404 route and the error middleware.

`build/utils/movieDataUtils.js` and `build/server.js` are the compiled copies of the two TypeScript files. They have the same branches and constants:

| function | src/utils/movieDataUtils.ts | build/utils/movieDataUtils.js |
|---|---|---|
| convertToMovieKey | 13-26 | 16-29 |
| getSortingProperties | 35-53 | 39-56 |
| getPaginationProperties | 55-64 | 59-68 |
| convertToFilter | 65-94 | 70-86 |
| convertToMongoFilterRule | 96-142 | 88-125 |
| getFilterByRuntimeAndRating | 144-160 | 127-139 |

The handler lines correspond as follows:

| handler step | src/server.ts | build/server.js |
|---|---|---|
| pagination and filters | 77-81 | 61-64 |
| sort and skip | 83-84 | 65-66 |
| page links | 93-101 | 73-80 |
| 404 route | 116-118 | 91-93 |
| error middleware | 122-125 | 97-100 |

Within the `/movies` handler, the only difference between the copies is the
filter merge. The TypeScript spread compiles to
`Object.assign(Object.assign({}, main), extra)`, and
`Server.CompiledMergeAgrees` proves the two equal. Outside the handler, the
copies differ in two ways:

- The compiled server has no `app.use(cors())` (src/server.ts:50).
- The compiled server has no `GET /` route (src/server.ts:67-69), so there a request for `/` falls through to the 404 route (build/server.js:91-93).

Neither difference is part of this model.

Lemmas that only state literal facts or single proof steps for the solver (such as
`SortParamLiterals`, `ExtraFilterKeys`, `NoParentheses`,
`OperatorSpellings`, `DigitIsNotWhiteSpace`, `TheMatrixWords`,
`SmallNumerals`, `SortParamRegrouped`, `UnclosedRegrouped`, `UnclosedLiteral`
`TheMatrixPhrase` and `SortOfPieces`) are helpers and have no row. The constants
`BaselineFilter` and `DefaultSort`, and the predicate `HasBaseline`, are
described by the lemmas `BaselineClauses`, `DefaultSortIsDescendingRating`
and `BaselineKept`.

The code and its unit test disagree on the default sort. The code returns
`{averageRating: -1}` when no `sort_by` string is given
(src/utils/movieDataUtils.ts:36). The test for the empty query expects the
commented-out "trending" sort `{startYear: -1, numVotes: -1}` of line 38
(src/utils/getSortingProperties.test.ts:64-67 and
build/utils/getSortingProperties.test.js:56-59). The model follows the code.
`MovieDataUtils.EmptyQuerySortExample` proves that the two sorts differ, so
the expectation of that test does not hold for this code.

`sort_by` with no `(` is not the 400 error. There, `split("(")[1]` is
undefined and calling `.split` on it throws a `TypeError`. The error
middleware turns that into a 500 carrying the engine's message. The model
keeps it apart as `MovieDataUtils.SplitOfUndefined`.

## Model

| member | source | states |
|---|---|---|
| JsStrings.Split | src/utils/movieDataUtils.ts:40-41 | `split` with a one-character separator always yields at least one piece |
| JsStrings.BeforeAny | src/utils/movieDataUtils.ts:40-41 | the first piece of a split is the longest prefix free of the stop characters, ended by one of them or by the end of the string |
| JsStrings.IndexOf | src/utils/movieDataUtils.ts:40 | the first occurrence of a character that is present: it is there, and not earlier |
| JsStrings.ReplaceChar | src/utils/movieDataUtils.ts:90 | every occurrence of one character is replaced, every other character kept, the length unchanged |
| JsStrings.Join | src/utils/movieDataUtils.ts:90 | `join`: no pieces give the empty string, one piece gives itself, and the result starts with the first piece |
| JsStrings.JoinCons | src/utils/movieDataUtils.ts:90 | `join` of a list with a head is the head, the separator, then the join of the rest |
| JsStrings.JoinPrependFirst | src/utils/movieDataUtils.ts:90 | text put before the first piece comes out before the join |
| JsStrings.JoinSplitIsReplace | src/utils/movieDataUtils.ts:90 | `s.split(c).join(d)` with a one-character `d` is replacing every `c` by `d` |
| JsStrings.SplitJoinRoundTrip | src/utils/movieDataUtils.ts:90 | joining the pieces with the separator gives the original string back |
| JsStrings.SplitWithoutSeparator | src/utils/movieDataUtils.ts:40-41 | a string without the separator splits into itself alone |
| JsStrings.SplitAtFirst | src/utils/movieDataUtils.ts:40-41 | a split is the text before the first separator followed by the split of the rest |
| JsStrings.SplitHasSecondPiece | src/utils/movieDataUtils.ts:40 | `split(c)[1]` exists exactly when `c` occurs in the string |
| JsStrings.SplitFirstPiece | src/utils/movieDataUtils.ts:40-41 | `split(c)[0]` is the text before the first `c` |
| JsStrings.BeforeAnyTwice | src/utils/movieDataUtils.ts:40 | cutting at `(` and then at `)` is cutting at the first of either |
| JsStrings.BeforeAnyOfConcat | src/utils/movieDataUtils.ts:40-41 | the prefix before a stop character lying just after a stop-free part is that part |
| JsStrings.IndexOfConcat | src/utils/movieDataUtils.ts:40 | the first occurrence after a part free of the character is at that part's length |
| JsNumbers.Add | src/server.ts:99 | `page + 1` is an integer exactly when both operands are, and is then their sum; NaN propagates |
| JsNumbers.Sub | src/server.ts:93 | `page - 1` is an integer exactly when both operands are, and is then their difference |
| JsNumbers.Mul | src/server.ts:84 | the product is an integer exactly when both operands are, and is then their product |
| JsNumbers.ParseInt | src/utils/movieDataUtils.ts:58 | `parseInt` without a radix: NaN for text that is empty after its white space, and never negative unless a minus sign follows that white space |
| JsNumbers.ParseSigned | src/utils/movieDataUtils.ts:61 | the sign step: NaN on empty text; a result with no leading `-` is non-negative, one with a leading `-` non-positive |
| JsNumbers.ParseUnsigned | src/utils/movieDataUtils.ts:121 | the radix step: NaN on empty text, otherwise never negative |
| JsNumbers.ParseDigits | src/utils/movieDataUtils.ts:58 | NaN exactly when no digit of the radix starts the text, otherwise a non-negative value |
| JsNumbers.IsStrWhiteSpace | src/utils/movieDataUtils.ts:58 | the white space `parseInt` skips (the WhiteSpace and LineTerminator code points of ECMA-262) holds no digit of any radix and no sign |
| JsNumbers.TrimStart | src/utils/movieDataUtils.ts:58 | `parseInt` first drops the leading white space: the result is a suffix, everything dropped is white space, and the result does not start with white space |
| JsNumbers.DigitValue | src/utils/movieDataUtils.ts:58 | a character's digit value: below 10 exactly for `0`-`9`, below 36 exactly for the ASCII letters and digits, and 36 (a digit in no radix) otherwise |
| JsNumbers.IsDigit | src/utils/movieDataUtils.ts:58 | the digits `parseInt` accepts: `0`-`9` in radix 10, and also `a`-`f` in either case in radix 16 |
| JsNumbers.DigitPrefix | src/utils/movieDataUtils.ts:58 | the longest prefix of digits in the radix: all digits, followed by a non-digit or the end |
| JsNumbers.DigitsValue | src/utils/movieDataUtils.ts:58 | the value of the digit run `parseInt` reads, in its radix; a run of zeros is 0 |
| JsNumbers.LeadingZeroIgnored | src/utils/movieDataUtils.ts:58 | a leading zero does not change the value of a digit run |
| JsNumbers.ToDecimal | src/utils/movieDataUtils.ts:58 | a number's decimal numeral: nonempty, all digits, no leading zero, starting with `0` exactly for 0 |
| JsNumbers.DecimalValue | src/utils/movieDataUtils.ts:58 | the value of a decimal numeral's digits is the number |
| JsNumbers.DigitPrefixOfConcat | src/utils/movieDataUtils.ts:58 | the digit prefix stops where the digits stop, whatever follows a non-digit |
| JsNumbers.TrimStartOfConcat | src/utils/movieDataUtils.ts:58 | a prefix made of white space is trimmed away entirely |
| JsNumbers.ParseIntSkipsWhiteSpace | src/utils/movieDataUtils.ts:58 | white space in front of the text does not change `parseInt` |
| JsNumbers.UnsignedDecimalRoundTrip | src/utils/movieDataUtils.ts:58 | an unsigned numeral followed by a tail that is not a digit (nor `x` after `0`) reads back as the number |
| JsNumbers.DecimalRoundTrip | src/utils/movieDataUtils.ts:58 | `parseInt` of a numeral followed by a non-digit tail is the number; only after the numeral `0` must the tail not start with `x` |
| JsNumbers.NegativeDecimalRoundTrip | src/utils/movieDataUtils.ts:61 | `parseInt` of `-` and a numeral is the negated number: no sign check |
| JsNumbers.MinusSign | src/utils/movieDataUtils.ts:61 | a leading minus sign negates what follows it |
| JsNumbers.NoDigitsExample | src/utils/movieDataUtils.ts:58 | `parseInt("abc")` is NaN |
| JsNumbers.TrailingTextExample | src/utils/movieDataUtils.ts:58 | `parseInt("12px")` is 12: the digits stop at the first non-digit |
| JsNumbers.TrailingXExample | src/utils/movieDataUtils.ts:58 | `parseInt("12x")` is 12: an `x` starts a hexadecimal prefix only after a lone `0` |
| JsNumbers.HexPrefixExample | src/utils/movieDataUtils.ts:121 | `parseInt("0x1A")` is 26: without a radix, a `0x` prefix means hexadecimal |
| JsNumbers.ParseNumeral | src/utils/movieDataUtils.ts:58 | `parseInt` of a number's numeral is the number |
| JsNumbers.NegativeNumeralExample | src/utils/movieDataUtils.ts:61 | `parseInt("-5")` is -5 |
| JsNumbers.TwoDigitExample | src/utils/movieDataUtils.ts:121 | `parseInt("90")` is 90 |
| QueryString.Get | src/utils/movieDataUtils.ts:39 | reading a query key: present exactly when some pair has that key, and then the value of a pair with that key |
| QueryString.Truthy | src/utils/movieDataUtils.ts:109 | undefined is falsy, an object or array is truthy, and a string is truthy exactly when it is nonempty |
| QueryString.ToJsString | src/utils/movieDataUtils.ts:110 | `String(v)`: a string is itself, an object is `[object Object]`, the empty array is the empty string, a one-element array is the string of its element, and a longer array starts with its first element's string |
| QueryString.ArrayStringCons | src/utils/movieDataUtils.ts:121 | the string of an array of two or more elements is the first element's string, a comma, then the string of the rest |
| QueryString.TwoItemArrayExample | src/utils/movieDataUtils.ts:121 | a key given twice with `90` and `100` reads as the string `90,100` |
| QueryString.Property | src/utils/movieDataUtils.ts:109-137 | `criteria[name]`: nothing on a string or an array; on an object, the lookup of that key among its pairs |
| QueryString.TypeOf | src/utils/movieDataUtils.ts:39 | `typeof`: "undefined" for a missing key, "string" for a string, "object" for an object or an array |
| QueryString.FirstKey | src/utils/movieDataUtils.ts:107 | `Object.keys(v)[0]`: an object's first key, none for an empty object; the first key of an array or a string, when there is one, is "0" |
| QueryString.GetSingle | src/utils/getSortingProperties.test.ts:32 | a query with a single key gives that key's value |
| MovieDataUtils.ConvertToMovieKey | src/utils/movieDataUtils.ts:13-26 | title, rating, year and runtime map to primaryTitle, averageRating, startYear and runtimeMinutes; every other key gives null |
| MovieDataUtils.AliasRoundTrip | src/utils/movieDataUtils.ts:14-22 | the alias mapping is injective: the alias of an alias's field is that alias |
| MovieDataUtils.FieldRoundTrip | build/utils/movieDataUtils.js:16-29 | the four canonical fields are exactly the images of the four aliases |
| MovieDataUtils.MovieKeyExamples | src/utils/getSortingProperties.test.ts:6-27 | the unit tests' cases, with `invalidKey` and the capitalised `Title` giving null |
| MovieDataUtils.SortSpec | src/utils/movieDataUtils.ts:35-53 | the default when `sort_by` is not a string; the TypeError when there is no `(`; otherwise success exactly when the alias is known and the direction is asc or desc, any failure is the 400 error, and a success is the one-entry document mapping the alias's field to 1 for asc and -1 for desc |
| MovieDataUtils.SortIsOneCanonicalField | src/utils/movieDataUtils.ts:36-50 | every sort, the default included, has one entry, on a canonical field, valued 1 or -1 |
| MovieDataUtils.SortDirection | src/utils/movieDataUtils.ts:41 | the direction: the longest prefix of `sort_by` without `(`, ended by `(` or by the end |
| MovieDataUtils.SortAlias | src/utils/movieDataUtils.ts:40 | the alias: after the first `(`, the longest text holding neither `(` nor `)`, ended by one of them or by the end |
| MovieDataUtils.SortPieces | src/utils/movieDataUtils.ts:40-41 | `split("(")[0]` is the direction and `split("(")[1].split(")")[0]` is the alias |
| MovieDataUtils.GetSortingProperties | src/utils/movieDataUtils.ts:35-53 | the method that reassigns `sort` returns exactly SortSpec, checking the field before the direction |
| MovieDataUtils.SortParamParts | src/utils/movieDataUtils.ts:40-41 | the direction and the alias read back out of `D(F)` and any tail |
| MovieDataUtils.UnclosedSortParamParts | src/utils/movieDataUtils.ts:40-41 | with no `)`, the alias of `D(F` runs to the end of the text: the direction is D and the alias F |
| MovieDataUtils.UnclosedAliasExample | src/utils/movieDataUtils.ts:40-50 | `asc(rating`, with no `)`, gives `{averageRating: 1}` |
| MovieDataUtils.SortParamRoundTrip | build/utils/movieDataUtils.js:43-53 | writing `D(alias)` and any tail sorts by the alias's field, 1 for asc and -1 for desc; the tail is ignored |
| MovieDataUtils.SortDescRatingExample | src/utils/getSortingProperties.test.ts:30-35 | `desc(rating)` gives `{averageRating: -1}` |
| MovieDataUtils.SortAscRuntimeExample | src/utils/getSortingProperties.test.ts:36-41 | `asc(runtime)` gives `{runtimeMinutes: 1}` |
| MovieDataUtils.SortInvalidDirectionExample | src/utils/getSortingProperties.test.ts:44-53 | `invalidDirection(runtime)` is the 400 error |
| MovieDataUtils.SortInvalidKeyExample | src/utils/getSortingProperties.test.ts:54-61 | `asc(invalidKey)` is the 400 error |
| MovieDataUtils.SortWithoutParenthesisExample | src/utils/movieDataUtils.ts:40 | `asc` without `(` is the TypeError, not the 400 error |
| MovieDataUtils.DefaultSortIsDescendingRating | src/utils/movieDataUtils.ts:36 | the default sort is the rating field descending, the same as `sort_by=desc(rating)` |
| MovieDataUtils.EmptyQuerySortExample | src/utils/getSortingProperties.test.ts:64-67 | the empty query sorts by `{averageRating: -1}`, which is not the trending sort the test expects |
| MovieDataUtils.PaginationSpec | src/utils/movieDataUtils.ts:55-64 | page is 1 and limit 10 unless the query gives them as strings, in which case each is `parseInt` of its string |
| MovieDataUtils.PaginationField | src/utils/movieDataUtils.ts:57-62 | a field is `parseInt` of its query value when that is a string, else its default |
| MovieDataUtils.GetPaginationProperties | src/utils/movieDataUtils.ts:55-64 | the method that overwrites the defaults 1 and 10 field by field returns exactly PaginationSpec |
| MovieDataUtils.PaginationFieldsIndependent | build/utils/movieDataUtils.js:59-68 | the page depends only on `page` and the limit only on `limit` |
| MovieDataUtils.PaginationRoundTrip | src/utils/movieDataUtils.ts:57-62 | numerals for a page and a limit give those numbers |
| MovieDataUtils.NegativePageRoundTrip | src/utils/movieDataUtils.ts:57-59 | a negative page passes through unchanged: no bounds check |
| MovieDataUtils.NonNumericPageExample | src/utils/movieDataUtils.ts:57-59 | page `abc` is NaN: no validation |
| MovieDataUtils.NegativeLimitExample | src/utils/movieDataUtils.ts:60-62 | limit `-5` is -5: no validation |
| MovieDataUtils.PaginationDefaults | src/utils/movieDataUtils.ts:56 | the empty query gets page 1 and limit 10 |
| MovieDataUtils.PhraseSearch | src/utils/movieDataUtils.ts:90 | the search text is the title in double quotes, each `+` read as a space |
| MovieDataUtils.BaselineClauses | src/utils/movieDataUtils.ts:79-84 | the baseline filter is exactly four clauses: `startYear` at most 2023, ASCII-only `primaryTitle` and `originalTitle`, `numVotes` above 50000 |
| MovieDataUtils.BaselineKept | src/utils/movieDataUtils.ts:79-84 | a filter that keeps the baseline (`HasBaseline`) has all four baseline keys, each with its baseline clause |
| MovieDataUtils.FilterSpec | src/utils/movieDataUtils.ts:65-94 | the baseline is always there; `genres` exactly when `genre` is a string, `$text` exactly when `title` is a nonempty string, with their values; no other key |
| MovieDataUtils.ConvertToFilter | src/utils/movieDataUtils.ts:79-93 | the method that adds fields to the baseline object returns exactly FilterSpec |
| MovieDataUtils.PhraseOfTwoWords | src/utils/movieDataUtils.ts:90 | two words joined by `+` become the quoted words with a space between |
| MovieDataUtils.PhraseSearchExample | src/utils/movieDataUtils.ts:88-92 | the parsed title `The+Matrix` (sent as `title=The%2BMatrix`) searches for `"The Matrix"` |
| MovieDataUtils.ArrayOperandExample | src/utils/movieDataUtils.ts:119-122 | an operand given as a one-element array `["90"]` is read by `parseInt` as 90 |
| MovieDataUtils.FirstOperator | src/utils/movieDataUtils.ts:107 | the `switch` subject: an operator exactly when the first key is its spelling; none for an empty object, a first key that is no operator, a string or an array |
| MovieDataUtils.ParseOperator | src/utils/movieDataUtils.ts:107-139 | a key names at most one of the six operators, and names it exactly when it is its spelling |
| MovieDataUtils.OperatorName | src/utils/movieDataUtils.ts:108-134 | each operator's spelling is one of the six `case` labels, and it is `gte` or `lte` exactly for those two operators |
| MovieDataUtils.ReadsInteger | src/utils/movieDataUtils.ts:109-137 | `parseInt` reads the operand exactly for the operators spelled `gte` and `lte`; the other four use `parseFloat` |
| MovieDataUtils.OperatorKey | src/utils/movieDataUtils.ts:109-137 | the MongoDB key of an operator is `$` followed by its name |
| MovieDataUtils.FloatOrNull | src/utils/movieDataUtils.ts:109-111 | `v ? parseFloat(v) : null`: null exactly when the operand is falsy, else the float parse of `String(v)` |
| MovieDataUtils.IntOrNull | src/utils/movieDataUtils.ts:120-122 | `v ? parseInt(v) : null`: null exactly when the operand is falsy, else `parseInt` of `String(v)` |
| MovieDataUtils.ConvertToMongoFilterRule | src/utils/movieDataUtils.ts:96-142 | the rule has at most one key, and none when the first key names no operator |
| MovieDataUtils.RuleOfFirstOperator | src/utils/movieDataUtils.ts:107-138 | when the first key names an operator, the rule is its `$` key holding `parseInt` of the operand for gte and lte, `parseFloat` otherwise, and null when the operand is falsy |
| MovieDataUtils.OnlyFirstKeyCounts | build/utils/movieDataUtils.js:91 | keys after the first do not change the rule |
| MovieDataUtils.FloatRuleExample | src/utils/movieDataUtils.ts:114-118 | `{gt: "90"}` gives `$gt` holding `parseFloat("90")` |
| MovieDataUtils.SingleOperatorRule | build/utils/movieDataUtils.js:88-125 | a one-key criteria object naming an operator gives that operator's rule for its value |
| MovieDataUtils.IntRuleExample | src/utils/movieDataUtils.ts:119-123 | `{gte: "90"}` gives `$gte` holding the integer 90 |
| MovieDataUtils.NullRuleExample | src/utils/movieDataUtils.ts:108-112 | `{eq: ""}` gives `$eq` holding null: the empty string is falsy |
| MovieDataUtils.UnknownOperatorExample | src/utils/movieDataUtils.ts:139-140 | an unknown first key gives the empty rule |
| MovieDataUtils.RuntimeRatingSpec | src/utils/movieDataUtils.ts:144-160 | `runtimeMinutes` exactly when `runtime` is an object, `averageRating` exactly when `rating` is one, each holding the rule of its criteria; no other key |
| MovieDataUtils.RuleKeysOutsideMainFilter | src/utils/movieDataUtils.ts:149-158 | `runtimeMinutes` and `averageRating` are never keys of the main filter |
| MovieDataUtils.GetFilterByRuntimeAndRating | build/utils/movieDataUtils.js:127-139 | the method that sets fields on an empty object returns exactly RuntimeRatingSpec |
| MovieDataUtils.ArrayCriteriaGiveEmptyRule | src/utils/movieDataUtils.ts:151-153 | an array given for `runtime` counts as an object; its first key `0` gives the empty rule |
| Server.Skip | src/server.ts:84 | `(page - 1) * limit`: an integer exactly when both are, and NaN otherwise |
| Server.PreviousPage | src/server.ts:93 | null exactly when the page is 1, otherwise `page - 1` |
| Server.NextPage | src/server.ts:99 | `page + 1`, unconditionally |
| Server.PageZeroLinksBack | build/server.js:73-78 | page 0 links back to page -1 and on to page 1 |
| Server.ObjectAssign | build/server.js:64 | `Object.assign(target, source)`: the keys of both, the source winning on a shared key, the target's other entries kept |
| Server.MergeFilters | src/server.ts:81 | the merge has the keys of both filters; the runtime and rating filter wins on a shared key, and the main filter's other entries stay |
| Server.CompiledMergeAgrees | build/server.js:64 | the compiled `Object.assign` merge equals the spread |
| Server.MergeKeepsMainFilter | src/server.ts:79-81 | the two filters share no key, so the merge keeps the baseline and every entry of both |
| Server.PlanMovies | src/server.ts:77-101 | the handler fails exactly when the sort fails, with the same error; otherwise the plan's filter is the merge of the main and the runtime/rating filters (so it has the baseline), with the sort, the limit, the skip, the current page, the previous page (`page - 1`, absent exactly when the page is 1) and the next page |
| Server.MoviesHandler | build/server.js:61-80 | the handler's calls, in its order, yield exactly PlanMovies |
| Server.RecordOf | src/utils/movieDataUtils.ts:43 | an ExpressError has a `statusCode` and a TypeError does not; both carry their message |
| Server.HandleError | src/server.ts:122-125 | the response's status is the error's `statusCode`, default 500, and its body the `message`, default "Something went wrong" |
| Server.RouteNotFound | src/server.ts:116-118 | the fallback route fails with status 404 and message "Page not found" |
| Server.UnmatchedRouteResponse | build/server.js:91-100 | an unmatched route answers 404 "Page not found" |
| Server.MoviesErrorResponse | src/server.ts:77-125 | a `/movies` request gets an error response exactly when the modelled handler fails, and that response is the error middleware's answer to the error |
| Server.MoviesErrors | src/server.ts:83 | the handler's modelled derivations fail only through `sort_by`: with 400 "Invalid field", or with 500 and the TypeError's message when there is no `(`; a failure of the store and the TypeError of `String` on an operand with its own `toString` key are left out |
| Server.PageTwoOfFive | src/server.ts:77 | `page=2&limit=5` is read as page 2 and limit 5 |
| Server.PageWindowExample | src/server.ts:84-100 | `page=2&limit=5` skips 5 and links to pages 1 and 3 |
| Server.FirstPageExample | build/server.js:61-80 | the empty query gives page 1, no previous page, next page 2, skip 0, limit 10, the default sort and the baseline filter |

## Left out

- Database access: `connectToDatabase`, the cursor chain `find/sort/limit/skip/toArray` and the asynchronous start-up of the shared collection. These are I/O. The plan returned by `Server.PlanMovies` is what the handler hands to the cursor.
- Express wiring: `app.use`, CORS, `listen` and `res.status().send`. Route matching (case, trailing slashes, which route matches first) is not modelled. `RouteNotFound` is the answer to a request no route matched.
- `catchAsync` and the compiled generator plumbing: they only forward a rejected promise to the error middleware, which `MoviesErrorResponse` calls directly.
- The `GET /` route of src/server.ts:67-69 answers "Welcome". It is not part of the translator. The server files define no one-movie route and no `PUT /updatePosters` route; `/movies/:id` appears only in a comment (src/server.ts:58).
- src/models/movie.ts and src/types/types.ts hold only types.
- The `ExpressError` class (src/utils/ExpressError) is not part of this model. It is taken to carry its message and status code.
- `parseFloat`: its result is an opaque operand holding the text it parses. Floating-point values and their precision are not modelled.
- JsNumbers.ParseInt: integer values are unbounded. So precision loss beyond 2^53, the `Infinity` that `parseInt` returns for numerals above about 1.8e308, and the negative zero of `parseInt("-0")` are not modelled.
- JsNumbers.DecimalRoundTrip: its numeral is a plain digit string, so it is not JavaScript's `String` of a number from 1e21 on, which uses exponent form (`parseInt("1e+21")` is 1).
- A rejection by the store (src/server.ts:86-92) also reaches the error middleware; `Server.MoviesErrors` speaks only of the modelled derivations.
- The regular expression `^[\x00-\x7F]*$` is a constant clause. Matching it is MongoDB's business.
- The key order of the filter and sort documents: they are maps. MongoDB gives no meaning to the order of a filter's keys, and every sort here has one key.
- QueryString.FirstKey: object pairs are taken in `Object.keys` order. The engine's rule that integer-like keys come first is not modelled.
- QueryString.ToJsString: an object with its own `toString` key (`runtime[gt][toString]=1`, which Express's default query parser keeps), or an array holding one, is not represented as such. JavaScript's `String` throws a TypeError for it, so `parseFloat` or `parseInt` of such an operand ends the request with a 500 through the error middleware. The model reads it as `[object Object]` instead, and `Server.MoviesErrors` does not include this failure.
- QueryString.Property: strings and arrays have none of the properties the translator reads, so `length` and array indices are not modelled.
- The text of the TypeError thrown by `split` on undefined is the V8 engine's wording, a modelling choice.
- The JSON encoding of the error body and of the response.
- The unit test files are cited as evidence for lemmas, not modelled.
