# Marketplace backend: listing queries, authorization and handler statuses

A Dafny model of the request-handling core of a small Go marketplace
service. Users register and log in. They receive a JWT. They list ads
with paging, sorting and price filters; a logged-in caller sees which ads
are their own.

The model covers:

- **Listing parameters** (`GetAdsParams`). The query string becomes the
  record the storage layer reads. A missing or zero page means page 1.
  The sort field `created_at`, or none, means `ads.created_at`. A missing
  direction means `asc`. Missing price bounds mean 0. The first number
  that fails `strconv.Atoi` is returned as the error.
- **Query assembly and row shaping** (`Storage.GetListAds`). The SELECT
  prefix is followed by these clauses, in this order:
  - the price filters, each when its bound is positive;
  - an ORDER BY built from the caller's field and direction verbatim, or
    `ads.created_at DESC` when either is empty;
  - `LIMIT` when the limit is positive;
  - `OFFSET (Page+1)*10` when the page is positive, computed in 64-bit
    Go `int` arithmetic.

  Each row becomes an `AdResponse`. It is marked as the caller's own
  exactly when the caller id is non-empty and equals the row's owner id.
  A query error or a scan error yields no list.
- **`AuthMiddleware`**:
  - With no `Authorization` header, a GET passes anonymously and any
    other method gets 401.
  - Otherwise one `Bearer ` prefix is stripped. A token that does not
    parse gets 401.
  - A valid token passes with its `userID` claim.
- **The status each handler sends** (Register, Login, GetAllCards),
  under net/http's rule that the first write fixes the status. The
  success paths encode the body before calling `WriteHeader`, so they
  send 200 whatever code they name. `log.Fatal`/`log.Fatalf` end the
  process before any answer is written.

The modules are:

- `Wrappers`: Option and Result.
- `Strconv`: `Atoi`, `%d`, 64-bit wrap-around.
- `HttpResponse`: the status rule and `http.Error`.
- `Sqlite`: the listing query and rows.
- `Handlers`: parameters, middleware, handlers.

The following are oracle parameters:
- the database;
- bcrypt;
- JWT parsing and signing;
- uuid and the clock;
- the user store.

The model follows the code where it departs from the usual conventions for
such a service (an offset of `(page-1)*pageSize`, an allow-listed sort field,
400 for a malformed request, 201 for a created resource):
- The offset is `(Page+1)*10`, not `(page-1)*pageSize`: a missing page means page 1, whose
  query ends with ` OFFSET $20`.
- There is no allow-list for the sort field or direction: any text except
  `""`/`created_at` reaches the SQL verbatim.
- Register answers 404, not 400, to an empty username or password.
- A successful registration answers 200, not 201.
- No LIMIT is ever emitted, because `Limit` is never set.

Every number the query appends (price bounds, LIMIT, OFFSET) is written
after a `$`, as in ` OFFSET $20`. The model proves which text is sent and
leaves to the database oracle what that text means. The ownership scenario
(`Handlers.AnonymousScenario`, `Handlers.OwnerScenario`) asks for `page=-1`
with no price filters, which produces a query with no OFFSET and no
`$`-prefixed number at all. Its database answers that exact query text.

## Model

| member | source | states |
|---|---|---|
| Strconv.Wrap64 | internal/sqlite/sqlite.go:99 | the result is a 64-bit value congruent to the input modulo 2^64, and equals the input when the input already fits |
| Strconv.Atoi | internal/handlers/handlers.go:204-205 | succeeds exactly on an optional sign followed by at least one digit whose value fits in 64 bits, with that value; otherwise the error names `Atoi` and the input, and is a range error when the leading digits already exceed 2^64-1 (whatever follows them) or the decimal value is outside 64 bits, and a syntax error otherwise |
| Strconv.LeadingDigitsMaximal | internal/handlers/handlers.go:204-205 | the digits `Atoi` scans before its first non-digit are the longest all-digit prefix of the text |
| Strconv.AtoiOverflowBeforeSyntax | internal/handlers/handlers.go:224-226 | digits denoting more than 2^64-1, followed by anything, are a range error rather than a syntax error |
| Strconv.FormatNatDigits | internal/sqlite/sqlite.go:96-99 | the `%d` digits of a natural number are non-empty, all digits, without a leading zero, and denote the number |
| Strconv.AtoiFormatInt | internal/handlers/handlers.go:224 | every 64-bit integer printed with `%d` is read back by `Atoi` as itself |
| Strconv.AtoiAcceptsLeadingZeros | internal/handlers/handlers.go:204 | `Atoi` accepts leading zeros ("007" is 7) |
| Strconv.AtoiAcceptsSignedZero | internal/handlers/handlers.go:204 | `Atoi` accepts either sign on zero ("+0" and "-0" are 0) |
| HttpResponse.SentStatus | internal/handlers/handlers.go:76-78 | the client receives the code of a leading `WriteHeader`, and 200 when the body is written first or nothing is written |
| HttpResponse.FirstWriteFixesStatus | internal/handlers/handlers.go:262-264 | once anything has been written, later writes (such as a `WriteHeader` after the body) cannot change the status sent |
| HttpResponse.Error | internal/handlers/handlers.go:47 | `http.Error` sends exactly the code it is given |
| HttpResponse.EncodeThenWriteHeader | internal/handlers/handlers.go:76-78 | encoding the body before `WriteHeader(code)` sends 200, whatever the code |
| Sqlite.AppendFilters | internal/sqlite/sqlite.go:81-87 | the conditional price-filter appends extend the text by the rendering of exactly the filter clauses |
| Sqlite.AppendOrderBy | internal/sqlite/sqlite.go:89-93 | the ORDER BY append extends the text by the rendering of the selected ORDER BY clause, the default one included |
| Sqlite.AppendPaging | internal/sqlite/sqlite.go:95-100 | the conditional LIMIT and OFFSET appends extend the text by the rendering of exactly the paging clauses |
| Sqlite.AppendClauses | internal/sqlite/sqlite.go:74-100 | the text built by the three groups of appends is the start text followed by the rendering of `Clauses(p)` in order |
| Sqlite.ClausesSplit | internal/sqlite/sqlite.go:81-100 | the filter part holds only price filters and the paging part only LIMIT/OFFSET, each in fixed kind order, and a clause is in the query exactly when it is a filter, the selected ORDER BY or a paging clause |
| Sqlite.ClauseOrder | internal/sqlite/sqlite.go:81-100 | clause kinds appear in the order min price, max price, ORDER BY, LIMIT, OFFSET, each at most once; ORDER BY is always present and is the one the parameters select |
| Sqlite.PriceFilterPresence | internal/sqlite/sqlite.go:81-87 | each price filter is present exactly when its bound is positive and carries that bound |
| Sqlite.PagingPresence | internal/sqlite/sqlite.go:95-100 | LIMIT is present exactly when the limit is positive; OFFSET exactly when the page is positive, with the value `(Page+1)*10` in Go arithmetic |
| Sqlite.ExactlyOneOrderBy | internal/sqlite/sqlite.go:89-93 | the code emits exactly one ORDER BY clause for every query; a verbatim sort field can still put a second ` ORDER BY ` into the text |
| Sqlite.DefaultOrderByText | internal/sqlite/sqlite.go:92 | the default ORDER BY text is the rendering of the `ads.created_at DESC` clause |
| Sqlite.QueryTextLayout | internal/sqlite/sqlite.go:74-90 | the query starts with the fixed SELECT prefix, and a non-empty sort field and direction appear in it verbatim after ` ORDER BY ` |
| Sqlite.QueryEndsWithOffset | internal/sqlite/sqlite.go:98-100 | for a positive page the query ends with ` OFFSET $` and the `%d` of the computed offset |
| Sqlite.OffsetFormula | internal/sqlite/sqlite.go:99 | for pages that do not overflow the offset is `(page+1)*10`, at least 20, and exactly 20 for page 1 |
| Sqlite.PageOneOffsetText | internal/sqlite/sqlite.go:98-100 | for page 1 the query text ends with the literal ` OFFSET $20` |
| Sqlite.OffsetTextOfPageOne | internal/sqlite/sqlite.go:99 | page 1 writes its wrapped offset `(1+1)*10` with `%d` as the digits "20" |
| Sqlite.OffsetWraps | internal/sqlite/sqlite.go:99 | for the largest pages the 64-bit arithmetic wraps: page MaxInt64 gives offset 0, and the first page past the overflow bound gives a negative offset |
| Sqlite.ShapeRows | internal/sqlite/sqlite.go:109-127 | the rows shape to a list exactly when every row scans; the list has one ad per row with the row's fields, marked as the caller's exactly when the caller id is non-empty and equals the row's owner; otherwise the error is that of the first row that failed |
| Sqlite.ShapeRowsErrorSticks | internal/sqlite/sqlite.go:115-117 | once a prefix of the rows fails to scan, the rows after it do not change the outcome |
| Sqlite.AnonymousOwnsNothing | internal/sqlite/sqlite.go:124 | with an empty caller id no listed ad is marked as the caller's |
| Sqlite.GetListAds | internal/sqlite/sqlite.go:73-130 | the loop over the rows returns the query's error, the first scan error, or the shaped list, as `ListAds` (query text to database to `ShapeRows`) defines |
| Handlers.QueryGet | internal/handlers/handlers.go:212 | `url.Values.Get`: the first value given for the key, or "" when the key is absent or has no value |
| Handlers.PageOf | internal/handlers/handlers.go:204-210 | the page is an error exactly for non-empty text `Atoi` rejects (with `Atoi`'s error); otherwise it is never 0, an empty or zero text gives 1, and any other number is kept |
| Handlers.BoundOf | internal/handlers/handlers.go:222-236 | a price bound succeeds exactly when the text is absent or a 64-bit decimal, with 0 or that value; an error names the text and is a syntax error exactly when the text is not decimal and its leading digits do not overflow |
| Handlers.SortByOf | internal/handlers/handlers.go:212-215 | the sort field is never empty: "" and "created_at" become `ads.created_at`, anything else is kept verbatim |
| Handlers.SortDirOf | internal/handlers/handlers.go:217-220 | the sort direction is never empty: "" becomes `asc`, anything else is kept verbatim |
| Handlers.AdsParamsOf | internal/handlers/handlers.go:200-239 | the parameters succeed exactly when page and both price bounds do; the error returned is the page's, else `price_min`'s, else `price_max`'s; a result carries the page, sort field, direction and bounds each field rule gives, with limit 0 |
| Handlers.GetAdsParams | internal/handlers/handlers.go:200-239 | the field-by-field assignment with early returns yields exactly `AdsParamsOf` |
| Handlers.PageRoundTrip | internal/handlers/handlers.go:204-210 | any non-zero 64-bit page written in decimal is the page the parameters carry |
| Handlers.PriceBoundRoundTrip | internal/handlers/handlers.go:222-236 | price bounds written in decimal are accepted and are the bounds the parameters carry |
| Handlers.NonNumericPageRejected | internal/handlers/handlers.go:204-207 | non-empty page text that is not decimal, and whose leading digits do not overflow, gives the `Atoi` syntax error naming that text |
| Handlers.OverlongPageIsRangeError | internal/handlers/handlers.go:204-207 | a page whose leading digits exceed 2^64-1 gives the `Atoi` range error, whatever follows the digits |
| Handlers.RequestQueryShape | internal/handlers/handlers.go:212-220 | parameters from a request never produce any LIMIT clause and always select the caller's ORDER BY, so an unsorted listing is `ads.created_at asc`, never the builder's `DESC` default |
| Handlers.SortFieldReachesQuery | internal/handlers/handlers.go:212-215 | any sort field other than "" and `created_at` appears verbatim in the SQL text |
| Handlers.DefaultPageOffsetTwenty | internal/handlers/handlers.go:208-210 | with no page given, the clause list holds `OffsetBy(20)` and the query text ends with ` OFFSET $20`; the query has no OFFSET exactly when the page is negative |
| Handlers.TrimPrefix | internal/handlers/handlers.go:149 | with the prefix present, prefix plus result is the input; otherwise the input is returned unchanged |
| Handlers.TrimPrefixOnce | internal/handlers/handlers.go:149 | only one `Bearer ` is stripped from a doubled prefix |
| Handlers.Fail | internal/handlers/handlers.go:47-48 | an `http.Error` followed by return sends the given code |
| Handlers.AuthMiddleware | internal/handlers/handlers.go:138-165 | every refusal is 401; with no header, the request passes anonymously exactly when it is a GET; with a header it never passes anonymously, and passes exactly when the token after `Bearer ` parses, carrying that token's user id |
| Handlers.Register | internal/handlers/handlers.go:42-81 | an undecodable body gives 400, an empty username or password 404, a failed hash 500, and a 200 answer implies non-empty credentials that hashed successfully |
| Handlers.RegisterChecksBeforeHashing | internal/handlers/handlers.go:51-54 | empty credentials get the same 404 answer whatever bcrypt and the store would do |
| Handlers.RegisterOutcomes | internal/handlers/handlers.go:63-78 | with valid credentials, a successful insert answers 200 with the user's id, name and creation time (no password), and a failed insert ends the process |
| Handlers.Login | internal/handlers/handlers.go:98-130 | an undecodable body gives 400; an unknown user and a wrong password both give the same 401 "Invalid login or password" answer; a known user with a matching password gets the signed token encoded with status 200, or the process exits when signing fails |
| Handlers.LoginHidesUnknownUser | internal/handlers/handlers.go:107-118 | an unknown username and a wrong password for a known one produce identical 401 responses |
| Handlers.LoginSucceedsOnlyWithPassword | internal/handlers/handlers.go:114-128 | any answer other than the 401 implies the user exists and the password matched, and is the token encoded with status 200 |
| Handlers.ListHandler | internal/handlers/handlers.go:241-266 | a parameter error answers 400 with the error's text, a storage error 500, and when both succeed the listed ads are encoded with status 200; a 200 answer implies both succeeded |
| Handlers.ListParamErrorSkipsStorage | internal/handlers/handlers.go:248-253 | a parameter error answers 400 whatever the database holds |
| Handlers.ListRoute | cmd/main.go:27 | for a GET on `/all-cards`, the listing handler receives "" without a token and the token's user id for a token that parses; a token that does not parse gets 401 |
| Handlers.BadTokenNeverAnonymous | internal/handlers/handlers.go:152-156 | a presented token that does not parse gets 401 on the listing route for every database, never the anonymous listing |
| Handlers.AnonymousListingOwnsNothing | internal/handlers/handlers.go:141-143 | an anonymous listing marks no ad as the caller's |
| Handlers.ScenarioParams | internal/handlers/handlers.go:204-220 | the query `page=-1` gives page -1, the default sort and no filters, and its clause list has no OFFSET |
| Handlers.ScenarioRows | internal/sqlite/sqlite.go:109-127 | alice's one row shapes to her ad, marked as the caller's exactly when the caller is alice |
| Handlers.ScenarioListing | internal/handlers/handlers.go:255-264 | with a database answering the scenario's exact query text, the listing handler sends alice's ad with status 200 |
| Handlers.AnonymousScenario | internal/sqlite/sqlite.go:124 | listed without a token, alice's "Bike" is not marked as the caller's |
| Handlers.OwnerScenario | internal/sqlite/sqlite.go:124 | listed with alice's token, alice's "Bike" is marked as hers |

## Left out

- SQL execution is an oracle from query text to rows. In SQLite each `$N` the query carries (` AND ads.price >= $100.000000`, ` LIMIT $N`, ` OFFSET $20`) is a named bind parameter, not the number N, and `db.Query` binds none. So a query with a price filter, LIMIT or OFFSET is modelled only as the text sent; which rows or which error the database then returns is not modelled. Neither is what it does with a verbatim sort field.
- Table creation, `New`, `CreateUser`, `GetUserByUsername` and `CreateAd` are represented only by the oracle results the handlers see.
- bcrypt hashing and comparison, JWT parsing, validation and signing, `uuid.New` and `time.Now` are oracle parameters. The secret key and the 24-hour expiry are not modelled.
- Handlers.AuthMiddleware: the token parser gives a user id or nothing. A valid token whose `userID` claim is missing (the listing then runs anonymously) is not modelled. Neither is a non-string claim (the handler's type assertion then panics).
- JSON decoding of request bodies is reduced to "decoded or not". The encoded JSON text, headers such as `Content-Type`, and the difference between a nil and an empty ad list (`null` vs `[]`) are not modelled.
- Logging other than `log.Fatal`/`log.Fatalf` has no effect on the response and is left out. `http.Error` lines after a `log.Fatal` are unreachable and appear only as the process exit.
- `AddCardHandler`, `internal/config/config.go` and the routing in `cmd/main.go` are outside the modelled core. `Handlers.ListRoute` composes the middleware with the listing handler as the router does for `/all-cards`.
- Handlers.ListRoute: method dispatch belongs to the router, which sends only GET requests on `/all-cards` to the middleware. The middleware's 401 for a non-GET request without a token is stated for `Handlers.AuthMiddleware` alone; on the router it is reached only through `/add-card`, which is not modelled.
- Prices are whole numbers, as `Atoi` produces them. The `float64` conversion, which is exact only up to 2^53, and `%f` for non-integral prices are not modelled.
- `url.ParseQuery` (percent-decoding, malformed query strings) is not modelled: the query arrives as a parsed map.
- `rows.Err()` after the loop and `rows.Close()` are not modelled; the code does not check the former either. So when an iteration error, as opposed to a scan error, ends `rows.Next()` early, the source returns the ads read so far with a nil error (internal/sqlite/sqlite.go:129), and the handler answers 200 with that partial list. The row oracle has no such error, so the model always lists every row.
