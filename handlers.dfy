/**
 * The HTTP handlers' decision logic: parsing the listing parameters, the
 * authorization middleware, and the status each handler answers with.
 * JSON decoding, bcrypt, JWT, uuid, the clock and the storage calls are
 * oracles passed in as parameters.
 */
module Handlers {
  import opened Wrappers
  import opened Strconv
  import opened HttpResponse
  import opened Sqlite

  /** A parsed URL query: each key with its values in order (`url.Values`). */
  type Query = map<string, seq<string>>

  /** `url.Values.Get`: the first value of the key, or "" when there is none. */
  function QueryGet(q: Query, key: string): (v: string)
    ensures key in q && q[key] != [] ==> v == q[key][0]
    ensures key !in q || q[key] == [] ==> v == ""
  {
    if key in q && |q[key]| > 0 then q[key][0] else ""
  }

  // ---------------------------------------------------------------------------
  // GetAdsParams

  /**
   * The page field: absent, or any text `Atoi` reads as zero, means page 1;
   * other numbers are kept (negative ones too); non-empty text that is not a
   * 64-bit number is an error.
   */
  function PageOf(text: string): (r: Result<int, NumError>)
    ensures r.Err? <==> text != "" && Atoi(text).Err?
    ensures r.Err? ==> r.error == Atoi(text).error
    ensures r.Ok? ==> r.value != 0
    ensures text == "" || Atoi(text) == Ok(0) ==> r == Ok(1)
    ensures Atoi(text).Ok? && Atoi(text).value != 0 ==> r == Atoi(text)
  {
    if text == "" then Ok(1)
    else match Atoi(text)
      case Err(e) => Err(e)
      case Ok(n) => if n == 0 then Ok(1) else Ok(n)
  }

  /** A price bound: absent means 0 (no filter); present text must be a 64-bit number. */
  function BoundOf(text: string): (r: Result<int, NumError>)
    ensures r.Ok? <==> text == "" || (IsDecimal(text) && InInt64(SignedValue(text)))
    ensures r.Ok? ==> r.value == if text == "" then 0 else SignedValue(text)
    ensures r.Err? ==> r.error.num == text
                       && (r.error.err == ErrSyntax <==> !IsDecimal(text) && !LeadingDigitsOverflow(text))
  {
    if text == "" then Ok(0) else Atoi(text)
  }

  /** The sort field: "" and "created_at" name the creation time; anything else is kept verbatim. */
  function SortByOf(text: string): (s: string)
    ensures s != ""
    ensures text == "" || text == "created_at" ==> s == "ads.created_at"
    ensures text != "" && text != "created_at" ==> s == text
  {
    if text == "created_at" || text == "" then "ads.created_at" else text
  }

  /** The sort direction: "" means "asc"; anything else is kept verbatim. */
  function SortDirOf(text: string): (s: string)
    ensures s != ""
    ensures text == "" ==> s == "asc"
    ensures text != "" ==> s == text
  {
    if text == "" then "asc" else text
  }

  /**
   * What `GetAdsParams` returns for a query: the first error among page,
   * `price_min` and `price_max` (in that order), or the parameters with
   * their defaults applied and `Limit` left at 0.
   */
  function AdsParamsOf(q: Query): (r: Result<AdsParamsRequest, NumError>)
    ensures r.Ok? <==> PageOf(QueryGet(q, "page")).Ok? && BoundOf(QueryGet(q, "price_min")).Ok?
                       && BoundOf(QueryGet(q, "price_max")).Ok?
    ensures PageOf(QueryGet(q, "page")).Err? ==> r == Err(PageOf(QueryGet(q, "page")).error)
    ensures PageOf(QueryGet(q, "page")).Ok? && BoundOf(QueryGet(q, "price_min")).Err? ==>
              r == Err(BoundOf(QueryGet(q, "price_min")).error)
    ensures PageOf(QueryGet(q, "page")).Ok? && BoundOf(QueryGet(q, "price_min")).Ok?
            && BoundOf(QueryGet(q, "price_max")).Err? ==>
              r == Err(BoundOf(QueryGet(q, "price_max")).error)
    ensures r.Ok? ==> r.value == AdsParamsRequest(
              PageOf(QueryGet(q, "page")).value, 0,
              SortByOf(QueryGet(q, "sort_by")), SortDirOf(QueryGet(q, "sort_dir")),
              BoundOf(QueryGet(q, "price_min")).value, BoundOf(QueryGet(q, "price_max")).value)
    ensures r.Ok? ==> r.value.limit == 0 && r.value.page != 0
    ensures r.Ok? ==> r.value.sortBy != "" && r.value.sortDir != ""
  {
    match PageOf(QueryGet(q, "page"))
    case Err(e) => Err(e)
    case Ok(page) =>
      match BoundOf(QueryGet(q, "price_min"))
      case Err(e) => Err(e)
      case Ok(min) =>
        match BoundOf(QueryGet(q, "price_max"))
        case Err(e) => Err(e)
        case Ok(max) =>
          Ok(AdsParamsRequest(page, 0, SortByOf(QueryGet(q, "sort_by")),
                              SortDirOf(QueryGet(q, "sort_dir")), min, max))
  }

  /**
   * `GetAdsParams`: fills the parameters record field by field, returning
   * early on the first number that does not parse.
   */
  method GetAdsParams(q: Query) returns (r: Result<AdsParamsRequest, NumError>)
    ensures r == AdsParamsOf(q)
  {
    var params := AdsParamsRequest(0, 0, "", "", 0, 0);
    var page := Atoi(QueryGet(q, "page"));
    params := params.(page := if page.Ok? then page.value else 0);
    if page.Err? && QueryGet(q, "page") != "" {
      return Err(page.error);
    }
    if params.page == 0 {
      params := params.(page := 1);
    }

    params := params.(sortBy := QueryGet(q, "sort_by"));
    if params.sortBy == "created_at" || params.sortBy == "" {
      params := params.(sortBy := "ads.created_at");
    }

    params := params.(sortDir := QueryGet(q, "sort_dir"));
    if params.sortDir == "" {
      params := params.(sortDir := "asc");
    }

    var priceMinStr := QueryGet(q, "price_min");
    if priceMinStr != "" {
      var v := Atoi(priceMinStr);
      if v.Err? {
        return Err(v.error);
      }
      params := params.(priceMin := v.value);
    }

    var priceMaxStr := QueryGet(q, "price_max");
    if priceMaxStr != "" {
      var v := Atoi(priceMaxStr);
      if v.Err? {
        return Err(v.error);
      }
      params := params.(priceMax := v.value);
    }

    return Ok(params);
  }

  /** Any non-zero 64-bit page written in decimal is read back as that page. */
  lemma PageRoundTrip(q: Query, n: int)
    requires InInt64(n) && n != 0
    requires QueryGet(q, "page") == FormatInt(n)
    ensures PageOf(QueryGet(q, "page")) == Ok(n)
    ensures AdsParamsOf(q).Ok? ==> AdsParamsOf(q).value.page == n
  {
    AtoiFormatInt(n);
  }

  /** A price bound written in decimal is the bound the query filters on. */
  lemma PriceBoundRoundTrip(q: Query, min: int, max: int)
    requires InInt64(min) && InInt64(max)
    requires PageOf(QueryGet(q, "page")).Ok?
    requires QueryGet(q, "price_min") == FormatInt(min) && QueryGet(q, "price_max") == FormatInt(max)
    ensures AdsParamsOf(q).Ok?
    ensures AdsParamsOf(q).value.priceMin == min && AdsParamsOf(q).value.priceMax == max
  {
    AtoiFormatInt(min);
    AtoiFormatInt(max);
    FormatIntNotEmpty(min);
    FormatIntNotEmpty(max);
  }

  lemma FormatIntNotEmpty(n: int)
    ensures FormatInt(n) != ""
  {
    if n < 0 { } else { FormatNatDigits(n); }
  }

  /** Non-empty page text that is not a signed decimal is a syntax error, and no parameters. */
  lemma NonNumericPageRejected(q: Query)
    requires QueryGet(q, "page") != "" && !IsDecimal(QueryGet(q, "page"))
    requires !LeadingDigitsOverflow(QueryGet(q, "page"))
    ensures AdsParamsOf(q) == Err(NumError("Atoi", QueryGet(q, "page"), ErrSyntax))
  {
  }

  /**
   * A page whose leading digits exceed 2^64-1 is a range error whatever
   * follows them, so `page=99999999999999999999x` answers "value out of
   * range", not "invalid syntax".
   */
  lemma OverlongPageIsRangeError(q: Query, n: nat, rest: string)
    requires n > MaxUint64
    requires QueryGet(q, "page") == FormatNat(n) + rest
    ensures AdsParamsOf(q) == Err(NumError("Atoi", FormatNat(n) + rest, ErrRange))
  {
    AtoiOverflowBeforeSyntax(n, rest);
  }

  /**
   * Parameters from a request never ask for a LIMIT, and always name a sort
   * field and direction, so the default `ads.created_at DESC` order of the
   * query builder is never used: the unsorted listing is ascending.
   */
  lemma RequestQueryShape(q: Query)
    requires AdsParamsOf(q).Ok?
    ensures var p := AdsParamsOf(q).value;
            && (forall c :: c in Clauses(p) ==> !c.LimitTo?)
            && OrderByOf(p) == OrderBy(p.sortBy, p.sortDir)
    ensures QueryGet(q, "sort_by") == "" && QueryGet(q, "sort_dir") == "" ==>
              OrderByOf(AdsParamsOf(q).value) == OrderBy("ads.created_at", "asc")
  {
    PagingPresence(AdsParamsOf(q).value);
  }

  /**
   * Any sort field other than "" and "created_at" reaches the SQL text
   * verbatim: nothing restricts it to known column names.
   */
  lemma SortFieldReachesQuery(q: Query)
    requires AdsParamsOf(q).Ok?
    requires QueryGet(q, "sort_by") != "" && QueryGet(q, "sort_by") != "created_at"
    ensures var p := AdsParamsOf(q).value;
            Contains(QueryText(p), " ORDER BY " + QueryGet(q, "sort_by") + " " + p.sortDir)
  {
    QueryTextLayout(AdsParamsOf(q).value);
  }

  /**
   * With no page given, the query carries the clause `OffsetBy(20)` and its text
   * ends with ` OFFSET $20`; only a negative page produces a query without OFFSET.
   */
  lemma DefaultPageOffsetTwenty(q: Query)
    requires AdsParamsOf(q).Ok?
    ensures QueryGet(q, "page") == "" ==> OffsetBy(20) in Clauses(AdsParamsOf(q).value)
    ensures var p := AdsParamsOf(q).value;
            QueryGet(q, "page") == "" ==>
              QueryText(p) == Assemble(SelectPrefix, Clauses(p)[..|Clauses(p)| - 1]) + " OFFSET $20"
    ensures (forall c :: c in Clauses(AdsParamsOf(q).value) ==> !c.OffsetBy?)
              <==> AdsParamsOf(q).value.page < 0
  {
    var p := AdsParamsOf(q).value;
    PagingPresence(p);
    if p.page == 1 {
      OffsetFormula(1);
      PageOneOffsetText(p);
    }
  }

  // ---------------------------------------------------------------------------
  // AuthMiddleware

  const BearerPrefix := "Bearer "

  /** `strings.TrimPrefix`: drops one leading copy of `prefix`, if there is one. */
  function TrimPrefix(s: string, prefix: string): (r: string)
    ensures prefix <= s ==> prefix + r == s
    ensures !(prefix <= s) ==> r == s
  {
    if prefix <= s then s[|prefix|..] else s
  }

  /** Only one "Bearer " is stripped: a doubled prefix leaves the second in the token. */
  lemma TrimPrefixOnce(token: string)
    ensures TrimPrefix(BearerPrefix + BearerPrefix + token, BearerPrefix) == BearerPrefix + token
  {
    var s := BearerPrefix + BearerPrefix + token;
    assert BearerPrefix <= s;
    assert s[|BearerPrefix|..] == BearerPrefix + token;
  }

  /** What reaches the client: the writes of the response, or nothing when the process exits. */
  datatype Body =
    | Text(line: string)
    | NumErrorLine(err: NumError)
    | UserJson(id: string, username: string, createdAt: int)
    | TokenJson(token: string)
    | AdsJson(ads: seq<AdResponse>)

  datatype Response = Sent(writes: seq<Write<Body>>) | ProcessExit

  /** `http.Error(w, msg, code)` followed by `return`. */
  function Fail(msg: string, code: int): (r: Response)
    ensures r.Sent? && SentStatus(r.writes) == code
  {
    Sent(Error(Text(msg + "\n"), code))
  }

  /** The status the client receives; none when the process exits first. */
  function StatusOf(r: Response): Option<int> {
    match r
    case Sent(ws) => Some(SentStatus(ws))
    case ProcessExit => None
  }

  /** The middleware's decision: call the next handler (with a user id or none), or refuse. */
  datatype AuthOutcome = Next(userId: Option<string>) | Deny(response: Response)

  /**
   * `AuthMiddleware`. `parse` stands for `jwt.Parse` with the server key
   * followed by the validity check: it gives the token's `userID` claim, or
   * nothing for a token that is malformed, badly signed or expired.
   */
  function AuthMiddleware(header: string, verb: string, parse: string -> Option<string>)
    : (r: AuthOutcome)
    ensures r.Deny? ==> StatusOf(r.response) == Some(StatusUnauthorized)
    ensures header == "" ==> (r == Next(None) <==> verb == "GET")
    ensures header == "" && verb != "GET" ==> r.Deny?
    ensures header != "" ==> r != Next(None)
    ensures header != "" ==>
              (r.Next? <==> parse(TrimPrefix(header, BearerPrefix)).Some?)
              && (r.Next? ==> r.userId == parse(TrimPrefix(header, BearerPrefix)))
  {
    if header == "" then
      if verb == "GET" then Next(None)
      else Deny(Fail("Token is empty", StatusUnauthorized))
    else
      var tokenString := TrimPrefix(header, BearerPrefix);
      match parse(tokenString)
      case None => Deny(Fail("Token is not valid", StatusUnauthorized))
      case Some(userId) => Next(Some(userId))
  }

  // ---------------------------------------------------------------------------
  // RegisterHandler and LoginHandler

  datatype AuthRequest = AuthRequest(username: string, password: string)

  /** `sqlite.User`; `password` holds the bcrypt hash. */
  datatype User = User(id: string, username: string, password: string, createdAt: int)

  /** The JSON encoding of a user: the `password` field is tagged `json:"-"` and omitted. */
  function UserView(u: User): Body {
    UserJson(u.id, u.username, u.createdAt)
  }

  /**
   * `RegisterHandler`. `body` is the decoded request (none when decoding
   * fails), `hash` is bcrypt, `newId` and `now` are `uuid.New()` and
   * `time.Now()`, `insert` is `storage.CreateUser` (an error or none).
   */
  function Register(body: Option<AuthRequest>, hash: string -> Option<string>, newId: string,
                    now: int, insert: User -> Option<DbError>): (r: Response)
    ensures body.None? ==> StatusOf(r) == Some(StatusBadRequest)
    ensures body.Some? && (body.value.username == "" || body.value.password == "") ==>
              StatusOf(r) == Some(StatusNotFound)
    ensures body.Some? && body.value.username != "" && body.value.password != ""
            && hash(body.value.password).None? ==>
              r == Fail("Internal server error", StatusInternalServerError)
    ensures r.Sent? && SentStatus(r.writes) == StatusOK ==>
              body.Some? && body.value.username != "" && body.value.password != ""
              && hash(body.value.password).Some?
  {
    match body
    case None => Fail("Invalid request body", StatusBadRequest)
    case Some(req) =>
      if req.username == "" || req.password == "" then
        Fail("Username or/and password are not specified", StatusNotFound)
      else
        match hash(req.password)
        case None => Fail("Internal server error", StatusInternalServerError)
        case Some(hashed) =>
          var newUser := User(newId, req.username, hashed, now);
          if insert(newUser).Some? then ProcessExit
          else Sent(EncodeThenWriteHeader(UserView(newUser), StatusCreated))
  }

  /**
   * Empty credentials are refused before bcrypt or the store is consulted:
   * the answer is the same whatever those oracles do.
   */
  lemma RegisterChecksBeforeHashing(req: AuthRequest, hash1: string -> Option<string>,
                                    hash2: string -> Option<string>, newId: string, now: int,
                                    insert1: User -> Option<DbError>, insert2: User -> Option<DbError>)
    requires req.username == "" || req.password == ""
    ensures Register(Some(req), hash1, newId, now, insert1)
         == Register(Some(req), hash2, newId, now, insert2)
         == Fail("Username or/and password are not specified", StatusNotFound)
  {
  }

  /**
   * A successful registration answers 200, not the 201 the handler asks for
   * (the body is written first), and the answer carries no password hash; a
   * failing insert ends the process and nothing is answered.
   */
  lemma RegisterOutcomes(req: AuthRequest, hash: string -> Option<string>, newId: string, now: int,
                         insert: User -> Option<DbError>)
    requires req.username != "" && req.password != "" && hash(req.password).Some?
    ensures var u := User(newId, req.username, hash(req.password).value, now);
            var r := Register(Some(req), hash, newId, now, insert);
            && (insert(u).None? ==> r == Sent([WriteBody(UserJson(newId, req.username, now)),
                                               WriteHeader(StatusCreated)])
                                    && StatusOf(r) == Some(StatusOK))
            && (insert(u).Some? ==> r == ProcessExit)
  {
  }

  /**
   * `LoginHandler`. `lookup` is `storage.GetUserByUsername`, `matches` is
   * `checkPasswordHash(password, hash)`, `sign` is `generateToken`.
   */
  function Login(body: Option<AuthRequest>, lookup: string -> Option<User>,
                 matches: (string, string) -> bool, sign: User -> Option<string>): (r: Response)
    ensures body.None? ==> StatusOf(r) == Some(StatusBadRequest)
    ensures body.Some? && lookup(body.value.username).None? ==>
              r == Fail("Invalid login or password", StatusUnauthorized)
    ensures body.Some? && lookup(body.value.username).Some?
            && !matches(body.value.password, lookup(body.value.username).value.password) ==>
              r == Fail("Invalid login or password", StatusUnauthorized)
    ensures body.Some? && lookup(body.value.username).Some?
            && matches(body.value.password, lookup(body.value.username).value.password) ==>
              var token := sign(lookup(body.value.username).value);
              && (token.Some? ==> r == Sent(EncodeThenWriteHeader(TokenJson(token.value), StatusOK)))
              && (token.None? ==> r == ProcessExit)
  {
    match body
    case None => Fail("Invalid request body", StatusBadRequest)
    case Some(req) =>
      match lookup(req.username)
      case None => Fail("Invalid login or password", StatusUnauthorized)
      case Some(user) =>
        if !matches(req.password, user.password) then
          Fail("Invalid login or password", StatusUnauthorized)
        else
          match sign(user)
          case None => ProcessExit
          case Some(token) => Sent(EncodeThenWriteHeader(TokenJson(token), StatusOK))
  }

  /**
   * An unknown user and a wrong password get the same answer, so a client
   * cannot tell which usernames exist.
   */
  lemma LoginHidesUnknownUser(req: AuthRequest, lookup1: string -> Option<User>,
                              lookup2: string -> Option<User>, matches: (string, string) -> bool,
                              sign: User -> Option<string>)
    requires lookup1(req.username).None?
    requires lookup2(req.username).Some?
    requires !matches(req.password, lookup2(req.username).value.password)
    ensures Login(Some(req), lookup1, matches, sign) == Login(Some(req), lookup2, matches, sign)
    ensures StatusOf(Login(Some(req), lookup1, matches, sign)) == Some(StatusUnauthorized)
  {
  }

  /** A login answers with a token only when the user exists and the password matches. */
  lemma LoginSucceedsOnlyWithPassword(req: AuthRequest, lookup: string -> Option<User>,
                                      matches: (string, string) -> bool, sign: User -> Option<string>)
    requires Login(Some(req), lookup, matches, sign) != Fail("Invalid login or password", StatusUnauthorized)
    requires Login(Some(req), lookup, matches, sign).Sent?
    ensures lookup(req.username).Some?
    ensures matches(req.password, lookup(req.username).value.password)
    ensures Login(Some(req), lookup, matches, sign)
         == Sent([WriteBody(TokenJson(sign(lookup(req.username).value).value)), WriteHeader(StatusOK)])
  {
  }

  // ---------------------------------------------------------------------------
  // GetAllCardsHandler and the listing route

  /**
   * `GetAllCardsHandler`. `userId` is the id the middleware attached, or ""
   * for an anonymous caller; `db` is the database.
   */
  function ListHandler(userId: string, q: Query, db: string -> QueryResult): (r: Response)
    ensures AdsParamsOf(q).Err? ==> r == Sent(Error(NumErrorLine(AdsParamsOf(q).error), StatusBadRequest))
    ensures AdsParamsOf(q).Ok? && ListAds(userId, AdsParamsOf(q).value, db).Err? ==>
              r == Fail("Internal server error", StatusInternalServerError)
    ensures AdsParamsOf(q).Ok? && ListAds(userId, AdsParamsOf(q).value, db).Ok? ==>
              r == Sent(EncodeThenWriteHeader(AdsJson(ListAds(userId, AdsParamsOf(q).value, db).value),
                                              StatusOK))
    ensures r.Sent? && SentStatus(r.writes) == StatusOK ==>
              AdsParamsOf(q).Ok? && ListAds(userId, AdsParamsOf(q).value, db).Ok?
  {
    match AdsParamsOf(q)
    case Err(e) => Sent(Error(NumErrorLine(e), StatusBadRequest))
    case Ok(params) =>
      match ListAds(userId, params, db)
      case Err(_) => Fail("Internal server error", StatusInternalServerError)
      case Ok(ads) => Sent(EncodeThenWriteHeader(AdsJson(ads), StatusOK))
  }

  /** A parameter error answers 400 without touching storage: the database cannot change it. */
  lemma ListParamErrorSkipsStorage(userId: string, q: Query, db1: string -> QueryResult,
                                   db2: string -> QueryResult)
    requires AdsParamsOf(q).Err?
    ensures ListHandler(userId, q, db1) == ListHandler(userId, q, db2)
    ensures StatusOf(ListHandler(userId, q, db1)) == Some(StatusBadRequest)
  {
  }

  /**
   * `GET /all-cards`: the middleware in front of the listing handler. The router
   * sends only GET requests on this path to them.
   */
  function ListRoute(header: string, q: Query, parse: string -> Option<string>,
                     db: string -> QueryResult): (r: Response)
    ensures header == "" ==> r == ListHandler("", q, db)
    ensures header != "" && parse(TrimPrefix(header, BearerPrefix)).Some? ==>
              r == ListHandler(parse(TrimPrefix(header, BearerPrefix)).value, q, db)
    ensures header != "" && parse(TrimPrefix(header, BearerPrefix)).None? ==>
              StatusOf(r) == Some(StatusUnauthorized)
  {
    match AuthMiddleware(header, "GET", parse)
    case Deny(r) => r
    case Next(userId) => ListHandler(userId.GetOr(""), q, db)
  }

  /**
   * A listing request that presents a token the parser rejects is refused with
   * 401, whatever the database holds; it never falls back to an anonymous listing.
   */
  lemma BadTokenNeverAnonymous(header: string, q: Query,
                               parse: string -> Option<string>, db: string -> QueryResult)
    requires header != "" && parse(TrimPrefix(header, BearerPrefix)).None?
    ensures StatusOf(ListRoute(header, q, parse, db)) == Some(StatusUnauthorized)
    ensures ListRoute(header, q, parse, db) != ListHandler("", q, db)
  {
    var r := ListRoute(header, q, parse, db);
    assert r == Fail("Token is not valid", StatusUnauthorized);
    if AdsParamsOf(q).Err? {
      assert ListHandler("", q, db).writes[1] == WriteBody(NumErrorLine(AdsParamsOf(q).error));
    } else if ListAds("", AdsParamsOf(q).value, db).Err? {
      assert ListHandler("", q, db).writes[0] == WriteHeader(StatusInternalServerError);
    } else {
      assert ListHandler("", q, db).writes[0].WriteBody?;
    }
  }

  /** Without a token, a listing marks no ad as the caller's. */
  lemma AnonymousListingOwnsNothing(q: Query, parse: string -> Option<string>,
                                    db: string -> QueryResult)
    ensures var r := ListRoute("", q, parse, db);
            r.Sent? && |r.writes| > 0 && r.writes[0].WriteBody? && r.writes[0].body.AdsJson? ==>
              forall a :: a in r.writes[0].body.ads ==> !a.isMine
  {
    if AdsParamsOf(q).Ok? {
      AnonymousOwnsNothing(AdsParamsOf(q).value, db);
    }
  }

  // A store holding one ad of alice's, listed with `page=-1` so that the
  // query carries no OFFSET and no `$`-prefixed number at all.

  const BikeRow := Row("Bike", "", "", 100, "alice", "alice-id")
  const ScenarioQuery: Query := map["page" := ["-1"]]
  const ScenarioParamsValue := AdsParamsRequest(-1, 0, "ads.created_at", "asc", 0, 0)

  /** The database answers the exact query text of the scenario with alice's ad and fails on any other. */
  function ScenarioDb(sql: string): QueryResult {
    if sql == QueryText(ScenarioParamsValue) then QueryRows([Scanned(BikeRow)])
    else QueryFailed(DbError("unexpected query"))
  }

  /** Token "T" is alice's; every other token is rejected. */
  function ScenarioParse(token: string): Option<string> {
    if token == "T" then Some("alice-id") else None
  }

  /** The listing handler gives alice's ad, owned exactly when the caller is alice. */
  lemma ScenarioListing(userId: string)
    ensures ListHandler(userId, ScenarioQuery, ScenarioDb)
         == Sent([WriteBody(AdsJson([AdResponse("alice", "Bike", "", "", 100, userId == "alice-id")])),
                  WriteHeader(StatusOK)])
  {
    ScenarioParams();
    ScenarioRows(userId);
  }

  /** Without a token, alice's ad is listed as not the caller's. */
  lemma AnonymousScenario()
    ensures ListRoute("", ScenarioQuery, ScenarioParse, ScenarioDb)
         == Sent([WriteBody(AdsJson([AdResponse("alice", "Bike", "", "", 100, false)])),
                  WriteHeader(StatusOK)])
  {
    ScenarioListing("");
  }

  /** With alice's token, alice's ad is listed as hers. */
  lemma OwnerScenario()
    ensures ListRoute("Bearer T", ScenarioQuery, ScenarioParse, ScenarioDb)
         == Sent([WriteBody(AdsJson([AdResponse("alice", "Bike", "", "", 100, true)])),
                  WriteHeader(StatusOK)])
  {
    ScenarioListing("alice-id");
    ScenarioToken();
  }

  lemma ScenarioToken()
    ensures TrimPrefix("Bearer T", BearerPrefix) == "T"
  {
    assert BearerPrefix <= "Bearer T";
    assert "Bearer T"[|BearerPrefix|..] == "T";
  }

  /** The scenario's query `page=-1` gives the default sort, no filters and no OFFSET. */
  lemma ScenarioParams()
    ensures AdsParamsOf(ScenarioQuery) == Ok(ScenarioParamsValue)
    ensures forall c :: c in Clauses(ScenarioParamsValue) ==> !c.OffsetBy?
  {
    var q, p := ScenarioQuery, ScenarioParamsValue;
    assert QueryGet(q, "page") == "-1";
    assert QueryGet(q, "price_min") == "" && QueryGet(q, "price_max") == "";
    assert QueryGet(q, "sort_by") == "" && QueryGet(q, "sort_dir") == "";
    assert Unsigned("-1") == "1";
    assert LeadingDigits("1") == "1";
    assert DigitsValue("1") == 1 by {
      assert "1"[..0] == [];
    }
    assert Atoi("-1") == Ok(-1);
    PagingPresence(p);
  }

  /** The scenario's single row shapes to alice's ad, owned exactly when the caller is alice. */
  lemma ScenarioRows(current: string)
    ensures ShapeRows(current, [Scanned(BikeRow)])
              == Ok([AdResponse("alice", "Bike", "", "", 100, current == "alice-id")])
  {
    var row := BikeRow;
    var rows := [Scanned(row)];
    assert rows[..|rows| - 1] == [];
    assert ShapeRows(current, rows[..|rows| - 1]) == Ok([]);
    assert [] + [ToResponse(current, row)] == [ToResponse(current, row)];
  }
}
