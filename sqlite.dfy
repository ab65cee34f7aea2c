/**
 * The ad-listing part of the storage layer: the parameters record, the
 * response record, the assembly of the listing query and the shaping of the
 * result rows. The database is an oracle from query text to rows.
 */
module Sqlite {
  import opened Wrappers
  import opened Strconv

  /** `AdsParamsRequest`. Prices are whole numbers (they come from `Atoi`). */
  datatype AdsParamsRequest = AdsParamsRequest(
    page: int, limit: int, sortBy: string, sortDir: string, priceMin: int, priceMax: int)

  /** `AdResponse`: one listed ad as the caller sees it. */
  datatype AdResponse = AdResponse(
    username: string, title: string, text: string, imageUrl: string, price: int, isMine: bool)

  /** One result row, in the column order of the SELECT list. */
  datatype Row = Row(
    title: string, text: string, imageUrl: string, price: int, username: string, userId: string)

  datatype DbError = DbError(message: string)

  /** One step of `rows.Next()` / `rows.Scan(...)`: a row or a scan error. */
  datatype ScanResult = Scanned(row: Row) | ScanFailed(err: DbError)

  /** `db.Query(query)`: an error, or the rows it returns. */
  datatype QueryResult = QueryFailed(err: DbError) | QueryRows(rows: seq<ScanResult>)

  /** The fixed start of every listing query, exactly as the raw string literal holds it. */
  const SelectPrefix: string :=
    "\n\t\tSELECT \n\t\t\tads.title, ads.text, ads.image_url, ads.price, users.username, users.id\n\t\tFROM ads\n\t\tJOIN users ON ads.user_id = users.id\n\t\tWHERE 1=1\n\t"

  const DefaultSortBy := "ads.created_at"
  const DefaultSortDir := "DESC"

  /** The clauses that may follow the prefix. */
  datatype Clause =
    | PriceAtLeast(bound: int)
    | PriceAtMost(bound: int)
    | OrderBy(field: string, dir: string)
    | LimitTo(count: int)
    | OffsetBy(skip: int)

  /** Position of a clause kind in the query. */
  function Rank(c: Clause): nat {
    match c
    case PriceAtLeast(_) => 0
    case PriceAtMost(_) => 1
    case OrderBy(_, _) => 2
    case LimitTo(_) => 3
    case OffsetBy(_) => 4
  }

  /** `%f` of a whole-number price: its digits and six zero decimals. */
  function FormatPrice(v: int): string {
    FormatInt(v) + ".000000"
  }

  /** The text each clause appends (the `$` is written literally before numbers). */
  function Render(c: Clause): string {
    match c
    case PriceAtLeast(v) => " AND ads.price >= $" + FormatPrice(v)
    case PriceAtMost(v) => " AND ads.price <= $" + FormatPrice(v)
    case OrderBy(f, d) => " ORDER BY " + f + " " + d
    case LimitTo(n) => " LIMIT $" + FormatInt(n)
    case OffsetBy(n) => " OFFSET $" + FormatInt(n)
  }

  /** The OFFSET as computed in Go `int` arithmetic: `(Page+1)*10`, each step wrapping. */
  function OffsetFor(page: int): int {
    Wrap64(Wrap64(page + 1) * 10)
  }

  /** The ORDER BY clause: the caller's field and direction verbatim, or the default. */
  function OrderByOf(p: AdsParamsRequest): Clause {
    if p.sortBy != "" && p.sortDir != "" then OrderBy(p.sortBy, p.sortDir)
    else OrderBy(DefaultSortBy, DefaultSortDir)
  }

  /** `cs`, extended by `c` when `cond` holds. */
  function When(cs: seq<Clause>, cond: bool, c: Clause): seq<Clause> {
    if cond then cs + [c] else cs
  }

  /** The price filters: a bound contributes a clause exactly when it is positive. */
  function FilterClauses(p: AdsParamsRequest): seq<Clause> {
    When(When([], p.priceMin > 0, PriceAtLeast(p.priceMin)), p.priceMax > 0, PriceAtMost(p.priceMax))
  }

  /** LIMIT when the limit is positive, OFFSET when the page is. */
  function PagingClauses(p: AdsParamsRequest): seq<Clause> {
    When(When([], p.limit > 0, LimitTo(p.limit)), p.page > 0, OffsetBy(OffsetFor(p.page)))
  }

  /** The clauses the listing query carries, in the order the code appends them. */
  function Clauses(p: AdsParamsRequest): seq<Clause> {
    FilterClauses(p) + [OrderByOf(p)] + PagingClauses(p)
  }

  /** A start text followed by each clause's text, appended one after the other. */
  function Assemble(start: string, cs: seq<Clause>): string {
    if cs == [] then start else Assemble(start, cs[..|cs| - 1]) + Render(cs[|cs| - 1])
  }

  /** The query text `GetListAds` sends to the database. */
  function QueryText(p: AdsParamsRequest): string {
    Assemble(SelectPrefix, Clauses(p))
  }

  /** Clause kinds strictly increase along the sequence, so each kind occurs at most once. */
  predicate Ordered(cs: seq<Clause>) {
    forall i, j :: 0 <= i < j < |cs| ==> Rank(cs[i]) < Rank(cs[j])
  }

  lemma OrderedConcat(a: seq<Clause>, b: seq<Clause>)
    requires Ordered(a) && Ordered(b)
    requires forall c, d :: c in a && d in b ==> Rank(c) < Rank(d)
    ensures Ordered(a + b)
  {
    var ab := a + b;
    forall i, j | 0 <= i < j < |ab| ensures Rank(ab[i]) < Rank(ab[j]) {
      if j < |a| {
        assert ab[i] == a[i] && ab[j] == a[j];
      } else if i < |a| {
        assert ab[i] in a && ab[j] in b;
      } else {
        assert ab[i] == b[i - |a|] && ab[j] == b[j - |a|];
      }
    }
  }

  lemma ClausesSplit(p: AdsParamsRequest)
    ensures Ordered(FilterClauses(p)) && Ordered(PagingClauses(p))
    ensures forall c :: c in FilterClauses(p) ==> Rank(c) < 2
    ensures forall c :: c in PagingClauses(p) ==> Rank(c) > 2
    ensures forall c :: c in Clauses(p) <==> c in FilterClauses(p) || c == OrderByOf(p) || c in PagingClauses(p)
  {
  }

  /**
   * The clause kinds come in the fixed order min price, max price, ORDER BY,
   * LIMIT, OFFSET, each at most once, and the ORDER BY clause is always there.
   */
  lemma ClauseOrder(p: AdsParamsRequest)
    ensures Ordered(Clauses(p))
    ensures OrderByOf(p) in Clauses(p)
    ensures forall c :: c in Clauses(p) && c.OrderBy? ==> c == OrderByOf(p)
  {
    var f, o, pg := FilterClauses(p), OrderByOf(p), PagingClauses(p);
    ClausesSplit(p);
    OrderedConcat(f, [o]);
    OrderedConcat(f + [o], pg);
  }

  /** A price filter is present exactly when its bound is positive, and carries that bound. */
  lemma PriceFilterPresence(p: AdsParamsRequest)
    ensures PriceAtLeast(p.priceMin) in Clauses(p) <==> p.priceMin > 0
    ensures forall c :: c in Clauses(p) && c.PriceAtLeast? ==> c.bound == p.priceMin
    ensures PriceAtMost(p.priceMax) in Clauses(p) <==> p.priceMax > 0
    ensures forall c :: c in Clauses(p) && c.PriceAtMost? ==> c.bound == p.priceMax
  {
    ClausesSplit(p);
    assert forall c :: c in PagingClauses(p) ==> !c.PriceAtLeast? && !c.PriceAtMost?;
    assert !OrderByOf(p).PriceAtLeast? && !OrderByOf(p).PriceAtMost?;
  }

  /**
   * LIMIT is present exactly when the limit is positive; OFFSET exactly when
   * the page is, and its value is `(Page+1)*10` in Go arithmetic.
   */
  lemma PagingPresence(p: AdsParamsRequest)
    ensures LimitTo(p.limit) in Clauses(p) <==> p.limit > 0
    ensures forall c :: c in Clauses(p) && c.LimitTo? ==> c.count == p.limit
    ensures OffsetBy(OffsetFor(p.page)) in Clauses(p) <==> p.page > 0
    ensures forall c :: c in Clauses(p) && c.OffsetBy? ==> c.skip == OffsetFor(p.page)
  {
    ClausesSplit(p);
    assert forall c :: c in FilterClauses(p) ==> !c.LimitTo? && !c.OffsetBy?;
    assert !OrderByOf(p).LimitTo? && !OrderByOf(p).OffsetBy?;
  }

  function OrderByCount(cs: seq<Clause>): nat {
    if cs == [] then 0 else (if cs[0].OrderBy? then 1 else 0) + OrderByCount(cs[1..])
  }

  lemma {:induction false} OrderByCountAppend(a: seq<Clause>, b: seq<Clause>)
    ensures OrderByCount(a + b) == OrderByCount(a) + OrderByCount(b)
  {
    if a == [] {
      assert a + b == b;
    } else {
      assert (a + b)[0] == a[0] && (a + b)[1..] == a[1..] + b;
      OrderByCountAppend(a[1..], b);
    }
  }

  lemma {:induction false} OrderByCountNone(cs: seq<Clause>)
    requires forall c :: c in cs ==> !c.OrderBy?
    ensures OrderByCount(cs) == 0
  {
    if cs != [] {
      assert cs[0] in cs;
      assert forall c :: c in cs[1..] ==> c in cs;
      OrderByCountNone(cs[1..]);
    }
  }

  /**
   * Exactly one ORDER BY clause is emitted, whatever the parameters. This counts
   * clauses, not text: a verbatim sort field may itself contain ` ORDER BY `.
   */
  lemma ExactlyOneOrderBy(p: AdsParamsRequest)
    ensures OrderByCount(Clauses(p)) == 1
  {
    var f, o, pg := FilterClauses(p), OrderByOf(p), PagingClauses(p);
    ClausesSplit(p);
    OrderByCountAppend(f + [o], pg);
    OrderByCountAppend(f, [o]);
    assert OrderByCount([o]) == 1;
    OrderByCountNone(f);
    OrderByCountNone(pg);
  }

  lemma {:induction false} AssembleAppend(start: string, cs: seq<Clause>, c: Clause)
    ensures Assemble(start, cs + [c]) == Assemble(start, cs) + Render(c)
  {
    assert (cs + [c])[..|cs|] == cs;
  }

  /** Appending clauses only extends the text: what was assembled stays a prefix. */
  lemma {:induction false} AssemblePrefix(start: string, a: seq<Clause>, b: seq<Clause>)
    ensures Assemble(start, a) <= Assemble(start, a + b)
  {
    if b != [] {
      var b' := b[..|b| - 1];
      assert a + b == (a + b') + [b[|b| - 1]];
      AssemblePrefix(start, a, b');
      AssembleAppend(start, a + b', b[|b| - 1]);
    } else {
      assert a + b == a;
    }
  }

  /** Whether `t` occurs in `s` as a contiguous piece. */
  predicate Contains(s: string, t: string) {
    exists k :: 0 <= k <= |s| && t <= s[k..]
  }

  lemma RenderedClauseOccurs(start: string, a: seq<Clause>, c: Clause, b: seq<Clause>)
    ensures Contains(Assemble(start, a + [c] + b), Render(c))
  {
    AssembleAppend(start, a, c);
    AssemblePrefix(start, a + [c], b);
    var s := Assemble(start, a + [c] + b);
    var k := |Assemble(start, a)|;
    assert Render(c) <= s[k..];
  }

  /**
   * The query starts with the fixed SELECT prefix, and when the caller gave
   * both a sort field and a direction they reach the text verbatim, with no
   * allow-list.
   */
  lemma QueryTextLayout(p: AdsParamsRequest)
    ensures SelectPrefix <= QueryText(p)
    ensures p.sortBy != "" && p.sortDir != "" ==>
              Contains(QueryText(p), " ORDER BY " + p.sortBy + " " + p.sortDir)
  {
    ClausesSplit(p);
    AssemblePrefix(SelectPrefix, [], Clauses(p));
    assert [] + Clauses(p) == Clauses(p);
    RenderedClauseOccurs(SelectPrefix, FilterClauses(p), OrderByOf(p), PagingClauses(p));
  }

  /** The OFFSET clause, when present, is the last thing in the query. */
  lemma QueryEndsWithOffset(p: AdsParamsRequest)
    requires p.page > 0
    ensures QueryText(p) == Assemble(SelectPrefix, Clauses(p)[..|Clauses(p)| - 1]) + " OFFSET $" + FormatInt(OffsetFor(p.page))
  {
    var cs := Clauses(p);
    assert cs[|cs| - 1] == OffsetBy(OffsetFor(p.page));
  }

  /** Page 1 ends the query text with the literal ` OFFSET $20`. */
  lemma PageOneOffsetText(p: AdsParamsRequest)
    requires p.page == 1
    ensures QueryText(p) == Assemble(SelectPrefix, Clauses(p)[..|Clauses(p)| - 1]) + " OFFSET $20"
  {
    QueryEndsWithOffset(p);
    OffsetTextOfPageOne();
  }

  lemma OffsetTextOfPageOne()
    ensures FormatInt(OffsetFor(1)) == "20"
  {
    OffsetFormula(1);
    calc {
      FormatInt(20);
      FormatNat(20);
      FormatNat(2) + [DigitChar(0)];
      [DigitChar(2)] + [DigitChar(0)];
    }
  }

  /**
   * The offset is `(Page+1)*10`, not `(Page-1)*pageSize`: page 1 gives the
   * number 20, and every page that does not overflow gives at least 20.
   */
  lemma OffsetFormula(page: int)
    requires 0 < page <= (MaxInt64 - 9) / 10
    ensures OffsetFor(page) == (page + 1) * 10
    ensures OffsetFor(page) >= 20
    ensures page == 1 ==> OffsetFor(page) == 20
  {
  }

  /** For the largest pages the Go arithmetic wraps: the offset becomes 0 or negative. */
  lemma OffsetWraps()
    ensures OffsetFor(MaxInt64) == 0
    ensures OffsetFor((MaxInt64 - 9) / 10 + 1) < 0
  {
  }

  /** One row as the caller sees it; the caller owns the ad only with a non-empty id that matches. */
  function ToResponse(current: string, row: Row): AdResponse {
    AdResponse(row.username, row.title, row.text, row.imageUrl, row.price,
               current != "" && current == row.userId)
  }

  /**
   * The result of reading all rows: one response per row, in row order, with
   * the row's fields copied and the ownership flag computed; or, if any row
   * fails to scan, the first such error and no responses at all.
   */
  function ShapeRows(current: string, rows: seq<ScanResult>): (r: Result<seq<AdResponse>, DbError>)
    ensures r.Ok? <==> forall i :: 0 <= i < |rows| ==> rows[i].Scanned?
    ensures r.Ok? ==> |r.value| == |rows|
    ensures r.Ok? ==> forall i :: 0 <= i < |rows| ==>
              var a, row := r.value[i], rows[i].row;
              && a.title == row.title && a.text == row.text && a.imageUrl == row.imageUrl
              && a.price == row.price && a.username == row.username
              && (a.isMine <==> current != "" && current == row.userId)
    ensures r.Err? ==> exists i :: 0 <= i < |rows| && rows[i] == ScanFailed(r.error)
                                   && forall j :: 0 <= j < i ==> rows[j].Scanned?
  {
    if rows == [] then Ok([])
    else
      var front := ShapeRows(current, rows[..|rows| - 1]);
      var last := rows[|rows| - 1];
      if front.Err? then Err(front.error)
      else if last.ScanFailed? then Err(last.err)
      else Ok(front.value + [ToResponse(current, last.row)])
  }

  /** Once a prefix of the rows fails to scan, later rows do not change the outcome. */
  lemma {:induction false} ShapeRowsErrorSticks(current: string, rows: seq<ScanResult>, n: nat)
    requires n <= |rows|
    requires ShapeRows(current, rows[..n]).Err?
    ensures ShapeRows(current, rows) == ShapeRows(current, rows[..n])
    decreases |rows| - n
  {
    if n < |rows| {
      assert rows[..n + 1][..n] == rows[..n];
      ShapeRowsErrorSticks(current, rows, n + 1);
    } else {
      assert rows[..n] == rows;
    }
  }

  /** The whole listing: run the query, then shape its rows. */
  function ListAds(current: string, p: AdsParamsRequest, db: string -> QueryResult)
    : Result<seq<AdResponse>, DbError>
  {
    match db(QueryText(p))
    case QueryFailed(e) => Err(e)
    case QueryRows(rows) => ShapeRows(current, rows)
  }

  /** An anonymous caller owns none of the listed ads. */
  lemma AnonymousOwnsNothing(p: AdsParamsRequest, db: string -> QueryResult)
    ensures ListAds("", p, db).Ok? ==> forall a :: a in ListAds("", p, db).value ==> !a.isMine
  {
  }

  /** The price filters of `GetListAds`, appended to `prefix`. */
  method AppendFilters(prefix: string, p: AdsParamsRequest) returns (query: string)
    ensures query == Assemble(prefix, FilterClauses(p))
  {
    query := prefix;
    ghost var cs := [];
    if p.priceMin > 0 {
      query := query + (" AND ads.price >= $" + FormatPrice(p.priceMin));
      AssembleAppend(prefix, cs, PriceAtLeast(p.priceMin));
    }
    cs := When(cs, p.priceMin > 0, PriceAtLeast(p.priceMin));
    if p.priceMax > 0 {
      query := query + (" AND ads.price <= $" + FormatPrice(p.priceMax));
      AssembleAppend(prefix, cs, PriceAtMost(p.priceMax));
    }
  }

  /** The ORDER BY part of `GetListAds`: the caller's field and direction, or the default. */
  method AppendOrderBy(prefix: string, p: AdsParamsRequest) returns (query: string)
    ensures query == prefix + Render(OrderByOf(p))
  {
    if p.sortBy != "" && p.sortDir != "" {
      query := prefix + (" ORDER BY " + p.sortBy + " " + p.sortDir);
    } else {
      query := prefix + " ORDER BY ads.created_at DESC";
      DefaultOrderByText();
    }
  }

  /** The LIMIT and OFFSET part of `GetListAds`, appended to `prefix`. */
  method AppendPaging(prefix: string, p: AdsParamsRequest) returns (query: string)
    ensures query == Assemble(prefix, PagingClauses(p))
  {
    query := prefix;
    ghost var cs := [];
    if p.limit > 0 {
      query := query + (" LIMIT $" + FormatInt(p.limit));
      AssembleAppend(prefix, cs, LimitTo(p.limit));
    }
    cs := When(cs, p.limit > 0, LimitTo(p.limit));
    if p.page > 0 {
      query := query + (" OFFSET $" + FormatInt(Wrap64(Wrap64(p.page + 1) * 10)));
      AssembleAppend(prefix, cs, OffsetBy(OffsetFor(p.page)));
    }
  }

  /**
   * The clause-appending part of `GetListAds`: starting from `prefix`, each
   * clause whose condition holds is appended to the query text in turn.
   */
  method AppendClauses(prefix: string, p: AdsParamsRequest) returns (query: string)
    ensures query == Assemble(prefix, Clauses(p))
  {
    query := AppendFilters(prefix, p);
    query := AppendOrderBy(query, p);
    AssembleAppend(prefix, FilterClauses(p), OrderByOf(p));
    query := AppendPaging(query, p);
    AssembleRestart(prefix, FilterClauses(p) + [OrderByOf(p)], PagingClauses(p));
  }

  /** Assembling `a + b` is assembling `b` after the text assembled from `a`. */
  lemma {:induction false} AssembleRestart(start: string, a: seq<Clause>, b: seq<Clause>)
    ensures Assemble(start, a + b) == Assemble(Assemble(start, a), b)
  {
    if b == [] {
      assert a + b == a;
    } else {
      var front, last := b[..|b| - 1], b[|b| - 1];
      assert b == front + [last];
      assert a + b == (a + front) + [last];
      AssembleRestart(start, a, front);
      calc {
        Assemble(start, a + b);
        { AssembleAppend(start, a + front, last); }
        Assemble(start, a + front) + Render(last);
        Assemble(Assemble(start, a), front) + Render(last);
        { AssembleAppend(Assemble(start, a), front, last); }
        Assemble(Assemble(start, a), b);
      }
    }
  }

  /** The literal default ORDER BY text is the rendering of the default clause. */
  lemma DefaultOrderByText()
    ensures Render(OrderBy(DefaultSortBy, DefaultSortDir)) == " ORDER BY ads.created_at DESC"
  {
  }

  /**
   * `GetListAds`: assemble the query, run it, and append one response per
   * row while rows remain; a query error or a scan error returns no list.
   */
  method GetListAds(current: string, p: AdsParamsRequest, db: string -> QueryResult)
    returns (r: Result<seq<AdResponse>, DbError>)
    ensures r == ListAds(current, p, db)
  {
    var query := AppendClauses(SelectPrefix, p);
    var result := db(query);
    if result.QueryFailed? {
      return Err(result.err);
    }
    var rows := result.rows;
    var ads: seq<AdResponse> := [];
    var i := 0;
    while i < |rows|
      invariant 0 <= i <= |rows|
      invariant ShapeRows(current, rows[..i]) == Ok(ads)
    {
      if rows[i].ScanFailed? {
        assert rows[..i + 1][..i] == rows[..i];
        ShapeRowsErrorSticks(current, rows, i + 1);
        return Err(rows[i].err);
      }
      var row := rows[i].row;
      var ad := AdResponse(row.username, row.title, row.text, row.imageUrl, row.price,
                           current != "" && current == row.userId);
      assert rows[..i + 1][..i] == rows[..i];
      assert ad == ToResponse(current, row);
      ads := ads + [ad];
      i := i + 1;
    }
    assert rows[..i] == rows;
    r := Ok(ads);
  }
}
