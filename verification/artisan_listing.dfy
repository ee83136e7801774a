/** The paginated artisan listing of controllers/artisanController.js
    (`getAllArtisans`): the `page` and `limit` defaults, the row offset, the
    total page count, and the two SQL texts with their numbered `$n`
    placeholders.

    The database is a pair of oracles, one for the count query and one for
    the data query; each answers a query with rows or an error. */
module ArtisanListing {
  import opened JsValues

  const DefaultPage := 1
  const DefaultLimit := 9999
  const CountBase := "SELECT COUNT(*) FROM artisans"
  const DataBase := "SELECT * FROM artisans"
  const DistrictFilter := " WHERE district = $1"
  const InternalError := "Internal Server Error"

  /** A bound parameter of a query: the district text or an integer. */
  datatype Param = TextParam(text: string) | IntParam(n: int)

  datatype Query = Query(text: string, params: seq<Param>)

  datatype Queries = Queries(count: Query, data: Query)

  /** The JSON reply: `{success: true, total, page, limit, totalPages, data}`,
      or the 500 reply of the `catch`. */
  datatype ListingReply<R> =
    | Listing(total: nat, page: int, limit: int, totalPages: int, data: seq<R>)
    | ListingError(message: string)

  // ---------------------------------------------------------------------
  // Page arithmetic.

  /** `Math.ceil(total / limit)` for a non-zero integer `limit`: rounded up,
      that is towards zero when `limit` is negative. */
  function TotalPages(total: nat, limit: int): int
    requires limit != 0
  {
    if limit > 0 then (total + limit - 1) / limit else -(total / -limit)
  }

  /** `TotalPages` is the least integer not below `total / limit`, stated
      without division for both signs of `limit`. */
  lemma TotalPagesIsCeiling(total: nat, limit: int)
    requires limit != 0
    ensures var r := TotalPages(total, limit);
      && (limit > 0 ==> (r - 1) * limit < total <= r * limit)
      && (limit < 0 ==> r * limit <= total < (r - 1) * limit)
  {
    var r := TotalPages(total, limit);
    if limit > 0 {
      var m := total + limit - 1;
      assert m == r * limit + m % limit;
      assert (r - 1) * limit == r * limit - limit;
    } else {
      var l := -limit;
      var q := total / l;
      assert total == q * l + total % l;
      assert r * limit == q * l;
      assert (r - 1) * limit == q * l + l;
    }
  }

  /** With a positive limit, a page number from 1 on holds rows exactly when
      it is at most the page count. */
  lemma PageHasRows(total: nat, page: int, limit: int)
    requires limit > 0 && page >= 1
    ensures (page - 1) * limit < total <==> page <= TotalPages(total, limit)
  {
    var r := TotalPages(total, limit);
    TotalPagesIsCeiling(total, limit);
    if page <= r {
      MulMonotone(page - 1, r - 1, limit);
    } else {
      MulMonotone(r, page - 1, limit);
    }
  }

  lemma MulMonotone(a: int, b: int, c: nat)
    requires a <= b
    ensures a * c <= b * c
  {
    assert b * c - a * c == (b - a) * c;
  }

  /** `parseInt(x) || d` never yields 0 for a non-zero default, so the page
      count is always defined. */
  lemma LimitNonZero(p: ParsedInt)
    ensures OrDefault(p, DefaultLimit) != 0
    ensures p.Num? && p.n != 0 ==> OrDefault(p, DefaultLimit) == p.n
    ensures p.NaN? || p.n == 0 ==> OrDefault(p, DefaultLimit) == DefaultLimit
  {
  }

  // ---------------------------------------------------------------------
  // Placeholders: the `$n` markers a query text carries, in order.

  /** The length of the run of digits `s` starts with. */
  function DigitRun(s: string): (n: nat)
    ensures n <= |s|
    ensures forall i :: 0 <= i < n ==> IsDigit(s[i])
    ensures n < |s| ==> !IsDigit(s[n])
  {
    if |s| == 0 || !IsDigit(s[0]) then 0 else 1 + DigitRun(s[1..])
  }

  /** The numbers of the `$n` markers of `s`, left to right. */
  function Placeholders(s: string): seq<nat>
    decreases |s|
  {
    if |s| == 0 then []
    else if s[0] == '$' then
      var n := DigitRun(s[1..]);
      [DecimalValue(s[1..][..n])] + Placeholders(s[1..][n..])
    else Placeholders(s[1..])
  }

  /** `$1`, `$2`, ..., `$n`. */
  function Numbered(n: nat): (r: seq<nat>)
    ensures |r| == n
    ensures forall i :: 0 <= i < n ==> r[i] == i + 1
  {
    if n == 0 then [] else Numbered(n - 1) + [n]
  }

  lemma {:induction false} DigitRunAppend(x: string, b: string)
    requires |b| == 0 || !IsDigit(b[0])
    ensures DigitRun(x + b) == DigitRun(x)
    decreases |x|
  {
    if |x| > 0 && IsDigit(x[0]) {
      assert (x + b)[1..] == x[1..] + b;
      DigitRunAppend(x[1..], b);
    }
  }

  /** Text that does not start with a digit can be appended without
      changing the markers already written. */
  lemma {:induction false} PlaceholdersAppend(a: string, b: string)
    requires |b| == 0 || !IsDigit(b[0])
    ensures Placeholders(a + b) == Placeholders(a) + Placeholders(b)
    decreases |a|
  {
    if |a| == 0 {
      assert a + b == b;
    } else {
      var x := a[1..];
      assert (a + b)[1..] == x + b;
      if a[0] == '$' {
        DigitRunAppend(x, b);
        var n := DigitRun(x);
        assert (x + b)[..n] == x[..n];
        assert (x + b)[n..] == x[n..] + b;
        PlaceholdersAppend(x[n..], b);
      } else {
        PlaceholdersAppend(x, b);
      }
    }
  }

  lemma {:induction false} NoMarkers(s: string)
    requires '$' !in s
    ensures Placeholders(s) == []
    decreases |s|
  {
    if |s| > 0 {
      assert s[0] in s;
      assert forall c :: c in s[1..] ==> c in s;
      NoMarkers(s[1..]);
    }
  }

  /** `'$' + String(n)` is the single marker `n`. */
  lemma Marker(n: nat)
    ensures Placeholders("$" + DecimalString(n)) == [n]
  {
    var d := DecimalString(n);
    var s := "$" + d;
    assert s[1..] == d;
    assert d[..|d|] == d;
    DecimalRoundTrip(n);
    assert d[|d|..] == [];
  }

  // ---------------------------------------------------------------------
  // The two queries.

  /** `' ORDER BY id LIMIT $' + (n + 1) + ' OFFSET $' + (n + 2)`, appended
      to the data query once its `n` filter parameters are known. */
  function LimitClause(n: nat): string {
    " ORDER BY id LIMIT $" + DecimalString(n + 1) + " OFFSET $" + DecimalString(n + 2)
  }

  lemma LimitClauseMarkers(n: nat)
    ensures Placeholders(LimitClause(n)) == [n + 1, n + 2]
  {
    var limitPart := " ORDER BY id LIMIT " + ("$" + DecimalString(n + 1));
    var offsetPart := " OFFSET " + ("$" + DecimalString(n + 2));
    assert LimitClause(n) == limitPart + offsetPart;
    NoMarkers(" ORDER BY id LIMIT ");
    NoMarkers(" OFFSET ");
    Marker(n + 1);
    Marker(n + 2);
    PlaceholdersAppend(" ORDER BY id LIMIT ", "$" + DecimalString(n + 1));
    PlaceholdersAppend(" OFFSET ", "$" + DecimalString(n + 2));
    PlaceholdersAppend(limitPart, offsetPart);
  }

  /** The query texts and parameters: the district filter, when the
      `district` parameter is a non-empty string, goes into both queries as
      `$1`; LIMIT and OFFSET take the next two numbers. */
  function ListingQueries(district: Option<string>, limit: int, offset: int): Queries {
    var params := if Truthy(district) then [TextParam(district.value)] else [];
    var count := if Truthy(district) then CountBase + DistrictFilter else CountBase;
    var data := if Truthy(district) then DataBase + DistrictFilter else DataBase;
    Queries(
      Query(count, params),
      Query(data + LimitClause(|params|), params + [IntParam(limit), IntParam(offset)]))
  }

  lemma FilterMarkers()
    ensures Placeholders(DistrictFilter) == [1]
    ensures Placeholders(CountBase) == [] && Placeholders(DataBase) == []
  {
    assert DistrictFilter == " WHERE district = " + ("$" + DecimalString(1));
    NoMarkers(" WHERE district = ");
    Marker(1);
    PlaceholdersAppend(" WHERE district = ", "$" + DecimalString(1));
    NoMarkers(CountBase);
    NoMarkers(DataBase);
  }

  /** Both queries are numbered `$1 .. $n` in order, `n` being the number of
      parameters each is sent with: with a district LIMIT and OFFSET are
      `$2`/`$3`, without one `$1`/`$2`. */
  lemma QueriesNumbered(district: Option<string>, limit: int, offset: int)
    ensures var q := ListingQueries(district, limit, offset);
      && Placeholders(q.count.text) == Numbered(|q.count.params|)
      && Placeholders(q.data.text) == Numbered(|q.data.params|)
  {
    var k := if Truthy(district) then 1 else 0;
    var data := if Truthy(district) then DataBase + DistrictFilter else DataBase;
    FiltersNumbered(district);
    LimitClauseMarkers(k);
    PlaceholdersAppend(data, LimitClause(k));
    NumberedTwoMore(k);
  }

  /** Before the LIMIT clause, each query carries the filter's marker, if
      any. */
  lemma FiltersNumbered(district: Option<string>)
    ensures var k := if Truthy(district) then 1 else 0;
      && Placeholders(if Truthy(district) then CountBase + DistrictFilter else CountBase) == Numbered(k)
      && Placeholders(if Truthy(district) then DataBase + DistrictFilter else DataBase) == Numbered(k)
  {
    FilterMarkers();
    if Truthy(district) {
      PlaceholdersAppend(CountBase, DistrictFilter);
      PlaceholdersAppend(DataBase, DistrictFilter);
    }
  }

  lemma NumberedTwoMore(n: nat)
    ensures Numbered(n) + [n + 1, n + 2] == Numbered(n + 2)
  {
    assert Numbered(n + 2) == Numbered(n) + [n + 1] + [n + 2];
  }

  /** The queries the endpoint builds, with `+=` and `params.push` as the
      handler does. */
  method BuildQueries(district: Option<string>, limit: int, offset: int) returns (q: Queries)
    ensures q == ListingQueries(district, limit, offset)
    ensures Placeholders(q.count.text) == Numbered(|q.count.params|)
    ensures Placeholders(q.data.text) == Numbered(|q.data.params|)
  {
    var countQuery := CountBase;
    var dataQuery := DataBase;
    var params: seq<Param> := [];
    if Truthy(district) {
      countQuery := countQuery + DistrictFilter;
      dataQuery := dataQuery + DistrictFilter;
      params := params + [TextParam(district.value)];
    }
    dataQuery := dataQuery + LimitClause(|params|);
    q := Queries(Query(countQuery, params), Query(dataQuery, params + [IntParam(limit), IntParam(offset)]));
    QueriesNumbered(district, limit, offset);
  }

  // ---------------------------------------------------------------------
  // The endpoint.

  /** `GET /artisans`: `pageParam` and `limitParam` are what `parseInt` made
      of the query parameters; `countOf` and `rowsOf` answer the two
      queries. The count query is sent first, and an error from either
      query becomes the 500 reply. */
  method GetAllArtisans<R>(pageParam: ParsedInt, limitParam: ParsedInt, district: Option<string>,
                           countOf: Query -> Result<nat>, rowsOf: Query -> Result<seq<R>>)
    returns (reply: ListingReply<R>)
    ensures var page := OrDefault(pageParam, DefaultPage);
      var limit := OrDefault(limitParam, DefaultLimit);
      var q := ListingQueries(district, limit, (page - 1) * limit);
      && (countOf(q.count).Err? || rowsOf(q.data).Err? <==> reply == ListingError(InternalError))
      && (countOf(q.count).Ok? && rowsOf(q.data).Ok? ==>
            && reply.Listing?
            && reply.total == countOf(q.count).value
            && reply.data == rowsOf(q.data).value
            && reply.page == page && reply.limit == limit && limit != 0
            && reply.totalPages == TotalPages(reply.total, limit))
  {
    var page := OrDefault(pageParam, DefaultPage);
    var limit := OrDefault(limitParam, DefaultLimit);
    LimitNonZero(limitParam);
    var offset := (page - 1) * limit;
    var q := BuildQueries(district, limit, offset);
    var counted := countOf(q.count);
    if counted.Err? {
      return ListingError(InternalError);
    }
    var rows := rowsOf(q.data);
    if rows.Err? {
      return ListingError(InternalError);
    }
    var totalCount := counted.value;
    reply := Listing(totalCount, page, limit, TotalPages(totalCount, limit), rows.value);
  }
}
