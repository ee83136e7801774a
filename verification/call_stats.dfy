/** The call statistics pushed back to the partner by
    `pushCallStatsToVishwakarma(date)` in services/vishwakarmaService.js:
    the calls received on a date are counted per partner provider, and the
    counts are posted as a flat list, unless there is nothing to post.

    The SQL aggregate is modelled as a fold over the call events; each event
    carries the `source` and `source_id` of the account of the seller that
    was called, and the calendar day of the call. */
module CallStats {
  import opened JsValues
  import opened Store
  import opened PartnerSync

  /** One row of `user_account_calls` joined with its seller's account. */
  datatype CallEvent = CallEvent(source: Option<string>, sourceId: Option<string>, day: string)

  /** The WHERE clause: a partner account with a provider id, called on
      the given day. */
  predicate Counted(c: CallEvent, date: string) {
    c.source == Some(VishwakarmaSource) && c.sourceId.Some? && c.day == date
  }

  /** One group of the GROUP BY: a provider id and its number of calls. */
  datatype StatRow = StatRow(artisanId: string, receiveCalls: nat)

  /** No provider id occurs in two rows. */
  predicate Unique(rows: seq<StatRow>) {
    forall i, j :: 0 <= i < j < |rows| ==> rows[i].artisanId != rows[j].artisanId
  }

  /** `Unique`, stated row by row from the front. */
  predicate Distinct(rows: seq<StatRow>) {
    |rows| == 0 || (rows[0].artisanId !in Ids(rows[1..]) && Distinct(rows[1..]))
  }

  lemma {:induction false} DistinctIsUnique(rows: seq<StatRow>)
    requires Distinct(rows)
    ensures Unique(rows)
    decreases |rows|
  {
    if |rows| > 0 {
      DistinctIsUnique(rows[1..]);
      forall i, j | 0 <= i < j < |rows|
        ensures rows[i].artisanId != rows[j].artisanId
      {
        assert rows[j] == rows[1..][j - 1];
        if i == 0 {
          assert Ids(rows[1..])[j - 1] == rows[j].artisanId;
        } else {
          assert rows[i] == rows[1..][i - 1];
        }
      }
    }
  }

  /** The provider ids of the rows, in row order. */
  function Ids(rows: seq<StatRow>): (ids: seq<string>)
    ensures |ids| == |rows|
    ensures forall i :: 0 <= i < |rows| ==> ids[i] == rows[i].artisanId
  {
    if |rows| == 0 then [] else [rows[0].artisanId] + Ids(rows[1..])
  }

  /** The count recorded for `id`, or 0 when no row has it. */
  function CountOf(rows: seq<StatRow>, id: string): nat {
    if |rows| == 0 then 0
    else if rows[0].artisanId == id then rows[0].receiveCalls
    else CountOf(rows[1..], id)
  }

  /** One more call for `id`: its row is incremented, or a row with count 1
      is added after the others. */
  function Tally(rows: seq<StatRow>, id: string): (r: seq<StatRow>)
    ensures |r| >= |rows|
  {
    if |rows| == 0 then [StatRow(id, 1)]
    else if rows[0].artisanId == id then [rows[0].(receiveCalls := rows[0].receiveCalls + 1)] + rows[1..]
    else [rows[0]] + Tally(rows[1..], id)
  }

  /** The aggregate over the calls, with the groups in the order their
      first call appears. */
  function Aggregate(calls: seq<CallEvent>, date: string): seq<StatRow> {
    if |calls| == 0 then []
    else
      var rows := Aggregate(calls[..|calls| - 1], date);
      var c := calls[|calls| - 1];
      if Counted(c, date) then Tally(rows, c.sourceId.value) else rows
  }

  /** `COUNT(uac.id)` for one provider: the counted calls with its id. */
  function CountFor(calls: seq<CallEvent>, date: string, id: string): nat {
    if |calls| == 0 then 0
    else
      var c := calls[|calls| - 1];
      CountFor(calls[..|calls| - 1], date, id) + (if Counted(c, date) && c.sourceId == Some(id) then 1 else 0)
  }

  /** Tallying one call keeps the ids distinct and the counts positive,
      adds one to the count of `id` only, and adds `id` to the ids. */
  lemma {:induction false} TallyCounts(rows: seq<StatRow>, id: string)
    requires Distinct(rows)
    requires forall i :: 0 <= i < |rows| ==> rows[i].receiveCalls >= 1
    ensures var r := Tally(rows, id);
      && Distinct(r)
      && (forall i :: 0 <= i < |r| ==> r[i].receiveCalls >= 1)
      && (forall k :: CountOf(r, k) == CountOf(rows, k) + (if k == id then 1 else 0))
      && (forall k :: k in Ids(r) <==> k in Ids(rows) || k == id)
    decreases |rows|
  {
    var r := Tally(rows, id);
    if |rows| == 0 {
      assert Ids(r) == [id];
    } else if rows[0].artisanId == id {
      assert r[1..] == rows[1..];
      AbsentCountsZero(rows[1..], id);
    } else {
      var tail := rows[1..];
      TallyCounts(tail, id);
      assert r[1..] == Tally(tail, id);
      forall i | 0 <= i < |r|
        ensures r[i].receiveCalls >= 1
      {
        if i > 0 {
          assert r[i] == Tally(tail, id)[i - 1];
        }
      }
    }
  }

  /** An id that no row has is counted 0. */
  lemma {:induction false} AbsentCountsZero(rows: seq<StatRow>, id: string)
    requires id !in Ids(rows)
    ensures CountOf(rows, id) == 0
    decreases |rows|
  {
    if |rows| > 0 {
      assert Ids(rows) == [rows[0].artisanId] + Ids(rows[1..]);
      AbsentCountsZero(rows[1..], id);
    }
  }

  /** The GROUP BY is exact: one row per provider id that has a counted
      call, each carrying the number of its counted calls, and no row for
      any other id. */
  lemma {:induction false} AggregateExact(calls: seq<CallEvent>, date: string)
    ensures var rows := Aggregate(calls, date);
      && Distinct(rows)
      && (forall i :: 0 <= i < |rows| ==> rows[i].receiveCalls >= 1)
      && (forall k :: CountOf(rows, k) == CountFor(calls, date, k))
      && (forall k :: k in Ids(rows) <==> CountFor(calls, date, k) > 0)
    decreases |calls|
  {
    if |calls| > 0 {
      var prefix := calls[..|calls| - 1];
      var c := calls[|calls| - 1];
      AggregateExact(prefix, date);
      var rows := Aggregate(prefix, date);
      if Counted(c, date) {
        TallyCounts(rows, c.sourceId.value);
      }
    }
  }

  /** Under unique ids, a row's own count is what `CountOf` finds for it. */
  lemma {:induction false} CountOfRow(rows: seq<StatRow>, i: nat)
    requires Distinct(rows) && i < |rows|
    ensures CountOf(rows, rows[i].artisanId) == rows[i].receiveCalls
    decreases |rows|
  {
    if i > 0 {
      assert rows[i] == rows[1..][i - 1];
      assert Ids(rows[1..])[i - 1] == rows[i].artisanId;
      CountOfRow(rows[1..], i - 1);
    }
  }

  /** Each aggregated row counts exactly the counted calls of its provider. */
  lemma AggregateRowCounts(calls: seq<CallEvent>, date: string, i: nat)
    requires i < |Aggregate(calls, date)|
    ensures var row := Aggregate(calls, date)[i];
      row.receiveCalls == CountFor(calls, date, row.artisanId) && row.receiveCalls >= 1
  {
    AggregateExact(calls, date);
    CountOfRow(Aggregate(calls, date), i);
  }

  /** The aggregate is empty exactly when no call is counted. */
  lemma {:induction false} AggregateEmpty(calls: seq<CallEvent>, date: string)
    ensures |Aggregate(calls, date)| == 0 <==> forall i :: 0 <= i < |calls| ==> !Counted(calls[i], date)
    decreases |calls|
  {
    if |calls| > 0 {
      var prefix := calls[..|calls| - 1];
      AggregateEmpty(prefix, date);
      assert forall i :: 0 <= i < |prefix| ==> prefix[i] == calls[i];
    }
  }

  // ------------------------------------------------------------------
  // The payload and the push.

  /** One element of the posted list. */
  datatype PushEntry = PushEntry(artisanId: string, receiveCalls: nat, date: string)

  /** `stats.map(row => ({ArtisanId, ReceiveCalls: parseInt(row.ReceiveCalls), date}))`;
      the database returns the count as decimal text. */
  function Payload(rows: seq<StatRow>, date: string): (p: seq<PushEntry>)
    ensures |p| == |rows|
    ensures forall i :: 0 <= i < |p| ==> p[i] == PushEntry(rows[i].artisanId, rows[i].receiveCalls, date)
  {
    seq(|rows|, i requires 0 <= i < |rows| => PushEntry(rows[i].artisanId, ParsedCount(rows[i].receiveCalls), date))
  }

  /** `parseInt` of the count as the database returns it, decimal text:
      the count itself. */
  function ParsedCount(n: nat): (m: nat)
    ensures m == n
  {
    DecimalRoundTrip(n);
    DecimalValue(DecimalString(n))
  }

  /** What the POST of the payload yields: accepted with the response
      body, or the error it throws with the body of the error response when
      the partner answered. Response bodies are kept as their JSON text. */
  datatype PostReply = PostAccepted(response: string) | PostRejected(error: string, errorData: Option<string>)

  /** What `pushCallStatsToVishwakarma` returns: `{success: true, message,
      count, apiResponse}` (no `apiResponse` when nothing was posted) or
      `{success: false, message, error}`. */
  datatype PushResult =
    | PushOk(message: string, count: nat, apiResponse: Option<string>)
    | PushError(message: string, error: Option<string>)

  /** The list posted to the partner, if any, and the returned result. */
  datatype PushRun = PushRun(posted: Option<seq<PushEntry>>, result: PushResult)

  const NoDataMessage: string := "No data to push"
  const PushedMessage: string := "Data pushed successfully"

  /** `error.response ? error.response.data : null` for an error thrown by
      `authenticate()`: only a transport error can carry a response. */
  function AuthErrorData(auth: AuthReply): Option<string> {
    if auth.AuthTransportError? then auth.responseData else None
  }

  /** `pushCallStatsToVishwakarma(date)`. `queryError` is the error the
      aggregate query throws, if it does; a database error carries no
      response, so its `error` is null. */
  function PushCallStats(auth: AuthReply, queryError: Option<string>, calls: seq<CallEvent>, date: string, post: PostReply): (r: PushRun)
    ensures Authenticate(auth).Err? ==> r == PushRun(None, PushError(Authenticate(auth).message, AuthErrorData(auth)))
    ensures Authenticate(auth).Ok? && queryError.Some? ==> r == PushRun(None, PushError(queryError.value, None))
    ensures Authenticate(auth).Ok? && queryError.None? && |Aggregate(calls, date)| == 0 ==>
      r == PushRun(None, PushOk(NoDataMessage, 0, None))
    ensures r.posted.Some? <==> Authenticate(auth).Ok? && queryError.None? && |Aggregate(calls, date)| > 0
    ensures r.posted.Some? ==>
      && |r.posted.value| == |Aggregate(calls, date)|
      && (forall i :: 0 <= i < |r.posted.value| ==> r.posted.value[i].date == date)
    ensures r.posted.Some? && post.PostAccepted? ==> r.result == PushOk(PushedMessage, |r.posted.value|, Some(post.response))
    ensures r.posted.Some? && post.PostRejected? ==> r.result == PushError(post.error, post.errorData)
  {
    match Authenticate(auth)
    case Err(message) => PushRun(None, PushError(message, AuthErrorData(auth)))
    case Ok(_) =>
      if queryError.Some? then PushRun(None, PushError(queryError.value, None))
      else
        var stats := Aggregate(calls, date);
        if |stats| == 0 then PushRun(None, PushOk(NoDataMessage, 0, None))
        else
          var payload := Payload(stats, date);
          match post
          case PostAccepted(data) => PushRun(Some(payload), PushOk(PushedMessage, |payload|, Some(data)))
          case PostRejected(error, data) => PushRun(Some(payload), PushError(error, data))
  }

  /** The payload names every provider with a counted call exactly once,
      with its number of calls, and nobody else. */
  lemma PayloadExact(calls: seq<CallEvent>, date: string, id: string)
    ensures var p := Payload(Aggregate(calls, date), date);
      && (forall i, j :: 0 <= i < j < |p| ==> p[i].artisanId != p[j].artisanId)
      && (forall i :: 0 <= i < |p| ==> p[i].receiveCalls == CountFor(calls, date, p[i].artisanId))
      && ((exists i :: 0 <= i < |p| && p[i].artisanId == id) <==> CountFor(calls, date, id) > 0)
  {
    var rows := Aggregate(calls, date);
    AggregateExact(calls, date);
    forall i | 0 <= i < |rows|
      ensures rows[i].receiveCalls == CountFor(calls, date, rows[i].artisanId)
    {
      AggregateRowCounts(calls, date, i);
    }
    PayloadOfRows(rows, calls, date, id);
  }

  lemma PayloadOfRows(rows: seq<StatRow>, calls: seq<CallEvent>, date: string, id: string)
    requires Distinct(rows)
    requires forall i :: 0 <= i < |rows| ==> rows[i].receiveCalls == CountFor(calls, date, rows[i].artisanId)
    requires id in Ids(rows) <==> CountFor(calls, date, id) > 0
    ensures var p := Payload(rows, date);
      && (forall i, j :: 0 <= i < j < |p| ==> p[i].artisanId != p[j].artisanId)
      && (forall i :: 0 <= i < |p| ==> p[i].receiveCalls == CountFor(calls, date, p[i].artisanId))
      && ((exists i :: 0 <= i < |p| && p[i].artisanId == id) <==> CountFor(calls, date, id) > 0)
  {
    PayloadIds(rows, date);
    DistinctIsUnique(rows);
  }

  /** The payload lists the ids of the rows, in row order. */
  lemma PayloadIds(rows: seq<StatRow>, date: string)
    ensures var p := Payload(rows, date);
      forall k :: (exists i :: 0 <= i < |p| && p[i].artisanId == k) <==> k in Ids(rows)
  {
    var p := Payload(rows, date);
    forall k | k in Ids(rows)
      ensures exists i :: 0 <= i < |p| && p[i].artisanId == k
    {
      var m :| 0 <= m < |rows| && Ids(rows)[m] == k;
      assert p[m].artisanId == k;
    }
  }

  /** What is posted is that payload. */
  lemma PushPostsPayload(auth: AuthReply, queryError: Option<string>, calls: seq<CallEvent>, date: string, post: PostReply)
    requires PushCallStats(auth, queryError, calls, date, post).posted.Some?
    ensures PushCallStats(auth, queryError, calls, date, post).posted.value == Payload(Aggregate(calls, date), date)
  {
  }

  /** Nothing is posted when no call of a partner provider falls on the
      date, whatever else was called. */
  lemma NothingToPush(auth: AuthReply, calls: seq<CallEvent>, date: string, post: PostReply)
    requires Authenticate(auth).Ok?
    requires forall i :: 0 <= i < |calls| ==> !Counted(calls[i], date)
    ensures PushCallStats(auth, None, calls, date, post) == PushRun(None, PushOk(NoDataMessage, 0, None))
  {
    AggregateEmpty(calls, date);
  }
}
