/** The run-log endpoints of controllers/vishwakarmaLogsController.js:
    validation of the `date` and `limit` inputs and the replies built from
    the results of a sync, a push and the run logger's queries.

    Every handler is modelled as a function from its inputs (and the
    results of the calls it makes) to a `Reply`: an HTTP status and the
    JSON body. */
module LogsApi {
  import opened JsValues
  import opened RunLogger
  import opened Store
  import opened PartnerSync
  import opened CallStats

  /** The label manual API syncs are recorded under. */
  const ApiManualTrigger: string := "API_MANUAL"
  const DefaultRecentLimit := 20
  const MaxRecentLimit := 100
  /** The number of recent runs the comprehensive report includes. */
  const ReportRecent := 10

  const BadDate := "Invalid date format. Use YYYY-MM-DD format"
  const BadLimit := "Limit must be between 1 and 100"

  /** The JSON bodies. `Failure` is `{status: 'error', message, error}`;
      the others are `{status: 'success', message, ...}`. */
  datatype Body =
    | Failure(message: string, error: Option<string>)
    | SyncDone(message: string, date: string, inserted: nat, updated: nat, totalAffected: nat)
    | PushDone(message: string, result: PushResult)
    | SummaryFound(message: string, summary: Summary)
    | LogsFound(message: string, forDate: Option<string>, count: nat, logs: seq<Session>)
    | ReportMade(message: string, summary: Summary, totalRecordsProcessed: nat,
                 recentOperations: seq<Session>, lastFetch: Option<Session>)

  datatype Reply = Reply(status: nat, body: Body)

  // ---------------------------------------------------------------------
  // Dates: `/^\d{4}-\d{2}-\d{2}$/`.

  /** Four digits, '-', two digits, '-', two digits, and nothing else. */
  predicate IsDateFormat(s: string) {
    && |s| == 10
    && IsDigit(s[0]) && IsDigit(s[1]) && IsDigit(s[2]) && IsDigit(s[3])
    && s[4] == '-'
    && IsDigit(s[5]) && IsDigit(s[6])
    && s[7] == '-'
    && IsDigit(s[8]) && IsDigit(s[9])
  }

  function Pow10(w: nat): (p: nat)
    ensures p >= 1
  {
    if w == 0 then 1 else 10 * Pow10(w - 1)
  }

  /** The last `w` decimal digits of `n`, with leading zeros. */
  function Padded(n: nat, w: nat): (s: string)
    ensures |s| == w && AllDigits(s)
  {
    if w == 0 then [] else Padded(n / 10, w - 1) + [DigitChar(n % 10)]
  }

  /** The `YYYY-MM-DD` text of a year, month and day that fit their widths. */
  function FormatDate(year: nat, month: nat, day: nat): string
    requires year < 10000 && month < 100 && day < 100
  {
    Padded(year, 4) + "-" + Padded(month, 2) + "-" + Padded(day, 2)
  }

  lemma {:induction false} PaddedValue(n: nat, w: nat)
    requires n < Pow10(w)
    ensures DecimalValue(Padded(n, w)) == n
    decreases w
  {
    if w > 0 {
      var s := Padded(n, w);
      assert s[..|s| - 1] == Padded(n / 10, w - 1);
      PaddedValue(n / 10, w - 1);
    }
  }

  lemma {:induction false} PaddedOfDigits(s: string)
    requires AllDigits(s)
    ensures DecimalValue(s) < Pow10(|s|)
    ensures Padded(DecimalValue(s), |s|) == s
    decreases |s|
  {
    if |s| > 0 {
      var init := s[..|s| - 1];
      PaddedOfDigits(init);
      var v := DecimalValue(s);
      assert v / 10 == DecimalValue(init);
      assert DigitChar(v % 10) == s[|s| - 1];
      assert s == init + [s[|s| - 1]];
    }
  }

  /** The year, month and day a well-formed date text names. */
  function ParseDate(s: string): (ymd: (nat, nat, nat))
    requires IsDateFormat(s)
  {
    (DecimalValue(s[0..4]), DecimalValue(s[5..7]), DecimalValue(s[8..10]))
  }

  /** Writing a date out and parsing it back gives the same numbers. */
  lemma FormatThenParse(year: nat, month: nat, day: nat)
    requires year < 10000 && month < 100 && day < 100
    ensures IsDateFormat(FormatDate(year, month, day))
    ensures ParseDate(FormatDate(year, month, day)) == (year, month, day)
  {
    var s := FormatDate(year, month, day);
    assert s[0..4] == Padded(year, 4);
    assert s[5..7] == Padded(month, 2);
    assert s[8..10] == Padded(day, 2);
    PaddedValue(year, 4);
    PaddedValue(month, 2);
    PaddedValue(day, 2);
  }

  /** A text of that shape is the formatting of the numbers it names. */
  lemma ParseThenFormat(s: string)
    requires IsDateFormat(s)
    ensures var (y, m, d) := ParseDate(s);
      y < 10000 && m < 100 && d < 100 && FormatDate(y, m, d) == s
  {
    assert AllDigits(s[0..4]) && AllDigits(s[5..7]) && AllDigits(s[8..10]);
    PaddedOfDigits(s[0..4]);
    PaddedOfDigits(s[5..7]);
    PaddedOfDigits(s[8..10]);
    assert s == s[0..4] + "-" + s[5..7] + "-" + s[8..10];
  }

  /** The format test accepts exactly the formattings of a four-digit year, a
      two-digit month and a two-digit day: the calendar is not consulted. */
  lemma DateFormatExactly(s: string)
    ensures IsDateFormat(s) <==>
      exists y: nat, m: nat, d: nat :: y < 10000 && m < 100 && d < 100 && s == FormatDate(y, m, d)
  {
    if IsDateFormat(s) {
      ParseThenFormat(s);
      var (y, m, d) := ParseDate(s);
      assert s == FormatDate(y, m, d);
    }
    if exists y: nat, m: nat, d: nat :: y < 10000 && m < 100 && d < 100 && s == FormatDate(y, m, d) {
      var y: nat, m: nat, d: nat :| y < 10000 && m < 100 && d < 100 && s == FormatDate(y, m, d);
      FormatThenParse(y, m, d);
    }
  }

  /** Month 13 and day 45 pass the format test. */
  lemma NoCalendarCheck()
    ensures IsDateFormat("2025-13-45")
    ensures !IsDateFormat("2025-1-45") && !IsDateFormat("2025-01-045")
  {
  }

  /** The date a manual trigger works on: the body's date, which must be
      well formed, or `yesterday` when the body has none (or an empty one). */
  function RequestedDate(date: Option<string>, yesterday: string): (r: Result<string>)
    ensures !Truthy(date) ==> r == Ok(yesterday)
    ensures Truthy(date) ==> (r.Ok? <==> IsDateFormat(date.value))
    ensures Truthy(date) && r.Ok? ==> r.value == date.value
  {
    if !Truthy(date) then Ok(yesterday)
    else if IsDateFormat(date.value) then Ok(date.value)
    else Err(BadDate)
  }

  function BadRequest(message: string): Reply {
    Reply(400, Failure(message, None))
  }

  // ---------------------------------------------------------------------
  // Manual sync and push.

  /** The reply to a finished sync: 200 with the totals and their sum, or
      500 with the error. */
  function SyncReply(result: SyncResult): (r: Reply)
    ensures r.status == 200 <==> result.Synced?
    ensures r.status == 200 || r.status == 500
    ensures result.Synced? ==>
      && r.body.SyncDone? && r.body.date == result.date
      && r.body.inserted == result.inserted && r.body.updated == result.updated
      && r.body.totalAffected == result.inserted + result.updated
    ensures result.SyncFailed? ==> r.body == Failure("Sync failed", Some(result.error))
  {
    match result
    case Synced(date, inserted, updated) =>
      Reply(200, SyncDone("Sync completed successfully", date, inserted, updated, inserted + updated))
    case SyncFailed(_, error) => Reply(500, Failure("Sync failed", Some(error)))
  }

  /** `POST` manual sync: `sync(date, triggeredBy)` is the result of
      `syncArtisansByDate`, run only once the date is accepted, under the
      `API_MANUAL` label. */
  function TriggerManualSync(date: Option<string>, yesterday: string, sync: (string, string) -> SyncResult): (r: Reply)
    ensures RequestedDate(date, yesterday).Err? <==> r == BadRequest(BadDate)
    ensures RequestedDate(date, yesterday).Ok? ==>
      r == SyncReply(sync(RequestedDate(date, yesterday).value, ApiManualTrigger))
  {
    match RequestedDate(date, yesterday)
    case Err(message) => BadRequest(message)
    case Ok(d) => SyncReply(sync(d, ApiManualTrigger))
  }

  /** The reply to a finished push: 200 with the result when it succeeded,
      500 with the result's error payload otherwise. */
  function PushReply(result: PushResult): (r: Reply)
    ensures r.status == 200 <==> result.PushOk?
    ensures result.PushOk? ==> r.body == PushDone("Push completed successfully", result)
    ensures result.PushError? ==> r == Reply(500, Failure("Push failed", result.error))
  {
    match result
    case PushOk(_, _, _) => Reply(200, PushDone("Push completed successfully", result))
    case PushError(_, error) => Reply(500, Failure("Push failed", error))
  }

  /** `POST` manual push: `push(date)` is the result of
      `pushCallStatsToVishwakarma`, run only once the date is accepted. */
  function TriggerManualPushStats(date: Option<string>, yesterday: string, push: string -> PushResult): (r: Reply)
    ensures RequestedDate(date, yesterday).Err? <==> r == BadRequest(BadDate)
    ensures RequestedDate(date, yesterday).Ok? ==> r == PushReply(push(RequestedDate(date, yesterday).value))
  {
    match RequestedDate(date, yesterday)
    case Err(message) => BadRequest(message)
    case Ok(d) => PushReply(push(d))
  }

  /** A push with nothing to send is a success reply with count 0. */
  lemma EmptyPushSucceeds(auth: AuthReply, calls: seq<CallEvent>, date: string, post: PostReply)
    requires Authenticate(auth).Ok? && |Aggregate(calls, date)| == 0
    ensures PushReply(PushCallStats(auth, None, calls, date, post).result).status == 200
    ensures PushReply(PushCallStats(auth, None, calls, date, post).result).body.result.count == 0
  {
  }

  /** A manual API sync is stored under a label the summary counts neither
      as cron nor as manual, so the two counts fall short of the total. */
  lemma ApiSyncsUncounted(t: Tables, st: Stored, date: string, auth: AuthReply, pages: seq<PageReply>)
    ensures var o := SyncIn(t, st, date, ApiManualTrigger, auth, pages);
      var s := SummaryOf(o.stored);
      && s.Some?
      && s.value.cronTriggered + s.value.manualTriggered < s.value.totalFetchOperations
  {
    SyncLogsOutcome(t, st, date, ApiManualTrigger, auth, pages);
    var o := SyncIn(t, st, date, ApiManualTrigger, auth, pages);
    var logs := Loaded(o.stored);
    OtherLabelFallsShort(logs, |logs| - 1);
  }

  // ---------------------------------------------------------------------
  // Summary, recent history, history by date, report.

  /** The summary of an empty or missing history: every count 0, no last
      run. */
  const ZeroSummary := Summary(0, 0, 0, 0, 0, 0, 0, None)

  /** `GET` summary: `summary` is what `getSummary()` returned. */
  function SummaryReply(summary: Option<Summary>): (r: Reply)
    ensures r.status == 200 && r.body.SummaryFound?
    ensures summary.Some? ==> r.body.summary == summary.value
    ensures summary.None? ==> r.body.summary == ZeroSummary
  {
    match summary
    case None => Reply(200, SummaryFound("No fetch operations found", ZeroSummary))
    case Some(s) => Reply(200, SummaryFound("Summary retrieved successfully", s))
  }

  /** The summary endpoint over the stored history: the zeroed defaults
      unless the file holds an array. */
  lemma SummaryOfHistory(st: Stored)
    ensures var b := SummaryReply(SummaryOf(st)).body;
      && (st.Entries? ==> b.summary == Summarize(st.entries))
      && (!st.Entries? ==> b.summary.totalFetchOperations == 0 && b.summary.lastFetch.None?)
  {
  }

  /** `parseInt(limit) || 20`, accepted only within 1..100. */
  function RecentLimit(p: ParsedInt): (r: Result<int>)
    ensures r.Ok? <==> 1 <= OrDefault(p, DefaultRecentLimit) <= MaxRecentLimit
    ensures r.Ok? ==> r.value == OrDefault(p, DefaultRecentLimit)
    ensures p.NaN? ==> r == Ok(DefaultRecentLimit)
  {
    var limit := OrDefault(p, DefaultRecentLimit);
    if limit < 1 || limit > MaxRecentLimit then Err(BadLimit) else Ok(limit)
  }

  /** `GET` recent runs. */
  function RecentLogs(p: ParsedInt, st: Stored): (r: Reply)
    ensures r.status == 400 <==> RecentLimit(p).Err?
    ensures r.status == 400 ==> r == BadRequest(BadLimit)
    ensures r.status != 400 ==> r.status == 200 && r.body.LogsFound? && r.body.count == |r.body.logs|
  {
    match RecentLimit(p)
    case Err(message) => BadRequest(message)
    case Ok(limit) =>
      var logs := RecentHistory(st, limit);
      Reply(200, LogsFound("Retrieved " + DecimalString(|logs|) + " recent fetch operations", None, |logs|, logs))
  }

  /** An accepted limit returns the last `min(limit, n)` runs of the
      history, newest first. */
  lemma RecentLogsNewestFirst(p: ParsedInt, logs: seq<Session>)
    requires RecentLimit(p).Ok?
    ensures var b := RecentLogs(p, Entries(logs)).body;
      && |b.logs| == Min(RecentLimit(p).value, |logs|)
      && forall k :: 0 <= k < |b.logs| ==> b.logs[k] == logs[|logs| - 1 - k]
  {
    RecentHistoryNewestFirst(logs, RecentLimit(p).value);
  }

  /** `GET` runs for a date. */
  function LogsByDate(date: string, st: Stored): (r: Reply)
    ensures r.status == 400 <==> !IsDateFormat(date)
    ensures r.status == 400 ==> r == BadRequest(BadDate)
    ensures r.status != 400 ==>
      && r.status == 200 && r.body.LogsFound? && r.body.forDate == Some(date)
      && r.body.count == |r.body.logs|
      && forall s :: s in r.body.logs ==> s.targetDate == date
  {
    if !IsDateFormat(date) then BadRequest(BadDate)
    else
      var logs := HistoryForDate(st, date);
      Reply(200, LogsFound("Retrieved " + DecimalString(|logs|) + " fetch operations for " + date, Some(date), |logs|, logs))
  }

  /** The runs listed for a well-formed date are exactly the stored runs
      for that date, in stored order. */
  lemma LogsByDateExact(date: string, logs: seq<Session>)
    requires IsDateFormat(date)
    ensures LogsByDate(date, Entries(logs)).body.logs == ForDate(logs, date)
    ensures forall s :: s in logs && s.targetDate == date ==> s in LogsByDate(date, Entries(logs)).body.logs
  {
    ForDateMembers(logs, date);
  }

  /** `GET` comprehensive report: the summary (or the zeroed defaults), the
      records processed, the ten newest runs and the last run. */
  function Report(st: Stored): (r: Reply)
    ensures r.status == 200 && r.body.ReportMade?
    ensures r.body.totalRecordsProcessed == r.body.summary.totalRecordsInserted + r.body.summary.totalRecordsUpdated
    ensures SummaryOf(st).None? ==> r.body.summary == ZeroSummary && r.body.totalRecordsProcessed == 0 && r.body.lastFetch.None?
    ensures SummaryOf(st).Some? ==> r.body.summary == SummaryOf(st).value && r.body.lastFetch == SummaryOf(st).value.lastFetch
    ensures r.body.recentOperations == RecentHistory(st, ReportRecent)
  {
    var summary := SummaryOf(st);
    var shown := if summary.Some? then summary.value else ZeroSummary;
    var processed := if summary.Some? then summary.value.totalRecordsInserted + summary.value.totalRecordsUpdated else 0;
    var last := if summary.Some? then summary.value.lastFetch else None;
    Reply(200, ReportMade("Comprehensive report generated successfully", shown, processed,
                          RecentHistory(st, ReportRecent), last))
  }

  /** Over a history of balanced runs, the records processed are the sum of
      the runs' own totals, and the report's last run is the newest one. */
  lemma ReportProcessedIsTotal(logs: seq<Session>)
    requires forall i :: 0 <= i < |logs| ==> Balanced(logs[i])
    ensures Report(Entries(logs)).body.totalRecordsProcessed == SumTotal(logs)
    ensures |logs| > 0 ==> Report(Entries(logs)).body.lastFetch == Some(logs[|logs| - 1])
  {
    SumsBalanced(logs);
  }
}
