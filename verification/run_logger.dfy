/** The run logger of services/dataFetchLogger.js: one active session per
    logger, and a history of finished sessions kept in a file that holds at
    most the last 1000 of them. */
module RunLogger {
  import opened JsValues

  /** The history keeps at most this many sessions. */
  const MaxEntries: nat := 1000

  const CronTrigger: string := "CRON"
  const ManualTrigger: string := "MANUAL"

  datatype Status = InProgress | Success | Failed

  /** A fetch session. Session ids, timestamps, the duration and the error
      stack are not part of this model. */
  datatype Session = Session(
    triggeredBy: string,
    targetDate: string,
    status: Status,
    recordsInserted: nat,
    recordsUpdated: nat,
    totalRecords: nat,
    pagesFetched: nat,
    error: Option<string>)

  /** What reading the history file yields: no file, text that does not
      parse, an array of sessions, or a single value that is not an array. */
  datatype Stored = NoFile | Unparsable | Entries(entries: seq<Session>) | Single(entry: Session)

  /** A freshly started session: in progress, every counter 0, no error. */
  function NewSession(targetDate: string, triggeredBy: string): (s: Session)
    ensures s.status == InProgress && s.error == None
    ensures s.recordsInserted == 0 && s.recordsUpdated == 0 && s.totalRecords == 0 && s.pagesFetched == 0
    ensures s.targetDate == targetDate && s.triggeredBy == triggeredBy
  {
    Session(triggeredBy, targetDate, InProgress, 0, 0, 0, 0, None)
  }

  /** The running total agrees with the two counters. */
  predicate Balanced(s: Session) {
    s.totalRecords == s.recordsInserted + s.recordsUpdated
  }

  /** A session that may be stored in the history: finished and balanced. */
  predicate Finished(s: Session) {
    s.status != InProgress && Balanced(s)
  }

  /** The list `saveLog` starts from: the stored array, a stored single
      value wrapped into a list, or nothing when the file is missing or
      does not parse. */
  function Loaded(st: Stored): (l: seq<Session>)
    ensures st.Entries? ==> l == st.entries
    ensures st.Single? ==> l == [st.entry]
    ensures st.NoFile? || st.Unparsable? ==> l == []
  {
    match st
    case NoFile => []
    case Unparsable => []
    case Entries(entries) => entries
    case Single(entry) => [entry]
  }

  /** Appending a session and keeping only the last `MaxEntries`. */
  function AppendCapped(logs: seq<Session>, s: Session): (r: seq<Session>)
    ensures 1 <= |r| <= MaxEntries && |r| <= |logs| + 1 && r[|r| - 1] == s
  {
    var all := logs + [s];
    if |all| > MaxEntries then all[|all| - MaxEntries..] else all
  }

  /** The capped list is the newest part of the appended list: all of it
      while under the cap, exactly `MaxEntries` entries once at it. */
  lemma AppendCappedWindow(logs: seq<Session>, s: Session)
    ensures var r := AppendCapped(logs, s);
      && r == (logs + [s])[|logs| + 1 - |r|..]
      && (|logs| < MaxEntries ==> r == logs + [s])
      && (|logs| >= MaxEntries ==> |r| == MaxEntries)
  {
  }

  /** The history file stays within the cap and holds only finished,
      balanced sessions. */
  predicate HistoryOk(st: Stored) {
    && (st.Entries? ==> |st.entries| <= MaxEntries && forall i :: 0 <= i < |st.entries| ==> Finished(st.entries[i]))
    && (st.Single? ==> Finished(st.entry))
  }

  lemma {:induction false} AppendCappedFinished(logs: seq<Session>, s: Session)
    requires forall i :: 0 <= i < |logs| ==> Finished(logs[i])
    requires Finished(s)
    ensures forall i :: 0 <= i < |AppendCapped(logs, s)| ==> Finished(AppendCapped(logs, s)[i])
  {
    var r := AppendCapped(logs, s);
    AppendCappedWindow(logs, s);
    var k := |logs| + 1 - |r|;
    forall i | 0 <= i < |r|
      ensures Finished(r[i])
    {
      assert r[i] == (logs + [s])[k + i];
      if k + i < |logs| {
        assert (logs + [s])[k + i] == logs[k + i];
      }
    }
  }

  /** Saving a finished session keeps the history within its cap and made
      of finished sessions. */
  lemma SaveKeepsHistoryOk(st: Stored, s: Session)
    requires HistoryOk(st) && Finished(s)
    ensures HistoryOk(Entries(AppendCapped(Loaded(st), s)))
  {
    AppendCappedFinished(Loaded(st), s);
  }

  // ------------------------------------------------------------------
  // Queries over the history file.

  /** `logs.filter(log => log.target_date === date)`. */
  function ForDate(logs: seq<Session>, date: string): seq<Session> {
    if |logs| == 0 then []
    else if logs[0].targetDate == date then [logs[0]] + ForDate(logs[1..], date)
    else ForDate(logs[1..], date)
  }

  /** `getHistoryForDate(date)`: a non-array value or an unreadable file
      yields the empty list, since the filter then throws and is caught. */
  function HistoryForDate(st: Stored, date: string): (r: seq<Session>)
    ensures forall s :: s in r ==> s.targetDate == date
  {
    match st
    case Entries(entries) => ForDateMembers(entries, date); ForDate(entries, date)
    case _ => []
  }

  /** The filter keeps exactly the entries of the date. */
  lemma {:induction false} ForDateMembers(logs: seq<Session>, date: string)
    ensures forall s :: s in ForDate(logs, date) <==> s in logs && s.targetDate == date
    decreases |logs|
  {
    if |logs| > 0 {
      ForDateMembers(logs[1..], date);
      assert logs == [logs[0]] + logs[1..];
    }
  }

  /** The filter keeps stored order: filtering a joined list is joining the
      filtered parts. */
  lemma {:induction false} ForDateAppend(l1: seq<Session>, l2: seq<Session>, date: string)
    ensures ForDate(l1 + l2, date) == ForDate(l1, date) + ForDate(l2, date)
    decreases |l1|
  {
    if |l1| == 0 {
      assert l1 + l2 == l2;
    } else {
      assert (l1 + l2)[1..] == l1[1..] + l2;
      ForDateAppend(l1[1..], l2, date);
    }
  }

  /** Where `logs.slice(-limit)` starts: the last `limit` entries for a
      positive limit, all of them for 0 (since `-0` is 0), and all but the
      first `-limit` for a negative one. */
  function SliceStart(n: nat, limit: int): (k: nat)
    ensures k <= n
  {
    if limit > 0 then (if limit >= n then 0 else n - limit)
    else if -limit >= n then n
    else -limit
  }

  function Reversed(l: seq<Session>): (r: seq<Session>)
    ensures |r| == |l|
    ensures forall k :: 0 <= k < |l| ==> r[k] == l[|l| - 1 - k]
  {
    if |l| == 0 then [] else Reversed(l[1..]) + [l[0]]
  }

  /** `getRecentHistory(limit)`: `logs.slice(-limit).reverse()`, or the empty
      list when the file does not hold an array. */
  function RecentHistory(st: Stored, limit: int): seq<Session> {
    match st
    case Entries(entries) => Reversed(entries[SliceStart(|entries|, limit)..])
    case _ => []
  }

  function Min(a: int, b: int): int {
    if a <= b then a else b
  }

  /** A positive limit gives the last `min(limit, n)` entries, newest first. */
  lemma RecentHistoryNewestFirst(logs: seq<Session>, limit: int)
    requires limit >= 1
    ensures var r := RecentHistory(Entries(logs), limit);
      && |r| == Min(limit, |logs|)
      && forall k :: 0 <= k < |r| ==> r[k] == logs[|logs| - 1 - k]
  {
  }

  /** A zero limit returns the whole history, newest first. */
  lemma RecentHistoryZeroLimit(logs: seq<Session>)
    ensures RecentHistory(Entries(logs), 0) == Reversed(logs)
  {
    assert logs[0..] == logs;
  }

  // ------------------------------------------------------------------
  // The summary.

  function CountStatus(logs: seq<Session>, status: Status): nat {
    if |logs| == 0 then 0
    else (if logs[0].status == status then 1 else 0) + CountStatus(logs[1..], status)
  }

  function CountTrigger(logs: seq<Session>, trigger: string): nat {
    if |logs| == 0 then 0
    else (if logs[0].triggeredBy == trigger then 1 else 0) + CountTrigger(logs[1..], trigger)
  }

  function SumInserted(logs: seq<Session>): nat {
    if |logs| == 0 then 0 else logs[0].recordsInserted + SumInserted(logs[1..])
  }

  function SumUpdated(logs: seq<Session>): nat {
    if |logs| == 0 then 0 else logs[0].recordsUpdated + SumUpdated(logs[1..])
  }

  function SumTotal(logs: seq<Session>): nat {
    if |logs| == 0 then 0 else logs[0].totalRecords + SumTotal(logs[1..])
  }

  datatype Summary = Summary(
    totalFetchOperations: nat,
    successfulFetches: nat,
    failedFetches: nat,
    totalRecordsInserted: nat,
    totalRecordsUpdated: nat,
    cronTriggered: nat,
    manualTriggered: nat,
    lastFetch: Option<Session>)

  function Summarize(logs: seq<Session>): (r: Summary)
    ensures r.totalFetchOperations == |logs|
    ensures r.lastFetch.None? <==> |logs| == 0
    ensures r.lastFetch.Some? ==> r.lastFetch.value == logs[|logs| - 1]
  {
    Summary(
      |logs|,
      CountStatus(logs, Success),
      CountStatus(logs, Failed),
      SumInserted(logs),
      SumUpdated(logs),
      CountTrigger(logs, CronTrigger),
      CountTrigger(logs, ManualTrigger),
      if |logs| > 0 then Some(logs[|logs| - 1]) else None)
  }

  /** `getSummary()`: null unless the file holds an array. */
  function SummaryOf(st: Stored): (r: Option<Summary>)
    ensures r.Some? <==> st.Entries?
  {
    match st
    case Entries(entries) => Some(Summarize(entries))
    case _ => None
  }

  /** Successes and failures are at most all operations; they are all of
      them when no stored session is still in progress. */
  lemma {:induction false} OutcomesBounded(logs: seq<Session>)
    ensures CountStatus(logs, Success) + CountStatus(logs, Failed) <= |logs|
    ensures (forall i :: 0 <= i < |logs| ==> logs[i].status != InProgress) ==>
      CountStatus(logs, Success) + CountStatus(logs, Failed) == |logs|
    decreases |logs|
  {
    if |logs| > 0 {
      OutcomesBounded(logs[1..]);
      assert forall i :: 0 < i < |logs| ==> logs[1..][i - 1] == logs[i];
    }
  }

  /** Counting the entries of a label that is neither CRON nor MANUAL. */
  function CountOther(logs: seq<Session>): nat {
    if |logs| == 0 then 0
    else (if logs[0].triggeredBy != CronTrigger && logs[0].triggeredBy != ManualTrigger then 1 else 0) + CountOther(logs[1..])
  }

  /** Cron and manual runs are at most all operations; runs with any other
      label (such as the API's "API_MANUAL") are counted as neither. */
  lemma {:induction false} TriggersBounded(logs: seq<Session>)
    ensures CountTrigger(logs, CronTrigger) + CountTrigger(logs, ManualTrigger) + CountOther(logs) == |logs|
    ensures CountTrigger(logs, CronTrigger) + CountTrigger(logs, ManualTrigger) <= |logs|
    decreases |logs|
  {
    if |logs| > 0 {
      TriggersBounded(logs[1..]);
    }
  }

  /** An entry with another label makes the two counts fall short. */
  lemma {:induction false} OtherLabelFallsShort(logs: seq<Session>, i: nat)
    requires i < |logs| && logs[i].triggeredBy != CronTrigger && logs[i].triggeredBy != ManualTrigger
    ensures CountTrigger(logs, CronTrigger) + CountTrigger(logs, ManualTrigger) < |logs|
    decreases |logs|
  {
    TriggersBounded(logs);
    CountOtherPositive(logs, i);
  }

  lemma {:induction false} CountOtherPositive(logs: seq<Session>, i: nat)
    requires i < |logs| && logs[i].triggeredBy != CronTrigger && logs[i].triggeredBy != ManualTrigger
    ensures CountOther(logs) >= 1
    decreases |logs|
  {
    if i > 0 {
      CountOtherPositive(logs[1..], i - 1);
    }
  }

  /** Over balanced sessions, the inserted and updated totals add up to the
      sum of the per-session totals. */
  lemma {:induction false} SumsBalanced(logs: seq<Session>)
    requires forall i :: 0 <= i < |logs| ==> Balanced(logs[i])
    ensures SumInserted(logs) + SumUpdated(logs) == SumTotal(logs)
    decreases |logs|
  {
    if |logs| > 0 {
      assert Balanced(logs[0]);
      assert forall i :: 0 < i < |logs| ==> logs[1..][i - 1] == logs[i];
      SumsBalanced(logs[1..]);
    }
  }

  /** Appending a session adds its counters to the sums. */
  lemma {:induction false} SummaryAppend(logs: seq<Session>, s: Session)
    ensures SumInserted(logs + [s]) == SumInserted(logs) + s.recordsInserted
    ensures SumUpdated(logs + [s]) == SumUpdated(logs) + s.recordsUpdated
    ensures CountStatus(logs + [s], s.status) == CountStatus(logs, s.status) + 1
    decreases |logs|
  {
    if |logs| == 0 {
      assert logs + [s] == [s];
    } else {
      assert (logs + [s])[1..] == logs[1..] + [s];
      SummaryAppend(logs[1..], s);
    }
  }

  // ------------------------------------------------------------------
  // The logger object.

  /** A session with one page's counts added to its counters and the total
      recomputed from them: balanced whatever the total was before. */
  function AddRecords(s: Session, inserted: nat, updated: nat): (r: Session)
    ensures Balanced(r)
    ensures r.recordsInserted == s.recordsInserted + inserted && r.recordsUpdated == s.recordsUpdated + updated
    ensures r.(recordsInserted := s.recordsInserted, recordsUpdated := s.recordsUpdated, totalRecords := s.totalRecords) == s
  {
    var ins := s.recordsInserted + inserted;
    var upd := s.recordsUpdated + updated;
    s.(recordsInserted := ins, recordsUpdated := upd, totalRecords := ins + upd)
  }

  class DataFetchLogger {
    /** The session of the run in progress, if any. */
    var currentSession: Option<Session>
    /** The contents of the history file. */
    var stored: Stored

    /** The active session is in progress and balanced; the history obeys
        its cap and holds only finished sessions. */
    ghost predicate Valid()
      reads this
    {
      && (currentSession.Some? ==> currentSession.value.status == InProgress && Balanced(currentSession.value))
      && HistoryOk(stored)
    }

    /** A logger with no active session over the given history file. */
    constructor (file: Stored)
      ensures currentSession == None && stored == file
    {
      currentSession := None;
      stored := file;
    }

    /** `startSession(date, triggeredBy)`: any previous session is dropped. */
    method StartSession(targetDate: string, triggeredBy: string)
      modifies this
      ensures currentSession == Some(NewSession(targetDate, triggeredBy))
      ensures stored == old(stored)
      ensures old(HistoryOk(stored)) ==> Valid()
    {
      currentSession := Some(NewSession(targetDate, triggeredBy));
    }

    /** `updatePageFetch(n)`: overwrites the page count. */
    method UpdatePageFetch(pageNumber: nat)
      modifies this
      ensures old(currentSession).None? ==> currentSession == None
      ensures old(currentSession).Some? ==> currentSession == Some(old(currentSession).value.(pagesFetched := pageNumber))
      ensures stored == old(stored)
      ensures old(Valid()) ==> Valid()
    {
      if currentSession.Some? {
        currentSession := Some(currentSession.value.(pagesFetched := pageNumber));
      }
    }

    /** `updateRecords(inserted, updated)`: adds to both counters and
        recomputes the total from them. */
    method UpdateRecords(inserted: nat, updated: nat)
      modifies this
      ensures old(currentSession).None? ==> currentSession == None
      ensures old(currentSession).Some? ==> currentSession == Some(AddRecords(old(currentSession).value, inserted, updated))
      ensures stored == old(stored)
      ensures old(Valid()) ==> Valid()
    {
      if currentSession.Some? {
        currentSession := Some(AddRecords(currentSession.value, inserted, updated));
      }
    }

    /** `saveLog()`: the copy of the session is appended to what the file
        holds, and only the last `MaxEntries` are written back. */
    method SaveLog(entry: Session)
      modifies this
      ensures stored == Entries(AppendCapped(Loaded(old(stored)), entry))
      ensures currentSession == old(currentSession)
    {
      var logs := Loaded(stored);
      logs := logs + [entry];
      if |logs| > MaxEntries {
        logs := logs[|logs| - MaxEntries..];
      }
      stored := Entries(logs);
    }

    /** `endSessionSuccess()`: with no active session nothing happens. */
    method EndSessionSuccess()
      modifies this
      ensures old(currentSession).None? ==> currentSession == None && stored == old(stored)
      ensures old(currentSession).Some? ==>
        && currentSession == None
        && stored == Entries(AppendCapped(Loaded(old(stored)), old(currentSession).value.(status := Success)))
      ensures old(Valid()) ==> Valid()
    {
      if currentSession.None? {
        return;
      }
      ghost var wasValid := Valid();
      var s := currentSession.value.(status := Success);
      SaveLog(s);
      currentSession := None;
      if wasValid {
        SaveKeepsHistoryOk(old(stored), s);
      }
    }

    /** `endSessionError(error)`: the session is stored as FAILED with the
        error's message. */
    method EndSessionError(message: string)
      modifies this
      ensures old(currentSession).None? ==> currentSession == None && stored == old(stored)
      ensures old(currentSession).Some? ==>
        && currentSession == None
        && stored == Entries(AppendCapped(Loaded(old(stored)), old(currentSession).value.(status := Failed, error := Some(message))))
      ensures old(Valid()) ==> Valid()
    {
      if currentSession.None? {
        return;
      }
      ghost var wasValid := Valid();
      var s := currentSession.value.(status := Failed, error := Some(message));
      SaveLog(s);
      currentSession := None;
      if wasValid {
        SaveKeepsHistoryOk(old(stored), s);
      }
    }

    /** `getHistoryForDate(date)`: the stored sessions of that date, and
        nothing when the file does not hold an array. */
    method GetHistoryForDate(date: string) returns (r: seq<Session>)
      ensures forall s :: s in r ==> s.targetDate == date
      ensures stored.Entries? ==> forall s :: s in r <==> s in stored.entries && s.targetDate == date
      ensures stored.Entries? ==> r == ForDate(stored.entries, date)
      ensures !stored.Entries? ==> r == []
    {
      r := HistoryForDate(stored, date);
      if stored.Entries? {
        ForDateMembers(stored.entries, date);
      }
    }

    /** `getRecentHistory(limit)`: for a positive limit the last `limit`
        stored sessions, newest first. */
    method GetRecentHistory(limit: int) returns (r: seq<Session>)
      ensures stored.Entries? && limit >= 1 ==>
        && |r| == Min(limit, |stored.entries|)
        && forall k :: 0 <= k < |r| ==> r[k] == stored.entries[|stored.entries| - 1 - k]
      ensures stored.Entries? && limit == 0 ==> r == Reversed(stored.entries)
      ensures !stored.Entries? ==> r == []
    {
      r := RecentHistory(stored, limit);
      if stored.Entries? {
        if limit >= 1 {
          RecentHistoryNewestFirst(stored.entries, limit);
        } else if limit == 0 {
          RecentHistoryZeroLimit(stored.entries);
        }
      }
    }

    /** `getSummary()`: a summary exactly when the file holds an array, its
        operation count the number of stored sessions, its last fetch the
        newest one, and the outcome and trigger counts within the total. */
    method GetSummary() returns (r: Option<Summary>)
      ensures r.Some? <==> stored.Entries?
      ensures r.Some? ==>
        && r.value.totalFetchOperations == |stored.entries|
        && (r.value.lastFetch.None? <==> |stored.entries| == 0)
        && (r.value.lastFetch.Some? ==> r.value.lastFetch.value == stored.entries[|stored.entries| - 1])
        && r.value.successfulFetches + r.value.failedFetches <= r.value.totalFetchOperations
        && r.value.cronTriggered + r.value.manualTriggered <= r.value.totalFetchOperations
      ensures r == SummaryOf(stored)
    {
      r := SummaryOf(stored);
      if stored.Entries? {
        OutcomesBounded(stored.entries);
        TriggersBounded(stored.entries);
      }
    }
  }

  /** The session a finished run leaves at the end of the history. */
  lemma LastStoredIsSession(logs: seq<Session>, s: Session)
    ensures var r := AppendCapped(logs, s);
      SummaryOf(Entries(r)).value.lastFetch == Some(s)
  {
  }
}
