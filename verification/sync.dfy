/** The paginated synchronisation of services/vishwakarmaService.js:
    authenticate, fetch pages 1, 2, 3, ... until an empty one, reconcile
    every page into the store, and record the run in the logger.

    The partner API is an oracle: the authentication reply, and the reply
    for each page number in order. */
module PartnerSync {
  import opened JsValues
  import opened Partner
  import opened Store
  import opened Reconciler
  import opened RunLogger

  /** What the authentication call yields: a transport error (axios threw,
      with the body of the error response when the server answered), or a
      response body with its `Token`/`token`, `Success`/`success` and
      `Message` fields. A success field is recorded by its truthiness. */
  datatype AuthReply =
    | AuthTransportError(error: string, responseData: Option<string>)
    | AuthResponse(
        tokenUpper: Option<string>,
        tokenLower: Option<string>,
        successUpper: bool,
        successLower: bool,
        message: Option<string>)

  const AuthFailedPrefix: string := "Authentication failed: "
  const UnknownError: string := "Unknown error"

  /** `authenticate()`: the token, or the error it throws. */
  function Authenticate(reply: AuthReply): (r: Result<string>)
    ensures r.Ok? <==>
      reply.AuthResponse? && (reply.successUpper || reply.successLower) && (Truthy(reply.tokenUpper) || Truthy(reply.tokenLower))
    ensures r.Ok? ==> Truthy(Some(r.value))
    ensures r.Ok? && Truthy(reply.tokenUpper) ==> r.value == reply.tokenUpper.value
    ensures r.Ok? && !Truthy(reply.tokenUpper) ==> Some(r.value) == reply.tokenLower
    ensures reply.AuthTransportError? ==> r == Err(reply.error)
    ensures reply.AuthResponse? && r.Err? ==>
      r.message == AuthFailedPrefix + (if Truthy(reply.message) then reply.message.value else UnknownError)
  {
    match reply
    case AuthTransportError(error, _) => Err(error)
    case AuthResponse(tokenUpper, tokenLower, successUpper, successLower, message) =>
      var token := if Truthy(tokenUpper) then tokenUpper else tokenLower;
      var success := successUpper || successLower;
      if success && Truthy(token) then Ok(token.value)
      else Err(AuthFailedPrefix + (if Truthy(message) then message.value else UnknownError))
  }

  /** What fetching one page yields: its records (`response.data.data || []`,
      so a missing list is an empty page), or the error it throws. */
  datatype PageReply = Records(artisans: seq<Artisan>) | FetchFailed(error: string)

  /** The reply for page `n` (numbered from 1); the partner has no data
      past the pages listed. */
  function Fetch(pages: seq<PageReply>, n: nat): PageReply {
    if 1 <= n <= |pages| then pages[n - 1] else Records([])
  }

  /** The page loop from page `n` on: the tables after it, the number of
      the page it stopped at (the empty page, or the page whose fetch
      threw), the totals of the pages saved, and the fetch error if any. */
  datatype PagesRun = PagesRun(tables: Tables, lastPage: nat, inserted: nat, updated: nat, failure: Option<string>)

  function RunPages(t: Tables, pages: seq<PageReply>, n: nat): (r: PagesRun)
    requires n >= 1
    ensures r.lastPage >= n
    decreases |pages| + 1 - n, 2
  {
    match Fetch(pages, n)
    case FetchFailed(error) => PagesRun(t, n, 0, 0, Some(error))
    case Records(artisans) => PageRun(t, pages, n, artisans)
  }

  /** Page `n` came back with these records: an empty page ends the loop. */
  function PageRun(t: Tables, pages: seq<PageReply>, n: nat, artisans: seq<Artisan>): (r: PagesRun)
    requires n >= 1 && Fetch(pages, n) == Records(artisans)
    ensures r.lastPage >= n
    decreases |pages| + 1 - n, 1
  {
    if |artisans| == 0 then PagesRun(t, n, 0, 0, None)
    else SaveAndContinue(t, pages, n, artisans)
  }

  /** The records of page `n` are saved and the loop goes on with page
      `n + 1` from the tables the save leaves. */
  function SaveAndContinue(t: Tables, pages: seq<PageReply>, n: nat, artisans: seq<Artisan>): (r: PagesRun)
    requires n >= 1 && Fetch(pages, n) == Records(artisans) && |artisans| > 0
    ensures r.lastPage > n
    decreases |pages| + 1 - n, 0
  {
    var saved := SaveAllIn(t, artisans);
    var rest := RunPages(saved.tables, pages, n + 1);
    PagesRun(rest.tables, rest.lastPage, saved.inserted + rest.inserted, saved.updated + rest.updated, rest.failure)
  }

  /** A run of the later pages with the totals of the earlier ones added. */
  function Shifted(r: PagesRun, inserted: nat, updated: nat): PagesRun {
    r.(inserted := inserted + r.inserted, updated := updated + r.updated)
  }

  /** What `syncArtisansByDate` returns. */
  datatype SyncResult = Synced(date: string, inserted: nat, updated: nat) | SyncFailed(date: string, error: string)

  /** The store, the history file and the result after a run. */
  datatype SyncOutcome = SyncOutcome(tables: Tables, stored: Stored, result: SyncResult)

  /** The session after the page loop reached `page` with these totals. */
  function Progress(s: Session, page: nat, inserted: nat, updated: nat): Session {
    s.(pagesFetched := page, recordsInserted := inserted, recordsUpdated := updated, totalRecords := inserted + updated)
  }

  /** How a run ends once authenticated: the session, with the page count
      and the totals of the page loop, is stored as SUCCESS, or as FAILED
      with the error of the fetch that threw. */
  function Finish(run: PagesRun, st: Stored, start: Session): (o: SyncOutcome)
    ensures o.tables == run.tables
    ensures o.result.date == start.targetDate
    ensures o.result.Synced? <==> run.failure.None?
  {
    var s := Progress(start, run.lastPage, run.inserted, run.updated);
    match run.failure
    case None =>
      SyncOutcome(run.tables, Entries(AppendCapped(Loaded(st), s.(status := Success))), Synced(start.targetDate, run.inserted, run.updated))
    case Some(error) =>
      SyncOutcome(run.tables, Entries(AppendCapped(Loaded(st), s.(status := Failed, error := Some(error)))), SyncFailed(start.targetDate, error))
  }

  /** `syncArtisansByDate(date, triggeredBy)` as a whole: every exception is
      caught, ends the session as FAILED and becomes a failed result. */
  function SyncIn(t: Tables, st: Stored, date: string, triggeredBy: string, auth: AuthReply, pages: seq<PageReply>): (o: SyncOutcome)
    ensures o.result.date == date
  {
    var start := NewSession(date, triggeredBy);
    match Authenticate(auth)
    case Err(error) =>
      SyncOutcome(t, Entries(AppendCapped(Loaded(st), start.(status := Failed, error := Some(error)))), SyncFailed(date, error))
    case Ok(_) => Finish(RunPages(t, pages, 1), st, start)
  }

  /** `syncArtisansByDate(date, triggeredBy)`, with the logger and the
      store it writes to. A fetch that throws leaves the page loop for the
      catch block, which ends the session as FAILED. */
  method SyncArtisansByDate(logger: DataFetchLogger, db: Database, date: string, triggeredBy: string, auth: AuthReply, pages: seq<PageReply>)
    returns (result: SyncResult)
    modifies logger, db
    ensures SyncOutcome(db.Snapshot(), logger.stored, result) == SyncIn(old(db.Snapshot()), old(logger.stored), date, triggeredBy, auth, pages)
    ensures logger.currentSession == None
  {
    logger.StartSession(date, triggeredBy);
    var token := Authenticate(auth);
    if token.Err? {
      logger.EndSessionError(token.message);
      return SyncFailed(date, token.message);
    }
    var failure, totalInserted, totalUpdated := FetchPages(logger, db, pages, NewSession(date, triggeredBy));
    match failure
    case None =>
      logger.EndSessionSuccess();
      return Synced(date, totalInserted, totalUpdated);
    case Some(error) =>
      logger.EndSessionError(error);
      return SyncFailed(date, error);
  }

  /** The page loop of `syncArtisansByDate`: fetch page 1, 2, 3, ... and
      save each until a page is empty or a fetch throws, recording the page
      number and the counts in the session as it goes. */
  method FetchPages(logger: DataFetchLogger, db: Database, pages: seq<PageReply>, ghost start: Session)
    returns (failure: Option<string>, totalInserted: nat, totalUpdated: nat)
    requires logger.currentSession == Some(start)
    requires start.pagesFetched == 0 && start.recordsInserted == 0 && start.recordsUpdated == 0 && start.totalRecords == 0
    modifies logger, db
    ensures var run := RunPages(old(db.Snapshot()), pages, 1);
      && run == PagesRun(db.Snapshot(), run.lastPage, totalInserted, totalUpdated, failure)
      && logger.currentSession == Some(Progress(start, run.lastPage, totalInserted, totalUpdated))
    ensures logger.stored == old(logger.stored)
  {
    ghost var tables := db.Snapshot();
    ghost var run := RunPages(tables, pages, 1);
    var page := 1;
    totalInserted, totalUpdated := 0, 0;
    var hasMoreData := true;
    while hasMoreData
      invariant 1 <= page <= |pages| + 1
      invariant hasMoreData
      invariant logger.stored == old(logger.stored)
      invariant logger.currentSession == Some(Progress(start, page - 1, totalInserted, totalUpdated))
      invariant db.Snapshot() == tables
      invariant Shifted(RunPages(tables, pages, page), totalInserted, totalUpdated) == run
      decreases |pages| + 1 - page
    {
      logger.UpdatePageFetch(page);
      match Fetch(pages, page)
      case FetchFailed(error) =>
        return Some(error), totalInserted, totalUpdated;
      case Records(artisans) =>
        if |artisans| == 0 {
          hasMoreData := false;
          break;
        }
        var inserted, updated;
        inserted, updated, tables := SavePage(db, tables, pages, page, artisans);
        totalInserted := totalInserted + inserted;
        totalUpdated := totalUpdated + updated;
        logger.UpdateRecords(inserted, updated);
        page := page + 1;
    }
    return None, totalInserted, totalUpdated;
  }

  /** Saving one page with records advances the page loop by that page. */
  method SavePage(db: Database, ghost t: Tables, pages: seq<PageReply>, page: nat, artisans: seq<Artisan>)
    returns (inserted: nat, updated: nat, ghost u: Tables)
    requires db.Snapshot() == t
    requires page >= 1 && Fetch(pages, page) == Records(artisans) && |artisans| > 0
    modifies db
    ensures db.Snapshot() == u
    ensures RunPages(t, pages, page) == Shifted(RunPages(u, pages, page + 1), inserted, updated)
  {
    RunPagesSavesPage(t, pages, page, artisans);
    inserted, updated := SaveArtisansToDB(db, Some(artisans));
    u := db.Snapshot();
  }

  /** A page with records is saved, and the loop goes on with the next
      page from the tables the save leaves. */
  lemma RunPagesSavesPage(t: Tables, pages: seq<PageReply>, n: nat, artisans: seq<Artisan>)
    requires n >= 1 && Fetch(pages, n) == Records(artisans) && |artisans| > 0
    ensures var saved := SaveAllIn(t, artisans);
      RunPages(t, pages, n) == Shifted(RunPages(saved.tables, pages, n + 1), saved.inserted, saved.updated)
  {
    assert RunPages(t, pages, n) == PageRun(t, pages, n, artisans) == SaveAndContinue(t, pages, n, artisans);
  }

  // ------------------------------------------------------------------
  // Properties of the page loop.

  /** The number of records on pages `n` up to, not including, `m`. */
  function RecordsOnPages(pages: seq<PageReply>, n: nat, m: nat): nat
    decreases if m > n then m - n else 0
  {
    if n >= m then 0
    else (match Fetch(pages, n) case Records(artisans) => |artisans| case FetchFailed(_) => 0) + RecordsOnPages(pages, n + 1, m)
  }

  /** Pages are fetched in order and the loop stops at the first page that
      is empty or whose fetch throws: every page before it had records. */
  lemma {:induction false} RunPagesStopsAtFirstEmpty(t: Tables, pages: seq<PageReply>, n: nat)
    requires n >= 1
    ensures var r := RunPages(t, pages, n);
      && (r.failure.None? ==> Fetch(pages, r.lastPage) == Records([]))
      && (r.failure.Some? ==> Fetch(pages, r.lastPage) == FetchFailed(r.failure.value))
      && forall k :: n <= k < r.lastPage ==> Fetch(pages, k).Records? && |Fetch(pages, k).artisans| > 0
    decreases |pages| + 1 - n
  {
    match Fetch(pages, n)
    case FetchFailed(_) =>
    case Records(artisans) =>
      if |artisans| > 0 {
        RunPagesSavesPage(t, pages, n, artisans);
        RunPagesStopsAtFirstEmpty(SaveAllIn(t, artisans).tables, pages, n + 1);
      }
  }

  /** The totals count every record of the pages before the stopping page
      exactly once, as inserted or as updated. */
  lemma {:induction false} RunPagesTotals(t: Tables, pages: seq<PageReply>, n: nat)
    requires n >= 1
    ensures var r := RunPages(t, pages, n);
      r.inserted + r.updated == RecordsOnPages(pages, n, r.lastPage)
    decreases |pages| + 1 - n
  {
    match Fetch(pages, n)
    case FetchFailed(_) =>
    case Records(artisans) =>
      if |artisans| > 0 {
        var saved := SaveAllIn(t, artisans);
        RunPagesSavesPage(t, pages, n, artisans);
        SaveAllCounts(t, artisans);
        RunPagesTotals(saved.tables, pages, n + 1);
      }
  }

  /** The page loop keeps the category table a tree. */
  lemma {:induction false} RunPagesKeepsTree(t: Tables, pages: seq<PageReply>, n: nat)
    requires n >= 1 && CategoryTreeOk(t)
    ensures CategoryTreeOk(RunPages(t, pages, n).tables)
    decreases |pages| + 1 - n
  {
    match Fetch(pages, n)
    case FetchFailed(_) =>
    case Records(artisans) =>
      if |artisans| > 0 {
        RunPagesSavesPage(t, pages, n, artisans);
        SaveAllKeepsTree(t, artisans);
        RunPagesKeepsTree(SaveAllIn(t, artisans).tables, pages, n + 1);
      }
  }

  /** The run is recorded as the newest history entry: a successful run
      as SUCCESS with the returned totals and `pages_fetched` equal to the
      number of the empty page; a failed one as FAILED with the error. */
  lemma SyncLogsOutcome(t: Tables, st: Stored, date: string, triggeredBy: string, auth: AuthReply, pages: seq<PageReply>)
    ensures var o := SyncIn(t, st, date, triggeredBy, auth, pages);
      var logs := Loaded(o.stored);
      var last := logs[|logs| - 1];
      && o.stored.Entries? && |logs| >= 1
      && last.targetDate == date && last.triggeredBy == triggeredBy
      && Balanced(last)
      && (o.result.Synced? ==>
            && last.status == Success
            && last.recordsInserted == o.result.inserted
            && last.recordsUpdated == o.result.updated
            && last.pagesFetched == RunPages(t, pages, 1).lastPage
            && Fetch(pages, last.pagesFetched) == Records([]))
      && (o.result.SyncFailed? ==> last.status == Failed && last.error == Some(o.result.error))
  {
    if Authenticate(auth).Ok? {
      RunPagesStopsAtFirstEmpty(t, pages, 1);
    }
  }

  /** A failed authentication fetches nothing and writes nothing. */
  lemma AuthFailureWritesNothing(t: Tables, st: Stored, date: string, triggeredBy: string, auth: AuthReply, pages: seq<PageReply>)
    requires Authenticate(auth).Err?
    ensures var o := SyncIn(t, st, date, triggeredBy, auth, pages);
      && o.tables == t
      && o.result == SyncFailed(date, Authenticate(auth).message)
      && Loaded(o.stored)[|Loaded(o.stored)| - 1].pagesFetched == 0
  {
  }

  /** Two pages of records and then an empty page: three pages fetched,
      and the totals count every record of the first two. */
  lemma TwoPagesThenEmpty(t: Tables, st: Stored, date: string, auth: AuthReply, p1: seq<Artisan>, p2: seq<Artisan>)
    requires Authenticate(auth).Ok?
    requires |p1| > 0 && |p2| > 0
    ensures var o := SyncIn(t, st, date, ManualTrigger, auth, [Records(p1), Records(p2)]);
      var logs := Loaded(o.stored);
      && o.result.Synced?
      && o.result.inserted + o.result.updated == |p1| + |p2|
      && logs[|logs| - 1].pagesFetched == 3
  {
    var pages := [Records(p1), Records(p2)];
    var s1 := SaveAllIn(t, p1);
    var s2 := SaveAllIn(s1.tables, p2);
    SaveAllCounts(t, p1);
    SaveAllCounts(s1.tables, p2);
    assert Fetch(pages, 1) == Records(p1);
    assert Fetch(pages, 2) == Records(p2);
    assert Fetch(pages, 3) == Records([]);
    RunPagesSavesPage(t, pages, 1, p1);
    RunPagesSavesPage(s1.tables, pages, 2, p2);
    assert RunPages(s2.tables, pages, 3) == PagesRun(s2.tables, 3, 0, 0, None);
  }
}
