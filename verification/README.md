# Vishwakarma partner sync, run log and catalogue: a Dafny model

This project models the core of a marketplace backend that imports artisan
(provider) records from the Vishwakarma partner API. It also models the
endpoints that report on those imports.

- **Reconciler** (`saveArtisansToDB`). Each partner record is upserted into
  five tables keyed by natural keys:
  - user accounts by `('VISHWAKARMA', String(artisanId))`;
  - sellers by user account;
  - a three-level category tree by dotted hierarchy code (`cat`, `cat.sub`,
    `cat.sub.srv`);
  - seller services by `(seller, category, name)`;
  - service locations by seller service.

  It counts inserted and updated accounts.
- **Sync loop** (`syncArtisansByDate`). It authenticates, then fetches pages
  1, 2, 3, … until the first empty page. It saves every page, adds up the
  counts and reports progress to the run logger.
- **Call statistics push** (`pushCallStatsToVishwakarma`). Calls of partner
  providers on one day are grouped per provider. The push short-circuits when
  there is nothing to send; otherwise it builds one payload entry per
  provider.
- **Run logger** (`DataFetchLogger`). It has one optional active session and a
  history file capped at the 1000 newest runs. Three queries read it: by
  date, the newest N runs, and a summary.
- **Catalogue endpoint** (`getServiceCategories`). It merges the stored
  category blobs into a de-duplicated three-level tree, in which the first
  name seen for an id wins, and sorts the tree by category name.
- **Listing endpoint** (`getAllArtisans`). It covers page and limit defaults,
  the offset, the page count, and the `$n`-numbered SQL text.
- **Log endpoints** (`vishwakarmaLogsController.js`). They cover date and
  limit validation, the mapping of results to status codes, and the derived
  sums and zeroed defaults of the replies.

Files, one module each:

| file | module |
|---|---|
| `js_values.dfy` | `Option`/`Result`, JavaScript truthiness, `String(n)` with its parse-back |
| `hcode.dfy` | hierarchy codes |
| `partner.dfy` | record shapes |
| `store.dfy` | tables and a `Database` class with one method per `findOrCreate` |
| `reconciler.dfy` | `saveArtisansToDB` |
| `run_logger.dfy` | `DataFetchLogger` class and its queries |
| `sync.dfy` | authentication and the page loop |
| `call_stats.dfy` | the call statistics push |
| `ordered_merge.dfy` | an insertion-ordered JavaScript `Map` |
| `catalogue.dfy` | `getServiceCategories` |
| `artisan_listing.dfy` | `getAllArtisans` |
| `logs_api.dfy` | the log controller |

How the JavaScript is represented:

- Partner ids are natural numbers, with 0 standing for every falsy id (`0`,
  `null`, `undefined`, `""`).
- Null entries of a list are `None` entries.
- Each imperative routine is a method whose final state equals a
  specification function. The properties are proved as lemmas about those
  functions.

Where the code says something other than its own surrounding description,
the model follows the code:

- An account is counted (inserted or updated) before the category walk
  starts. So a record whose category walk throws is still counted, and, with
  no storage failure, `inserted + updated` is exactly the number of records.
- `getRecentHistory(0)` returns the whole history reversed, because
  `slice(-0)` is `slice(0)`.
- Runs triggered through the API are labelled `API_MANUAL`, so the summary
  counts them neither as cron nor as manual runs.

## Model

| member | source | states |
|---|---|---|
| JsValues.DecimalString | services/vishwakarmaService.js:113 | `String(serviceCategoryId)`, like every later code segment, is a non-empty run of digits with no leading zero, so it never holds the `.` separator |
| JsValues.DecimalRoundTrip | services/vishwakarmaService.js:296 | `parseInt` of a count's decimal text gives the count back; the same holds for the number after each `$` marker of controllers/artisanController.js:22 |
| JsValues.DecimalStringInjective | services/vishwakarmaService.js:127 | distinct ids give distinct code segments, which makes distinct sub and leaf codes under one parent |
| Hcode.RootHasNoParent | services/vishwakarmaService.js:113-120 | a root code `String(serviceCategoryId)` has one segment, so it names no parent, matching `parent_id: null` |
| Hcode.ChildNamesParent | services/vishwakarmaService.js:127-147 | stripping the last segment of a sub or leaf code gives back the parent's code |
| Hcode.ChildCodeInjective | services/vishwakarmaService.js:127-142 | two child codes are equal only for the same parent code and the same id |
| Hcode.PathCodeInjective | services/vishwakarmaService.js:113-142 | different id paths root→sub→service never share a code |
| Store.TreeOkOtherTables | services/vishwakarmaService.js:152-171 | creating seller-service and location rows keeps the category tree invariant |
| Store.FindOrCreateCategoryKeepsTree | services/vishwakarmaService.js:114-149 | `Category.findOrCreate` by hcode keeps the invariant when given the parent that its hcode names (null for a root): each row is under its own hcode, has a unique id, and points to the row of its hcode minus one segment |
| Store.Database.FindOrCreateAccount | services/vishwakarmaService.js:73-83 | returns the account under `(source, source_id)` with `created = false`, or inserts one with the defaults and a fresh id with `created = true`; the new tables are exactly that |
| Store.Database.UpdateAccount | services/vishwakarmaService.js:86-90 | only `fullname`, `mobile` and `last_location` of that account change |
| Store.Database.FindOrCreateSeller | services/vishwakarmaService.js:97-102 | find or create the seller by `user_account_id`; a found seller is unchanged |
| Store.Database.FindOrCreateCategory | services/vishwakarmaService.js:114-120 | find or create the category by hcode, with name and parent set only on creation |
| Store.Database.FindOrCreateService | services/vishwakarmaService.js:152-162 | find or create the seller service by `(seller, category, name)`, with coordinates set only on creation |
| Store.Database.FindOrCreateLocation | services/vishwakarmaService.js:165-171 | find or create the location by seller service, with latitude and longitude set only on creation |
| Reconciler.SaveServiceIn | services/vishwakarmaService.js:142-171 | a service step never touches accounts or sellers |
| Reconciler.SaveServicesIn | services/vishwakarmaService.js:137-172 | the service loop never touches accounts or sellers |
| Reconciler.SaveSubCategoryIn | services/vishwakarmaService.js:124-173 | a subcategory step never touches accounts or sellers |
| Reconciler.SaveSubCategoriesIn | services/vishwakarmaService.js:122-175 | the subcategory loop never touches accounts or sellers |
| Reconciler.SaveCategoryIn | services/vishwakarmaService.js:110-175 | a category step never touches accounts or sellers |
| Reconciler.SaveCategoriesIn | services/vishwakarmaService.js:104-176 | the category walk never touches accounts or sellers |
| Reconciler.SaveArtisanIn | services/vishwakarmaService.js:70-180 | a record counts as inserted exactly when no account had its key, and afterwards the account keys are the old ones plus its key |
| Reconciler.SaveServices | services/vishwakarmaService.js:137-172 | the imperative service loop leaves the tables, and reports a throw, as the service fold does |
| Reconciler.SaveSubCategories | services/vishwakarmaService.js:122-175 | the imperative subcategory loop agrees with its fold |
| Reconciler.SaveCategories | services/vishwakarmaService.js:104-176 | the imperative category loop agrees with its fold, including the throw that abandons the record |
| Reconciler.SaveArtisan | services/vishwakarmaService.js:71-180 | one record (account, refresh, seller, caught category walk) agrees with `SaveArtisanIn` |
| Reconciler.SaveArtisansToDB | services/vishwakarmaService.js:64-183 | the counters and the final tables are those of the fold over the list; a null list is the empty list |
| Reconciler.SaveNothing | services/vishwakarmaService.js:65 | an empty or null list returns `{inserted: 0, updated: 0}` and leaves every table as it was |
| Reconciler.SaveAllCounts | services/vishwakarmaService.js:85-94 | every record moves exactly one counter, so `inserted + updated` is the number of records |
| Reconciler.SaveAllKeys | services/vishwakarmaService.js:73-83 | after a run the accounts are the old ones plus one per distinct record key |
| Reconciler.SaveAllInserted | services/vishwakarmaService.js:73-94 | `inserted` is the number of distinct record keys that had no account before the run |
| Reconciler.SaveArtisanRefreshesAccount | services/vishwakarmaService.js:73-102 | the account carries the record's name, mobile and coordinates; an existing one keeps its id, roles and source key; a new one gets the next id, the ARTISAN roles and the VISHWAKARMA key; the account has a seller |
| Reconciler.SaveServicesOk | services/vishwakarmaService.js:138-139 | the service loop runs to the end exactly when no service entry is null |
| Reconciler.SaveSubCategoryOk | services/vishwakarmaService.js:124-139 | a subcategory runs to the end exactly when it is well formed |
| Reconciler.SaveSubCategoriesOk | services/vishwakarmaService.js:122-124 | the subcategory loop runs to the end exactly when no entry is null and none holds a null service |
| Reconciler.SaveCategoryOk | services/vishwakarmaService.js:110-139 | a category runs to the end exactly when it holds no null subcategory or service |
| Reconciler.SaveCategoriesOk | services/vishwakarmaService.js:104-139 | the category walk runs to the end exactly when no category it enters holds a null subcategory or service; null categories and falsy ids never throw |
| Reconciler.SaveServiceGrows | services/vishwakarmaService.js:142-171 | a service step keeps every existing row unchanged |
| Reconciler.SaveServicesGrows | services/vishwakarmaService.js:137-172 | the service loop keeps every existing row unchanged |
| Reconciler.SaveSubCategoryGrows | services/vishwakarmaService.js:127-173 | a subcategory step keeps every existing row unchanged |
| Reconciler.SaveSubCategoriesGrows | services/vishwakarmaService.js:122-175 | the subcategory loop keeps every existing row unchanged |
| Reconciler.SaveCategoryGrows | services/vishwakarmaService.js:113-175 | a category step keeps every existing row unchanged |
| Reconciler.SaveCategoriesGrows | services/vishwakarmaService.js:109-176 | the category walk keeps every existing row unchanged |
| Reconciler.SaveArtisanGrows | services/vishwakarmaService.js:73-180 | a record keeps every row, changing only the refreshed account fields |
| Reconciler.SaveAllGrows | services/vishwakarmaService.js:70-181 | a run never removes a row, and never changes one except for `fullname`, `mobile` and `last_location` of accounts: seller names, category names and parents, service coordinates and locations are write-once |
| Reconciler.SaveServiceCategories | services/vishwakarmaService.js:142-171 | after its leaf category, a service step writes no category row |
| Reconciler.SaveServiceKeepsTree | services/vishwakarmaService.js:142-149 | a service step keeps the category tree invariant |
| Reconciler.SaveServicesKeepsTree | services/vishwakarmaService.js:137-149 | the service loop keeps the tree invariant |
| Reconciler.SaveSubCategoryKeepsTree | services/vishwakarmaService.js:127-149 | a subcategory step keeps the tree invariant |
| Reconciler.SaveSubCategoriesKeepsTree | services/vishwakarmaService.js:122-149 | the subcategory loop keeps the tree invariant |
| Reconciler.SaveCategoryKeepsTree | services/vishwakarmaService.js:113-149 | a category step keeps the tree invariant |
| Reconciler.SaveCategoriesKeepsTree | services/vishwakarmaService.js:109-149 | the category walk keeps the tree invariant |
| Reconciler.SaveArtisanKeepsTree | services/vishwakarmaService.js:104-149 | a record keeps the tree invariant |
| Reconciler.SaveAllKeepsTree | services/vishwakarmaService.js:70-181 | a run keeps the category table a tree: roots have no parent, and every sub or leaf row's parent is the row whose hcode is its own minus the last segment |
| Reconciler.SaveServiceStable | services/vishwakarmaService.js:142-171 | on tables that already hold what a service step wrote, the step changes nothing |
| Reconciler.SaveServicesStable | services/vishwakarmaService.js:137-172 | the service loop on such tables changes nothing and throws as before |
| Reconciler.SaveSubCategoryStable | services/vishwakarmaService.js:127-173 | a subcategory step on such tables changes nothing |
| Reconciler.SaveSubCategoriesStable | services/vishwakarmaService.js:122-175 | the subcategory loop on such tables changes nothing |
| Reconciler.SaveCategoryStable | services/vishwakarmaService.js:113-175 | a category step on such tables changes nothing |
| Reconciler.SaveCategoriesStable | services/vishwakarmaService.js:109-176 | the category walk on such tables changes nothing |
| Reconciler.AccountStepStable | services/vishwakarmaService.js:73-91 | the second time, the account is found under the same id and only refreshed |
| Reconciler.SellerStepGrows | services/vishwakarmaService.js:97-102 | the seller step keeps every existing row |
| Reconciler.SellerStepStable | services/vishwakarmaService.js:97-102 | the second time, the seller is found and nothing changes |
| Reconciler.SaveArtisanStable | services/vishwakarmaService.js:73-180 | a record seen before counts as updated and creates no row |
| Reconciler.SaveAllStable | services/vishwakarmaService.js:70-181 | rerunning a list on tables that kept the first run's rows inserts 0, updates every record and creates no row of any table |
| Reconciler.SaveAllIdempotent | services/vishwakarmaService.js:64-183 | processing the same list twice in a row: the second run reports `inserted = 0` and creates no account, seller, category, seller-service or location row |
| Reconciler.Walked | services/vishwakarmaService.js:110 | the categories that pass the guard all have a truthy id |
| Reconciler.SkippedCategoriesIgnored | services/vishwakarmaService.js:104-110 | null categories and categories with a falsy id have no effect: the walk equals the walk over the guarded entries, and a non-array blob is a one-element list |
| Reconciler.SaveCategoriesAppend | services/vishwakarmaService.js:109-176 | walking two category lists in turn is walking them joined, unless the first throws |
| Reconciler.ThrowAbandonsRecord | services/vishwakarmaService.js:71-180 | once a category of a record throws, the later categories of that record have no effect |
| Reconciler.SaveAllAppend | services/vishwakarmaService.js:70-181 | a record's outcome does not depend on earlier records having succeeded: the run over `xs + ys` is the run over `ys` after `xs`, with the counters added |
| Reconciler.RaviScenario | services/vishwakarmaService.js:64-183 | one record with one root, subcategory and service on empty tables gives one account, one seller, categories `1`, `1.2` and `1.2.3` linked root to leaf, one service and one location |
| RunLogger.NewSession | services/dataFetchLogger.js:21-36 | a new session is IN_PROGRESS with every counter 0, no error, and the given date and trigger |
| RunLogger.Loaded | services/dataFetchLogger.js:118-128 | `saveLog` starts from the stored array, wraps a single stored value in a list, and starts empty when the file is missing or does not parse |
| RunLogger.AppendCapped | services/dataFetchLogger.js:131-136 | after a save the history holds 1 to 1000 entries and ends with the saved session |
| RunLogger.AppendCappedWindow | services/dataFetchLogger.js:131-136 | the saved history is the newest part of the old history plus the session, in order: all of it under the cap, exactly 1000 entries at it |
| RunLogger.AppendCappedFinished | services/dataFetchLogger.js:131-136 | appending a finished session to finished sessions leaves only finished sessions |
| RunLogger.SaveKeepsHistoryOk | services/dataFetchLogger.js:112-146 | a save of a finished session into a history that obeys the cap and holds only finished, balanced sessions keeps it so (the cap alone holds after any save, by `AppendCapped`) |
| RunLogger.HistoryForDate | services/dataFetchLogger.js:151-159 | every entry returned has the requested `target_date` |
| RunLogger.ForDateMembers | services/dataFetchLogger.js:155 | the filter keeps exactly the entries of the date |
| RunLogger.ForDateAppend | services/dataFetchLogger.js:155 | the filter keeps stored order |
| RunLogger.SliceStart | services/dataFetchLogger.js:168 | where `slice(-limit)` starts lies within the list, for every sign of `limit` |
| RunLogger.Reversed | services/dataFetchLogger.js:168 | `reverse()` puts entry `n-1-k` at position `k` |
| RunLogger.RecentHistoryNewestFirst | services/dataFetchLogger.js:164-172 | a positive limit gives the last `min(limit, n)` entries, newest first |
| RunLogger.RecentHistoryZeroLimit | services/dataFetchLogger.js:168 | a limit of 0 gives the whole history reversed |
| RunLogger.Summarize | services/dataFetchLogger.js:182-191 | `total_fetch_operations` is the number of entries, and `last_fetch` is the last entry, or null exactly when the history is empty |
| RunLogger.SummaryOf | services/dataFetchLogger.js:177-197 | there is a summary exactly when the file holds an array |
| RunLogger.OutcomesBounded | services/dataFetchLogger.js:184-185 | successes plus failures are at most all operations, and all of them when nothing stored is in progress |
| RunLogger.TriggersBounded | services/dataFetchLogger.js:188-189 | cron plus manual plus runs with any other label are all operations, so cron plus manual is at most all of them |
| RunLogger.OtherLabelFallsShort | services/dataFetchLogger.js:188-189 | one entry with another label makes cron plus manual fall short of the total |
| RunLogger.SumsBalanced | services/dataFetchLogger.js:186-187 | over balanced sessions, the inserted total plus the updated total is the sum of the sessions' `total_records` |
| RunLogger.SummaryAppend | services/dataFetchLogger.js:183-187 | appending a session adds its counters to the sums and one to the count of its status |
| RunLogger.AddRecords | services/dataFetchLogger.js:56-62 | the counters grow by the page's counts and the total is recomputed from them, so the session is balanced; nothing else changes |
| RunLogger.DataFetchLogger.constructor | services/dataFetchLogger.js:13-15 | a new logger has no active session |
| RunLogger.DataFetchLogger.StartSession | services/dataFetchLogger.js:20-42 | the active session becomes a fresh IN_PROGRESS session for the date and trigger (any previous one is dropped), and the history is untouched |
| RunLogger.DataFetchLogger.UpdatePageFetch | services/dataFetchLogger.js:47-51 | `pages_fetched` is overwritten with the page number; nothing happens without an active session |
| RunLogger.DataFetchLogger.UpdateRecords | services/dataFetchLogger.js:56-62 | the counters are increased and the total kept equal to their sum; nothing happens without an active session |
| RunLogger.DataFetchLogger.SaveLog | services/dataFetchLogger.js:112-146 | the history becomes what the file held, plus the session, capped at the newest 1000 |
| RunLogger.DataFetchLogger.EndSessionSuccess | services/dataFetchLogger.js:67-84 | without an active session nothing happens; otherwise the session is saved as SUCCESS and no session is left active; the logger invariant is kept |
| RunLogger.DataFetchLogger.EndSessionError | services/dataFetchLogger.js:89-107 | likewise, with status FAILED and the error message stored |
| RunLogger.DataFetchLogger.GetHistoryForDate | services/dataFetchLogger.js:151-159 | every returned session has the date, and every stored session of the date is returned, in stored order and with repeats (the filter `ForDate`); nothing when the file holds no array |
| RunLogger.DataFetchLogger.GetRecentHistory | services/dataFetchLogger.js:164-172 | a positive limit returns the last `min(limit, n)` stored sessions newest first, a zero limit all of them reversed, and a file with no array nothing |
| RunLogger.DataFetchLogger.GetSummary | services/dataFetchLogger.js:177-197 | the summary of the stored history (`SummaryOf`), so exactly when the file holds an array; its operation count is the number of stored sessions, successes plus failures and cron plus manual runs are at most that count, and its last fetch is the newest, null exactly when none is stored |
| RunLogger.LastStoredIsSession | services/dataFetchLogger.js:190 | after a save, the summary's `last_fetch` is the session just saved |
| PartnerSync.Authenticate | services/vishwakarmaService.js:17-24 | a token is returned exactly when a success flag and a non-empty token are present (either capitalisation), preferring `Token`; otherwise the error is `Authentication failed: ` plus the message or `Unknown error`; a transport error is passed through |
| PartnerSync.RunPages | services/vishwakarmaService.js:193-224 | the page loop ends at a page no earlier than the one it starts at |
| PartnerSync.PageRun | services/vishwakarmaService.js:204-210 | an empty page ends the loop at that page |
| PartnerSync.SaveAndContinue | services/vishwakarmaService.js:213-223 | a page with records moves the loop past it |
| PartnerSync.Finish | services/vishwakarmaService.js:226-240 | the run reports the date, keeps the saved tables, and succeeds exactly when no fetch threw |
| PartnerSync.SyncIn | services/vishwakarmaService.js:185-241 | the result always carries the requested date |
| PartnerSync.SyncArtisansByDate | services/vishwakarmaService.js:185-241 | the tables, the history and the result are those of `SyncIn`, and no session is left active |
| PartnerSync.FetchPages | services/vishwakarmaService.js:193-224 | the imperative page loop ends with the tables, the last page, the totals and the failure of `RunPages`, and the session records that page and those totals |
| PartnerSync.SavePage | services/vishwakarmaService.js:213-223 | saving one page advances the loop by that page, with its counts added |
| PartnerSync.RunPagesSavesPage | services/vishwakarmaService.js:213-223 | a page with records is saved and the loop continues from the next page on the tables the save left |
| PartnerSync.RunPagesStopsAtFirstEmpty | services/vishwakarmaService.js:198-210 | pages are fetched in order, every page before the last had records, and the loop stops at the first empty page or the first fetch that throws |
| PartnerSync.RunPagesTotals | services/vishwakarmaService.js:213-216 | the totals count each record of the pages before the stopping page exactly once |
| PartnerSync.RunPagesKeepsTree | services/vishwakarmaService.js:198-224 | the page loop keeps the category table a tree |
| PartnerSync.SyncLogsOutcome | services/vishwakarmaService.js:189-239 | the run becomes the newest history entry with the date and trigger: on success as SUCCESS with the returned totals and `pages_fetched` equal to the empty page's number; on failure as FAILED with the error |
| PartnerSync.AuthFailureWritesNothing | services/vishwakarmaService.js:189-240 | a failed authentication fetches and writes nothing, returns `success: false` with the authentication error, and logs 0 pages |
| PartnerSync.TwoPagesThenEmpty | services/vishwakarmaService.js:193-231 | two pages of records then an empty one: success, the totals cover both pages, and 3 pages are logged |
| CallStats.TallyCounts | services/vishwakarmaService.js:268-279 | counting one call keeps one row per provider, adds one to that provider's count only, and adds the provider if new |
| CallStats.AggregateExact | services/vishwakarmaService.js:268-280 | the GROUP BY has one row per provider id with a counted call (a partner account with an id, called on the date), carrying its number of calls, and no other row |
| CallStats.AggregateRowCounts | services/vishwakarmaService.js:268-280 | each row's count is the number of counted calls of its provider, and at least 1 |
| CallStats.AggregateEmpty | services/vishwakarmaService.js:275-288 | the aggregate is empty exactly when no call is counted |
| CallStats.Payload | services/vishwakarmaService.js:294-298 | one payload entry per row, in order, with the row's id, its count and the requested date |
| CallStats.ParsedCount | services/vishwakarmaService.js:296 | `parseInt` of the count text the database returns is the count |
| CallStats.PushCallStats | services/vishwakarmaService.js:257-336 | an authentication failure gives an error with its message and, for an HTTP error, the response body; a failing aggregate query gives an error with its message and a null `error`; an empty aggregate gives `{success, 'No data to push', count: 0}`; something is posted exactly when authentication and query succeed with a non-empty aggregate, one entry per row dated with the argument, and the result is its length with the partner's `apiResponse`, or the post's error with its response body |
| CallStats.PayloadExact | services/vishwakarmaService.js:268-298 | the payload names each provider with a counted call exactly once, with its count, and nobody else |
| CallStats.PayloadIds | services/vishwakarmaService.js:294-298 | the payload's ids are exactly the aggregate's ids |
| CallStats.PushPostsPayload | services/vishwakarmaService.js:294-314 | what is posted is the payload of the aggregate |
| CallStats.NothingToPush | services/vishwakarmaService.js:288-291 | when the query succeeds with no counted call nothing is posted and the result is success with count 0 |
| OrderedMerge.Find | controllers/artisanController.js:127 | `map.get(id)` finds the first position holding the id, or reports absence |
| OrderedMerge.Admit | controllers/artisanController.js:119-125 | after `if (!map.has(id)) map.set(...)` the id is present |
| OrderedMerge.AdmitProperties | controllers/artisanController.js:119-125 | admitting keeps all stored entries, keeps ids unique and non-zero, leaves the map as it was when the id is present, and otherwise appends the entry at the end |
| OrderedMerge.AdmitKeepsItems | controllers/artisanController.js:119-125 | admitting leaves every stored entry in place |
| OrderedMerge.AdmitIds | controllers/artisanController.js:119-125 | the ids after admitting are the old ids plus the new one |
| OrderedMerge.FindPresent | controllers/artisanController.js:127 | with unique ids, a stored id is found at its own position |
| OrderedMerge.FindMembership | controllers/artisanController.js:119 | `has(id)` holds exactly when the id is among the stored ids |
| OrderedMerge.WithChildren | controllers/artisanController.js:143-155 | updating the nested map of an entry in place changes only that entry's children |
| Catalogue.Entries | controllers/artisanController.js:107-112 | an array blob is processed as it is, a single truthy value as a one-element list, and null as nothing |
| Catalogue.AddServicesOk | controllers/artisanController.js:145-155 | the services of a subcategory have unique, truthy ids |
| Catalogue.AddSubOk | controllers/artisanController.js:131-156 | one subcategory entry keeps subcategory and service ids unique and truthy |
| Catalogue.AddSubsOk | controllers/artisanController.js:129-157 | the subcategories of a category have unique, truthy ids, and so do their services |
| Catalogue.AddCategoryOk | controllers/artisanController.js:115-158 | one category entry keeps ids unique and truthy at every level |
| Catalogue.AddCategoriesOk | controllers/artisanController.js:114-159 | one blob keeps ids unique and truthy at every level |
| Catalogue.MergeRowsOk | controllers/artisanController.js:104-160 | whatever is stored, the merged catalogue has no duplicate and no falsy id among categories, within each category's subcategories, or within each subcategory's services |
| Catalogue.AddServicesGrow | controllers/artisanController.js:146-155 | later services never move or rename an earlier one |
| Catalogue.AddSubGrow | controllers/artisanController.js:133-156 | a subcategory entry never moves or renames an earlier subcategory or service |
| Catalogue.AddSubsGrow | controllers/artisanController.js:130-157 | a list of subcategory entries never moves or renames earlier ones |
| Catalogue.AddCategoryGrow | controllers/artisanController.js:117-158 | a category entry never moves or renames an earlier category, subcategory or service |
| Catalogue.AddCategoriesGrow | controllers/artisanController.js:114-159 | a blob never moves or renames earlier nodes |
| Catalogue.MergeRowsGrow | controllers/artisanController.js:104-160 | more stored values never drop, move or rename a node: the first name wins and insertion order is kept at every level |
| Catalogue.FirstNameWins | controllers/artisanController.js:104-160 | category 7 stored as "Carpentry" and then as "Woodwork" keeps "Carpentry" with the subcategories of both in first-seen order, and null or falsy-id entries add nothing |
| Catalogue.AddServicesIds | controllers/artisanController.js:146-155 | a service id is listed exactly when it was before or a non-null entry carries it as a truthy id |
| Catalogue.AddCategoryIds | controllers/artisanController.js:115-125 | a category entry adds its id exactly when it is non-null with a truthy id |
| Catalogue.AddCategoriesIds | controllers/artisanController.js:114-125 | a blob adds exactly the truthy ids of its non-null entries |
| Catalogue.MergeRowsIds | controllers/artisanController.js:104-125 | a category is listed exactly when some stored value holds a non-null entry with that truthy id |
| Catalogue.InsertByName | controllers/artisanController.js:174 | insertion adds exactly one category |
| Catalogue.SortByName | controllers/artisanController.js:174 | sorting is a permutation |
| Catalogue.InsertByNameSorted | controllers/artisanController.js:174 | under a total preorder, inserting into a sorted list keeps it sorted |
| Catalogue.SortByNameSorted | controllers/artisanController.js:174 | the sorted catalogue is in name order and is a permutation of the merged one |
| Catalogue.CollectServices | controllers/artisanController.js:145-156 | the `forEach` over services builds the service fold |
| Catalogue.CollectSubCategories | controllers/artisanController.js:129-158 | the `forEach` over subcategories, which updates the stored entry's services in place, builds the subcategory fold |
| Catalogue.CollectCategories | controllers/artisanController.js:114-159 | the `forEach` over categories builds the category fold |
| Catalogue.GetServiceCategories | controllers/artisanController.js:96-186 | a query error gives 500 `Internal Server Error`; otherwise `count` is the length of `data`, which is the sorted merge of all stored values: well formed, listing exactly the stored truthy category ids, and in name order |
| Catalogue.SortedKeepsCatalogue | controllers/artisanController.js:163-174 | sorting keeps the catalogue well formed and its set of ids |
| ArtisanListing.TotalPagesIsCeiling | controllers/artisanController.js:36 | `Math.ceil(total / limit)` is the least integer not below the quotient, for both signs of `limit` |
| ArtisanListing.PageHasRows | controllers/artisanController.js:8-36 | with a positive limit, page `p` starts before the end of the rows exactly when `p <= totalPages` |
| ArtisanListing.LimitNonZero | controllers/artisanController.js:7 | the limit, `parseInt` falling back to 9999 on NaN or 0, is never 0: it is the parsed number when that is non-zero, otherwise 9999 |
| ArtisanListing.PlaceholdersAppend | controllers/artisanController.js:17-22 | appending text that does not start with a digit keeps the markers already written |
| ArtisanListing.Marker | controllers/artisanController.js:22 | `'$' + n` is the single marker `n` |
| ArtisanListing.LimitClauseMarkers | controllers/artisanController.js:22 | the LIMIT/OFFSET clause after `n` parameters holds markers `n+1` and `n+2` |
| ArtisanListing.FilterMarkers | controllers/artisanController.js:12-18 | the base queries hold no marker, and the district filter holds `$1` |
| ArtisanListing.FiltersNumbered | controllers/artisanController.js:16-20 | with a district both queries carry `$1`, and without one no marker |
| ArtisanListing.QueriesNumbered | controllers/artisanController.js:12-29 | each query's markers are `$1 .. $n`, with `n` the number of values it is sent with: LIMIT/OFFSET are `$2`/`$3` with a district and `$1`/`$2` without |
| ArtisanListing.BuildQueries | controllers/artisanController.js:12-22 | the `+=` and `push` building gives those query texts and parameters, numbered `$1 .. $n` |
| ArtisanListing.GetAllArtisans | controllers/artisanController.js:4-43 | page and limit default to 1 and 9999, and the offset is `(page-1)*limit`; an error from either query gives 500, otherwise the reply carries the count, the rows, the page, a non-zero limit and `Math.ceil(total/limit)` |
| LogsApi.FormatThenParse | controllers/vishwakarmaLogsController.js:73 | a four-digit year, two-digit month and two-digit day written as `YYYY-MM-DD` pass the format test and parse back to themselves |
| LogsApi.ParseThenFormat | controllers/vishwakarmaLogsController.js:73 | a text passing the format test is the formatting of the numbers it names |
| LogsApi.DateFormatExactly | controllers/vishwakarmaLogsController.js:73-79 | `/^\d{4}-\d{2}-\d{2}$/` accepts exactly such formattings |
| LogsApi.NoCalendarCheck | controllers/vishwakarmaLogsController.js:73-79 | "2025-13-45" is accepted; "2025-1-45" and "2025-01-045" are rejected |
| LogsApi.RequestedDate | controllers/vishwakarmaLogsController.js:64-80 | a missing or empty date becomes yesterday's; a supplied one is accepted, unchanged, exactly when it passes the format test |
| LogsApi.SyncReply | controllers/vishwakarmaLogsController.js:87-104 | 200 exactly when the sync succeeded, with the date, the totals and `total_affected = inserted + updated`; otherwise 500 `Sync failed` with the error |
| LogsApi.TriggerManualSync | controllers/vishwakarmaLogsController.js:62-114 | a bad date gives 400 and runs nothing; otherwise the sync runs for that date under `API_MANUAL` and its result is mapped as above |
| LogsApi.PushReply | controllers/vishwakarmaLogsController.js:33-45 | 200 with the result exactly when the push succeeded, otherwise 500 `Push failed` with the result's `error` |
| LogsApi.TriggerManualPushStats | controllers/vishwakarmaLogsController.js:9-55 | a bad date gives 400 and pushes nothing; otherwise the push runs for that date and its result is mapped as above |
| LogsApi.EmptyPushSucceeds | controllers/vishwakarmaLogsController.js:33-38 | a day with nothing to push answers 200 with count 0 |
| LogsApi.ApiSyncsUncounted | controllers/vishwakarmaLogsController.js:85 | a sync through the API is stored as `API_MANUAL`, so the summary's cron and manual counts fall short of the total |
| LogsApi.SummaryReply | controllers/vishwakarmaLogsController.js:120-145 | always 200: the summary when there is one, otherwise all counters 0 and `last_fetch: null` |
| LogsApi.SummaryOfHistory | controllers/vishwakarmaLogsController.js:124-145 | over the stored history the reply is its summary, or zero operations and no last fetch when the file holds no array |
| LogsApi.RecentLimit | controllers/vishwakarmaLogsController.js:162-169 | the limit, `parseInt` falling back to 20 on NaN or 0, is accepted exactly within 1..100 |
| LogsApi.RecentLogs | controllers/vishwakarmaLogsController.js:160-178 | 400 exactly when the limit is rejected; otherwise 200 with `count` equal to the number of runs returned |
| LogsApi.RecentLogsNewestFirst | controllers/vishwakarmaLogsController.js:171-177 | an accepted limit lists the last `min(limit, n)` runs, newest first |
| LogsApi.LogsByDate | controllers/vishwakarmaLogsController.js:194-215 | 400 exactly when the date fails the format test; otherwise 200 with the date, `count` equal to the number of runs, and only runs of that date |
| LogsApi.LogsByDateExact | controllers/vishwakarmaLogsController.js:207-215 | the runs listed are exactly the stored runs of the date, in stored order |
| LogsApi.Report | controllers/vishwakarmaLogsController.js:230-265 | 200 with the summary or the zeroed defaults, `total_records_processed = inserted + updated` (0 without a summary), the ten newest runs, and the last run or null |
| LogsApi.ReportProcessedIsTotal | controllers/vishwakarmaLogsController.js:251-258 | over balanced runs, the records processed are the sum of the runs' own totals, and the last run is the newest stored one |

## Left out

- HTTP. Calls to the partner API are replaced by an authentication reply, a finite list of page replies and a post reply, so fetch parameters, headers and URLs are not modelled, and response bodies are opaque text.
- SQL. The database is a set of maps from natural key to row, with one id counter. The listing's two queries and the catalogue's query are functions passed in as parameters.
- Rows returned by the call statistics query. The model lists them in the order each provider's first call appears; SQL promises no order.
- Storage failures. The tables never reject a write, so each record's account step always succeeds.
- Timestamps, session ids, `duration_seconds`, `error_details` (the stack) and the report's `generated_at` and `success_rate`. These come from clocks, randomness or floating point.
- Yesterday's date. It is computed from the clock and time zone, so it is a parameter.
- Background triggers. `syncArtisans`, the fire-and-forget `triggerSync` and `triggerSyncForDates` handlers and the cron job are left out, as is the logger singleton shared by concurrent runs.
- File I/O. Reading and writing the history file and creating its directory are reduced to the value the file holds. A failed write is not modelled.
- Hcode. A category row's nullable `hcode` column is always filled by the reconciler, so it is a plain string.
- Account source ids. A record's `artisanId` is taken as the text `String(artisanId)` yields, so that conversion is not modelled.
- Default arguments. `triggeredBy = 'MANUAL'` of `startSession` and `syncArtisansByDate` and `limit = 10` of `getRecentHistory` are explicit parameters here, so a call that leaves them out is not modelled.
- Stored non-array values. A history file holding a single JSON value is modelled only when that value is a session; a stored `null` or other non-session value, which `saveLog` would wrap into the list and later queries would trip over, is not modelled.
- Ids containing `.`. Ids are natural numbers, so a code segment never contains the separator.
- Map key types. A JavaScript `Map` tells the key `"5"` apart from the key `5`; ids here are numbers only.
- Partner records. A null record in a page, a non-array `data.data`, and a partner that never returns an empty page (the loop would not end) are not modelled.
- Request bodies. A `date` body field that is not a string is not modelled.
- Unreachable 500 handlers. The catch blocks of the log endpoints are not modelled; no modelled step throws there.
- Catalogue.GetServiceCategories: `localeCompare` is an abstract comparison (sorted order is proved when it is a total preorder), and a category without a name, on which `localeCompare` would throw and answer 500, is not modelled.
- ArtisanListing.GetAllArtisans: the count query's `COUNT(*)` text is taken as already parsed into a natural number, and a negative LIMIT that the database rejects reaches the reply only as a query error.
- RunLogger.Summarize: missing `records_inserted`/`records_updated` fields, counted as 0 by `|| 0`, are not modelled; every stored session has both.
- LogsApi.Report: the zeroed default summary has no `last_fetch` field; the model gives it `None`, as the reply's own `last_fetch` is then null.
