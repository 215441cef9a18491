# Amazon listing audit: a Dafny model

The system audits product listings on Amazon for a seller. It has three parts:

- **Upload.** A user uploads a spreadsheet of product ids for a platform (Amazon, Flipkart or Myntra). The file is cleaned and validated against that platform's id rules. The new ids are stored under a product list.
- **Audit.** A background job opens headless browser pages for the ids of a list. It classifies each product page as Live, Suppressed, Page Removed, Suppressed Asin Changed or Rush Hour. For pages worth reading it extracts about twenty listing attributes, and it upserts one row per product into the product table.
  - A shared counter in Redis caps how many browsers run at once.
  - Progress is kept in Redis: a counter, a total, an owner and a status per task. Changes are published on a per-task channel.
- **Views.** The web views start an audit, report a job's state and stream its progress as server-sent events.

This model covers both audit drivers:

- the newer one, with workers, a browser limiter, a result saver and Redis progress;
- the older one, with one browser, one page per product and rows appended to a CSV file.

It also covers the page status checker and the field extractors, the browser manager and page managers, the upload parser and validator, the bulk creation of products, and the views that start, poll and stream an audit.

Modules:

| module | file | models |
|---|---|---|
| `Wrappers` | wrappers.dfy | `Option`, the stand-in for `None`-or-value |
| `Text` | text.dfy | Python string operations used by the extractors: `strip`, `split`, `replace`, `lower`, whitespace collapsing |
| `ResultBuffer` | result_saver.dfy | `ResultSaver` and the product table's upsert |
| `AuditUtils` | audit_utils.dfy | Redis keys, `TaskProgress`, `get_all_tasks`, spoofed browser contexts, captcha handling, and `Attempt` (a call that returns a value or raises) |
| `BrowserConfig` | browser_config.dfy | `BrowserManager` and `AmazonPageManager._navigate` of the newer driver |
| `SetupBrowser` | setup_browser.dfy | the older page manager |
| `Audit` | audit.dfy | `BrowserLimiter`, `AuditWorkers`, `RunAudit` of the newer driver |
| `AmazonFields` | amazon_fields.dfy | the field extractors: brand, reviews, ratings, availability, main image, best-seller rank, store link |
| `AmazonRegular` | amazon_regular.dfy | `StatusChecker`, the default record, `csv_audit_general` and `_run_scraper` |
| `LegacyAudit` | legacy_audit.dfy | the older `RunAudit.run_scrape` |
| `FileParsing` | file_parsing.dfy | readers, the data-frame cleaner and the id validator, with their `Result` (a value or a `Failure`) |
| `BulkCreate` | bulk_create.dfy | `ProductService.bulk_create_products` |
| `Views` | views.dfy | `RunAudit.post`, `AuditTaskStatus`, the task event stream and the global progress stream |

Each manager or driver that changes fields is a `class`: `ResultSaver`, `BrowserLimiter`, `AuditWorkers`, `TaskProgress`, `BrowserManager`, `AmazonPageManager`, `AmazonScrapingLogic`, `DataFrameCleaner`, the product store and the run-audit view. Its methods are proved against specification functions (`AddStep`, `AcquireSpec`, `WorkerSpec`, `DrainSpec`, `ScrapeRecord`, `Stream`, `Global`, `PostOutcome`, …). Lemmas state the properties of those functions.

The browser, the page, Redis and the file system cannot be seen from here. They become parameters describing what each of them does:

- `StatusPage`, for what the status probes return;
- `ScraperInputs`, for which gates pass, which extraction step raises, what each field reads and the formatted clock reading a write stamps;
- `ItemEnv`, for the limiter's competition, whether a browser starts and what the page does;
- `CaptchaPage`, for the captcha query, the solver and the reload;
- `Channel`, for whether a pattern message's channel arrives as `str` or as `bytes`.

## Model

| member | source | states |
|---|---|---|
| ResultBuffer.ToRow | _project/scraping/Audit/audit.py:18-48 | the row built from a scrape result is keyed by (list, asin), carries the saver's user and has exactly the columns the upsert writes |
| ResultBuffer.ToRowColumns | _project/scraping/Audit/audit.py:19-45 | `bsr1` comes from `bestSellerRank` (default ""), `bsr2` is always "", `mrp` comes from `MRP`, `a_plus` from `A_plus`, and every other column from the result key of the same name |
| ResultBuffer.UpsertAllAt | _project/scraping/Audit/audit.py:50-66 | after a batch upsert a key is present iff it was before or some row has it; an untouched key keeps its row; a touched key keeps the first writer's user and takes the last row's columns |
| ResultBuffer.UpsertAllAppend | _project/scraping/Audit/audit.py:50-66 | upserting two batches in turn is upserting their concatenation |
| ResultBuffer.UpsertAllIdempotent | _project/scraping/Audit/audit.py:50-66 | repeating an upsert of the same rows changes nothing |
| ResultBuffer.NewestWins | _project/scraping/Audit/audit.py:50-66 | the last row for a key decides that key's columns |
| ResultBuffer.BatchingTransparent | _project/scraping/Audit/audit.py:18-66 | whatever the batch size, adding rows one by one and then flushing leaves the table as one upsert of the old buffer followed by all the rows would |
| ResultBuffer.AddAllKeepsBufferShort | _project/scraping/Audit/audit.py:47-48 | the buffer never reaches the batch size after an `add_result` |
| ResultBuffer.ResultSaver.AddResult | _project/scraping/Audit/audit.py:18-48 | appends the row; when the buffer reaches the batch size the buffer is upserted and emptied, otherwise the table is unchanged |
| ResultBuffer.ResultSaver.Flush | _project/scraping/Audit/audit.py:50-66 | upserts the buffer and empties it; an empty buffer leaves the table unchanged |
| Audit.AcquireSpec | _project/scraping/Audit/audit.py:80-87 | a successful acquire leaves the counter at most `max_browsers`; the attempts are between one and one more than the competing increments |
| Audit.AcquireMeaning | _project/scraping/Audit/audit.py:80-87 | the acquire succeeds at the first attempt whose increment stays within the limit, after undoing every earlier over-limit increment; otherwise every attempt overshot |
| Audit.BrowserLimiter.TryAcquire | _project/scraping/Audit/audit.py:83-86 | increment, and keep the slot iff the new value is within the limit, else decrement back |
| Audit.BrowserLimiter.Acquire | _project/scraping/Audit/audit.py:80-87 | the looped acquire equals `AcquireSpec` and never exceeds the limit when it succeeds |
| Audit.BrowserLimiter.Release | _project/scraping/Audit/audit.py:89-91 | the counter drops by one |
| Audit.ItemResult | _project/scraping/Audit/audit.py:118-123 | the dict handed to `add_result` always has an `asin`: the navigate result when it is a dict, else the `no_data` record |
| Audit.StepState | _project/scraping/Audit/audit.py:113-132 | one worker step leaves the queue's items alone (the item was already taken) |
| Audit.WorkerDrainsQueue | _project/scraping/Audit/audit.py:106-132 | with a free slot and no failures the worker handles every queued product in order, adds one row each, gives every slot back, marks every task done and then waits |
| Audit.WorkerCrashLeavesWork | _project/scraping/Audit/audit.py:113-132 | a browser start that raises ends the worker, so `queue.join` is left with unfinished work |
| Audit.ChunkRunCompletes | _project/scraping/Audit/audit.py:134-162 | in a benign world a chunk's run processes every product, finishes every task and leaves the table as one upsert of all rows |
| Audit.ResumesTurn | _project/scraping/Audit/audit.py:107-132 | one turn of a run in progress: an empty queue waits, the sentinel exits, a product that is not completed ends the run, a completed one resumes one count further |
| Audit.StarvedEmpty | _project/scraping/Audit/audit.py:107-112 | a worker that ends waiting has left the queue empty |
| Audit.AuditWorkers.Record | _project/scraping/Audit/audit.py:120-132 | the row is added through the saver, the count rises by one, the slot is given back and the task is marked done |
| Audit.AuditWorkers.Turn | _project/scraping/Audit/audit.py:107-132 | one pass of the worker loop keeps the run on `WorkerSpec`'s course: either it ends with `WorkerSpec`'s final state and stop, or the queue shrinks and the count rises by one |
| Audit.AuditWorkers.HandleItem | _project/scraping/Audit/audit.py:108-132 | one loop body equals `StepState`; the progress count rises by one exactly when the product completed |
| Audit.AuditWorkers.Worker | _project/scraping/Audit/audit.py:106-132 | the worker loop equals `WorkerSpec`; the count rises by the products processed |
| Audit.AuditWorkers.Enqueue | _project/scraping/Audit/audit.py:135-138 | the new queue holds the products in order, each one unfinished |
| Audit.AuditWorkers.Finish | _project/scraping/Audit/audit.py:147-161 | with work unfinished `join` hangs and nothing changes; otherwise the sentinels, then the flush and the task marked done, leaving the active set |
| Audit.AuditWorkers.Drain | _project/scraping/Audit/audit.py:134-162 | queue, drain, join, then flush and mark done, or hang while work is unfinished; a finished task leaves the active set |
| Audit.AuditWorkers.Run | _project/scraping/Audit/audit.py:134-162 | after `init_task(len(products))` and the drain the progress record is (processed, total, done or running, owner) |
| Audit.FilteredMembers | _project/scraping/Audit/audit.py:178-186 | an id is re-audited iff some record with that id has a status outside the skipped list |
| Audit.FilteredAppend | _project/scraping/Audit/audit.py:178-186 | the re-audit filter keeps list order |
| Audit.AsinChangedIsReaudited | _project/scraping/Audit/audit.py:180 | as written, a product whose status is 'Suppressed Asin Changed' is audited again |
| Audit.IntendedReauditSkipsSettled | _project/scraping/Audit/audit.py:178-186 | with the intended status name, a re-audit keeps exactly the products that are not Live, Suppressed or Suppressed Asin Changed |
| Audit.ChunkSize | _project/scraping/Audit/audit.py:197-198 | the chunk size is the ceiling of products over browsers |
| Audit.Chunks | _project/scraping/Audit/audit.py:199-201 | every chunk is non-empty and at most the size; all but the last are full; there is a chunk iff there is a product |
| Audit.ChunksFlatten | _project/scraping/Audit/audit.py:199-201 | the chunks laid end to end give back the id list |
| Audit.RunChunks | _project/scraping/Audit/audit.py:196-201 | there are between one and `max_browsers` chunks, and together they are the ids |
| Audit.ElevenProductsFiveBrowsers | _project/scraping/Audit/audit.py:196-201 | eleven products with five browsers give chunks of 3, 3, 3 and 2 |
| Audit.RunAudit.Prologues | _project/scraping/Audit/audit.py:141-142 | as written, each chunk re-initialises the same task, so the total is the last chunk's length |
| Audit.RunAudit.PrologueIntended | _project/scraping/Audit/audit.py:141-142 | a single initialisation with the whole list's length |
| Audit.AfterChunk | _project/scraping/Audit/audit.py:134-162 | one chunk's `run` after its prologue: it is hung exactly when it is not done; a hung chunk leaves the buffer unflushed |
| Audit.DrainSpecAdvance | _project/scraping/Audit/audit.py:204-218 | the one-step unfolding of `DrainSpec` that `DrainChunks`' loop uses to keep its invariant: absorbing chunk `i`, hung or finished, and handing its table and counter on to chunk `i + 1` leaves the drain's end unchanged |
| Audit.DrainSpecKeepsFlags | _project/scraping/Audit/audit.py:204-218 | once some chunk has hung the run stays hung, once one has finished the task stays done, and the count never drops |
| Audit.HungChunkLeavesOthersRunning | _project/scraping/Audit/audit.py:204-218 | after a chunk that hangs with a free slot left, the benign chunks after it still handle all their products, upsert their rows over its table and mark the task done; the run stays hung |
| Audit.BenignChunksComplete | _project/scraping/Audit/audit.py:134-162 | chunks in benign worlds with a free slot: none hangs (an earlier hang stays recorded), every product is handled, the counter returns to where it was, and the table is one upsert of every chunk's rows in chunk order |
| Audit.BenignAuditCompletes | _project/scraping/Audit/audit.py:188-218 | a whole non-empty list in benign worlds: not hung, every id processed, task marked done, slots all given back, table = upsert of all chunks' rows |
| Audit.RunAudit.DrainChunk | _project/scraping/Audit/audit.py:134-162 | one chunk with fresh workers over the shared table and counter: hung, count, table and counter are `AfterChunk`'s; the progress count grows by the chunk's products, and a finished chunk sets 'done' |
| Audit.RunAudit.DrainChunks | _project/scraping/Audit/audit.py:204-218 | the chunks' queues drain in turn, a hung chunk not stopping the rest: hung (some chunk hung), processed, table and counter are `DrainSpec`'s; the progress total stays, the count is the products handled, the status is 'done' iff some chunk finished |
| Audit.RunAudit.Run | _project/scraping/Audit/audit.py:188-218 | no products gives the error reply and changes nothing; otherwise the reply is no reply iff some chunk hangs, else success with every id; the table and counter end as `DrainSpec` of the chunks; the progress total is the last chunk's length, the count the products processed, the status 'done' iff some chunk finished |
| AuditUtils.TaskKeysDisjoint | _project/scraping/Audit/utils.py:336-343 | two tasks never share a Redis key |
| AuditUtils.ProgressOf | _project/scraping/Audit/utils.py:355-367 | a missing counter or total reads 0, a missing or empty status reads 'running', a missing owner reads None |
| AuditUtils.OtherTaskWrite | _project/scraping/Audit/utils.py:336-367 | writing one task's keys leaves every other task's progress alone |
| AuditUtils.TaskProgress.GetProgress | _project/scraping/Audit/utils.py:355-367 | the record carries the tracker's own id; a missing `task_counter` or `task_total` reads 0, a missing or empty `task_status` reads "running", a missing `task_user` reads None, and stored integer and text values are read as they are |
| AuditUtils.TaskProgress.PublishUpdate | _project/scraping/Audit/utils.py:369-372 | publishes the current progress on the task's channel and changes no key |
| AuditUtils.TaskProgress.InitTask | _project/scraping/Audit/utils.py:336-343 | sets count 0, the total, the owner and 'running', adds the task to the active set and publishes |
| AuditUtils.TaskProgress.Increment | _project/scraping/Audit/utils.py:345-347 | raises the count by the amount, touches no other key and publishes |
| AuditUtils.TaskProgress.SetStatus | _project/scraping/Audit/utils.py:349-353 | sets the status; 'done' and 'failed' remove the task from the active set; publishes |
| AuditUtils.TaskProgress.WriteInitial | _project/scraping/Audit/utils.py:338-341 | the four `set` calls give the record (0, total, 'running', owner) and touch no set and no channel |
| AuditUtils.ReadProgress | _project/scraping/Audit/utils.py:380-381 | a fresh tracker for an id reads that id's `ProgressOf` |
| AuditUtils.GetAllTasks | _project/scraping/Audit/utils.py:375-382 | one current progress record per active task id, no id twice |
| AuditUtils.SpoofedSettings | _project/scraping/Audit/utils.py:268-319 | every spoofed setting comes from its fixed list |
| AuditUtils.Platform | _project/scraping/Audit/utils.py:178-184 | 'Win32' iff the agent mentions Windows, 'MacIntel' iff not Windows but Macintosh, else 'Linux x86_64' |
| AuditUtils.SpoofedPlatform | _project/scraping/Audit/utils.py:297-319 | the three user agents map to the three platforms in order |
| AuditUtils.IsCaptchaPresent | _project/scraping/Audit/utils.py:53-69 | present iff the query returns True; a query that raises counts as absent |
| AuditUtils.HandleCaptcha | _project/scraping/Audit/utils.py:124-156 | the solver runs iff a captcha is present; no captcha passes; a solved captcha passes iff the reload succeeds; an unsolved one fails |
| BrowserConfig.BrowserManager.Start | _project/scraping/Audit/bowser_config.py:70-76 | a context with the spoofed settings exists iff no step fails; a failing step leaves the context alone and records which parts started |
| BrowserConfig.BrowserManager.Close | _project/scraping/Audit/bowser_config.py:78-84 | closes the context, the browser and Playwright, each only if it was opened, in that order |
| BrowserConfig.ProductUrl | _project/scraping/Audit/bowser_config.py:114 | the URL is the product-page prefix followed by the ASIN |
| BrowserConfig.ProductUrlInjective | _project/scraping/Audit/bowser_config.py:114 | different ASINs give different URLs |
| BrowserConfig.NavigateResult | _project/scraping/Audit/bowser_config.py:105-143 | a failure before the captcha gives the error record; a failed captcha gives None; otherwise the scraper's dict, with its `asin` filled in when missing, or the error record when it raises |
| BrowserConfig.NavigateAsin | _project/scraping/Audit/bowser_config.py:105-143 | a dict result carries the scraper's own `asin` when it had one, else the navigated ASIN |
| BrowserConfig.CaptchaFailureSkipsScraper | _project/scraping/Audit/bowser_config.py:98-103 | after a failed captcha the scraper's behaviour does not matter |
| BrowserConfig.NavigateEvents | _project/scraping/Audit/bowser_config.py:105-143 | a page is opened iff `new_page` succeeds, and then closed exactly once, last |
| BrowserConfig.AmazonPageManager.Navigate | _project/scraping/Audit/bowser_config.py:105-143 | returns `NavigateResult` and records `NavigateEvents` |
| SetupBrowser.LegacyNeverTrue | scraping/Audit/setup_browser.py:82-110 | as written, `_navigate` never returns True |
| SetupBrowser.LegacyCleanPageYieldsNone | scraping/Audit/setup_browser.py:103-107 | as written, a page without a captcha makes `_navigate` return None |
| SetupBrowser.IntendedOutcome | scraping/Audit/setup_browser.py:90-110 | intended: True iff the page opens and loads, the captcha passes and the scraper does not raise |
| SetupBrowser.LegacyPageManager.Navigate | scraping/Audit/setup_browser.py:90-110 | returns `LegacyOutcome`, never True, and records the page and the `goto` |
| AmazonRegular.Classify | scraping/Audit/amazon_regular.py:22-51 | the status is one of the five page statuses |
| AmazonRegular.RushHourFirst | scraping/Audit/amazon_regular.py:27-33 | 'Rush Hour' iff the centre text starts with the rush-hour message |
| AmazonRegular.LiveIff | scraping/Audit/amazon_regular.py:22-51 | 'Live' iff not rush hour, the URL contains 'dp', there is no 404 heading and the page's ASIN is the product's |
| AmazonRegular.NotDetailPageSuppressed | scraping/Audit/amazon_regular.py:35 | off a detail page the status is 'Suppressed' whatever the heading and the ASIN probe say |
| AmazonRegular.DetailPageStatus | scraping/Audit/amazon_regular.py:36-49 | a heading gives 'Suppressed', a failing ASIN probe 'Page Removed', a different ASIN 'Suppressed Asin Changed' |
| AmazonRegular.StatusChecker.Check | scraping/Audit/amazon_regular.py:22-51 | the probe sequence returns `Classify` |
| AmazonRegular.ScrapeResultShape | scraping/Audit/amazon_regular.py:258-282 | the default record has exactly the record keys, `index` is the worker id plus one, the ASIN is the product's, the status 'Suppressed' |
| AmazonRegular.DefaultRecordFillsColumns | scraping/Audit/amazon_regular.py:258-282 | the default record fills every column of the saver's row |
| AmazonRegular.RecordFillsColumns | scraping/Audit/amazon_regular.py:258-282 | any record with the default record's keys has an ASIN and fills every column of the saver's row |
| AmazonRegular.ScrapeResultKeys | scraping/Audit/amazon_regular.py:258-282 | the default record's keys are exactly the record keys |
| AmazonRegular.HeadersAreCsvKeys | scraping/Audit/save_csv.py:72-96 | the header row names exactly the default record's keys plus `timestamp` |
| AmazonRegular.StampKeepsFields | scraping/Audit/save_csv.py:99 | the write adds `timestamp` with the clock reading and changes no other key |
| AmazonRegular.StampedRecordMatchesHeaders | scraping/Audit/save_csv.py:72-106 | a record with the default record's keys is written with exactly the header's columns, so `DictWriter` meets no unknown key |
| AmazonRegular.LastSlash | scraping/Audit/save_csv.py:69 | the position of the last '/', -1 iff there is none |
| AmazonRegular.StripTrailingSlashes | scraping/Audit/save_csv.py:69 | a prefix of the path that drops only trailing slashes and ends in none |
| AmazonRegular.DirName | scraping/Audit/save_csv.py:69 | `os.path.dirname` is a prefix of the path, empty iff the path has no '/' |
| AmazonRegular.DirNameOfScrapingCsv | _project/scraping/Audit/bowser_config.py:23 | the newer driver's `./scraping.csv` has the directory part `.` |
| AmazonRegular.DirNameOfDirectory | scraping/Audit/save_csv.py:69 | trailing slashes are dropped from the directory part |
| AmazonRegular.DirNameOfFileIn | scraping/Audit/save_csv.py:69 | a file name without '/' after a directory is in that directory |
| AmazonRegular.CsvAuditGeneral | scraping/Audit/save_csv.py:67-110 | as written: `os.makedirs('')` raises iff the path has no '/'; otherwise the call is the intended write |
| AmazonRegular.CsvAuditGeneralIntended | scraping/Audit/save_csv.py:67-110 | the record gets the write's timestamp and is appended to the named file; every other file is left alone |
| AmazonRegular.ScrapingCsvWrites | scraping/Audit/save_csv.py:67-70 | for `./scraping.csv` the call as written is the intended one |
| AmazonRegular.Appended | scraping/Audit/save_csv.py:100-107 | appending a row to the named file leaves every other file alone |
| AmazonRegular.EarlyExitOnlySetsStatus | scraping/Audit/amazon_regular.py:284-298 | a failing gate or a Suppressed or Rush Hour page changes only the status |
| AmazonRegular.ExtractionOutcome | scraping/Audit/amazon_regular.py:300-337 | extraction writes exactly the fields of the steps before the one that raises; the status is 'Suppressed' if a step raised, else the page status |
| AmazonRegular.CleanRunWritesEveryField | scraping/Audit/amazon_regular.py:300-330 | a run without errors writes every field and keeps the page status |
| AmazonRegular.OutcomeStatus | scraping/Audit/amazon_regular.py:284-337 | the final status is a page status or one of the three gate failures |
| AmazonRegular.OutcomeKeepsShape | scraping/Audit/amazon_regular.py:284-337 | the written record of one that already has every field has its keys plus `timestamp`, carries the write's clock reading, and no key outside the fields and the status changes |
| AmazonRegular.RecordKeepsShape | scraping/Audit/amazon_regular.py:284-337 | a record with the default record's keys is written with the CSV columns, its ASIN, its index and the write's clock reading |
| AmazonRegular.DefaultRecordKeepsShape | scraping/Audit/amazon_regular.py:258-337 | starting from the default record, the written record has the CSV columns, the product's ASIN, the worker id plus one as index and the write's clock reading |
| AmazonRegular.AmazonScrapingLogic.WriteRow | scraping/Audit/save_csv.py:67-110 | the intended `csv_audit_general(self.result, ...)`: the record itself gets the timestamp and is appended to the scraper's file |
| AmazonRegular.AmazonScrapingLogic.NavigateAndPrepare | scraping/Audit/audit.py:73-87 | a page that does not load gets 'Suppressed Page Timeout', is stamped and written; a page that loads changes nothing |
| AmazonRegular.AmazonScrapingLogic.HandleCaptchaStep | scraping/Audit/audit.py:89-96 | an unsolved captcha gets 'Suppressed Captcha Failure', is stamped and written; a solved one changes nothing |
| AmazonRegular.AmazonScrapingLogic.HandleContinueShopping | scraping/Audit/amazon_regular.py:243-256 | a click that raises gets 'Suppressed Continue Button', is stamped and written; a missing button or a working click passes |
| AmazonRegular.AmazonScrapingLogic.RunScraper | scraping/Audit/amazon_regular.py:284-337 | the record becomes `ScrapeRecord` (the outcome, stamped by its write), exactly that record is appended to the CSV once, and the page is closed iff extraction ran |
| AmazonFields.BrandOfStoreLink | scraping/Audit/amazon_regular.py:69-76 | "Visit the X Store" gives the brand X |
| AmazonFields.BrandPlain | scraping/Audit/amazon_regular.py:69-76 | a byline without the decoration is returned as it is |
| AmazonFields.LazyEnd | scraping/Audit/amazon_regular.py:73 | the lazy group ends at the first position where the optional " Store" suffix and end of text match, never across a newline |
| AmazonFields.ReviewsOfTitle | scraping/Audit/amazon_regular.py:111-119 | a title "4.3 out of 5 stars" gives "4.3" |
| AmazonFields.RatingsHaveNoComma | scraping/Audit/amazon_regular.py:121-126 | a ratings count never keeps a thousands separator |
| AmazonFields.RatingsOfText | scraping/Audit/amazon_regular.py:121-126 | the ratings count is the first token without commas |
| AmazonFields.AvailabilityMeaning | scraping/Audit/amazon_regular.py:132-138 | the availability text is single-spaced and keeps every non-whitespace character in order |
| AmazonFields.FirstJpg | scraping/Audit/amazon_regular.py:166-184 | the first JPEG source, when no earlier read raised |
| AmazonFields.MainImgFound | scraping/Audit/amazon_regular.py:166-184 | a found URL keeps its length, so it is never "N/A" |
| AmazonFields.MainImgUnmarked | scraping/Audit/amazon_regular.py:166-184 | a URL without the thumbnail marker is returned unchanged |
| AmazonFields.MainImgUrl | scraping/Audit/amazon_regular.py:166-184 | the scanning loop returns `MainImg` |
| AmazonFields.StripParensLeavesNoGroup | scraping/Audit/amazon_regular.py:217-218 | on a one-line rank no parenthesised part is left |
| AmazonFields.StripParensNoParen | scraping/Audit/amazon_regular.py:217-218 | a rank without '(' is unchanged |
| AmazonFields.FirstIndex | scraping/Audit/amazon_regular.py:200-206 | the position found satisfies the test and no earlier element does; `None` only when no element does |
| AmazonFields.FirstIndexAt | scraping/Audit/amazon_regular.py:200-206 | a matching element with no match before it is exactly the one the search stops at |
| AmazonFields.FindFirst | scraping/Audit/amazon_regular.py:200-206 | the `for th in ...: break` loop stops where `FirstIndex` says, or runs off the end |
| AmazonFields.Ranks | scraping/Audit/amazon_regular.py:213-216 | two ranks, the second being "Not Available" when only one is listed |
| AmazonFields.SingleRankPadded | scraping/Audit/amazon_regular.py:213-218 | a single rank is paired with "Not Available" |
| AmazonFields.BestSellerRank | scraping/Audit/amazon_regular.py:195-221 | the header scan returns `BestSellerRankOf` |
| AmazonFields.StoreLink | scraping/Audit/amazon_regular.py:235-241 | a non-empty href gives the Amazon host followed by it, anything else "N/A" |
| AmazonFields.StoreLinkInjective | scraping/Audit/amazon_regular.py:235-241 | different hrefs give different links |
| LegacyAudit.AuditFileNameInjective | scraping/Audit/audit.py:22-23 | different product lists never share a CSV file |
| LegacyAudit.AuditWritesRaise | scraping/Audit/audit.py:30 | as written, every `csv_audit_general` call on `audit_{id}.csv` raises in `os.makedirs('')` |
| LegacyAudit.RunRowsAt | scraping/Audit/audit.py:25-33 | row `i` of the run is the record the scraper of product `i` writes |
| LegacyAudit.RunRowsSnoc | scraping/Audit/audit.py:25-33 | appending product `idx`'s record to the file of the first `idx` records gives the file of the first `idx + 1` |
| LegacyAudit.RunAudit.ScrapeOne | scraping/Audit/audit.py:27-33 | the scraper of one product returns its `ProductRow` (its stamped record) and appends exactly that record to the file |
| LegacyAudit.RunAudit.ScrapeNext | scraping/Audit/audit.py:25-33 | one loop turn opens the product's page and extends the file by its record, keeping both in step with the loop position |
| LegacyAudit.OneRowPerProduct | scraping/Audit/audit.py:25-33 | one CSV row per product, in list order, with its ASIN, its position plus one as `index`, exactly the CSV columns and its own write's clock reading |
| LegacyAudit.RunAudit.RunScrape | scraping/Audit/audit.py:21-35 | a failing start changes nothing; otherwise browser start, one page per product in order, browser close, and the file gains the products' rows in order |
| FileParsing.GetReaderMeaning | scraping/file_parsing.py:26-31 | `.csv` picks the CSV reader, `.xlsx` the Excel reader, anything else is unsupported, ignoring case |
| FileParsing.GetReaderIgnoresCase | scraping/file_parsing.py:26-31 | the reader depends only on the lower-cased name |
| FileParsing.DropNullsKeeps | scraping/file_parsing.py:48-61 | a row survives `dropna` iff it is complete |
| FileParsing.DropNullsIdempotent | scraping/file_parsing.py:48-61 | cleaning twice is cleaning once |
| FileParsing.DataFrameCleaner.Clean | scraping/file_parsing.py:48-61 | the frame keeps its columns, holds only complete rows and is indexed 0..n-1 |
| FileParsing.Parse | scraping/file_parsing.py:34-44 | parsing succeeds iff the extension is supported, and gives a cleaned frame |
| FileParsing.FirstFailure | scraping/file_parsing.py:143-144 | no failure iff every rule passes; otherwise the first failing rule's failure |
| FileParsing.AmazonRulesMeaning | scraping/file_parsing.py:110-124 | Amazon ids pass iff each starts with "B0", has ten characters and is alphanumeric |
| FileParsing.FlipkartRulesMeaning | scraping/file_parsing.py:110-124 | Flipkart ids pass iff each has sixteen alphanumeric characters |
| FileParsing.MyntraRulesMeaning | scraping/file_parsing.py:110-124 | Myntra ids pass iff each has nine digits |
| FileParsing.ColumnPosition | scraping/file_parsing.py:135-136 | the column's position, and None iff the column is missing |
| FileParsing.ValidateMeaning | scraping/file_parsing.py:130-146 | unknown platform and missing column are reported first; otherwise valid iff the ids (as text) are unique and pass every platform rule |
| FileParsing.NullCheckNeverFires | scraping/file_parsing.py:138-140 | as written, the null check never reports |
| FileParsing.MissingAmazonIdReportedAsPrefix | scraping/file_parsing.py:138-144 | as written, a missing Amazon id is reported as a prefix error |
| FileParsing.IntendedNullCheck | scraping/file_parsing.py:130-146 | with the null check before the conversion, a missing id is reported as a null, and a column without one is judged as before |
| BulkCreate.NewIds | scraping/bulk_create_product.py:15 | an id is new iff it is in the upload, non-empty and not yet in the list |
| BulkCreate.NewIdsConcat | scraping/bulk_create_product.py:15 | the filter keeps upload order |
| BulkCreate.DuplicatesInUploadKept | scraping/bulk_create_product.py:15 | duplicates inside one upload are not removed by the filter |
| BulkCreate.Build | scraping/bulk_create_product.py:18-21 | one row per new id, with the given user and list |
| BulkCreate.BulkCreateProducts | scraping/bulk_create_product.py:5-26 | returns the list and the rows built, and inserts them with conflicts ignored |
| BulkCreate.BulkCreateEffect | scraping/bulk_create_product.py:5-26 | the table gains exactly the keys of the new ids, keeps every old row, and every added row carries the user, the list and its id |
| Views.FrameText | _project/scraping/views.py:309-326 | each frame is its server-sent-event text ending in a blank line |
| Views.EventStream | _project/scraping/views.py:304-327 | the listening loop emits `Stream` of the entries |
| Views.StreamIgnoresOtherTypes | _project/scraping/views.py:306-307 | entries that are not messages do not affect the stream |
| Views.OnlyLastFrameTerminal | _project/scraping/views.py:309-326 | every frame but the last is a data frame |
| Views.CompleteFrameMeaning | _project/scraping/views.py:319-326 | a complete frame is last, directly follows the data frame of the same payload, and its count reached a positive total |
| Views.DataFramesAllowed | _project/scraping/views.py:314-317 | every data frame is one the requester may see |
| Views.ZeroTotalNeverCompletes | _project/scraping/views.py:319-320 | a total of zero never completes the stream |
| Views.OpenStream | _project/scraping/views.py:304-327 | while no message ends the stream, it is one data frame per message |
| Views.PublishedNeverNotFound | _project/scraping/views.py:309-312 | updates published by `TaskProgress` never give 'Task not found' |
| Views.OwnerFollowsTask | _project/scraping/views.py:304-327 | the task's owner sees every update that does not complete it as a data frame |
| Views.TaskTag | _project/scraping/views.py:351-354 | on a channel's text, the tag is the text after the first ':' up to the next, absent iff the text has no ':' |
| Views.SplitJoin | _project/scraping/views.py:353 | `split` and joining with the separator are inverse |
| Views.TagOfUpdatesChannel | _project/scraping/views.py:353-354 | the text of the channel of a task id without ':' is tagged with that id |
| Views.TagCutsAtColon | _project/scraping/views.py:353-354 | on the text of a channel, a task id with ':' is tagged with its part before the ':' |
| Views.SplitTag | _project/scraping/views.py:351-354 | as written: raises iff the channel is `bytes` (the client of line 24 does not decode, and `bytes` has no `split` with a `str` separator) or text without ':' |
| Views.DecodedTag | _project/scraping/views.py:351-354 | with the channel decoded first: the tag of its text, and the same as written on a `str` channel |
| Views.GlobalStream | _project/scraping/views.py:339-356 | the global loop emits `Global` of the entries, and raises at the first pattern message whose channel is `bytes` or has no ':' |
| Views.GlobalByRaisesIff | _project/scraping/views.py:347-354 | for any way of computing the tag, the stream raises iff some pattern message's tag raises |
| Views.GlobalRaisesIff | _project/scraping/views.py:347-354 | as written, the stream raises iff some pattern message has a `bytes` channel or a channel without ':' |
| Views.GlobalOneFramePerMessage | _project/scraping/views.py:347-356 | without a raise, one frame per pattern message, each with a `task_id` |
| Views.UndecodedChannelsYieldNothing | _project/scraping/views.py:339-356 | as written, with every channel `bytes` (the client has no `decode_responses`) no frame is ever yielded, and the stream raises iff a pattern message arrives |
| Views.DecodedChannelsTagEveryUpdate | _project/scraping/views.py:339-356 | with the channels decoded, updates on task channels never raise and each is forwarded, in order, tagged with its own task's id |
| Views.ParseReaudit | _project/scraping/views.py:231-233 | as written, reaudit is never True, and the call raises iff the flag is JSON true or another truthy non-string value |
| Views.ReauditTextTrueIgnored | _project/scraping/views.py:231-233 | as written, the text "true" gives False |
| Views.BooleanReauditRaises | _project/scraping/views.py:231-233 | as written, a JSON true reaudit flag gives a server error |
| Views.ParseReauditIntended | _project/scraping/views.py:231-233 | intended: True iff the flag is text equal to "true" ignoring case, or JSON true |
| Views.IntendedReauditCases | _project/scraping/views.py:231-233 | intended: "True" and "TRUE" re-audit; "false" and a missing flag do not |
| Views.PostStatusCode | _project/scraping/views.py:224-262 | 202 iff the audit was accepted, a 4xx iff the request was bad or the list not found, 500 iff the server failed |
| Views.AcceptedIffDispatched | _project/scraping/views.py:224-262 | the response is Accepted iff the audit job was dispatched |
| Views.CeleryDownFirst | _project/scraping/views.py:225-228 | with no Celery worker the answer is 400 whatever the request says |
| Views.RunAuditView.Post | _project/scraping/views.py:224-262 | the response is `PostOutcome`, and the job (list id, reaudit False) is recorded iff dispatched |
| Views.DispatchedNeverReaudit | _project/scraping/views.py:231-257 | as written, every dispatched job has reaudit False |
| Views.TaskStatus | _project/scraping/views.py:266-292 | no task id gives the 400 body; the result is absent iff the task is not ready; an unprintable result is described instead |
| Views.PollNotReady | _project/scraping/views.py:278-283 | a pending task is reported with its status and no result |

## Left out

- Playwright, the page's DOM and all timing: each probe, wait and click is a parameter saying whether it returns, what it returns or whether it raises. Some reads are modelled as never raising: the status checker's centre-text and heading queries, the continue button's count and visibility, and `page.close`.
- Randomness: the spoofed context's choices (user agent, viewport, time zone, locale, position) and the random pauses are parameters. The model proves each choice comes from its fixed list.
- The captcha solver is an oracle: whether it solves the captcha is a parameter.
- The newer limiter's Redis counter: `aioredis` is never imported in the newer `audit.py`, so the shared counter is modelled as a plain integer, as if the import were there. The other workers' increments between two attempts are a parameter. As written, `_get_redis` raises `NameError` at the first `acquire` (audit.py:113, outside the `try`), so every worker dies before its `task_done`, every chunk's `join` hangs and `run` never returns; the model does not capture this.
- Concurrency: the asyncio workers are modelled as one sequential consumer, and the chunks' runs under `gather` one after another, each starting from the table and counter the previous one left. A chunk that hangs does not stop the later ones. Interleavings between workers on the shared counter, and the order in which concurrent chunks' upserts reach the table, are not modelled beyond the competing increments.
- BrowserConfig.BrowserManager.Close: it never raises. In the source each of `context.close()`, `browser.close()` and `playwright.stop()` can raise; in the worker's `finally` (audit.py:129-132) such a raise skips `limiter.release()` and `queue.task_done()`, so the slot stays taken, the worker dies and the chunk's `queue.join()` hangs.
- Audit.AuditWorkers.HandleItem: an `add_result` whose `flush` (`bulk_create`) raises is not a case. In the source the `finally` still closes the browser, releases the slot and marks the task done, but the increment is skipped, the buffer keeps its rows unwritten and the worker dies, so a chunk with products left hangs on its `join`.
- Audit.BrowserLimiter.Acquire: it runs over a finite schedule of competing increments. The source loops without bound while the limit is reached.
- Price and MRP are floats in the source, and `math.ceil` is over a float division. The model uses integer ceiling division and treats prices as opaque field values.
- The `_extract_*` helpers, `self.result`, `self.asin` and `_navigate_and_prepare` are undefined in the class that uses them. The model gives each field's reading as a function `fields` from key to value, starts the record from `_scrape_result()`, and treats `_navigate_and_prepare` as the module-level function of the older `audit.py`.
- The older `scrape_page` builds an `AmazonScraper`, which no file defines, and that module is missing imports (`asyncio`, `random`, the logger, `Page`). The model runs `AmazonScrapingLogic` for each product.
- scraping/Audit/utils.py is not part of this model; the newer `handle_captcha` and `is_captcha_present` are used for both drivers.
- AmazonFields.BrandName: a link whose text is None, or a wait that raises, only appears as an extraction failure at that step.
- AmazonFields.BestSellerRank: reads that raise are treated like a missing table.
- AmazonRegular.Classify: a centre element whose `text_content` is None is treated as no centre text.
- `isalnum`, `isdigit` and `lower` are ASCII only; Unicode categories are not modelled.
- JSON encoding: `json.dumps` is the parameter `dumps`. Decoding a payload is limited to falsy or an object with integer `user_id`, `count` and `total`; a non-numeric count or total is not modelled. A start request's `product_list_id` is modelled as an integer; a JSON string id, which the ORM lookup would also accept or reject, is not modelled.
- The pub/sub `listen()` stream is unbounded; the model takes a finite prefix of its entries.
- The CSV header line and the file's column order are not modelled: a file is a list of records. That the header names exactly a written record's keys is proved separately (`AmazonRegular.StampedRecordMatchesHeaders`).
- The clock: `datetime.now().strftime(...)` is the parameter `now`, and every write of one scraper run has the same reading.
- A `csv_audit_general` call that raises inside the success path is not modelled.
- AmazonRegular.AmazonScrapingLogic.RunScraper: a `page.close` that raises after the success write would make the outer `except` write a second row; this is not modelled.
- AmazonRegular.AmazonScrapingLogic.WriteRow: it uses the corrected `csv_audit_general` (`CsvAuditGeneralIntended`). The as-written `os.makedirs('')` raise is modelled only in `AmazonRegular.CsvAuditGeneral`; see Findings.
- LegacyAudit.RunAudit.ScrapeOne: it uses the corrected writer. As written, with the bare `audit_{id}.csv` every write raises (`LegacyAudit.AuditWritesRaise`).
- LegacyAudit.RunAudit.ScrapeNext: it uses the corrected writer, for the same reason.
- LegacyAudit.RunAudit.RunScrape: it uses the corrected writer, for the same reason. As written, a write on an early exit or in the extraction's `except` raises out of `run_scrape` and ends the run before `browser.close`, while the success path's write is caught and its row is lost.
- LegacyAudit.OneRowPerProduct: it is about the rows of the corrected writer, for the same reason.
- Views.GlobalStream: it models the stream as written, so on the module's client (whose channels are `bytes`) it raises at the first pattern message; the decoded stream is `Views.GlobalDecoded`.
- The ORM filter of the older `get_product_infos` is not modelled; the older driver takes its product list as input.
- `create_browser.py` is not part of this model.
- The Celery task bodies in tasks.py hard-code `reaudit=False` and `max_browsers`; they are not modelled beyond `Views.RunAuditView.Post`'s record of what is dispatched.
- Views.RunAuditView.Post: `User.DoesNotExist` and a `delay` that raises both become the generic server error.
- Redis itself: the store is a map of strings and sets plus a log of published messages; expiry, persistence and connection errors are not modelled.

## Findings

| source | as written | input that shows it | evidently intended | confidence | as-written member | corrected member |
|---|---|---|---|---|---|---|
| _project/scraping/Audit/audit.py:180 | the re-audit skip list names 'Suppressed Asin Chnaged', which the checker never writes (it writes 'Suppressed Asin Changed') | a product whose status is 'Suppressed Asin Changed' with reaudit on | skip products whose ASIN changed, like Live and Suppressed | high, not executed | Audit.AsinChangedIsReaudited | Audit.IntendedReauditSkipsSettled |
| _project/scraping/Audit/audit.py:141-142 | every chunk's `AuditWorkers.run` calls `init_task(len(chunk))` on the same task id, so the stored total is one chunk's length | 11 products with 5 browsers: chunks 3, 3, 3, 2, total 2 | total = number of products in the list | high, not executed | Audit.RunAudit.Prologues | Audit.RunAudit.PrologueIntended |
| scraping/Audit/setup_browser.py:82-110 | the captcha branch is inverted and reads `self.asin` / `self.product_id`, which do not exist; `_navigate` never returns True, and a clean page returns None | a page without captcha that loads | True when the page loads, the captcha passes and scraping succeeds | high, not executed | SetupBrowser.LegacyNeverTrue | SetupBrowser.IntendedOutcome |
| scraping/file_parsing.py:138-140 | the column is converted with `astype(str)` before the null check, so a missing cell becomes "nan" and the null check never fires | Amazon frame with ids [missing, "B0ABCDEFGH"] | report "contains null values" | high, not executed | FileParsing.MissingAmazonIdReportedAsPrefix | FileParsing.IntendedNullCheck |
| _project/scraping/views.py:231-233 | `request.data.get("reaudit").lower() == True` compares a string with True, so it is always False, and a JSON boolean or number has no `.lower()` | reaudit "true" gives False; reaudit true or 1 gives a 500 | re-audit when the flag is "true" in any case, or a JSON true | high, not executed | Views.ParseReaudit | Views.ParseReauditIntended |
| scraping/Audit/save_csv.py:69-70 | `os.path.dirname` of a bare file name is '', which never exists, so `os.makedirs('')` raises; the older driver writes to `audit_{id}.csv` (scraping/Audit/audit.py:30) | `csv_audit_general(data, "audit_5.csv")` | a file in the working directory needs no directory created; append the stamped row | high, not executed | LegacyAudit.AuditWritesRaise | AmazonRegular.CsvAuditGeneralIntended |
| _project/scraping/views.py:351-353 | the module's Redis client (line 24) has no `decode_responses`, so `task_channel` is `bytes` and `task_channel.split(":")` raises TypeError | any update published on `task_updates:<id>` | decode the channel before splitting, and tag each update with its task id | high, not executed | Views.UndecodedChannelsYieldNothing | Views.DecodedChannelsTagEveryUpdate |
