/**
 * The Amazon product scraper of the audit scripts: the page-status
 * classifier, the default result record, the gates in front of the
 * extraction (navigation, captcha, "continue shopping") and the
 * short-circuiting `_run_scraper`, which fills the record in place and
 * appends it to the audit CSV file.
 */
module AmazonRegular {
  import opened Wrappers
  import opened Text
  import opened AuditUtils
  import opened ResultBuffer

  // ---------------------------------------------------------------------
  // StatusChecker.check
  // ---------------------------------------------------------------------

  const Live: string := "Live"
  const Suppressed: string := "Suppressed"
  const RushHour: string := "Rush Hour"
  const AsinChanged: string := "Suppressed Asin Changed"
  const PageRemoved: string := "Suppressed Detail Page Removed"

  /** The five values `check` can return. */
  const PageStatuses: set<string> := {Live, Suppressed, RushHour, AsinChanged, PageRemoved}

  /** The start of Amazon's rush-hour notice. */
  const RushHourMessage: string := "Oops! It's rush hour and traffic is piling up on that page."

  /** What `check` reads off the page. */
  datatype StatusPage = StatusPage(
    url: string,                      // `page.url`
    center: Option<string>,           // the text of the first `center` element, if there is one
    h1: bool,                         // a `.h1` element is present
    asinProbe: Attempt<Option<string>>) // the `data-asin` attribute after the visibility wait, or the wait raising

  /** The rush-hour test: the `center` text, cleaned line by line and joined, starts with the notice. */
  predicate IsRushHour(center: Option<string>) {
    center.Some? && StartsWith(CleanText(center.value), RushHourMessage)
  }

  /** The status `check` returns for `asin` on `page`. */
  function Classify(asin: string, page: StatusPage): (status: string)
    ensures status in PageStatuses
  {
    if IsRushHour(page.center) then RushHour
    else if !Contains(page.url, "dp") then Suppressed
    else if page.h1 then Suppressed
    else match page.asinProbe
      case Raises => PageRemoved
      case Returns(v) => if v == Some(asin) then Live else AsinChanged
  }

  /** The rush-hour notice wins over everything else the page shows. */
  lemma RushHourFirst(asin: string, page: StatusPage)
    ensures Classify(asin, page) == RushHour <==> IsRushHour(page.center)
  {
  }

  /** A page is live exactly when it is a detail page without `.h1` whose `data-asin` is the one asked for. */
  lemma LiveIff(asin: string, page: StatusPage)
    ensures Classify(asin, page) == Live <==>
      !IsRushHour(page.center) && Contains(page.url, "dp") && !page.h1 && page.asinProbe == Returns(Some(asin))
  {
  }

  /** Off a detail page, and outside rush hour, a product is suppressed whatever else the page shows. */
  lemma NotDetailPageSuppressed(asin: string, page: StatusPage, h1: bool, probe: Attempt<Option<string>>)
    requires !IsRushHour(page.center) && !Contains(page.url, "dp")
    ensures Classify(asin, page) == Suppressed
    ensures Classify(asin, page.(h1 := h1, asinProbe := probe)) == Suppressed
  {
  }

  /**
   * On a detail page without the notice: `.h1` means suppressed, a
   * different or missing `data-asin` means the ASIN changed, and a wait
   * that fails means the detail page was removed.
   */
  lemma DetailPageStatus(asin: string, page: StatusPage)
    requires !IsRushHour(page.center) && Contains(page.url, "dp")
    ensures page.h1 ==> Classify(asin, page) == Suppressed
    ensures !page.h1 && page.asinProbe.Raises? ==> Classify(asin, page) == PageRemoved
    ensures !page.h1 && page.asinProbe.Returns? && page.asinProbe.value != Some(asin) ==> Classify(asin, page) == AsinChanged
  {
  }

  class StatusChecker {
    const asin: string

    constructor (asin: string)
      ensures this.asin == asin
    {
      this.asin := asin;
    }

    /** `check`: start from 'Suppressed' and overwrite it as the page is inspected. */
    method Check(page: StatusPage) returns (status: string)
      ensures status == Classify(asin, page)
    {
      status := Suppressed;
      if page.center.Some? {
        var cleanText := CleanText(page.center.value);
        if StartsWith(cleanText, RushHourMessage) {
          return RushHour;
        }
      }
      if Contains(page.url, "dp") {
        if page.h1 {
          status := Suppressed;
        } else {
          match page.asinProbe {
            case Raises =>
              status := PageRemoved;
            case Returns(v) =>
              if v == Some(asin) {
                status := Live;
              } else {
                status := AsinChanged;
              }
          }
        }
      }
    }
  }

  // ---------------------------------------------------------------------
  // _scrape_result: the default record
  // ---------------------------------------------------------------------

  /** The fields the first extraction step (`self.result.update(...)`) writes, besides the status. */
  const UpdateKeys: seq<string> := [
    "brand_name", "browse_node", "title", "reviews", "ratings", "variations", "deal", "seller"
  ]

  /** The fields the eleven later extraction steps write, one each, in order. */
  const LaterKeys: seq<string> := [
    "image_len", "video", "main_img_url", "bullet_point_len", "bestSellerRank", "price",
    "MRP", "availability", "description", "A_plus", "store_link"
  ]

  /** Every field extraction writes. */
  const FieldKeys: seq<string> := UpdateKeys + LaterKeys

  /** The keys of the default record. */
  const RecordKeys: set<string> := {"index", "asin", "status"} + set k | k in FieldKeys

  /** `_scrape_result`: every field at its "nothing found" value. */
  function ScrapeResult(workerId: int, asin: string): Dict
  {
    map[
      "index" := Int(workerId + 1), "asin" := Str(asin), "status" := Str(Suppressed),
      "brand_name" := Str("N/A"), "browse_node" := Str("N/A"), "title" := Str("N/A"),
      "reviews" := Str("0"), "ratings" := Str("0"), "variations" := Str("N/A"),
      "deal" := Str("N/A"), "seller" := Str("N/A"), "image_len" := Int(0),
      "video" := Str("N/A"), "main_img_url" := Str("N/A"), "bullet_point_len" := Int(0),
      "bestSellerRank" := Str(""), "price" := Str("N/A"), "MRP" := Int(0),
      "availability" := Str("N/A"), "description" := Str("N/A"), "A_plus" := Str("N/A"),
      "store_link" := Str("N/A")
    ]
  }

  /** The default record has exactly the record's keys, with the worker's index, the ASIN and a 'Suppressed' status. */
  lemma ScrapeResultShape(workerId: int, asin: string)
    ensures var d := ScrapeResult(workerId, asin);
      && d.Keys == RecordKeys
      && d["index"] == Int(workerId + 1) && d["asin"] == Str(asin) && d["status"] == Str(Suppressed)
  {
    ScrapeResultKeys(workerId, asin);
  }

  lemma ScrapeResultKeys(workerId: int, asin: string)
    ensures ScrapeResult(workerId, asin).Keys == RecordKeys
  {
  }

  /** Every column but the two rank columns is read from a key of the record. */
  lemma ColumnsFromRecordKeys()
    ensures forall c :: c in Columns && c != "bsr1" && c != "bsr2" ==> SourceKey(c) in RecordKeys
  {
  }

  /** Saving the default record fills every column of the product row; none is NULL. */
  lemma DefaultRecordFillsColumns(productList: int, user: int, workerId: int, asin: string)
    ensures forall c :: c in Columns ==> ToRow(productList, user, ScrapeResult(workerId, asin)).columns[c].Some?
  {
    ScrapeResultShape(workerId, asin);
    RecordFillsColumns(productList, user, ScrapeResult(workerId, asin));
  }

  /** A record with every key of the default record fills every column. */
  lemma RecordFillsColumns(productList: int, user: int, d: Dict)
    requires d.Keys == RecordKeys
    ensures "asin" in d
    ensures forall c :: c in Columns ==> ToRow(productList, user, d).columns[c].Some?
  {
    assert "asin" in RecordKeys;
    ColumnsFromRecordKeys();
    forall c | c in Columns
      ensures ToRow(productList, user, d).columns[c].Some?
    {
      ToRowColumns(productList, user, d);
    }
  }

  // ---------------------------------------------------------------------
  // The audit CSV file
  // ---------------------------------------------------------------------

  /** The rows in each CSV file, by file name. */
  class Disk {
    var files: map<string, seq<Dict>>

    constructor (files: map<string, seq<Dict>>)
      ensures this.files == files
    {
      this.files := files;
    }
  }

  function FileRows(files: map<string, seq<Dict>>, name: string): seq<Dict> {
    if name in files then files[name] else []
  }

  /** The columns of the audit CSV file, in order: every key of the default record, then the time of the write. */
  const CsvHeaders: seq<string> := [
    "index", "asin", "reviews", "ratings", "seller", "status", "variations", "browse_node", "brand_name",
    "availability", "deal", "image_len", "video", "main_img_url", "bullet_point_len", "bestSellerRank",
    "price", "MRP", "title", "description", "A_plus", "store_link", "timestamp"
  ]

  /** The keys of a written record: the default record's and `timestamp`. */
  const CsvKeys: set<string> := RecordKeys + {"timestamp"}

  /**
   * The header row names exactly the keys of a written record, so
   * `DictWriter.writerow` meets no key outside its field names and leaves
   * no column empty.
   */
  lemma HeadersAreCsvKeys()
    ensures (set h | h in CsvHeaders) == CsvKeys
  {
  }

  /** The row appended to the named file; every other file is left alone. */
  function Appended(files: map<string, seq<Dict>>, name: string, row: Dict): (fs: map<string, seq<Dict>>)
    ensures FileRows(fs, name) == FileRows(files, name) + [row]
    ensures forall other :: other != name ==> FileRows(fs, other) == FileRows(files, other)
  {
    files[name := FileRows(files, name) + [row]]
  }

  /** `data["timestamp"] = datetime.now().strftime(...)`, `now` being the formatted clock reading. */
  function Stamp(data: Dict, now: string): Dict {
    data["timestamp" := Str(now)]
  }

  /** Stamping adds the `timestamp` key with the write's time and changes no other key. */
  lemma StampKeepsFields(data: Dict, now: string)
    ensures var r := Stamp(data, now);
      r.Keys == data.Keys + {"timestamp"} && r["timestamp"] == Str(now)
      && forall k :: k in data && k != "timestamp" ==> r[k] == data[k]
  {
  }

  /** The position of the last '/' in `s`, or -1. */
  function LastSlash(s: string): (i: int)
    ensures -1 <= i < |s|
    ensures i >= 0 ==> s[i] == '/' && '/' !in s[i + 1..]
    ensures i == -1 <==> '/' !in s
  {
    if s == [] then -1
    else if s[|s| - 1] == '/' then |s| - 1
    else
      var i := LastSlash(s[..|s| - 1]);
      assert s == s[..|s| - 1] + [s[|s| - 1]];
      assert i >= 0 ==> s[i + 1..] == s[..|s| - 1][i + 1..] + [s[|s| - 1]];
      i
  }

  /** `s.rstrip('/')` */
  function StripTrailingSlashes(s: string): (r: string)
    ensures |r| <= |s| && r == s[..|r|]
    ensures r != [] ==> r[|r| - 1] != '/'
    ensures forall k :: |r| <= k < |s| ==> s[k] == '/'
  {
    if s != [] && s[|s| - 1] == '/' then StripTrailingSlashes(s[..|s| - 1]) else s
  }

  /**
   * `os.path.dirname` (POSIX): the path up to its last '/', without
   * trailing slashes unless it is nothing but slashes. Only a path without
   * a '/' has an empty directory part.
   */
  function DirName(path: string): (d: string)
    ensures |d| <= |path| && d == path[..|d|]
    ensures d == [] <==> '/' !in path
  {
    var head := path[..LastSlash(path) + 1];
    var stripped := StripTrailingSlashes(head);
    if stripped == [] then head else stripped
  }

  /** The newer driver's `./scraping.csv` lies in the working directory `.`. */
  lemma DirNameOfScrapingCsv()
    ensures DirName("./scraping.csv") == "."
  {
    assert "./scraping.csv" == "." + "/" + "scraping.csv";
    DirNameOfFileIn(".", "scraping.csv");
  }

  /** Trailing slashes are dropped from the directory part. */
  lemma DirNameOfDirectory()
    ensures DirName("out/audit/") == "out/audit"
  {
    var p := "out/audit/";
    assert LastSlash(p) == 9;
    assert StripTrailingSlashes(p) == "out/audit" by {
      assert p[..9] == "out/audit";
    }
  }

  /** A file name after a directory ending in anything but '/' has that directory as its directory part. */
  lemma DirNameOfFileIn(dir: string, file: string)
    requires dir != [] && dir[|dir| - 1] != '/' && '/' !in file
    ensures DirName(dir + "/" + file) == dir
  {
    LastSlashBeforeFile(dir + "/", file);
    var head := (dir + "/" + file)[..|dir| + 1];
    assert head == dir + "/";
    assert head[..|head| - 1] == dir;
  }

  lemma {:induction false} LastSlashBeforeFile(head: string, file: string)
    requires head != [] && head[|head| - 1] == '/' && '/' !in file
    ensures LastSlash(head + file) == |head| - 1
    decreases |file|
  {
    if file == [] {
      assert head + file == head;
    } else {
      var init := file[..|file| - 1];
      assert (head + file)[..|head + file| - 1] == head + init;
      LastSlashBeforeFile(head, init);
    }
  }

  /** What a `csv_audit_general` call leaves: the files with the stamped row appended, or `os.makedirs` raising. */
  datatype CsvWrite = Appends(files: map<string, seq<Dict>>, row: Dict) | MakedirsRaises

  /**
   * `csv_audit_general(data, path)` as written: when the directory part
   * does not exist it is created first, but a bare file name has the
   * directory part '', which never exists, and `os.makedirs('')` raises
   * before the row is stamped or written. A directory that has to be
   * created is created; the model keeps no directories.
   */
  function CsvAuditGeneral(files: map<string, seq<Dict>>, path: string, data: Dict, now: string): (w: CsvWrite)
    ensures w.MakedirsRaises? <==> '/' !in path
    ensures w.Appends? ==> w == CsvAuditGeneralIntended(files, path, data, now)
  {
    if DirName(path) == [] then MakedirsRaises else CsvAuditGeneralIntended(files, path, data, now)
  }

  /**
   * `csv_audit_general` as evidently intended: a file in the working
   * directory needs no directory created. The record gets the write's
   * timestamp and is appended, as one CSV row, to the named file only.
   */
  function CsvAuditGeneralIntended(files: map<string, seq<Dict>>, path: string, data: Dict, now: string): (w: CsvWrite)
    ensures w.Appends? && w.row == Stamp(data, now)
    ensures FileRows(w.files, path) == FileRows(files, path) + [w.row]
    ensures forall other :: other != path ==> FileRows(w.files, other) == FileRows(files, other)
  {
    var row := Stamp(data, now);
    Appends(Appended(files, path, row), row)
  }

  /** The newer driver's `./scraping.csv` has a directory part, so the call as written appends like the intended one. */
  lemma ScrapingCsvWrites(files: map<string, seq<Dict>>, data: Dict, now: string)
    ensures CsvAuditGeneral(files, "./scraping.csv", data, now) == CsvAuditGeneralIntended(files, "./scraping.csv", data, now)
  {
    assert "./scraping.csv"[1] == '/';
  }

  /** A record with the default record's keys is written with exactly the CSV file's columns. */
  lemma StampedRecordMatchesHeaders(d: Dict, now: string)
    requires d.Keys == RecordKeys
    ensures Stamp(d, now).Keys == set h | h in CsvHeaders
  {
    HeadersAreCsvKeys();
  }

  // ---------------------------------------------------------------------
  // _run_scraper
  // ---------------------------------------------------------------------

  const PageTimeout: string := "Suppressed Page Timeout"
  const CaptchaFailure: string := "Suppressed Captcha Failure"
  const ContinueButton: string := "Suppressed Continue Button"

  /** What the "continue shopping" button does: absent or hidden, clicked, or the click raises. */
  datatype Button = NoButton | Clicks | ClickRaises

  /** Everything `_run_scraper` depends on, as the page would produce it. */
  datatype ScraperInputs = ScraperInputs(
    loads: bool,                // the listener, fingerprinting, `goto` and the load wait succeed
    captcha: CaptchaPage,       // what `handle_captcha` sees
    button: Button,
    page: StatusPage,           // what the status checker sees
    fields: string -> Val,      // the value each field's extractor returns
    failAt: Option<nat>,        // the extraction step that raises, if any
    now: string)                // the formatted clock reading every write of the run stamps

  /** The number of extraction steps: the combined update, then eleven single fields. */
  const Steps: nat := 1 + |LaterKeys|

  /** The extraction steps that complete before the one that raises. */
  function Completed(failAt: Option<nat>): (n: nat)
    ensures n <= Steps
  {
    if failAt.Some? && failAt.value < Steps then failAt.value else Steps
  }

  /** The fields the first `n` extraction steps have written. */
  function Written(n: nat): (ks: seq<string>)
    requires n <= Steps
    ensures forall k :: k in ks ==> k in FieldKeys && k != "status"
    ensures n == Steps ==> ks == FieldKeys
  {
    if n == 0 then [] else UpdateKeys + LaterKeys[..n - 1]
  }

  /** The record after the first `n` extraction steps. */
  function Extracted(result: Dict, status: string, fields: string -> Val, n: nat): Dict
    requires n <= Steps
  {
    if n == 0 then result
    else (result + map k | k in Written(n) :: fields(k))["status" := Str(status)]
  }

  /** The status the first failing gate writes, if one fails. */
  function GateStatus(inp: ScraperInputs): Option<string> {
    if !inp.loads then Some(PageTimeout)
    else if !HandleCaptcha(inp.captcha).ok then Some(CaptchaFailure)
    else if inp.button.ClickRaises? then Some(ContinueButton)
    else None
  }

  /** The gates pass and the page's status calls for extraction. */
  predicate Extracting(asin: string, inp: ScraperInputs) {
    GateStatus(inp).None? && Classify(asin, inp.page) !in {Suppressed, RushHour}
  }

  /** The record `_run_scraper` returns, starting from `init`. */
  function ScrapeOutcome(init: Dict, asin: string, inp: ScraperInputs): Dict {
    match GateStatus(inp)
    case Some(s) => init["status" := Str(s)]
    case None =>
      var status := Classify(asin, inp.page);
      if status == Suppressed || status == RushHour then init["status" := Str(status)]
      else
        var n := Completed(inp.failAt);
        var d := Extracted(init, status, inp.fields, n);
        if n < Steps then d["status" := Str(Suppressed)] else d
  }

  /** The record `_run_scraper` returns and writes: the outcome, stamped by `csv_audit_general`, which updates it in place. */
  function ScrapeRecord(init: Dict, asin: string, inp: ScraperInputs): Dict {
    Stamp(ScrapeOutcome(init, asin, inp), inp.now)
  }

  /** `r` is `init` with only its status set to `s`. */
  predicate OnlyStatusChanged(init: Dict, r: Dict, s: string) {
    r.Keys == init.Keys + {"status"} && r["status"] == Str(s)
    && forall k :: k in init && k != "status" ==> r[k] == init[k]
  }

  /** A failing gate, or a 'Suppressed' or 'Rush Hour' page, changes nothing but the status. */
  lemma EarlyExitOnlySetsStatus(init: Dict, asin: string, inp: ScraperInputs)
    requires !Extracting(asin, inp)
    ensures GateStatus(inp).Some? ==> OnlyStatusChanged(init, ScrapeOutcome(init, asin, inp), GateStatus(inp).value)
    ensures GateStatus(inp).None? ==> OnlyStatusChanged(init, ScrapeOutcome(init, asin, inp), Classify(asin, inp.page))
  {
  }

  /**
   * When extraction runs, the fields of the completed steps hold what
   * their extractors returned, every other field keeps its value, and
   * the status is the page's, or 'Suppressed' when a step raised.
   */
  lemma {:induction false} ExtractionOutcome(init: Dict, asin: string, inp: ScraperInputs)
    requires Extracting(asin, inp)
    ensures var r, n := ScrapeOutcome(init, asin, inp), Completed(inp.failAt);
      && r.Keys == init.Keys + {"status"} + (set k | k in Written(n))
      && (forall k :: k in Written(n) ==> r[k] == inp.fields(k))
      && (forall k :: k in init && k !in Written(n) && k != "status" ==> r[k] == init[k])
      && r["status"] == Str(if n < Steps then Suppressed else Classify(asin, inp.page))
  {
    var n := Completed(inp.failAt);
    var r := ScrapeOutcome(init, asin, inp);
    if n > 0 {
      var m := map k | k in Written(n) :: inp.fields(k);
      var d := (init + m)["status" := Str(Classify(asin, inp.page))];
      assert Extracted(init, Classify(asin, inp.page), inp.fields, n) == d;
      assert m.Keys == set k | k in Written(n);
    }
  }

  /** A run without a failing step writes every field. */
  lemma CleanRunWritesEveryField(init: Dict, asin: string, inp: ScraperInputs)
    requires Extracting(asin, inp) && Completed(inp.failAt) == Steps
    ensures forall k :: k in FieldKeys ==> ScrapeOutcome(init, asin, inp)[k] == inp.fields(k)
    ensures ScrapeOutcome(init, asin, inp)["status"] == Str(Classify(asin, inp.page))
  {
    ExtractionOutcome(init, asin, inp);
  }

  /** The final status is one of the page statuses or one of the gates' three. */
  lemma OutcomeStatus(init: Dict, asin: string, inp: ScraperInputs)
    ensures ScrapeOutcome(init, asin, inp)["status"].Str?
    ensures ScrapeOutcome(init, asin, inp)["status"].s in PageStatuses + {PageTimeout, CaptchaFailure, ContinueButton}
  {
    if Extracting(asin, inp) {
      ExtractionOutcome(init, asin, inp);
    } else {
      EarlyExitOnlySetsStatus(init, asin, inp);
    }
  }

  /**
   * A record that already has every field keeps its keys and gains the
   * timestamp of the write; no key outside the fields, the status and the
   * timestamp changes.
   */
  lemma {:induction false} OutcomeKeepsShape(init: Dict, asin: string, inp: ScraperInputs)
    requires "status" in init && forall k :: k in FieldKeys ==> k in init
    ensures var r := ScrapeRecord(init, asin, inp);
      && r.Keys == init.Keys + {"timestamp"} && r["timestamp"] == Str(inp.now)
      && forall k :: k in init && k != "status" && k != "timestamp" && k !in FieldKeys ==> r[k] == init[k]
  {
    if Extracting(asin, inp) {
      ExtractionOutcome(init, asin, inp);
    } else {
      EarlyExitOnlySetsStatus(init, asin, inp);
    }
  }

  /** Starting from the default record, the written record has the CSV file's columns, the product's ASIN, the worker's index and the write's time. */
  lemma DefaultRecordKeepsShape(workerId: int, asin: string, inp: ScraperInputs)
    ensures var r := ScrapeRecord(ScrapeResult(workerId, asin), asin, inp);
      r.Keys == CsvKeys && r["asin"] == Str(asin) && r["index"] == Int(workerId + 1) && r["timestamp"] == Str(inp.now)
  {
    ScrapeResultShape(workerId, asin);
    RecordKeepsShape(ScrapeResult(workerId, asin), asin, inp);
  }

  /** A record with the default record's keys is written with the CSV file's columns, its ASIN and its index, stamped with the write's time. */
  lemma RecordKeepsShape(init: Dict, asin: string, inp: ScraperInputs)
    requires init.Keys == RecordKeys
    ensures var r := ScrapeRecord(init, asin, inp);
      r.Keys == CsvKeys && r["asin"] == init["asin"] && r["index"] == init["index"] && r["timestamp"] == Str(inp.now)
  {
    assert "asin" !in FieldKeys && "index" !in FieldKeys;
    assert "asin" in RecordKeys && "index" in RecordKeys;
    OutcomeKeepsShape(init, asin, inp);
  }

  /** The scraper of one product: its record, the CSV file it appends to, and its page. */
  class AmazonScrapingLogic {
    const asin: string
    const workerId: int
    const fileName: string
    const disk: Disk
    var result: Dict
    /** How many times `page.close()` was called. */
    var pageCloses: nat

    /** The record starts as `_scrape_result()`. */
    constructor (asin: string, workerId: int, fileName: string, disk: Disk)
      ensures this.asin == asin && this.workerId == workerId && this.fileName == fileName && this.disk == disk
      ensures result == ScrapeResult(workerId, asin) && pageCloses == 0
    {
      this.asin := asin;
      this.workerId := workerId;
      this.fileName := fileName;
      this.disk := disk;
      result := ScrapeResult(workerId, asin);
      pageCloses := 0;
    }

    /**
     * `csv_audit_general(self.result, self.file_name)`, as intended: the
     * record itself gets the timestamp, then is appended.
     */
    method WriteRow(now: string)
      modifies this, disk
      ensures CsvAuditGeneralIntended(old(disk.files), fileName, old(result), now) == Appends(disk.files, result)
      ensures pageCloses == old(pageCloses)
    {
      result := Stamp(result, now);
      disk.files := Appended(disk.files, fileName, result);
    }

    /** `_navigate_and_prepare`: a failure marks the record 'Suppressed Page Timeout' and writes it. */
    method NavigateAndPrepare(loads: bool, now: string) returns (ok: bool)
      modifies this, disk
      ensures ok == loads && pageCloses == old(pageCloses)
      ensures ok ==> result == old(result) && disk.files == old(disk.files)
      ensures !ok ==> result == Stamp(old(result)["status" := Str(PageTimeout)], now)
      ensures !ok ==> disk.files == Appended(old(disk.files), fileName, result)
    {
      if !loads {
        result := result["status" := Str(PageTimeout)];
        WriteRow(now);
        return false;
      }
      ok := true;
    }

    /** `_handle_captcha`: an unsolved captcha marks the record 'Suppressed Captcha Failure' and writes it. */
    method HandleCaptchaStep(captcha: CaptchaPage, now: string) returns (ok: bool)
      modifies this, disk
      ensures ok == HandleCaptcha(captcha).ok && pageCloses == old(pageCloses)
      ensures ok ==> result == old(result) && disk.files == old(disk.files)
      ensures !ok ==> result == Stamp(old(result)["status" := Str(CaptchaFailure)], now)
      ensures !ok ==> disk.files == Appended(old(disk.files), fileName, result)
    {
      var solved := HandleCaptcha(captcha).ok;
      if !solved {
        result := result["status" := Str(CaptchaFailure)];
        WriteRow(now);
        return false;
      }
      ok := true;
    }

    /**
     * `_handle_continue_shopping`: a missing button and a working click
     * both pass; a click that raises marks the record 'Suppressed Continue
     * Button' and writes it.
     */
    method HandleContinueShopping(button: Button, now: string) returns (ok: bool)
      modifies this, disk
      ensures ok == !button.ClickRaises? && pageCloses == old(pageCloses)
      ensures ok ==> result == old(result) && disk.files == old(disk.files)
      ensures !ok ==> result == Stamp(old(result)["status" := Str(ContinueButton)], now)
      ensures !ok ==> disk.files == Appended(old(disk.files), fileName, result)
    {
      if button.ClickRaises? {
        result := result["status" := Str(ContinueButton)];
        WriteRow(now);
        return false;
      }
      ok := true;
    }

    /**
     * `_run_scraper`: every way out appends the returned record, stamped,
     * to the CSV file exactly once, and the page is closed exactly when
     * extraction ran.
     */
    method RunScraper(inp: ScraperInputs) returns (r: Dict)
      modifies this, disk
      ensures r == result && result == ScrapeRecord(old(result), asin, inp)
      ensures disk.files == Appended(old(disk.files), fileName, result)
      ensures pageCloses == old(pageCloses) + (if Extracting(asin, inp) then 1 else 0)
    {
      var ok := NavigateAndPrepare(inp.loads, inp.now);
      if !ok {
        return result;
      }
      ok := HandleCaptchaStep(inp.captcha, inp.now);
      if !ok {
        return result;
      }
      ok := HandleContinueShopping(inp.button, inp.now);
      if !ok {
        return result;
      }
      var checker := new StatusChecker(asin);
      var status := checker.Check(inp.page);
      if status == Suppressed || status == RushHour {
        result := result["status" := Str(status)];
        WriteRow(inp.now);
        return result;
      }
      var n := Completed(inp.failAt);
      result := Extracted(result, status, inp.fields, n);
      if n < Steps {
        result := result["status" := Str(Suppressed)];
      }
      WriteRow(inp.now);
      pageCloses := pageCloses + 1;
      r := result;
    }
  }
}
