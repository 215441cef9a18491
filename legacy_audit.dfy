/**
 * The older audit driver: one browser for the whole list, one new page
 * and one `AmazonScrapingLogic` run per product, in list order, every
 * record appended to the list's own CSV file.
 */
module LegacyAudit {
  import opened ResultBuffer
  import opened AmazonRegular

  /** `f"audit_{productlist_id}.csv"` */
  function AuditFileName(productListId: string): (name: string)
    ensures |name| == |productListId| + 10 && name[6..|name| - 4] == productListId
  {
    "audit_" + productListId + ".csv"
  }

  /** Different product lists never share a CSV file. */
  lemma AuditFileNameInjective(a: string, b: string)
    requires AuditFileName(a) == AuditFileName(b)
    ensures a == b
  {
    var n := AuditFileName(a);
    assert n[6..|n| - 4] == a && n[6..|n| - 4] == b;
  }

  /**
   * The driver's bare file name has no directory part, so as written every
   * `csv_audit_general` call of a run raises in `os.makedirs('')` before
   * anything is written.
   */
  lemma AuditWritesRaise(productListId: string, files: map<string, seq<Dict>>, data: Dict, now: string)
    requires '/' !in productListId
    ensures CsvAuditGeneral(files, AuditFileName(productListId), data, now) == MakedirsRaises
  {
    var name := AuditFileName(productListId);
    assert name == "audit_" + productListId + ".csv";
    assert '/' !in name by {
      forall k | 0 <= k < |name|
        ensures name[k] != '/'
      {
        if 6 <= k < |name| - 4 {
          assert name[k] == productListId[k - 6];
        }
      }
    }
  }

  /** The files after appending `rows`, one `csv_audit_general` call each, to the named file. */
  function AppendedAll(files: map<string, seq<Dict>>, name: string, rows: seq<Dict>): (fs: map<string, seq<Dict>>)
    ensures FileRows(fs, name) == FileRows(files, name) + rows
    ensures forall other :: other != name ==> FileRows(fs, other) == FileRows(files, other)
    ensures rows == [] ==> fs == files
  {
    if rows == [] then files else files[name := FileRows(files, name) + rows]
  }

  lemma AppendedAllSnoc(files: map<string, seq<Dict>>, name: string, rows: seq<Dict>, row: Dict)
    ensures Appended(AppendedAll(files, name, rows), name, row) == AppendedAll(files, name, rows + [row])
  {
    assert FileRows(files, name) + rows + [row] == FileRows(files, name) + (rows + [row]);
  }

  /** Appending the record of product `idx` to the file of the first `idx` records gives the file of the first `idx + 1`. */
  lemma RunRowsSnoc(files0: map<string, seq<Dict>>, name: string, products: seq<string>, world: nat -> ScraperInputs,
                    idx: nat, r: Dict)
    requires idx < |products| && r == ProductRow(products, world, idx)
    ensures Appended(AppendedAll(files0, name, RunRows(products, world, idx)), name, r)
      == AppendedAll(files0, name, RunRows(products, world, idx + 1))
  {
    AppendedAllSnoc(files0, name, RunRows(products, world, idx), r);
  }

  /** What the driver does with the browser and its pages. */
  datatype RunEvent = BrowserStarted | PageOpened(asin: string) | BrowserClosed

  /** The record the scraper of product `i` writes; `world(i)` is what its page does. */
  function ProductRow(products: seq<string>, world: nat -> ScraperInputs, i: nat): Dict
    requires i < |products|
  {
    ScrapeRecord(ScrapeResult(i, products[i]), products[i], world(i))
  }

  /** The records of the first `n` products, in order. */
  function RunRows(products: seq<string>, world: nat -> ScraperInputs, n: nat): (rows: seq<Dict>)
    requires n <= |products|
    ensures |rows| == n
  {
    if n == 0 then [] else RunRows(products, world, n - 1) + [ProductRow(products, world, n - 1)]
  }

  /** Row `i` of a run is the record of product `i`. */
  lemma {:induction false} RunRowsAt(products: seq<string>, world: nat -> ScraperInputs, n: nat, i: nat)
    requires i < n <= |products|
    ensures RunRows(products, world, n)[i] == ProductRow(products, world, i)
    decreases n
  {
    if i < n - 1 {
      RunRowsAt(products, world, n - 1, i);
    }
  }

  /** One page per product, in list order. */
  function Pages(products: seq<string>, n: nat): (es: seq<RunEvent>)
    requires n <= |products|
    ensures |es| == n && forall i :: 0 <= i < n ==> es[i] == PageOpened(products[i])
  {
    seq(n, i requires 0 <= i < n => PageOpened(products[i]))
  }

  lemma PagesSnoc(products: seq<string>, n: nat)
    requires n < |products|
    ensures Pages(products, n + 1) == Pages(products, n) + [PageOpened(products[n])]
  {
  }

  /**
   * The CSV rows of a run: one per product, in list order, each carrying
   * that product's ASIN, its list position plus one as `index`, the CSV
   * file's full column set and the time of its own write.
   */
  lemma OneRowPerProduct(products: seq<string>, world: nat -> ScraperInputs)
    ensures var rows := RunRows(products, world, |products|);
      && |rows| == |products|
      && forall i :: 0 <= i < |rows| ==>
           rows[i].Keys == CsvKeys && rows[i]["asin"] == Str(products[i]) && rows[i]["index"] == Int(i + 1)
           && rows[i]["timestamp"] == Str(world(i).now)
  {
    var rows := RunRows(products, world, |products|);
    forall i | 0 <= i < |rows|
      ensures rows[i].Keys == CsvKeys && rows[i]["asin"] == Str(products[i]) && rows[i]["index"] == Int(i + 1)
      ensures rows[i]["timestamp"] == Str(world(i).now)
    {
      RunRowsAt(products, world, |products|, i);
      DefaultRecordKeepsShape(i, products[i], world(i));
    }
  }

  class RunAudit {
    const disk: Disk
    var events: seq<RunEvent>

    constructor (disk: Disk)
      ensures this.disk == disk && events == []
    {
      this.disk := disk;
      events := [];
    }

    /**
     * One turn of the loop: a new page, then `scrape_page` for the product
     * at position `idx`, with `idx` as its worker id.
     */
    method ScrapeNext(products: seq<string>, idx: nat, fileName: string, world: nat -> ScraperInputs,
                      ghost files0: map<string, seq<Dict>>, ghost events0: seq<RunEvent>)
      requires idx < |products|
      requires events == events0 + Pages(products, idx)
      requires disk.files == AppendedAll(files0, fileName, RunRows(products, world, idx))
      modifies this, disk
      ensures events == events0 + Pages(products, idx + 1)
      ensures disk.files == AppendedAll(files0, fileName, RunRows(products, world, idx + 1))
    {
      events := events + [PageOpened(products[idx])];
      PagesSnoc(products, idx);
      var r := ScrapeOne(products, idx, fileName, world);
      RunRowsSnoc(files0, fileName, products, world, idx, r);
    }

    /** `AmazonScrapingLogic(page, asin, idx, file_name).run_scraper()` for the product at `idx`. */
    method ScrapeOne(products: seq<string>, idx: nat, fileName: string, world: nat -> ScraperInputs) returns (r: Dict)
      requires idx < |products|
      modifies disk
      ensures r == ProductRow(products, world, idx)
      ensures disk.files == Appended(old(disk.files), fileName, r)
    {
      var scraper := new AmazonScrapingLogic(products[idx], idx, fileName, disk);
      r := scraper.RunScraper(world(idx));
    }

    /**
     * `run_scrape`: start the browser (a failing start raises before any
     * page), scrape every product on a new page with its list position as
     * worker id, then close the browser.
     */
    method RunScrape(productListId: string, products: seq<string>, startFails: bool, world: nat -> ScraperInputs)
      modifies this, disk
      ensures startFails ==> events == old(events) && disk.files == old(disk.files)
      ensures !startFails ==> events == old(events) + [BrowserStarted] + Pages(products, |products|) + [BrowserClosed]
      ensures !startFails ==> disk.files == AppendedAll(old(disk.files), AuditFileName(productListId), RunRows(products, world, |products|))
    {
      if startFails {
        return;
      }
      events := events + [BrowserStarted];
      var fileName := AuditFileName(productListId);
      ghost var files0 := disk.files;
      ghost var events0 := events;
      var idx := 0;
      while idx < |products|
        invariant 0 <= idx <= |products|
        invariant events == events0 + Pages(products, idx)
        invariant disk.files == AppendedAll(files0, fileName, RunRows(products, world, idx))
      {
        ScrapeNext(products, idx, fileName, world, files0, events0);
        idx := idx + 1;
      }
      events := events + [BrowserClosed];
    }
  }
}
