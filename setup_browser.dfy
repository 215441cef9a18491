/**
 * The older page manager of the audit scripts. Its `BrowserManager` is
 * the one of `BrowserConfig` except that its `headless` defaults to
 * False; its `_navigate` returns a bool (or nothing) instead of a record.
 */
module SetupBrowser {
  import opened Wrappers
  import opened AuditUtils
  import BrowserConfig

  /** `goto(url, timeout=10000)` */
  const NavigateTimeout: int := 10000

  /** What the page does when one product is navigated. */
  datatype LegacyScenario = LegacyScenario(
    newPage: bool,          // `context.new_page()` returns a page
    prepared: bool,         // the response listener and fingerprint spoofing succeed
    loaded: bool,           // `goto` and the load-state wait succeed
    captcha: CaptchaPage,   // what `handle_captcha` sees
    scraperRaises: bool)    // the scraper raises

  /**
   * `_navigate` as written. `_handle_captcha` reads `self.asin`, which the
   * class never sets, on its failure branch, so a failed captcha raises
   * `AttributeError` and the call returns False; a passed captcha skips
   * the `if not captcha_result` block and falls off the end, returning
   * None. The scraper is never reached.
   */
  function LegacyOutcome(sc: LegacyScenario): Option<bool> {
    if !(sc.newPage && sc.prepared && sc.loaded) then Some(false)
    else if HandleCaptcha(sc.captcha).ok then None
    else Some(false)
  }

  /** As written, `_navigate` never returns True, whatever the page does. */
  lemma LegacyNeverTrue(sc: LegacyScenario)
    ensures LegacyOutcome(sc) != Some(true)
  {
  }

  /** A page with no captcha loads fine and still yields None, not True. */
  lemma LegacyCleanPageYieldsNone()
    ensures LegacyOutcome(LegacyScenario(true, true, true, CaptchaPage(Returns(false), false, Returns(true)), false)) == None
  {
  }

  /**
   * `_navigate` as evidently intended: scrape when the captcha step
   * passes and report True, report False when it fails or anything raises.
   */
  function IntendedOutcome(sc: LegacyScenario): (r: Option<bool>)
    ensures r.Some?
    ensures r == Some(true) <==> sc.newPage && sc.prepared && sc.loaded && HandleCaptcha(sc.captcha).ok && !sc.scraperRaises
  {
    if !(sc.newPage && sc.prepared && sc.loaded) then Some(false)
    else if !HandleCaptcha(sc.captcha).ok then Some(false)
    else if sc.scraperRaises then Some(false)
    else Some(true)
  }

  /** What one page does under the older `_navigate`; no `finally` closes it. */
  datatype LegacyEvent = Opened | Goto(url: string, timeoutMs: int)

  class LegacyPageManager {
    const context: BrowserConfig.BrowserContext
    var page: bool
    var events: seq<LegacyEvent>

    constructor (context: BrowserConfig.BrowserContext)
      ensures this.context == context && !page && events == []
    {
      this.context := context;
      page := false;
      events := [];
    }

    /** `_navigate` as written; the page it opens is left open. */
    method Navigate(asin: string, sc: LegacyScenario) returns (r: Option<bool>)
      modifies this
      ensures r == LegacyOutcome(sc)
      ensures r != Some(true)
      ensures page == (old(page) || sc.newPage)
      ensures events == old(events)
        + (if sc.newPage then [Opened] else [])
        + (if sc.newPage && sc.prepared then [Goto(BrowserConfig.ProductUrl(asin), NavigateTimeout)] else [])
    {
      if !sc.newPage {
        return Some(false);
      }
      page := true;
      events := events + [Opened];
      if !sc.prepared {
        return Some(false);
      }
      events := events + [Goto(BrowserConfig.ProductUrl(asin), NavigateTimeout)];
      if !sc.loaded {
        return Some(false);
      }
      var captchaOk := HandleCaptcha(sc.captcha).ok;
      if !captchaOk {
        // the log line in `_handle_captcha` raises before it can return False
        return Some(false);
      }
      r := None;
    }
  }
}
