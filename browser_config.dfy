/**
 * The browser lifecycle of the audit engine: `BrowserManager` starts
 * Playwright, a browser and one spoofed context, and tears down whatever
 * it started; `AmazonPageManager._navigate` opens one page per product,
 * runs the scraper behind the captcha gate and always closes the page.
 * Playwright itself is replaced by the outcomes it would produce.
 */
module BrowserConfig {
  import opened Wrappers
  import opened Text
  import opened AuditUtils
  import opened ResultBuffer

  /** A Playwright browser context and the settings it was created with. */
  class BrowserContext {
    const settings: ContextSettings
    var closed: bool

    constructor (settings: ContextSettings)
      ensures this.settings == settings && !closed
    {
      this.settings := settings;
      closed := false;
    }
  }

  /** The step of `start` that raised. */
  datatype StartStep = StartPlaywright | LaunchBrowser | CreateContext

  /** A resource `close` shut down. */
  datatype Shutdown = ContextClosed | BrowserClosed | PlaywrightStopped

  /** `BrowserManager(headless=True)` */
  const DefaultHeadless: bool := true

  class BrowserManager {
    const headless: bool
    /** `hasattr(self, "playwright")` */
    var playwrightStarted: bool
    /** `self.browser` is set */
    var browserLaunched: bool
    var context: BrowserContext?
    var contextSettings: Option<ContextSettings>
    /** What `close` shut down so far, in order. */
    var shutdowns: seq<Shutdown>

    constructor (headless: bool)
      ensures this.headless == headless
      ensures !playwrightStarted && !browserLaunched && context == null && contextSettings == None
      ensures shutdowns == []
    {
      this.headless := headless;
      playwrightStarted := false;
      browserLaunched := false;
      context := null;
      contextSettings := None;
      shutdowns := [];
    }

    /**
     * `start`: each step records what it set before the next one runs, so
     * a failure leaves the earlier steps' resources for `close`. On success
     * the returned context and settings are the ones stored.
     */
    method Start(failure: Option<StartStep>, picks: Picks) returns (r: Option<(BrowserContext, ContextSettings)>)
      requires ValidPicks(picks)
      modifies this
      ensures r.Some? <==> failure.None?
      ensures r.Some? ==> context == r.value.0 && contextSettings == Some(r.value.1)
      ensures r.Some? ==> fresh(context) && !context.closed && context.settings == r.value.1
      ensures r.Some? ==> r.value.1 == SpoofedSettings(picks)
      ensures playwrightStarted == (old(playwrightStarted) || failure != Some(StartPlaywright))
      ensures browserLaunched == (old(browserLaunched) || failure == None || failure == Some(CreateContext))
      ensures failure.Some? ==> context == old(context) && contextSettings == old(contextSettings)
      ensures shutdowns == old(shutdowns)
    {
      if failure.Some? && failure.value.StartPlaywright? {
        return None;
      }
      playwrightStarted := true;
      if failure.Some? && failure.value.LaunchBrowser? {
        return None;
      }
      browserLaunched := true;
      if failure.Some? {
        return None;
      }
      var settings := SpoofedSettings(picks);
      context := new BrowserContext(settings);
      contextSettings := Some(settings);
      r := Some((context, settings));
    }

    /** `close`: the context, then the browser, then Playwright, each only if it was set or started. */
    method Close()
      modifies this, context
      ensures shutdowns == old(shutdowns)
        + (if old(context) != null then [ContextClosed] else [])
        + (if browserLaunched then [BrowserClosed] else [])
        + (if playwrightStarted then [PlaywrightStopped] else [])
      ensures old(context) != null ==> old(context).closed
      ensures context == old(context) && contextSettings == old(contextSettings)
      ensures playwrightStarted == old(playwrightStarted) && browserLaunched == old(browserLaunched)
    {
      if context != null {
        context.closed := true;
        shutdowns := shutdowns + [ContextClosed];
      }
      if browserLaunched {
        shutdowns := shutdowns + [BrowserClosed];
      }
      if playwrightStarted {
        shutdowns := shutdowns + [PlaywrightStopped];
      }
    }
  }

  const ProductPagePrefix: string := "https://www.amazon.in/dp/"

  /** The product page `_navigate` visits. */
  function ProductUrl(asin: string): (url: string)
    ensures StartsWith(url, ProductPagePrefix) && url[|ProductPagePrefix|..] == asin
  {
    ProductPagePrefix + asin
  }

  /** Different products are visited at different URLs. */
  lemma ProductUrlInjective(a: string, b: string)
    requires ProductUrl(a) == ProductUrl(b)
    ensures a == b
  {
    PrefixCancel(ProductPagePrefix, a, b);
  }

  /** `goto(url, timeout=20000)` */
  const NavigateTimeout: int := 20000

  /** What one page does under `_navigate`. */
  datatype PageEvent = Opened | Goto(url: string, timeoutMs: int) | Closed

  /**
   * What the page and the scraper do when one product is navigated. A
   * `page.close()` that raises is caught and ignored, so it is not a case.
   */
  datatype NavScenario = NavScenario(
    newPage: bool,                    // `context.new_page()` returns a page
    prepared: bool,                   // the response listener and fingerprint spoofing succeed
    loaded: bool,                     // `goto` and the load-state wait succeed
    captcha: CaptchaPage,             // what `handle_captcha` sees
    scraper: Attempt<Option<Dict>>,   // `_run_scraper`: a dict (`Some`), another value (`None`), or raises
    errorText: string)                // `str(e)` of whatever raised

  /** `{"asin": asin, "status": "error", "error": msg}` */
  function ErrorRecord(asin: string, msg: string): Dict {
    map["asin" := Str(asin), "status" := Str("error"), "error" := Str(msg)]
  }

  /**
   * The result of `_navigate`: `Some(d)` is a dict, `None` any other value
   * (including `None`).
   */
  function NavigateResult(asin: string, sc: NavScenario): (r: Option<Dict>)
    ensures r.Some? ==> "asin" in r.value
    ensures !(sc.newPage && sc.prepared && sc.loaded) ==> r == Some(ErrorRecord(asin, sc.errorText))
    ensures sc.newPage && sc.prepared && sc.loaded && !HandleCaptcha(sc.captcha).ok ==> r == None
    ensures sc.newPage && sc.prepared && sc.loaded && HandleCaptcha(sc.captcha).ok ==>
      match sc.scraper
      case Raises => r == Some(ErrorRecord(asin, sc.errorText))
      case Returns(None) => r == None
      case Returns(Some(d)) => r == Some(if "asin" in d then d else d["asin" := Str(asin)])
  {
    if !(sc.newPage && sc.prepared && sc.loaded) then Some(ErrorRecord(asin, sc.errorText))
    else if !HandleCaptcha(sc.captcha).ok then None
    else match sc.scraper
      case Raises => Some(ErrorRecord(asin, sc.errorText))
      case Returns(None) => None
      case Returns(Some(d)) => if "asin" in d then Some(d) else Some(d["asin" := Str(asin)])
  }

  /** A result dict keeps the scraper's own `"asin"`, and otherwise carries the navigated one. */
  lemma NavigateAsin(asin: string, sc: NavScenario)
    requires NavigateResult(asin, sc).Some?
    ensures var d := NavigateResult(asin, sc).value;
      d["asin"] == (if sc.newPage && sc.prepared && sc.loaded && sc.scraper.Returns? && sc.scraper.value.Some?
                       && "asin" in sc.scraper.value.value
                    then sc.scraper.value.value["asin"] else Str(asin))
  {
  }

  /** When the captcha gate fails, the scraper's behaviour does not matter. */
  lemma CaptchaFailureSkipsScraper(asin: string, sc: NavScenario, other: Attempt<Option<Dict>>)
    requires !HandleCaptcha(sc.captcha).ok
    ensures NavigateResult(asin, sc) == NavigateResult(asin, sc.(scraper := other))
  {
  }

  /** The page events of one `_navigate`: a page that was opened is closed exactly once. */
  function NavigateEvents(asin: string, sc: NavScenario): (es: seq<PageEvent>)
    ensures sc.newPage <==> Opened in es
    ensures sc.newPage ==> es[0] == Opened && es[|es| - 1] == Closed
    ensures |set i | 0 <= i < |es| && es[i] == Closed| == (if sc.newPage then 1 else 0)
  {
    if !sc.newPage then []
    else if !sc.prepared then
      var es := [Opened, Closed];
      assert (set i | 0 <= i < |es| && es[i] == Closed) == {1};
      es
    else
      var es := [Opened, Goto(ProductUrl(asin), NavigateTimeout), Closed];
      assert (set i | 0 <= i < |es| && es[i] == Closed) == {2};
      es
  }

  class AmazonPageManager {
    const context: BrowserContext
    const contextSettings: ContextSettings
    /** `self.page` holds a page. */
    var page: bool
    /** Everything done to pages, in order. */
    var events: seq<PageEvent>

    constructor (context: BrowserContext, contextSettings: ContextSettings)
      ensures this.context == context && this.contextSettings == contextSettings
      ensures !page && events == []
    {
      this.context := context;
      this.contextSettings := contextSettings;
      page := false;
      events := [];
    }

    /**
     * `_navigate`: reset the page, open a new one, visit the product,
     * gate on the captcha, run the scraper; every exception becomes an
     * error record, and the page is closed on every way out, a failing
     * close being ignored.
     */
    method Navigate(asin: string, sc: NavScenario) returns (r: Option<Dict>)
      modifies this
      ensures r == NavigateResult(asin, sc)
      ensures page == sc.newPage
      ensures events == old(events) + NavigateEvents(asin, sc)
    {
      page := false;
      var outcome: Option<Dict>;
      if !sc.newPage {
        outcome := Some(ErrorRecord(asin, sc.errorText));
      } else {
        page := true;
        events := events + [Opened];
        if !sc.prepared {
          outcome := Some(ErrorRecord(asin, sc.errorText));
        } else {
          events := events + [Goto(ProductUrl(asin), NavigateTimeout)];
          if !sc.loaded {
            outcome := Some(ErrorRecord(asin, sc.errorText));
          } else if !HandleCaptcha(sc.captcha).ok {
            outcome := None;
          } else {
            match sc.scraper {
              case Raises =>
                outcome := Some(ErrorRecord(asin, sc.errorText));
              case Returns(v) =>
                outcome := v;
                if v.Some? && "asin" !in v.value {
                  outcome := Some(v.value["asin" := Str(asin)]);
                }
            }
          }
        }
      }
      // finally: close the page if there is one; a failing close is swallowed
      if page {
        events := events + [Closed];
      }
      r := outcome;
    }
  }
}
