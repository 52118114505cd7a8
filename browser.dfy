/** The headless browser as seen by the scrapers. What the site returns is an oracle
    (`Site`); a `Session` is one launched browser and records, in order, every event the
    scraper caused: launch, each navigation, and close. */
module Browser {
  import opened Common
  import opened Dom

  /** What the outside world answers. `launchError`: `puppeteer.launch` throws.
      `setupError`: opening the first tab (and, for the service, setting its viewport and
      user agent) throws. `search(url)`: navigating a tab to a listing URL and evaluating
      the card extraction, or the error either step throws. `detail(url)`: navigating to a
      product page and evaluating there, giving the page's elements, or the error. */
  datatype Site = Site(
    launchError: Option<string>,
    setupError: Option<string>,
    search: string -> Outcome<seq<Card>>,
    detail: string -> Outcome<seq<Element>>)

  /** What navigating to a listing URL yields on this site. */
  function SearchPage(site: Site, url: string): Outcome<seq<Card>>
  {
    site.search(url)
  }

  /** What navigating to a product URL yields on this site. */
  function DetailPage(site: Site, url: string): Outcome<seq<Element>>
  {
    site.detail(url)
  }

  datatype Event = Launched | Searched(url: string) | Fetched(url: string) | Closed

  class Session {
    const site: Site
    /** The browser process is running. */
    var open: bool
    /** Everything the scraper did with this browser, oldest first. */
    var events: seq<Event>

    constructor (site: Site)
      ensures this.site == site && !open && events == []
    {
      this.site := site;
      open := false;
      events := [];
    }

    /** `puppeteer.launch(...)`. */
    method Launch() returns (error: Option<string>)
      requires !open
      modifies this
      ensures error == site.launchError
      ensures open <==> error.None?
      ensures events == old(events) + (if error.None? then [Launched] else [])
    {
      error := site.launchError;
      if error.None? {
        open := true;
        events := events + [Launched];
      }
    }

    /** `browser.newPage()` and the tab's settings. */
    method NewPage() returns (error: Option<string>)
      requires open
      ensures error == site.setupError
    {
      error := site.setupError;
    }

    /** Navigate to a listing page and read its cards. */
    method Search(url: string) returns (r: Outcome<seq<Card>>)
      requires open
      modifies this`events
      ensures r == SearchPage(site, url)
      ensures events == old(events) + [Searched(url)]
    {
      events := events + [Searched(url)];
      r := SearchPage(site, url);
    }

    /** Navigate to a product page and read its elements. */
    method Fetch(url: string) returns (r: Outcome<seq<Element>>)
      requires open
      modifies this`events
      ensures r == DetailPage(site, url)
      ensures events == old(events) + [Fetched(url)]
    {
      events := events + [Fetched(url)];
      r := DetailPage(site, url);
    }

    /** `browser.close()`. */
    method Close()
      requires open
      modifies this
      ensures !open
      ensures events == old(events) + [Closed]
    {
      open := false;
      events := events + [Closed];
    }
  }
}
