/** `scrapeEbayProducts(keyword, pagesToScrape)` (src/services/scraperService.js): visits
    the listing pages 1..pagesToScrape in order, turns each page's cards into stubs, visits
    every stub's product page for its description, enhances it, and collects everything in
    one list; a failing product is kept with an `error`, a failing listing page ends the
    whole scrape. The functions below state what the run produces; the method is the loop
    that produces it. */
module ScraperService {
  import opened Common
  import opened Text
  import opened Dom
  import opened Browser
  import opened AiService

  const SearchBase := "https://www.ebay.com/sch/i.html?_from=R40&_nkw="
  const SearchTail := "&_sacat=0&rt=nc&_pgn="

  /** The title of the promotional card the listing filter drops. */
  const NoiseTitle := "Shop on eBay"

  /** The description selectors, in the order the `||` chain tries them. */
  const DescriptionSelectors :=
    [ById("ds_div"), ByClass("item-description"), ByTestId("ux-layout-section-evo:item-description")]

  /** Everything a run depends on besides the keyword and the page count:
      the site, the enhancement service and `encodeURIComponent`. */
  datatype Env = Env(site: Site, ai: AiBackend, encode: string -> string)

  // ---------------------------------------------------------------------------
  // Listing pages

  /** The listing URL for one page: the encoded keyword as `_nkw` and the page number as `_pgn`. */
  function SearchUrl(encode: string -> string, keyword: string, page: nat): (url: string)
    ensures |SearchBase + encode(keyword) + SearchTail| < |url|
    ensures url[..|SearchBase + encode(keyword) + SearchTail|] == SearchBase + encode(keyword) + SearchTail
    ensures AllDigits(url[|SearchBase + encode(keyword) + SearchTail|..])
    ensures ParseDecimal(url[|SearchBase + encode(keyword) + SearchTail|..]) == page
  {
    var head := SearchBase + encode(keyword) + SearchTail;
    var url := head + Decimal(page);
    assert url[..|head|] == head && url[|head|..] == Decimal(page);
    DecimalRoundTrip(page);
    url
  }

  /** Different pages of the same search have different URLs: `_pgn` carries the page number. */
  lemma {:induction false} SearchUrlDistinct(encode: string -> string, keyword: string, n: nat, m: nat)
    requires n != m
    ensures SearchUrl(encode, keyword, n) != SearchUrl(encode, keyword, m)
  {
  }

  /** The stub the card map builds: trimmed title and price text, `'-'` for a missing
      element, and the link's `href`, or null for a missing link. */
  function StubOf(card: Card): (p: Product)
    ensures card.title.None? ==> p.title == "-"
    ensures card.title.Some? ==> p.title == Trim(card.title.value)
    ensures card.price.None? ==> p.price == "-"
    ensures card.price.Some? ==> p.price == Trim(card.price.value)
    ensures p.url == card.href
    ensures p.description.None? && p.enhancedData.None? && p.error.None?
  {
    Product(
      if card.title.Some? then Trim(card.title.value) else "-",
      if card.price.Some? then Trim(card.price.value) else "-",
      card.href,
      None, None, None)
  }

  /** The listing filter: not the promotional card, and a link was found. */
  predicate IsListing(p: Product)
  {
    p.title != NoiseTitle && p.url.Some?
  }

  function CardStubs(cards: seq<Card>): seq<Product>
  {
    seq(|cards|, i requires 0 <= i < |cards| => StubOf(cards[i]))
  }

  /** `productsOnPage`: the cards mapped to stubs, then filtered. Every stub is a listing
      with a link, made from one of the cards, and not yet described, enhanced or flagged. */
  function Stubs(cards: seq<Card>): (r: seq<Product>)
    ensures |r| <= |cards|
    ensures forall p :: p in r ==> IsListing(p) && exists c :: c in cards && p == StubOf(c)
  {
    Filter(IsListing, CardStubs(cards))
  }

  /** The stubs are exactly the cards that are not the promotional card and have a link,
      in the cards' order: the k-th stub comes from the k-th such card. */
  lemma StubsAreListingCards(cards: seq<Card>)
    ensures |KeptIndices(IsListing, CardStubs(cards))| == |Stubs(cards)|
    ensures forall k :: 0 <= k < |Stubs(cards)| ==>
              KeptIndices(IsListing, CardStubs(cards))[k] < |cards| &&
              Stubs(cards)[k] == StubOf(cards[KeptIndices(IsListing, CardStubs(cards))[k]])
    ensures forall k, l :: 0 <= k < l < |Stubs(cards)| ==>
              KeptIndices(IsListing, CardStubs(cards))[k] < KeptIndices(IsListing, CardStubs(cards))[l]
    ensures forall i :: 0 <= i < |cards| ==>
              (i in KeptIndices(IsListing, CardStubs(cards)) <==>
               (cards[i].title.Some? ==> Trim(cards[i].title.value) != NoiseTitle) && cards[i].href.Some?)
  {
    FilterByIndices(IsListing, CardStubs(cards));
  }

  // ---------------------------------------------------------------------------
  // Product pages

  /** The description the product-page evaluate returns: the trimmed `innerText` of the
      first element found by `#ds_div`, `.item-description` or the data-testid selector,
      tried in that order, or `'-'` when none finds anything. The first selector that
      finds an element decides, even when that element's text is empty. */
  function DetailDescription(doc: seq<Element>): (r: string)
    ensures Found(doc, DescriptionSelectors[0]).Some? ==>
              r == Trim(Found(doc, DescriptionSelectors[0]).value.innerText)
    ensures Found(doc, DescriptionSelectors[0]).None? && Found(doc, DescriptionSelectors[1]).Some? ==>
              r == Trim(Found(doc, DescriptionSelectors[1]).value.innerText)
    ensures Found(doc, DescriptionSelectors[0]).None? && Found(doc, DescriptionSelectors[1]).None? &&
            Found(doc, DescriptionSelectors[2]).Some? ==>
              r == Trim(Found(doc, DescriptionSelectors[2]).value.innerText)
    ensures Found(doc, DescriptionSelectors[0]).None? && Found(doc, DescriptionSelectors[1]).None? &&
            Found(doc, DescriptionSelectors[2]).None? ==>
              r == "-"
  {
    var found := FirstPresent(doc, DescriptionSelectors);
    assert Found(doc, DescriptionSelectors[0]).Some? ==> found == Found(doc, DescriptionSelectors[0]);
    assert Found(doc, DescriptionSelectors[0]).None? && Found(doc, DescriptionSelectors[1]).Some? ==>
             found == Found(doc, DescriptionSelectors[1]);
    match found
    case Some(e) => Trim(e.innerText)
    case None => "-"
  }

  /** A stub goes through the per-item step when `product.url` is truthy. */
  predicate HasLink(p: Product)
  {
    p.url.Some? && p.url.value != ""
  }

  /** The body of the per-item `try`, with its `catch`: the enhanced product when the
      product page loads, otherwise the stub itself with description `'-'` and the error
      message. Title, price and url are never changed and the description is never empty. */
  function ProcessItem(env: Env, stub: Product): (p: Product)
    requires HasLink(stub)
    ensures p.title == stub.title && p.price == stub.price && p.url == stub.url
    ensures p.description.Some? && p.description.value != ""
    ensures DetailPage(env.site, stub.url.value).Err? ==>
              p == stub.(description := Some("-"), error := Some(DetailPage(env.site, stub.url.value).msg))
    ensures DetailPage(env.site, stub.url.value).Ok? ==>
              p == EnhanceProductData(
                     stub.(description := Some(OrDash(DetailDescription(DetailPage(env.site, stub.url.value).value)))),
                     env.ai)
    ensures DetailPage(env.site, stub.url.value).Ok? ==>
              p.error == stub.error && p.enhancedData.Some? &&
              p.description == Some(OrDash(DetailDescription(DetailPage(env.site, stub.url.value).value)))
  {
    match DetailPage(env.site, stub.url.value)
    case Err(m) => stub.(description := Some("-"), error := Some(m))
    case Ok(doc) =>
      var described := stub.(description := Some(OrDash(DetailDescription(doc))));
      EnhanceProductData(described, env.ai)
  }

  /** What one stub adds to `allProducts`. */
  function ItemOutput(env: Env, stub: Product): seq<Product>
  {
    if HasLink(stub) then [ProcessItem(env, stub)] else []
  }

  /** What one stub makes the browser do. */
  function ItemEvents(stub: Product): seq<Event>
  {
    if HasLink(stub) then [Fetched(stub.url.value)] else []
  }

  /** What the stubs of one page add to `allProducts`, in order. */
  function PageOutput(env: Env, stubs: seq<Product>): seq<Product>
  {
    if stubs == [] then []
    else PageOutput(env, stubs[..|stubs| - 1]) + ItemOutput(env, stubs[|stubs| - 1])
  }

  function PageEvents(stubs: seq<Product>): seq<Event>
  {
    if stubs == [] then []
    else PageEvents(stubs[..|stubs| - 1]) + ItemEvents(stubs[|stubs| - 1])
  }

  /** One more stub of a page. */
  lemma PageStep(env: Env, stubs: seq<Product>, i: nat)
    requires i < |stubs|
    ensures PageOutput(env, stubs[..i + 1]) == PageOutput(env, stubs[..i]) + ItemOutput(env, stubs[i])
    ensures PageEvents(stubs[..i + 1]) == PageEvents(stubs[..i]) + ItemEvents(stubs[i])
  {
    assert stubs[..i + 1][..i] == stubs[..i];
  }

  /** Error isolation: a page contributes exactly one product per stub with a link, in
      the stubs' order, and each is that stub's own result, whatever happened to the
      others. Stubs without a link contribute nothing. */
  lemma {:induction false} PageOutputIsPerItem(env: Env, stubs: seq<Product>)
    ensures |PageOutput(env, stubs)| == |Filter(HasLink, stubs)|
    ensures forall k :: 0 <= k < |Filter(HasLink, stubs)| ==>
              HasLink(Filter(HasLink, stubs)[k]) &&
              PageOutput(env, stubs)[k] == ProcessItem(env, Filter(HasLink, stubs)[k])
  {
    if stubs != [] {
      PageOutputIsPerItem(env, stubs[..|stubs| - 1]);
    }
  }

  /** Only stubs with a link reach a product page, each once, in order. */
  lemma {:induction false} PageEventsAreLinks(stubs: seq<Product>)
    ensures |PageEvents(stubs)| == |Filter(HasLink, stubs)|
    ensures forall k :: 0 <= k < |Filter(HasLink, stubs)| ==>
              HasLink(Filter(HasLink, stubs)[k]) &&
              PageEvents(stubs)[k] == Fetched(Filter(HasLink, stubs)[k].url.value)
  {
    if stubs != [] {
      PageEventsAreLinks(stubs[..|stubs| - 1]);
    }
  }

  // ---------------------------------------------------------------------------
  // The whole run

  /** What listing page n adds to `allProducts`, or the error its navigation throws. */
  function PageResult(env: Env, keyword: string, n: nat): Outcome<seq<Product>>
  {
    match SearchPage(env.site, SearchUrl(env.encode, keyword, n))
    case Err(m) => Err(m)
    case Ok(cards) => Ok(PageOutput(env, Stubs(cards)))
  }

  /** The navigations of listing page n: the listing itself, then its product pages. */
  function PageVisit(env: Env, keyword: string, n: nat): seq<Event>
  {
    [Searched(SearchUrl(env.encode, keyword, n))] +
    match SearchPage(env.site, SearchUrl(env.encode, keyword, n))
    case Err(_) => []
    case Ok(cards) => PageEvents(Stubs(cards))
  }

  /** `allProducts` after pages 1..n, or the error of the first listing page that failed. */
  function Pages(env: Env, keyword: string, n: int): Outcome<seq<Product>>
    decreases n
  {
    if n < 1 then Ok([])
    else match Pages(env, keyword, n - 1)
      case Err(m) => Err(m)
      case Ok(before) =>
        match PageResult(env, keyword, n)
        case Err(m) => Err(m)
        case Ok(added) => Ok(before + added)
  }

  /** The navigations of pages 1..n, up to and including the first failing listing page. */
  function PagesEvents(env: Env, keyword: string, n: int): seq<Event>
    decreases n
  {
    if n < 1 then []
    else if Pages(env, keyword, n - 1).Err? then PagesEvents(env, keyword, n - 1)
    else PagesEvents(env, keyword, n - 1) + PageVisit(env, keyword, n)
  }

  /** The result of `scrapeEbayProducts(keyword, pagesToScrape)`. */
  function Scrape(env: Env, keyword: string, pagesToScrape: int): Outcome<seq<Product>>
  {
    if env.site.launchError.Some? then Err(env.site.launchError.value)
    else if env.site.setupError.Some? then Err(env.site.setupError.value)
    else Pages(env, keyword, pagesToScrape)
  }

  /** Everything the run does with the browser: nothing if it cannot be launched;
      otherwise launch, the navigations, and a close on every way out. */
  function ScrapeEvents(env: Env, keyword: string, pagesToScrape: int): seq<Event>
  {
    if env.site.launchError.Some? then []
    else if env.site.setupError.Some? then [Launched, Closed]
    else [Launched] + PagesEvents(env, keyword, pagesToScrape) + [Closed]
  }

  /** Once a listing page has failed, later pages change nothing: the run stays failed
      with the same message and visits nothing more. */
  lemma {:induction false} FailureIsFinal(env: Env, keyword: string, k: int, n: int)
    requires k <= n && Pages(env, keyword, k).Err?
    ensures Pages(env, keyword, n) == Pages(env, keyword, k)
    ensures PagesEvents(env, keyword, n) == PagesEvents(env, keyword, k)
    decreases n - k
  {
    if k < n {
      FailureIsFinal(env, keyword, k + 1, n);
    }
  }

  /** A failing listing page is fatal: the run fails exactly when some page 1..n fails,
      and then it returns no products at all. */
  lemma {:induction false} PageFailureIsFatal(env: Env, keyword: string, n: int)
    ensures Pages(env, keyword, n).Err? <==>
              exists k :: 1 <= k <= n && SearchPage(env.site, SearchUrl(env.encode, keyword, k)).Err?
  {
    if n >= 1 {
      PageFailureIsFatal(env, keyword, n - 1);
      if k :| 1 <= k <= n && SearchPage(env.site, SearchUrl(env.encode, keyword, k)).Err? {
        if Pages(env, keyword, k - 1).Ok? {
          assert Pages(env, keyword, k).Err?;
          FailureIsFinal(env, keyword, k, n);
        } else {
          FailureIsFinal(env, keyword, k - 1, n);
        }
      }
    }
  }

  /** `allProducts` only grows: the products of pages 1..m are an unchanged prefix of the
      products of pages 1..n. */
  lemma {:induction false} EarlierPagesAreKept(env: Env, keyword: string, m: int, n: int)
    requires m <= n && Pages(env, keyword, n).Ok?
    ensures Pages(env, keyword, m).Ok?
    ensures Pages(env, keyword, m).value <= Pages(env, keyword, n).value
    decreases n - m
  {
    if m < n {
      EarlierPagesAreKept(env, keyword, m, n - 1);
      if Pages(env, keyword, n - 1).Err? {
        FailureIsFinal(env, keyword, n - 1, n);
      }
    }
  }

  /** Each listing page adds exactly one product per stub with a link, after the earlier
      pages' products. */
  lemma {:induction false} PageAddsOnePerLinkedStub(env: Env, keyword: string, n: int)
    requires n >= 1 && Pages(env, keyword, n).Ok?
    ensures Pages(env, keyword, n - 1).Ok?
    ensures SearchPage(env.site, SearchUrl(env.encode, keyword, n)).Ok?
    ensures |Pages(env, keyword, n).value| ==
              |Pages(env, keyword, n - 1).value| +
              |Filter(HasLink, Stubs(SearchPage(env.site, SearchUrl(env.encode, keyword, n)).value))|
  {
    var cards := SearchPage(env.site, SearchUrl(env.encode, keyword, n)).value;
    PageOutputIsPerItem(env, Stubs(cards));
  }

  /** The listing URLs among some events, in order. */
  function SearchedUrls(events: seq<Event>): seq<string>
  {
    if events == [] then []
    else (if events[0].Searched? then [events[0].url] else []) + SearchedUrls(events[1..])
  }

  lemma {:induction false} SearchedUrlsAppend(a: seq<Event>, b: seq<Event>)
    ensures SearchedUrls(a + b) == SearchedUrls(a) + SearchedUrls(b)
  {
    if a == [] {
      assert a + b == b;
    } else {
      assert (a + b)[0] == a[0];
      assert (a + b)[1..] == a[1..] + b;
      SearchedUrlsAppend(a[1..], b);
    }
  }

  lemma {:induction false} PageEventsSearchNothing(stubs: seq<Product>)
    ensures SearchedUrls(PageEvents(stubs)) == []
  {
    if stubs != [] {
      var init := stubs[..|stubs| - 1];
      PageEventsSearchNothing(init);
      SearchedUrlsAppend(PageEvents(init), ItemEvents(stubs[|stubs| - 1]));
    }
  }

  /** The listing URLs of pages 1..n, in order. */
  function PageUrls(encode: string -> string, keyword: string, n: int): (urls: seq<string>)
    ensures |urls| == if n < 1 then 0 else n
    ensures forall i :: 0 <= i < |urls| ==> urls[i] == SearchUrl(encode, keyword, i + 1)
    decreases n
  {
    if n < 1 then [] else PageUrls(encode, keyword, n - 1) + [SearchUrl(encode, keyword, n)]
  }

  /** One more listing page after successful ones. */
  lemma PagesStep(env: Env, keyword: string, n: int, before: seq<Product>)
    requires n >= 1
    requires Pages(env, keyword, n - 1) == Ok(before)
    ensures Pages(env, keyword, n) ==
              match PageResult(env, keyword, n)
              case Err(m) => Err(m)
              case Ok(added) => Ok(before + added)
    ensures PagesEvents(env, keyword, n) == PagesEvents(env, keyword, n - 1) + PageVisit(env, keyword, n)
  {
  }

  /** A page count below 1 visits no page and returns no product. */
  lemma NoPagesBelowOne(env: Env, keyword: string, n: int)
    requires n < 1
    ensures Pages(env, keyword, n) == Ok([])
    ensures PagesEvents(env, keyword, n) == []
  {
  }

  /** A successful run visits the listing pages 1, 2, …, n in that order, each once, with
      `_pgn` set to the page number; for n < 1 it visits none. */
  lemma {:induction false} PagesVisitedInOrder(env: Env, keyword: string, n: int)
    requires Pages(env, keyword, n).Ok?
    ensures SearchedUrls(PagesEvents(env, keyword, n)) == PageUrls(env.encode, keyword, n)
    decreases n
  {
    if n >= 1 {
      var url := SearchUrl(env.encode, keyword, n);
      assert Pages(env, keyword, n - 1).Ok?;
      PagesVisitedInOrder(env, keyword, n - 1);
      var cards := SearchPage(env.site, url).value;
      var earlier := PagesEvents(env, keyword, n - 1);
      PagesStep(env, keyword, n, Pages(env, keyword, n - 1).value);
      SearchedUrlsAppend(earlier, PageVisit(env, keyword, n));
      SearchedUrlsAppend([Searched(url)], PageEvents(Stubs(cards)));
      PageEventsSearchNothing(Stubs(cards));
      assert SearchedUrls([Searched(url)]) == [url];
    }
  }

  lemma {:induction false} PagesEventsBrowserUntouched(env: Env, keyword: string, n: int)
    ensures Launched !in PagesEvents(env, keyword, n) && Closed !in PagesEvents(env, keyword, n)
  {
    if n >= 1 {
      PagesEventsBrowserUntouched(env, keyword, n - 1);
      var url := SearchUrl(env.encode, keyword, n);
      if Pages(env, keyword, n - 1).Ok? && SearchPage(env.site, url).Ok? {
        var stubs := Stubs(SearchPage(env.site, url).value);
        PageEventsAreLinks(stubs);
      }
    }
  }

  /** The browser is released on every way out once it was launched: the run's events
      start with the launch and end with the only close, whether it succeeds or fails. */
  lemma ScrapeAlwaysCloses(env: Env, keyword: string, pagesToScrape: int)
    requires env.site.launchError.None?
    ensures |ScrapeEvents(env, keyword, pagesToScrape)| >= 2
    ensures ScrapeEvents(env, keyword, pagesToScrape)[0] == Launched
    ensures ScrapeEvents(env, keyword, pagesToScrape)[|ScrapeEvents(env, keyword, pagesToScrape)| - 1] == Closed
    ensures Closed !in ScrapeEvents(env, keyword, pagesToScrape)[..|ScrapeEvents(env, keyword, pagesToScrape)| - 1]
  {
    PagesEventsBrowserUntouched(env, keyword, pagesToScrape);
    var es := ScrapeEvents(env, keyword, pagesToScrape);
    if env.site.setupError.None? {
      assert es[..|es| - 1] == [Launched] + PagesEvents(env, keyword, pagesToScrape);
    }
  }

  /** One turn of the inner loop: a stub whose `url` is truthy gets its product page
      visited, described and enhanced inside its own `try`, and what is pushed is the
      result, or the stub flagged with the error; a stub without a link pushes nothing. */
  method VisitProduct(session: Session, ai: AiBackend, encode: string -> string, product: Product)
    returns (pushed: seq<Product>)
    requires session.open
    modifies session`events
    ensures pushed == ItemOutput(Env(session.site, ai, encode), product)
    ensures session.events == old(session.events) + ItemEvents(product)
  {
    pushed := [];
    if product.url.Some? && product.url.value != "" {
      var detail := session.Fetch(product.url.value);
      match detail {
        case Err(m) =>
          pushed := [product.(description := Some("-"), error := Some(m))];
        case Ok(doc) =>
          var description := DetailDescription(doc);
          var described := product.(description := Some(OrDash(description)));
          var enhancedProduct := EnhanceProductData(described, ai);
          pushed := [enhancedProduct];
      }
    }
  }

  /** The inner loop of `scrapeEbayProducts` over one page's stubs, each pushed onto
      `allProducts` in turn. */
  method VisitProducts(session: Session, ai: AiBackend, encode: string -> string,
                       productsOnPage: seq<Product>, allProducts: seq<Product>)
    returns (pushed: seq<Product>)
    requires session.open
    modifies session`events
    ensures pushed == allProducts + PageOutput(Env(session.site, ai, encode), productsOnPage)
    ensures session.events == old(session.events) + PageEvents(productsOnPage)
  {
    ghost var env := Env(session.site, ai, encode);
    ghost var start := session.events;
    pushed := allProducts;
    var i := 0;
    while i < |productsOnPage|
      invariant 0 <= i <= |productsOnPage|
      invariant pushed == allProducts + PageOutput(env, productsOnPage[..i])
      invariant session.events == start + PageEvents(productsOnPage[..i])
    {
      PageStep(env, productsOnPage, i);
      var out := VisitProduct(session, ai, encode, productsOnPage[i]);
      AppendAssoc(allProducts, PageOutput(env, productsOnPage[..i]), out);
      AppendAssoc(start, PageEvents(productsOnPage[..i]), ItemEvents(productsOnPage[i]));
      pushed := pushed + out;
      i := i + 1;
    }
    assert productsOnPage[..i] == productsOnPage;
  }

  /** One turn of the page loop: navigate to listing page n and read its cards, keep the
      real listings, and push what visiting them gives onto `allProducts`. A failing
      listing navigation throws out of the loop. */
  method ScrapePage(session: Session, ai: AiBackend, encode: string -> string,
                    keyword: string, currentPage: nat, allProducts: seq<Product>)
    returns (r: Outcome<seq<Product>>)
    requires session.open
    modifies session`events
    ensures r == match PageResult(Env(session.site, ai, encode), keyword, currentPage)
                 case Err(m) => Err(m)
                 case Ok(added) => Ok(allProducts + added)
    ensures session.events == old(session.events) + PageVisit(Env(session.site, ai, encode), keyword, currentPage)
  {
    ghost var start := session.events;
    var url := SearchUrl(encode, keyword, currentPage);
    var listing := session.Search(url);
    if listing.Err? {
      return Err(listing.msg);
    }
    var productsOnPage := Stubs(listing.value);
    var pushed := VisitProducts(session, ai, encode, productsOnPage, allProducts);
    AppendAssoc(start, [Searched(url)], PageEvents(productsOnPage));
    r := Ok(pushed);
  }

  /** The page loop of `scrapeEbayProducts`, inside its `try`: pages 1..pagesToScrape in
      order, each page's products pushed after the earlier ones; the first listing page
      that fails ends the loop with its error. */
  method ScrapePages(session: Session, ai: AiBackend, encode: string -> string,
                     keyword: string, pagesToScrape: int)
    returns (r: Outcome<seq<Product>>)
    requires session.open
    modifies session`events
    ensures r == Pages(Env(session.site, ai, encode), keyword, pagesToScrape)
    ensures session.events == old(session.events) + PagesEvents(Env(session.site, ai, encode), keyword, pagesToScrape)
  {
    ghost var env := Env(session.site, ai, encode);
    ghost var start := session.events;
    var allProducts: seq<Product> := [];
    var currentPage := 1;
    while currentPage <= pagesToScrape
      invariant 1 <= currentPage <= (if pagesToScrape < 1 then 1 else pagesToScrape + 1)
      invariant Pages(env, keyword, currentPage - 1) == Ok(allProducts)
      invariant session.events == start + PagesEvents(env, keyword, currentPage - 1)
    {
      ghost var earlier := PagesEvents(env, keyword, currentPage - 1);
      PagesStep(env, keyword, currentPage, allProducts);
      var page := ScrapePage(session, ai, encode, keyword, currentPage, allProducts);
      AppendAssoc(start, earlier, PageVisit(env, keyword, currentPage));
      if page.Err? {
        FailureIsFinal(env, keyword, currentPage, pagesToScrape);
        return Err(page.msg);
      }
      allProducts := page.value;
      currentPage := currentPage + 1;
    }
    if pagesToScrape < 1 {
      NoPagesBelowOne(env, keyword, pagesToScrape);
      NoPagesBelowOne(env, keyword, currentPage - 1);
    } else {
      assert currentPage - 1 == pagesToScrape;
    }
    r := Ok(allProducts);
  }

  /** `scrapeEbayProducts`: launch the browser, open and set up a tab, then run the page
      loop inside `try … finally browser.close()`, so the browser is closed whether the
      loop returns or throws. */
  method ScrapeEbayProducts(session: Session, ai: AiBackend, encode: string -> string,
                            keyword: string, pagesToScrape: int)
    returns (r: Outcome<seq<Product>>)
    requires !session.open && session.events == []
    modifies session
    ensures !session.open
    ensures r == Scrape(Env(session.site, ai, encode), keyword, pagesToScrape)
    ensures session.events == ScrapeEvents(Env(session.site, ai, encode), keyword, pagesToScrape)
  {
    var launchError := session.Launch();
    if launchError.Some? {
      return Err(launchError.value);
    }
    var setupError := session.NewPage();
    if setupError.Some? {
      session.Close();
      return Err(setupError.value);
    }
    r := ScrapePages(session, ai, encode, keyword, pagesToScrape);
    session.Close();
  }
}
