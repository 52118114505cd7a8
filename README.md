# eBay scraping API: a verified Dafny model

This project models the decision logic of a small Node.js web-scraping API for eBay.
It has two parts.

- **The service** (`src/services/scraperService.js`, `src/services/aiService.js`).
  `scrapeEbayProducts(keyword, pagesToScrape)` launches a headless browser and walks the
  search-result pages 1..pagesToScrape. On each page it reads the listing cards, turns
  them into stubs, and drops the promotional card and link-less cards. It then visits
  every remaining product page, reads a description, and has `enhanceProductData` attach
  AI-derived `enhancedData`. A product that fails is pushed flagged with its error instead
  of being dropped. The browser is closed in a `finally`.
- **The three legacy Express servers** (`main.js`, `new.js`, `server.js`). Each one's
  `scrapeEcommerce(url)` reads the `.s-item` cards of one URL and the description of each
  linked product. Its `summarizeDescription` asks a chat model for a summary. Its
  `/scrape` handler runs the two in turn. The three files differ in:
  - the card cap: 4, 10 or none;
  - whether card text is trimmed;
  - the description default and the detail selector;
  - whether summary errors are swallowed.

  They are modelled once, with a `Variant` value per file (`Legacy.MainJs`,
  `Legacy.NewJs`, `Legacy.ServerJs`).

The browser, the pages and the AI services are oracles passed in as values.

- `Browser.Site` holds:
  - whether the launch or the first tab fails;
  - what navigating to a listing URL yields (cards, or an error);
  - what navigating to a product URL yields (elements, or an error).
- `AiService.AiBackend` holds the completion request and `JSON.parse`.
- In the legacy model, the completion call is a function from the content sent to a
  `Completion`.

State the source changes in place is imperative Dafny:

- `Browser.Session` is a class whose `open` flag and `events` log the methods update.
  The log records launch, every navigation and close, in order.
- The nested loops are methods with loop invariants:
  - `ScraperService.ScrapePages` and `VisitProducts` for the service;
  - `Legacy.DescribeAll` and `SummarizeProducts` for the legacy servers.
- Each method is proved equal to a specification function, and the properties are proved
  about those functions:
  - `Pages`/`PagesEvents` and `Scrape`/`ScrapeEvents` for the service;
  - `Described`, `LegacyScrape` and `Handle` for the legacy servers.

Modules:

- `Common`: `Option`, `Outcome`, order-preserving `Filter`, and `Traverse`. `Traverse` is
  a `for...of` loop that rewrites each element and stops at the first throw.
- `Text`: ECMAScript `trim`, the `x || '-'` default, and decimal page numbers.
- `Dom`: selectors, `querySelector` on a selector group, and the `q1 || q2 || q3` chain.
- `Browser`: the `Site` oracle and the `Session` class.
- `AiService`: `enhanceProductData`.
- `ScraperService`: `scrapeEbayProducts`.
- `Legacy`: main.js, new.js and server.js.

The model follows the code as written. Four consequences are worth stating:

- **Description choice.** The service takes the description from the first selector that
  finds an element, even when that element's text is empty. An empty result becomes `'-'`.
  A later selector is tried only when every earlier one finds nothing.
- **Skipped links.** A card whose link has an empty `href` passes the `url !== null`
  filter. It is then skipped by `if (product.url)`, so it contributes nothing to
  `allProducts`. Only stubs with a non-empty link are sure to appear in the result,
  flagged with their error when their page fails.
- **Legacy browser.** The legacy `scrapeEcommerce` closes the browser only on success.
  Every error after the launch leaves it running (`Legacy.LegacyClosesOnlyOnSuccess`).
- **Iframe fallback.** The legacy iframe fallback would throw, not fall back to `'-'`, if
  the frame's document could not be read. It can never run, because `#desc_ifr` is
  already in the first selector group (`Legacy.IframeFallbackUnreachable`).

## Model

| member | source | states |
|---|---|---|
| `Common.FilterByIndices` | src/services/scraperService.js:45 | `filter` keeps exactly the elements satisfying its predicate, at increasing positions, in their original order |
| `Common.FirstFound` | src/services/scraperService.js:60-62 | a chain `f(x1) \|\| f(x2) \|\| …` finds nothing exactly when every lookup does, and otherwise finds what the first successful lookup finds |
| `Common.TraverseIsPerElement` | main.js:34-57 | a sequential loop that throws on a failing step succeeds exactly when every step does, and then keeps length and order, each element replaced by its own step's result |
| `Common.TraverseFailureIsFinal` | main.js:34-57 | after a step throws, nothing after it runs: the outcome and the effects are those of the failing prefix |
| `Common.TraverseReportsFirstError` | server.js:58-64 | a failed loop reports the error of its first failing step, and every earlier step succeeded |
| `Text.Trim` | src/services/scraperService.js:41-42 | `trim` yields a contiguous slice without white space at either end, and everything it removed is white space |
| `Text.OrDash` | src/services/scraperService.js:68 | `text \|\| '-'` turns the empty string into `'-'` and leaves a non-empty text unchanged |
| `Text.Utf16Prefix` | src/services/aiService.js:45 | `substring(0, n)` keeps the longest prefix that fits in n UTF-16 code units: all of a text that fits, otherwise a prefix the next code point would overflow |
| `Text.DecimalRoundTrip` | src/services/scraperService.js:29 | the page number's decimal text reads back as the same number |
| `Dom.QuerySelector` | main.js:41 | `querySelector` on a group finds nothing exactly when no element matches any selector; otherwise it finds the first element in document order that matches one |
| `Dom.GroupMissIsMemberMiss` | main.js:41-47 | when a selector group finds nothing, each of its selectors alone finds nothing |
| `Dom.FirstPresent` | src/services/scraperService.js:60-62 | the `\|\|` chain is empty exactly when every selector misses; otherwise it is what some selector finds while every selector before it finds nothing |
| `Browser.Session.Launch` | src/services/scraperService.js:13-16 | a launch either throws, leaving the browser closed and nothing logged, or opens it and logs the launch |
| `Browser.Session.NewPage` | src/services/scraperService.js:19-21 | opening and setting up the first tab fails exactly with the site's setup error, and changes nothing |
| `Browser.Session.Search` | src/services/scraperService.js:30-46 | navigating to a listing yields the site's cards or error, and logs the URL |
| `Browser.Session.Fetch` | src/services/scraperService.js:55 | navigating to a product page yields the site's elements or error, and logs the URL |
| `Browser.Session.Close` | src/services/scraperService.js:93-95 | closing marks the browser closed and logs the close |
| `AiService.Excerpt` | src/services/aiService.js:45 | the prompt's description is the longest start of the description that fits in 1000 UTF-16 code units, and the whole of a text that fits |
| `AiService.RequestFor` | src/services/aiService.js:43-45 | the prompt carries the product's title and price unchanged and exactly the description's `Excerpt` |
| `AiService.EnhanceProductData` | src/services/aiService.js:10-90 | the result is the product with every field kept and `enhancedData` set. It is the placeholder for a skipped product, a failed request or unparsable content, and otherwise exactly the parsed content |
| `AiService.SkipMakesNoRequest` | src/services/aiService.js:13-23 | a product with title `'-'` or a missing, empty or `'-'` description gets the same result whatever the service would answer |
| `AiService.OnlyExcerptReachesService` | src/services/aiService.js:43-76 | only title, price and the description's excerpt influence `enhancedData`; the stored description is the whole text |
| `ScraperService.SearchUrl` | src/services/scraperService.js:29 | the listing URL is the fixed search prefix with the encoded keyword, followed by digits that read back as the page number |
| `ScraperService.SearchUrlDistinct` | src/services/scraperService.js:29 | different page numbers give different listing URLs |
| `ScraperService.StubOf` | src/services/scraperService.js:36-44 | a stub's title and price are the trimmed text, or `'-'` for a missing element; its url is the link's `href`, or null |
| `ScraperService.Stubs` | src/services/scraperService.js:33-46 | every stub is a listing with a link, made from one of the page's cards, and there are no more stubs than cards |
| `ScraperService.StubsAreListingCards` | src/services/scraperService.js:34-45 | the stubs are exactly the cards that are not titled `Shop on eBay` and have a link, in card order |
| `ScraperService.DetailDescription` | src/services/scraperService.js:58-65 | the trimmed text of what `#ds_div` finds; if it finds nothing, of what `.item-description` finds; if that finds nothing too, of what the data-testid selector finds; `'-'` when all three find nothing |
| `ScraperService.ProcessItem` | src/services/scraperService.js:53-81 | title, price and url are never changed, and the description is never empty. A failing product page gives the stub with description `'-'` and the error message; otherwise exactly `enhanceProductData` of the stub with the `'-'`-defaulted description |
| `ScraperService.PageOutputIsPerItem` | src/services/scraperService.js:49-83 | a page adds exactly one product per stub with a link, in stub order. Each is that stub's own result, so one failure affects no other item |
| `ScraperService.PageEventsAreLinks` | src/services/scraperService.js:49-55 | a page opens exactly the product pages of its stubs with a link, in order |
| `ScraperService.FailureIsFinal` | src/services/scraperService.js:25-30 | once a listing page fails, later pages change nothing and visit nothing |
| `ScraperService.PageFailureIsFatal` | src/services/scraperService.js:25-30 | the run fails exactly when some listing page 1..n fails |
| `ScraperService.EarlierPagesAreKept` | src/services/scraperService.js:23-83 | the products of earlier pages are an unchanged prefix of the products of later pages |
| `ScraperService.PageAddsOnePerLinkedStub` | src/services/scraperService.js:33-83 | each page adds exactly as many products as it has stubs with a link |
| `ScraperService.NoPagesBelowOne` | src/services/scraperService.js:25 | a page count below 1 returns no product and visits no page |
| `ScraperService.PageUrls` | src/services/scraperService.js:25-29 | the i-th listing URL is the search URL with `_pgn` = i + 1 |
| `ScraperService.PagesVisitedInOrder` | src/services/scraperService.js:25-30 | a successful run visits listing pages 1, 2, …, n in order, each once |
| `ScraperService.PagesEventsBrowserUntouched` | src/services/scraperService.js:25-89 | the page loop never launches or closes the browser |
| `ScraperService.ScrapeAlwaysCloses` | src/services/scraperService.js:13-95 | once launched, the browser is closed on every way out, success or error, and only at the end |
| `ScraperService.VisitProduct` | src/services/scraperService.js:50-82 | one stub pushes its own result, or nothing without a link, and opens its product page only if it has a link |
| `ScraperService.VisitProducts` | src/services/scraperService.js:49-83 | the inner loop appends `PageOutput` of the page's stubs to `allProducts` and logs `PageEvents` |
| `ScraperService.ScrapePage` | src/services/scraperService.js:28-83 | one page turn either throws the listing's error or appends the page's products |
| `ScraperService.ScrapePages` | src/services/scraperService.js:23-91 | the page loop returns `Pages`, the products or the first listing error, and logs `PagesEvents` |
| `ScraperService.ScrapeEbayProducts` | src/services/scraperService.js:12-96 | the whole run returns `Scrape` and logs exactly `ScrapeEvents`, and leaves the browser closed |
| `Legacy.CardText` | main.js:25-26 | name/price is `'-'` exactly when the element is missing or its (trimmed) text is empty or `'-'`, otherwise that text |
| `Legacy.CardToProduct` | main.js:25-28 | the card map: name and price as above, link `href` or `'-'`, and the preset description |
| `Legacy.Listing` | main.js:24 | `slice(0, cap)` keeps the first cap cards in order, or all of them |
| `Legacy.InitialProducts` | main.js:23-30 | one product per kept card, in card order |
| `Legacy.MainJsListing` | main.js:24-28 | main.js keeps at most 4 cards; name and price are each `'-'` exactly when the element is missing or its trimmed text is empty or `'-'`, otherwise that trimmed text; description `'-'` |
| `Legacy.NewJsListing` | new.js:22-26 | new.js keeps at most 10 cards; name and price are each `'-'` exactly when the element is missing or its trimmed text is empty or `'-'`, otherwise that trimmed text; description `'-'` |
| `Legacy.ServerJsListing` | server.js:18-22 | server.js keeps every card; name and price are each `'-'` exactly when the element is missing or its raw text is empty or `'-'`, otherwise that raw text; no description field |
| `Legacy.DetailText` | main.js:40-53 | a detail page yields a string. Reading `#desc_ifr` alone never throws and never yields an empty string |
| `Legacy.IframeFallbackUnreachable` | main.js:41-52 | the iframe fallback never runs, so reading a detail page never throws, and a page with no match gives `'-'` |
| `Legacy.RevisedDetailText` | new.js:39-50 | main.js and new.js read a product page the same way: the trimmed text of the group's first match, or `'-'` |
| `Legacy.ServerJsDetailText` | server.js:31-33 | server.js reads `#desc_ifr`'s untrimmed text, or `'-'` |
| `Legacy.Describe` | main.js:35-56 | a product whose link is `'-'` is left unchanged. A linked one throws exactly when its page fails to load, with that page's error; otherwise it gets its description set from its page |
| `Legacy.OnlyLinkedAreFetched` | main.js:34-38 | only products whose link is not `'-'` have their page opened, in list order |
| `Legacy.DescribedIsPerProduct` | main.js:34-57 | the detail loop succeeds exactly when every product does, and keeps length, order, name, price and link; unlinked products keep their description, and each product is its own `Describe` result |
| `Legacy.LoadedPagesSucceed` | main.js:14-62 | once the browser, tab and listing load, a scrape whose linked product pages all load succeeds with one product per kept card |
| `Legacy.LegacyClosesOnlyOnSuccess` | main.js:16-61 | a launched browser is closed exactly when the scrape succeeds |
| `Legacy.DescribeProduct` | main.js:35-56 | one turn of the detail loop as the script runs it |
| `Legacy.DescribeAll` | main.js:34-57 | the detail loop, in place, returns `Described`, the products or the first error, and logs `DescribedEvents` |
| `Legacy.ScrapeListing` | main.js:19-61 | the scrape after the tab opens; the browser ends closed exactly on success |
| `Legacy.ScrapeEcommerce` | main.js:14-62 | `scrapeEcommerce` returns `LegacyScrape`, logs `LegacyScrapeEvents` and leaves the browser open exactly on an error after launch |
| `Legacy.SummaryRequest` | server.js:43 | the request is skipped exactly for `'-'` and, in the revised scripts, for a falsy description; otherwise the description is sent as it is |
| `Legacy.ReadSummary` | main.js:77-83 | revised scripts always yield a non-empty string: the trimmed content whenever the reply has string content with text left after trimming, otherwise `'-'`. server.js yields the raw content or throws |
| `Legacy.SummarizeDescription` | main.js:64-84 | `'-'` without a request when skipped, otherwise the reading of the reply to exactly that description |
| `Legacy.SoftSummaryNeverFails` | new.js:62-82 | the revised `summarizeDescription` never throws, and yields `'-'` for skipped input or a failed request |
| `Legacy.RevisedSummary` | main.js:64-84 | main.js and new.js summarise identically: the trimmed reply text when a request is made and its content has text left after trimming, otherwise `'-'` |
| `Legacy.ServerJsSummary` | server.js:42-50 | server.js skips only `'-'`, returns raw content, and throws request or property-read errors |
| `Legacy.Summarize` | main.js:95 | a summary turn changes only the description |
| `Legacy.SummarizeAllIsPerProduct` | main.js:94-96 | the summary loop keeps length and order, replacing each description by its summary. It cannot fail in the revised scripts, and fails in server.js exactly when some summary does |
| `Legacy.Handle` | main.js:86-107 | the handler answers 400 `URL is required` exactly for a missing or empty URL |
| `Legacy.HandleKeepsCards` | main.js:86-102 | a successful reply has one product per kept card, in card order, with the card's name, price and link |
| `Legacy.DetailFailureIs500` | main.js:38-106 | a product page that fails to load makes the whole request answer 500 |
| `Legacy.ServerSummaryFailureIs500` | server.js:42-64 | in server.js a failing summary makes the whole request answer 500 |
| `Legacy.ServerSendsMissingDescription` | server.js:20-46 | in server.js a link-less product has no description and is sent to the service as `undefined` |
| `Legacy.RevisedHandler` | new.js:84-102 | for main.js and new.js, the request answers 500 exactly when the scrape throws; otherwise it answers every product, in order, with its summary |
| `Legacy.ServerJsHandler` | server.js:52-65 | for server.js, the request answers 500 exactly when the scrape or some summary throws |
| `Legacy.SummarizeProducts` | main.js:94-96 | the handler's loop, in place, returns `SummarizeAll`, the summarised list or the first summary error |
| `Legacy.HandleScrape` | main.js:86-107 | the handler returns `Handle`. Without a URL it leaves the browser untouched; with one, it leaves it running exactly when it launched and the scrape threw |

## Left out

- Launching the browser, navigation, waiting, the viewport, the user agent and DOM
  evaluation are not modelled; `Browser.Site` gives their results. Opening a tab for each
  product page in the legacy servers is folded into that page's navigation, whose error
  covers both steps.
- The `.s-item` versus `.s-item__pl-on-bottom` card selectors and the
  title/price/link selectors are not modelled; a `Dom.Card` already holds what they find.
- `encodeURIComponent` is an opaque function parameter. Only its place in the URL is
  modelled.
- The completion HTTP requests and `JSON.parse` are oracles. JSON numbers keep their
  literal text. A `null` `content` in the service reaches `JSON.parse` as whatever the
  parse oracle makes of it.
- The fixed prompt text, model names, temperature and token limits are not modelled; only
  the parts of the request that vary with the product are.
- `delay` and the `Math.random()` jitter between requests are not modelled; they affect
  timing only.
- Express routing, `src/app.js` and the controller's `parseInt` defaults are not
  modelled. The page count is an `int`; a missing or non-numeric count is not modelled.
- `req.query.url` given as an array is not modelled; the URL is absent or a string.
- `fs.writeFileSync` and the `/download` endpoint of main.js, `dotenv` and the console
  logging are not modelled; they are file, environment and console I/O.
- `async`/`await` runs as ordinary sequential calls; there is no concurrency.
- `detailPage.close()` in the legacy servers is not logged as an event. Only the browser's
  launch and close are.
- Browser.Session.Close: `browser.close()` and `detailPage.close()` are modelled as never
  failing. In the service, a throw from `browser.close()` in the `finally` would replace
  the result or the error; in the legacy servers it would become the scrape's error.
- Excerpt: when the 1000th UTF-16 code unit is the first half of a surrogate pair,
  `substring` keeps that lone half. A Dafny `char` cannot hold one, so the model stops
  before the pair.
- `Browser.Site` answers a URL the same way on every visit. A site whose answer to the
  same URL changes between visits is not modelled.
- `AiService.AiBackend` and the legacy completion call answer the same request the same
  way. `AiService.OnlyExcerptReachesService` is therefore a statement about what the
  request contains: a real service may answer the same request differently.
