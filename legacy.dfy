/** The three single-URL Express servers, main.js, new.js and server.js. Each has a
    `scrapeEcommerce(url)` that reads the `.s-item` cards of one listing page and then
    the description of every linked product, a `summarizeDescription` that asks a chat
    model to summarise a description, and a `/scrape` handler that runs the one and then
    the other over every product. The three files share one model; a `Variant` says
    where each departs from the others. */
module Legacy {
  import opened Common
  import opened Text
  import opened Dom
  import opened Browser

  /** A JavaScript value in a `description` slot: missing, `null`, or a string. */
  datatype JsValue = Undefined | Null | Str(s: string)

  /** JavaScript falsiness, for the values a description can hold. */
  predicate Falsy(x: JsValue)
  {
    x.Undefined? || x.Null? || x == Str("")
  }

  /** One product object as these scripts build it. */
  datatype LegacyProduct = LegacyProduct(name: string, price: string, link: string, description: JsValue)

  /** Where a script departs from the others.
      `cap`: how many cards `.slice(0, cap)` keeps, None when nothing is sliced.
      `trim`: name and price are trimmed before the `|| '-'` default.
      `presetDescription`: every product starts with `description: '-'`; otherwise the
      field is missing until a detail page fills it in.
      `selectorGroup`: the detail page is read through the selector group and an iframe
      fallback, trimmed; otherwise through `#desc_ifr` alone with a `|| '-'` default.
      `softSummary`: `summarizeDescription` also skips falsy input, reads the reply with
      optional chaining, trims it, defaults it to `'-'`, and swallows every error. */
  datatype Variant = Variant(
    cap: Option<nat>,
    trim: bool,
    presetDescription: bool,
    selectorGroup: bool,
    softSummary: bool)

  const MainJs := Variant(Some(4), true, true, true, true)
  const NewJs := Variant(Some(10), true, true, true, true)
  const ServerJs := Variant(None, false, false, false, false)

  /** `'#desc_ifr, .item-desc, .d-item-description'`. */
  const DescriptionGroup := [ById("desc_ifr"), ByClass("item-desc"), ByClass("d-item-description")]

  const UrlRequired := "URL is required"

  /** What the chat-completion call returns, as far as the scripts read it: no first
      choice, a first choice without a message, or the message's `content`. */
  datatype Completion = NoChoice | NoMessage | Content(content: JsValue)

  /** The engine's messages for the property reads `server.js` makes on a missing value. */
  const NoChoiceError := "Cannot read properties of undefined (reading 'message')"
  const NoMessageError := "Cannot read properties of undefined (reading 'content')"

  /** The `/scrape` reply: 200 with the products, 400 or 500 with `{error}`. */
  datatype Response = Success(products: seq<LegacyProduct>) | BadRequest(error: string) | ServerError(error: string)

  // ---------------------------------------------------------------------------
  // The listing page

  /** The card text the script keeps for a present element. */
  function Shown(v: Variant, text: string): string
  {
    if v.trim then Trim(text) else text
  }

  /** `el?.innerText(.trim()) || '-'`: the placeholder exactly when the element is missing
      or its (trimmed) text is empty; otherwise that text. */
  function CardText(v: Variant, text: Option<string>): (r: string)
    ensures r == "-" <==> text.None? || Shown(v, text.value) == "" || Shown(v, text.value) == "-"
    ensures r != "-" ==> r == Shown(v, text.value)
  {
    match text
    case None => "-"
    case Some(t) => OrDash(Shown(v, t))
  }

  /** The card `map`: name and price as above, the link's `href` or `'-'`, and the
      preset description. */
  function CardToProduct(v: Variant, card: Card): (p: LegacyProduct)
    ensures p.name == CardText(v, card.title) && p.price == CardText(v, card.price)
    ensures p.link == "-" <==> card.href.None? || card.href.value == "" || card.href.value == "-"
    ensures p.link != "-" ==> p.link == card.href.value
    ensures p.description == if v.presetDescription then Str("-") else Undefined
  {
    LegacyProduct(
      CardText(v, card.title),
      CardText(v, card.price),
      match card.href case None => "-" case Some(h) => OrDash(h),
      if v.presetDescription then Str("-") else Undefined)
  }

  /** `Array.from(cards).slice(0, cap)`: the first `cap` cards in document order, or all
      of them when there are fewer or no cap. */
  function Listing(v: Variant, cards: seq<Card>): (r: seq<Card>)
    ensures v.cap.None? ==> r == cards
    ensures v.cap.Some? ==> |r| == (if |cards| < v.cap.value then |cards| else v.cap.value)
    ensures |r| <= |cards| && r == cards[..|r|]
  {
    match v.cap
    case None => cards
    case Some(c) => if |cards| <= c then cards else cards[..c]
  }

  /** The products the listing `evaluate` returns, one per kept card, in card order. */
  function InitialProducts(v: Variant, cards: seq<Card>): (ps: seq<LegacyProduct>)
    ensures |ps| == |Listing(v, cards)|
    ensures forall i :: 0 <= i < |ps| ==> ps[i] == CardToProduct(v, cards[i])
  {
    seq(|Listing(v, cards)|, i requires 0 <= i < |Listing(v, cards)| => CardToProduct(v, Listing(v, cards)[i]))
  }

  // ---------------------------------------------------------------------------
  // Product pages

  /** The detail-page `evaluate`. With the selector group: the trimmed `innerText` of the
      first element matching the group; else, if `#desc_ifr` matches, the trimmed text of
      that frame's body, which may throw; else `'-'`. Without it: `#desc_ifr`'s
      `innerText`, or `'-'` when it is missing or empty. */
  function DetailText(v: Variant, doc: seq<Element>): (r: Outcome<JsValue>)
    ensures r.Ok? ==> r.value.Str?
    ensures !v.selectorGroup ==> r.Ok? && r.value.s != ""
  {
    if v.selectorGroup then
      match QuerySelector(doc, DescriptionGroup)
      case Some(e) => Ok(Str(Trim(e.innerText)))
      case None =>
        match QuerySelector(doc, [ById("desc_ifr")])
        case Some(frame) =>
          (match frame.frameBody
           case Err(m) => Err(m)
           case Ok(body) => Ok(Str(Trim(body))))
        case None => Ok(Str("-"))
    else
      match QuerySelector(doc, [ById("desc_ifr")])
      case Some(e) => Ok(Str(OrDash(e.innerText)))
      case None => Ok(Str("-"))
  }

  /** The iframe fallback never runs: `#desc_ifr` is already in the selector group, so
      when the group finds nothing the fallback query finds nothing either. Reading a
      detail page therefore never throws, and a page with no match gives `'-'`. */
  lemma IframeFallbackUnreachable(v: Variant, doc: seq<Element>)
    ensures DetailText(v, doc).Ok?
    ensures v.selectorGroup && QuerySelector(doc, DescriptionGroup).None? ==> DetailText(v, doc) == Ok(Str("-"))
    ensures v.selectorGroup && QuerySelector(doc, DescriptionGroup).Some? ==>
              DetailText(v, doc) == Ok(Str(Trim(QuerySelector(doc, DescriptionGroup).value.innerText)))
  {
    if v.selectorGroup && QuerySelector(doc, DescriptionGroup).None? {
      GroupMissIsMemberMiss(doc, DescriptionGroup, 0);
    }
  }

  /** One turn of the `for...of` in `scrapeEcommerce`: a product whose link is `'-'` is
      left alone; any other gets its detail page opened and `description` set from it.
      Nothing catches a failure here. */
  function Describe(site: Site, v: Variant, p: LegacyProduct): (r: Outcome<LegacyProduct>)
    ensures p.link == "-" ==> r == Ok(p)
    ensures r.Ok? ==> r.value == p.(description := r.value.description)
    ensures p.link != "-" && DetailPage(site, p.link).Err? ==> r == Err(DetailPage(site, p.link).msg)
    ensures p.link != "-" && DetailPage(site, p.link).Ok? && r.Ok? ==>
              Ok(r.value.description) == DetailText(v, DetailPage(site, p.link).value)
    ensures p.link != "-" && DetailPage(site, p.link).Ok? ==> r.Ok?
  {
    if p.link == "-" then Ok(p)
    else match DetailPage(site, p.link)
      case Err(m) => Err(m)
      case Ok(doc) =>
        IframeFallbackUnreachable(v, doc);
        match DetailText(v, doc)
        case Err(m) => Err(m)
        case Ok(d) => Ok(p.(description := d))
  }

  /** What one turn does with the browser. */
  function DescribeEvents(p: LegacyProduct): seq<Event>
  {
    if p.link == "-" then [] else [Fetched(p.link)]
  }

  function DescribeStep(site: Site, v: Variant): LegacyProduct -> Outcome<LegacyProduct>
  {
    p => Describe(site, v, p)
  }

  /** The products after the detail loop, or the error of the first product that failed. */
  function Described(site: Site, v: Variant, ps: seq<LegacyProduct>): Outcome<seq<LegacyProduct>>
  {
    Traverse(DescribeStep(site, v), ps)
  }

  function DescribedEvents(site: Site, v: Variant, ps: seq<LegacyProduct>): seq<Event>
  {
    Trace(DescribeStep(site, v), DescribeEvents, ps)
  }

  /** A product page is opened exactly for each product, in list order, whose link is
      not `'-'`, up to the first failure. */
  lemma {:induction false} OnlyLinkedAreFetched(site: Site, v: Variant, ps: seq<LegacyProduct>)
    ensures forall k :: 0 <= k < |DescribedEvents(site, v, ps)| ==>
              DescribedEvents(site, v, ps)[k].Fetched? && DescribedEvents(site, v, ps)[k].url != "-"
    ensures Described(site, v, ps).Ok? ==>
              DescribedEvents(site, v, ps) == LinkedFetches(ps)
  {
    if ps != [] {
      var init := ps[..|ps| - 1];
      OnlyLinkedAreFetched(site, v, init);
      var earlier: seq<Event> := DescribedEvents(site, v, init);
      if Described(site, v, init).Ok? {
        var last: seq<Event> := DescribeEvents(ps[|ps| - 1]);
        assert DescribedEvents(site, v, ps) == earlier + last;
        forall k | 0 <= k < |earlier + last|
          ensures (earlier + last)[k].Fetched? && (earlier + last)[k].url != "-"
        {
          if k >= |earlier| {
            assert (earlier + last)[k] == last[k - |earlier|];
          }
        }
      } else {
        assert DescribedEvents(site, v, ps) == earlier;
      }
    }
  }

  /** The pages a loop without failures opens: one per product whose link is not `'-'`. */
  function LinkedFetches(ps: seq<LegacyProduct>): seq<Event>
  {
    if ps == [] then [] else LinkedFetches(ps[..|ps| - 1]) + DescribeEvents(ps[|ps| - 1])
  }

  /** The detail loop either fails as a whole or describes every product in place: same
      length, same order, same name, price and link; a product whose link is `'-'` keeps
      its description. */
  lemma DescribedIsPerProduct(site: Site, v: Variant, ps: seq<LegacyProduct>)
    ensures Described(site, v, ps).Ok? <==> forall i :: 0 <= i < |ps| ==> Describe(site, v, ps[i]).Ok?
    ensures Described(site, v, ps).Ok? ==>
              |Described(site, v, ps).value| == |ps| &&
              forall i :: 0 <= i < |ps| ==>
                Described(site, v, ps).value[i] == ps[i].(description := Described(site, v, ps).value[i].description) &&
                (ps[i].link == "-" ==> Described(site, v, ps).value[i] == ps[i]) &&
                Described(site, v, ps).value[i] == Describe(site, v, ps[i]).value
  {
    TraverseIsPerElement(DescribeStep(site, v), ps);
  }

  // ---------------------------------------------------------------------------
  // scrapeEcommerce

  /** `scrapeEcommerce` once its tab is open: the listing navigation's error, or the
      described products. */
  function ListingScrape(site: Site, v: Variant, url: string): Outcome<seq<LegacyProduct>>
  {
    match SearchPage(site, url)
    case Err(m) => Err(m)
    case Ok(cards) => Described(site, v, InitialProducts(v, cards))
  }

  /** What it then does with the browser; `browser.close()` is only reached on success. */
  function ListingEvents(site: Site, v: Variant, url: string): seq<Event>
  {
    [Searched(url)] +
    match SearchPage(site, url)
    case Err(_) => []
    case Ok(cards) =>
      DescribedEvents(site, v, InitialProducts(v, cards)) +
      (if Described(site, v, InitialProducts(v, cards)).Ok? then [Closed] else [])
  }

  /** The result of `scrapeEcommerce(url)`: whatever the launch, the first tab, the
      listing navigation or a detail page throws, or the described products. */
  function LegacyScrape(site: Site, v: Variant, url: string): Outcome<seq<LegacyProduct>>
  {
    if site.launchError.Some? then Err(site.launchError.value)
    else if site.setupError.Some? then Err(site.setupError.value)
    else ListingScrape(site, v, url)
  }

  /** What `scrapeEcommerce(url)` does with the browser. Every error after the launch
      leaves the browser running. */
  function LegacyScrapeEvents(site: Site, v: Variant, url: string): seq<Event>
  {
    if site.launchError.Some? then []
    else if site.setupError.Some? then [Launched]
    else [Launched] + ListingEvents(site, v, url)
  }

  /** The converse of a failing product page being fatal: once the browser, the tab and
      the listing load, a scrape whose linked products' pages all load succeeds, with one
      described product per kept card. */
  lemma {:induction false} LoadedPagesSucceed(site: Site, v: Variant, url: string)
    requires site.launchError.None? && site.setupError.None? && SearchPage(site, url).Ok?
    requires forall i :: 0 <= i < |InitialProducts(v, SearchPage(site, url).value)| &&
                         InitialProducts(v, SearchPage(site, url).value)[i].link != "-" ==>
               DetailPage(site, InitialProducts(v, SearchPage(site, url).value)[i].link).Ok?
    ensures LegacyScrape(site, v, url).Ok?
    ensures |LegacyScrape(site, v, url).value| == |InitialProducts(v, SearchPage(site, url).value)|
  {
    DescribedIsPerProduct(site, v, InitialProducts(v, SearchPage(site, url).value));
  }

  /** A launched browser is closed exactly when the scrape succeeds; on every error it is
      left open. */
  lemma LegacyClosesOnlyOnSuccess(site: Site, v: Variant, url: string)
    requires site.launchError.None?
    ensures Closed in LegacyScrapeEvents(site, v, url) <==> LegacyScrape(site, v, url).Ok?
  {
    if site.setupError.None? && SearchPage(site, url).Ok? {
      var ps := InitialProducts(v, SearchPage(site, url).value);
      OnlyLinkedAreFetched(site, v, ps);
      assert Closed !in DescribedEvents(site, v, ps);
      assert LegacyScrapeEvents(site, v, url) ==
             [Launched, Searched(url)] + DescribedEvents(site, v, ps) +
             (if Described(site, v, ps).Ok? then [Closed] else []);
    }
  }

  /** One turn of the detail loop, as the script runs it. */
  method DescribeProduct(session: Session, v: Variant, product: LegacyProduct)
    returns (r: Outcome<LegacyProduct>)
    requires session.open
    modifies session`events
    ensures r == Describe(session.site, v, product)
    ensures session.events == old(session.events) + DescribeEvents(product)
  {
    if product.link == "-" {
      return Ok(product);
    }
    var detail := session.Fetch(product.link);
    if detail.Err? {
      return Err(detail.msg);
    }
    var description := DetailText(v, detail.value);
    if description.Err? {
      return Err(description.msg);
    }
    r := Ok(product.(description := description.value));
  }

  /** The detail loop of `scrapeEcommerce`: each product's description set in place, in
      list order, until a product page throws. */
  method DescribeAll(session: Session, v: Variant, initial: seq<LegacyProduct>)
    returns (r: Outcome<seq<LegacyProduct>>)
    requires session.open
    modifies session`events
    ensures r == Described(session.site, v, initial)
    ensures session.events == old(session.events) + DescribedEvents(session.site, v, initial)
  {
    ghost var start := session.events;
    ghost var step := DescribeStep(session.site, v);
    var products := initial;
    var i := 0;
    while i < |products|
      invariant 0 <= i <= |products| == |initial|
      invariant Traverse(step, initial[..i]) == Ok(products[..i])
      invariant products[i..] == initial[i..]
      invariant session.events == start + Trace(step, DescribeEvents, initial[..i])
    {
      TraverseStep(step, DescribeEvents, initial, i);
      assert products[i] == initial[i];
      var described := DescribeProduct(session, v, products[i]);
      AppendAssoc(start, Trace(step, DescribeEvents, initial[..i]), DescribeEvents(initial[i]));
      if described.Err? {
        TraverseFailureIsFinal(step, DescribeEvents, initial, i + 1);
        return Err(described.msg);
      }
      products := products[i := described.value];
      assert products[..i + 1] == products[..i] + [described.value];
      i := i + 1;
    }
    assert initial[..i] == initial;
    assert products[..i] == products;
    r := Ok(products);
  }

  /** `scrapeEcommerce` once its tab is open: read the listing, describe the products,
      and close the browser, which stays open if anything throws. */
  method ScrapeListing(session: Session, v: Variant, url: string) returns (r: Outcome<seq<LegacyProduct>>)
    requires session.open
    modifies session
    ensures r == ListingScrape(session.site, v, url)
    ensures session.events == old(session.events) + ListingEvents(session.site, v, url)
    ensures session.open <==> r.Err?
  {
    ghost var start := session.events;
    var listing := session.Search(url);
    if listing.Err? {
      return Err(listing.msg);
    }
    var products := InitialProducts(v, listing.value);
    r := DescribeAll(session, v, products);
    ghost var described := DescribedEvents(session.site, v, products);
    AppendAssoc(start, [Searched(url)], described);
    if r.Err? {
      return;
    }
    session.Close();
    AppendAssoc(start, [Searched(url)] + described, [Closed]);
    AppendAssoc([Searched(url)], described, [Closed]);
  }

  /** `scrapeEcommerce(url)`: launch the browser and open a tab, then the rest. */
  method ScrapeEcommerce(session: Session, v: Variant, url: string) returns (r: Outcome<seq<LegacyProduct>>)
    requires !session.open
    modifies session
    ensures r == LegacyScrape(session.site, v, url)
    ensures session.events == old(session.events) + LegacyScrapeEvents(session.site, v, url)
    ensures session.open <==> session.site.launchError.None? && r.Err?
  {
    ghost var start := session.events;
    var launchError := session.Launch();
    if launchError.Some? {
      return Err(launchError.value);
    }
    var setupError := session.NewPage();
    if setupError.Some? {
      return Err(setupError.value);
    }
    r := ScrapeListing(session, v, url);
    AppendAssoc(start, [Launched], ListingEvents(session.site, v, url));
  }

  // ---------------------------------------------------------------------------
  // summarizeDescription

  /** Whether `summarizeDescription(d)` calls the service, and with what content: the
      revised scripts skip `'-'` and every falsy value, `server.js` skips only `'-'` and
      so sends a missing description as it is. */
  function SummaryRequest(v: Variant, d: JsValue): (r: Option<JsValue>)
    ensures r.None? <==> d == Str("-") || (v.softSummary && Falsy(d))
    ensures r.Some? ==> r.value == d
  {
    if d == Str("-") || (v.softSummary && Falsy(d)) then None else Some(d)
  }

  /** Reading the service's answer. Revised scripts: `choices[0]?.message?.content.trim()
      || '-'` inside a `try` that turns every error into `'-'`, so the result is always
      a non-empty string, and is not `'-'` only for a string content with text left after
      trimming. `server.js`: `choices[0].message.content`, raw, with every error thrown. */
  function ReadSummary(v: Variant, reply: Outcome<Completion>): (r: Outcome<JsValue>)
    ensures v.softSummary ==> r.Ok? && r.value.Str? && r.value.s != ""
    ensures v.softSummary && r != Ok(Str("-")) ==>
              reply.Ok? && reply.value.Content? && reply.value.content.Str? &&
              r == Ok(Str(Trim(reply.value.content.s)))
    ensures v.softSummary && reply.Ok? && reply.value.Content? && reply.value.content.Str? &&
            Trim(reply.value.content.s) != "" ==>
              r == Ok(Str(Trim(reply.value.content.s)))
    ensures !v.softSummary ==> (r.Ok? <==> reply.Ok? && reply.value.Content?)
    ensures !v.softSummary && r.Ok? ==> r.value == reply.value.content
    ensures !v.softSummary && reply.Err? ==> r == Err(reply.msg)
  {
    if v.softSummary then
      match reply
      case Ok(Content(Str(text))) => Ok(Str(OrDash(Trim(text))))
      case _ => Ok(Str("-"))
    else
      match reply
      case Err(m) => Err(m)
      case Ok(NoChoice) => Err(NoChoiceError)
      case Ok(NoMessage) => Err(NoMessageError)
      case Ok(Content(c)) => Ok(c)
  }

  /** `summarizeDescription(d)`, with the service as `complete`: `'-'` when it makes no
      request, otherwise its reading of the reply. */
  function SummarizeDescription(v: Variant, complete: JsValue -> Outcome<Completion>, d: JsValue): (r: Outcome<JsValue>)
    ensures SummaryRequest(v, d).None? ==> r == Ok(Str("-"))
    ensures SummaryRequest(v, d).Some? ==> r == ReadSummary(v, complete(d))
  {
    match SummaryRequest(v, d)
    case None => Ok(Str("-"))
    case Some(content) => ReadSummary(v, complete(content))
  }

  /** The revised `summarizeDescription` never throws and always yields a non-empty
      string; `'-'` whenever it makes no request or the service fails. */
  lemma SoftSummaryNeverFails(v: Variant, complete: JsValue -> Outcome<Completion>, d: JsValue)
    requires v.softSummary
    ensures SummarizeDescription(v, complete, d).Ok?
    ensures SummarizeDescription(v, complete, d).value.Str? && SummarizeDescription(v, complete, d).value.s != ""
    ensures Falsy(d) || d == Str("-") || complete(d).Err? ==> SummarizeDescription(v, complete, d) == Ok(Str("-"))
  {
  }

  /** One turn of the handler's loop: replace the product's description by its summary. */
  function Summarize(v: Variant, complete: JsValue -> Outcome<Completion>, p: LegacyProduct): (r: Outcome<LegacyProduct>)
    ensures r.Ok? ==> r.value == p.(description := r.value.description)
  {
    match SummarizeDescription(v, complete, p.description)
    case Err(m) => Err(m)
    case Ok(summary) => Ok(p.(description := summary))
  }

  function SummarizeStep(v: Variant, complete: JsValue -> Outcome<Completion>): LegacyProduct -> Outcome<LegacyProduct>
  {
    p => Summarize(v, complete, p)
  }

  /** The handler's loop: every description replaced in list order, or the first error. */
  function SummarizeAll(v: Variant, complete: JsValue -> Outcome<Completion>, ps: seq<LegacyProduct>): Outcome<seq<LegacyProduct>>
  {
    Traverse(SummarizeStep(v, complete), ps)
  }

  /** The handler's loop keeps the list: same length, same order, each product with only
      its description replaced by that description's summary. In the revised scripts it
      cannot fail; in `server.js` it fails exactly when some summary does. */
  lemma {:induction false} SummarizeAllIsPerProduct(v: Variant, complete: JsValue -> Outcome<Completion>,
                                                    ps: seq<LegacyProduct>)
    ensures SummarizeAll(v, complete, ps).Ok? <==>
              forall i :: 0 <= i < |ps| ==> SummarizeDescription(v, complete, ps[i].description).Ok?
    ensures v.softSummary ==> SummarizeAll(v, complete, ps).Ok?
    ensures SummarizeAll(v, complete, ps).Ok? ==>
              |SummarizeAll(v, complete, ps).value| == |ps| &&
              forall i :: 0 <= i < |ps| ==>
                SummarizeAll(v, complete, ps).value[i] ==
                ps[i].(description := SummarizeDescription(v, complete, ps[i].description).value)
  {
    TraverseIsPerElement(SummarizeStep(v, complete), ps);
    if v.softSummary {
      forall i | 0 <= i < |ps|
        ensures SummarizeDescription(v, complete, ps[i].description).Ok?
      {
        SoftSummaryNeverFails(v, complete, ps[i].description);
      }
    }
  }

  // ---------------------------------------------------------------------------
  // The /scrape handler

  /** `GET /scrape?url=…`: 400 without a URL (missing or empty), 500 with the message of
      whatever the scrape or a summary throws, else the summarised products. */
  function Handle(site: Site, v: Variant, complete: JsValue -> Outcome<Completion>, url: Option<string>): (r: Response)
    ensures r.BadRequest? <==> url.None? || url.value == ""
    ensures r.BadRequest? ==> r.error == UrlRequired
  {
    if url.None? || url.value == "" then BadRequest(UrlRequired)
    else match LegacyScrape(site, v, url.value)
      case Err(m) => ServerError(m)
      case Ok(ps) =>
        match SummarizeAll(v, complete, ps)
        case Err(m) => ServerError(m)
        case Ok(qs) => Success(qs)
  }

  /** A successful reply lists one product per kept card, in card order, with the card's
      name, price and link. */
  lemma HandleKeepsCards(site: Site, v: Variant, complete: JsValue -> Outcome<Completion>, url: Option<string>)
    requires Handle(site, v, complete, url).Success?
    ensures SearchPage(site, url.value).Ok?
    ensures var cards := SearchPage(site, url.value).value;
            var out := Handle(site, v, complete, url).products;
            |out| == |Listing(v, cards)| &&
            forall i :: 0 <= i < |out| ==>
              out[i].name == CardText(v, cards[i].title) && out[i].price == CardText(v, cards[i].price) &&
              out[i].link == CardToProduct(v, cards[i]).link
  {
    var cards := SearchPage(site, url.value).value;
    var ps := InitialProducts(v, cards);
    DescribedIsPerProduct(site, v, ps);
    SummarizeAllIsPerProduct(v, complete, Described(site, v, ps).value);
  }

  /** A product page that fails to load is not caught per product: the request answers
      500 with that page's error and no list, whatever the other products did. */
  lemma {:induction false} DetailFailureIs500(site: Site, v: Variant, complete: JsValue -> Outcome<Completion>,
                                              url: string, k: nat)
    requires url != "" && site.launchError.None? && site.setupError.None? && SearchPage(site, url).Ok?
    requires k < |InitialProducts(v, SearchPage(site, url).value)|
    requires InitialProducts(v, SearchPage(site, url).value)[k].link != "-"
    requires DetailPage(site, InitialProducts(v, SearchPage(site, url).value)[k].link).Err?
    ensures Handle(site, v, complete, Some(url)).ServerError?
  {
    DescribedIsPerProduct(site, v, InitialProducts(v, SearchPage(site, url).value));
  }

  /** In `server.js` a summary error reaches the client: if some product's summary
      fails, the request answers 500 and no list. */
  lemma ServerSummaryFailureIs500(site: Site, complete: JsValue -> Outcome<Completion>, url: string, k: nat)
    requires url != "" && LegacyScrape(site, ServerJs, url).Ok?
    requires k < |LegacyScrape(site, ServerJs, url).value|
    requires SummarizeDescription(ServerJs, complete, LegacyScrape(site, ServerJs, url).value[k].description).Err?
    ensures Handle(site, ServerJs, complete, Some(url)).ServerError?
  {
    SummarizeAllIsPerProduct(ServerJs, complete, LegacyScrape(site, ServerJs, url).value);
  }

  /** `server.js` sends a link-less product's missing description to the service: the
      request goes out with `content: undefined`. */
  lemma ServerSendsMissingDescription(site: Site, cards: seq<Card>, k: nat)
    requires k < |cards| && (cards[k].href.None? || cards[k].href.value in {"", "-"})
    ensures InitialProducts(ServerJs, cards)[k].description == Undefined
    ensures Describe(site, ServerJs, InitialProducts(ServerJs, cards)[k]) == Ok(InitialProducts(ServerJs, cards)[k])
    ensures SummaryRequest(ServerJs, Undefined) == Some(Undefined)
  {
  }

  /** The handler's loop: each product's description replaced in place by its summary,
      in list order, until a summary throws. */
  method SummarizeProducts(v: Variant, complete: JsValue -> Outcome<Completion>, initial: seq<LegacyProduct>)
    returns (r: Outcome<seq<LegacyProduct>>)
    ensures r == SummarizeAll(v, complete, initial)
  {
    ghost var step := SummarizeStep(v, complete);
    var products := initial;
    var i := 0;
    while i < |products|
      invariant 0 <= i <= |products| == |initial|
      invariant Traverse(step, initial[..i]) == Ok(products[..i])
      invariant products[i..] == initial[i..]
    {
      TraverseStep<LegacyProduct, Event>(step, (p: LegacyProduct) => [], initial, i);
      assert products[i] == initial[i];
      var summary := SummarizeDescription(v, complete, products[i].description);
      if summary.Err? {
        TraverseFailureIsFinal<LegacyProduct, Event>(step, (p: LegacyProduct) => [], initial, i + 1);
        return Err(summary.msg);
      }
      products := products[i := products[i].(description := summary.value)];
      assert products[..i + 1] == products[..i] + [products[i]];
      i := i + 1;
    }
    assert initial[..i] == initial;
    assert products[..i] == products;
    r := Ok(products);
  }

  /** The `/scrape` handler: check the URL, scrape, summarise, answer. */
  method HandleScrape(session: Session, v: Variant, complete: JsValue -> Outcome<Completion>, url: Option<string>)
    returns (response: Response)
    requires !session.open
    modifies session
    ensures response == Handle(session.site, v, complete, url)
    ensures url.None? || url.value == "" ==> session.events == old(session.events)
    ensures url.Some? && url.value != "" ==>
              session.events == old(session.events) + LegacyScrapeEvents(session.site, v, url.value)
    ensures url.None? || url.value == "" ==> session.open == old(session.open)
    ensures url.Some? && url.value != "" ==>
              (session.open <==> session.site.launchError.None? && LegacyScrape(session.site, v, url.value).Err?)
  {
    if url.None? || url.value == "" {
      return BadRequest(UrlRequired);
    }
    var scraped := ScrapeEcommerce(session, v, url.value);
    if scraped.Err? {
      return ServerError(scraped.msg);
    }
    var summarized := SummarizeProducts(v, complete, scraped.value);
    if summarized.Err? {
      return ServerError(summarized.msg);
    }
    response := Success(summarized.value);
  }

  // ---------------------------------------------------------------------------
  // The three scripts

  /** main.js: at most the first 4 cards, in order; name and price trimmed with `'-'`
      for a missing or empty element; link `href` or `'-'`; description `'-'`. */
  lemma MainJsListing(cards: seq<Card>)
    ensures |InitialProducts(MainJs, cards)| == if |cards| < 4 then |cards| else 4
    ensures forall i :: 0 <= i < |InitialProducts(MainJs, cards)| ==>
              var p := InitialProducts(MainJs, cards)[i];
              (p.name == "-" <==> cards[i].title.None? || Trim(cards[i].title.value) in {"", "-"}) &&
              (p.name != "-" ==> p.name == Trim(cards[i].title.value)) &&
              (p.price == "-" <==> cards[i].price.None? || Trim(cards[i].price.value) in {"", "-"}) &&
              (p.price != "-" ==> p.price == Trim(cards[i].price.value)) &&
              p.description == Str("-")
  {
  }

  /** new.js: the same, with at most the first 10 cards. */
  lemma NewJsListing(cards: seq<Card>)
    ensures |InitialProducts(NewJs, cards)| == if |cards| < 10 then |cards| else 10
    ensures forall i :: 0 <= i < |InitialProducts(NewJs, cards)| ==>
              var p := InitialProducts(NewJs, cards)[i];
              (p.name == "-" <==> cards[i].title.None? || Trim(cards[i].title.value) in {"", "-"}) &&
              (p.name != "-" ==> p.name == Trim(cards[i].title.value)) &&
              (p.price == "-" <==> cards[i].price.None? || Trim(cards[i].price.value) in {"", "-"}) &&
              (p.price != "-" ==> p.price == Trim(cards[i].price.value)) &&
              p.description == Str("-")
  {
  }

  /** server.js: every card, in order; name and price are the raw, untrimmed text, with
      `'-'` for a missing or empty element; no description field. */
  lemma ServerJsListing(cards: seq<Card>)
    ensures |InitialProducts(ServerJs, cards)| == |cards|
    ensures forall i :: 0 <= i < |cards| ==>
              var p := InitialProducts(ServerJs, cards)[i];
              (p.name == "-" <==> cards[i].title.None? || cards[i].title.value in {"", "-"}) &&
              (p.name != "-" ==> p.name == cards[i].title.value) &&
              (p.price == "-" <==> cards[i].price.None? || cards[i].price.value in {"", "-"}) &&
              (p.price != "-" ==> p.price == cards[i].price.value) &&
              p.description == Undefined
  {
  }

  /** main.js and new.js: a product page yields the trimmed text of the first element
      matching the selector group, or `'-'`; it never throws. */
  lemma RevisedDetailText(doc: seq<Element>)
    ensures DetailText(MainJs, doc) == DetailText(NewJs, doc)
    ensures QuerySelector(doc, DescriptionGroup).None? ==> DetailText(MainJs, doc) == Ok(Str("-"))
    ensures QuerySelector(doc, DescriptionGroup).Some? ==>
              DetailText(MainJs, doc) == Ok(Str(Trim(QuerySelector(doc, DescriptionGroup).value.innerText)))
  {
    IframeFallbackUnreachable(MainJs, doc);
  }

  /** server.js: a product page yields `#desc_ifr`'s text, untrimmed, or `'-'` when that
      element is missing or its text is empty. */
  lemma ServerJsDetailText(doc: seq<Element>)
    ensures QuerySelector(doc, [ById("desc_ifr")]).None? ==> DetailText(ServerJs, doc) == Ok(Str("-"))
    ensures QuerySelector(doc, [ById("desc_ifr")]).Some? ==>
              DetailText(ServerJs, doc) == Ok(Str(OrDash(QuerySelector(doc, [ById("desc_ifr")]).value.innerText)))
  {
  }

  /** main.js and new.js: `summarizeDescription` answers `'-'` without a request for a
      missing, empty or `'-'` description; otherwise it answers the trimmed reply text, or
      `'-'` when the request fails, the reply has no text, or the text is blank. */
  lemma RevisedSummary(complete: JsValue -> Outcome<Completion>, d: JsValue)
    ensures SummarizeDescription(MainJs, complete, d) == SummarizeDescription(NewJs, complete, d)
    ensures SummaryRequest(MainJs, d).None? <==> Falsy(d) || d == Str("-")
    ensures SummarizeDescription(MainJs, complete, d).Ok?
    ensures var r := SummarizeDescription(MainJs, complete, d).value;
            r == Str("-") ||
            (SummaryRequest(MainJs, d).Some? && complete(d).Ok? && complete(d).value.Content? &&
             complete(d).value.content.Str? && r == Str(Trim(complete(d).value.content.s)) && r.s != "")
    ensures forall t :: SummaryRequest(MainJs, d).Some? && complete(d) == Ok(Content(Str(t))) && Trim(t) != "" ==>
              SummarizeDescription(MainJs, complete, d) == Ok(Str(Trim(t)))
  {
  }

  /** server.js: `summarizeDescription` skips only `'-'`; otherwise it returns the reply's
      content as it is, and throws the request's error or a property-read error when the
      reply has no first choice or no message. */
  lemma ServerJsSummary(complete: JsValue -> Outcome<Completion>, d: JsValue)
    ensures SummaryRequest(ServerJs, d).None? <==> d == Str("-")
    ensures d != Str("-") ==>
              SummarizeDescription(ServerJs, complete, d) ==
              match complete(d)
              case Err(m) => Err(m)
              case Ok(NoChoice) => Err(NoChoiceError)
              case Ok(NoMessage) => Err(NoMessageError)
              case Ok(Content(c)) => Ok(c)
  {
  }

  /** main.js and new.js: with a URL, the handler answers 500 exactly when the scrape
      throws; otherwise it answers every scraped product, in order, with its summary. */
  lemma RevisedHandler(site: Site, v: Variant, complete: JsValue -> Outcome<Completion>, url: string)
    requires v == MainJs || v == NewJs
    requires url != ""
    ensures Handle(site, v, complete, Some(url)).ServerError? <==> LegacyScrape(site, v, url).Err?
    ensures LegacyScrape(site, v, url).Ok? ==>
              var ps := LegacyScrape(site, v, url).value;
              Handle(site, v, complete, Some(url)) ==
              Success(seq(|ps|, i requires 0 <= i < |ps| =>
                            ps[i].(description := SummarizeDescription(v, complete, ps[i].description).value)))
  {
    if LegacyScrape(site, v, url).Ok? {
      var ps := LegacyScrape(site, v, url).value;
      SummarizeAllIsPerProduct(v, complete, ps);
    }
  }

  /** server.js: with a URL, the handler answers 500 exactly when the scrape or some
      product's summary throws. */
  lemma ServerJsHandler(site: Site, complete: JsValue -> Outcome<Completion>, url: string)
    requires url != ""
    ensures Handle(site, ServerJs, complete, Some(url)).ServerError? <==>
              LegacyScrape(site, ServerJs, url).Err? ||
              exists i :: 0 <= i < |LegacyScrape(site, ServerJs, url).value| &&
                          SummarizeDescription(ServerJs, complete, LegacyScrape(site, ServerJs, url).value[i].description).Err?
  {
    if LegacyScrape(site, ServerJs, url).Ok? {
      SummarizeAllIsPerProduct(ServerJs, complete, LegacyScrape(site, ServerJs, url).value);
    }
  }
}
