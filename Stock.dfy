/** The stock command: the pccomponentes.com spider (URL building over the shared
    per-product parameter table, the first request, the result queue and the page
    fan-out of `parse`) and the command callback that drains the queue, keeps the
    listings in stock and composes the reply.
    Fetching, XPath evaluation and the crawler itself are outside the model: a
    fetched page arrives as the values the selectors read, and a crawl arrives as
    the listings it queued or the exception it raised. */
module Stock {
  import opened Wrappers
  import opened PyDict
  import opened Text

  const SiteUrl: string := "https://www.pccomponentes.com"
  const AjaxPath: string := "/listado/ajax?"

  /** The `Result` namedtuple: one product card. Attributes read with `.get()` are
      `None` when the card lacks them; `href` is always formatted into a string. */
  datatype Listing = Listing(name: Option<string>, price: Option<string>, stock: Option<string>, href: string)

  /** What the selectors read from one `<article class="c-product-card">`: its
      `data-name`, `data-price` and `data-stock-web` attributes, and the `href` of
      the first anchor in the page carrying the card's `data-id`. */
  datatype Card = Card(name: Option<string>, price: Option<string>, stockWeb: Option<string>, link: Option<string>)

  /** A downloaded page: its product cards in document order and the values of the
      `currentpage` and `totalpages` response headers (bytes, when present). */
  datatype Page = Page(cards: seq<Card>, currentPage: Option<string>, totalPages: Option<string>)

  /** A `scrapy.Request`; its callback is always the spider's `parse`. */
  datatype Request = Request(url: string)

  function KeyError(key: string): PyException
  {
    PyException("KeyError", "'" + key + "'")
  }

  /** The product table as the class body defines it. */
  const InitialParameters: map<string, Items> := map[
    "rtx-3080" := [("idFilters[]", "7498"), ("idFamilies[]", "6")],
    "ryzen9" := [("idFilters[]", "7678"), ("idFamilies[]", "4")]
  ]

  // ---------------------------------------------------------------------------
  //   The listing URL
  // ---------------------------------------------------------------------------

  function PairText(kv: (string, string)): string
  {
    kv.0 + "=" + kv.1
  }

  function PairTexts(d: Items): seq<string>
  {
    seq(|d|, i requires 0 <= i < |d| => PairText(d[i]))
  }

  /** `"&".join([f"{k}={v}" for k, v in d.items()])`. */
  function Query(d: Items): (q: string)
  {
    Join(PairTexts(d), '&')
  }

  /** The URL `generate_url` returns once the table entry is `d`. */
  function ListingUrl(d: Items): (url: string)
  {
    SiteUrl + AjaxPath + Query(d)
  }

  /** Reading a query string back: split on `&`, then at the first `=`. */
  function ParsePair(p: string): Option<(string, string)>
  {
    if '=' in p then
      var i := FirstIndex(p, '=');
      Some((p[..i], p[i + 1..]))
    else None
  }

  function ParsePairs(ps: seq<string>): Option<Items>
  {
    if ps == [] then Some([])
    else match (ParsePair(ps[0]), ParsePairs(ps[1..]))
      case (Some(kv), Some(rest)) => Some([kv] + rest)
      case _ => None
  }

  function ParseQuery(q: string): Option<Items>
  {
    if q == "" then Some([]) else ParsePairs(Split(q, '&'))
  }

  /** The table entry a listing URL carries, or None for any other text. */
  function ParseListingUrl(url: string): Option<Items>
  {
    var prefix := SiteUrl + AjaxPath;
    if |prefix| <= |url| && url[..|prefix|] == prefix then ParseQuery(url[|prefix|..]) else None
  }

  /** No key holds `&` or `=` and no value holds `&`: the pairs can be read back. */
  predicate QuerySafe(d: Items)
  {
    forall i :: 0 <= i < |d| ==> '&' !in d[i].0 && '=' !in d[i].0 && '&' !in d[i].1
  }

  lemma {:induction false} FirstIndexAfter(k: string, c: char, rest: string)
    requires c !in k
    ensures c in k + [c] + rest && FirstIndex(k + [c] + rest, c) == |k|
  {
    var s := k + [c] + rest;
    assert s[|k|] == c;
    if |k| > 0 {
      assert s[1..] == k[1..] + [c] + rest;
      FirstIndexAfter(k[1..], c, rest);
    }
  }

  lemma {:induction false} ParsePairsOfTexts(d: Items)
    requires QuerySafe(d)
    ensures ParsePairs(PairTexts(d)) == Some(d)
  {
    if d != [] {
      var k, v := d[0].0, d[0].1;
      assert PairText(d[0]) == k + ['='] + v;
      FirstIndexAfter(k, '=', v);
      assert (k + ['='] + v)[..|k|] == k;
      assert (k + ['='] + v)[|k| + 1..] == v;
      assert PairTexts(d)[1..] == PairTexts(d[1..]);
      ParsePairsOfTexts(d[1..]);
      assert [d[0]] + d[1..] == d;
    }
  }

  /** The query string encodes the table entry: reading it back gives the same
      pairs in the same order. */
  lemma QueryRoundTrip(d: Items)
    requires QuerySafe(d)
    ensures ParseQuery(Query(d)) == Some(d)
  {
    if d != [] {
      var parts := PairTexts(d);
      forall i | 0 <= i < |parts| ensures '&' !in parts[i] {
        assert parts[i] == d[i].0 + "=" + d[i].1;
      }
      assert parts[0] != "";
      SplitJoin(parts, '&');
      ParsePairsOfTexts(d);
    }
  }

  /** The URL `generate_url` builds determines the table entry it was built from. */
  lemma ListingUrlRoundTrip(d: Items)
    requires QuerySafe(d)
    ensures ParseListingUrl(ListingUrl(d)) == Some(d)
  {
    var prefix := SiteUrl + AjaxPath;
    assert ListingUrl(d)[..|prefix|] == prefix;
    assert ListingUrl(d)[|prefix|..] == Query(d);
    QueryRoundTrip(d);
  }

  // ---------------------------------------------------------------------------
  //   The spider
  // ---------------------------------------------------------------------------

  /** The product table's entries are distinct dict objects, as the class body's
      literal makes them. */
  ghost predicate DistinctEntries(t: map<string, StrDict>)
  {
    forall p, q :: p in t && q in t && p != q ==> t[p] != t[q]
  }

  /** Evaluating the class body: `product_parameters` is built once and shared by
      every spider instance (and by every later invocation in a warm process). */
  method NewProductParameters() returns (t: map<string, StrDict>)
    ensures t.Keys == InitialParameters.Keys
    ensures forall p :: p in t ==> fresh(t[p]) && t[p].items == InitialParameters[p]
    ensures DistinctEntries(t)
  {
    var rtx := new StrDict(InitialParameters["rtx-3080"]);
    var ryzen := new StrDict(InitialParameters["ryzen9"]);
    t := map["rtx-3080" := rtx, "ryzen9" := ryzen];
  }

  /** A FIFO `queue.Queue` of listings. */
  class ResultQueue {
    var items: seq<Listing>

    constructor ()
      ensures items == []
    {
      items := [];
    }

    /** `put(r)`. */
    method Put(r: Listing)
      modifies this
      ensures items == old(items) + [r]
    {
      items := items + [r];
    }

    /** `get(block=False)`: the oldest listing, or None where Python raises `queue.Empty`. */
    method GetNoWait() returns (r: Option<Listing>)
      modifies this
      ensures old(items) == [] ==> r == None && items == []
      ensures old(items) != [] ==> r == Some(old(items)[0]) && items == old(items)[1..]
    {
      if items == [] {
        r := None;
      } else {
        r := Some(items[0]);
        items := items[1..];
      }
    }
  }

  /** The listing `parse` queues for a card: the site URL is put before the link. */
  function Scraped(c: Card): Listing
  {
    Listing(c.name, c.price, c.stockWeb, SiteUrl + Display(c.link))
  }

  function ScrapedAll(cards: seq<Card>): seq<Listing>
  {
    seq(|cards|, i requires 0 <= i < |cards| => Scraped(cards[i]))
  }

  /** `int(response.headers.get('totalpages'))`. */
  function TotalPages(h: Option<string>): Result<int>
  {
    match h
    case None => Failure(PyException("TypeError", "int() argument must be a string, a bytes-like object or a number, not 'NoneType'"))
    case Some(b) => ParseInt(b)
  }

  /** One request per page 1 .. n-1, the table entry `p0` with `page` set to it. */
  function PageRequests(p0: Items, n: int): (r: seq<Request>)
    requires n >= 1
    ensures |r| == n - 1
  {
    seq(n - 1, j requires 0 <= j < n - 1 => Request(ListingUrl(WithItem(p0, "page", NatToString(j + 1)))))
  }

  /** The fan-out for n+1 pages is the fan-out for n pages and one request more. */
  lemma PageRequestsStep(p0: Items, n: int)
    requires n >= 1
    ensures PageRequests(p0, n + 1) == PageRequests(p0, n) + [Request(ListingUrl(WithItem(p0, "page", NatToString(n))))]
  {
  }

  /** Setting `page` to `str(k)` on the entry as the (k-1)-th request left it. */
  lemma PageSet(p0: Items, before: Items, k: int)
    requires k >= 1
    requires before == if k == 1 then p0 else WithItem(p0, "page", NatToString(k - 1))
    ensures Updated(before, [("page", NatToString(k))]) == WithItem(p0, "page", NatToString(k))
  {
    assert [("page", NatToString(k))][..0] == [];
    if k > 1 {
      WithItemTwice(p0, "page", NatToString(k - 1), NatToString(k));
    }
  }

  /** What `parse` returns for `page` when the product's table entry is `entry`
      (None when the product is not in the table): `None` unless the page is page 0
      and reports more than one page, and then the requests for the other pages. */
  function FollowUps(page: Page, product: string, entry: Option<Items>): Result<Option<seq<Request>>>
  {
    if page.currentPage != Some("0") then Success(None)
    else match TotalPages(page.totalPages)
      case Failure(e) => Failure(e)
      case Success(n) =>
        if n <= 1 then Success(None)
        else if entry.None? then Failure(KeyError(product))
        else Success(Some(PageRequests(entry.value, n)))
  }

  class PccomponentesSpider {
    const productParameters: map<string, StrDict>
    const product: string
    const resultQueue: ResultQueue

    /** `__init__`: the product id is stored as given, without checking the table. */
    constructor (productParameters: map<string, StrDict>, product: string, resultQueue: ResultQueue)
      ensures this.productParameters == productParameters
      ensures this.product == product && this.resultQueue == resultQueue
    {
      this.productParameters := productParameters;
      this.product := product;
      this.resultQueue := resultQueue;
    }

    /** `generate_url(extra)`: merges `extra` into the shared table entry of the
        product, in place, and builds the URL from the merged entry. */
    method GenerateUrl(extra: Items) returns (url: Result<string>)
      requires DistinctEntries(productParameters)
      modifies productParameters.Values
      ensures product !in productParameters ==> url == Failure(KeyError(product))
      ensures product in productParameters ==>
        productParameters[product].items == Updated(old(productParameters[product].items), extra) &&
        url == Success(ListingUrl(productParameters[product].items))
      ensures forall p :: p in productParameters && p != product ==>
        productParameters[p].items == old(productParameters[p].items)
    {
      if product !in productParameters {
        return Failure(KeyError(product));
      }
      var parameters := productParameters[product];
      parameters.Update(extra);
      url := Success(ListingUrl(parameters.items));
    }

    /** `start_requests`: a single request, for page "0". */
    method StartRequests() returns (requests: Result<seq<Request>>)
      requires DistinctEntries(productParameters)
      modifies productParameters.Values
      ensures product !in productParameters ==> requests == Failure(KeyError(product))
      ensures product in productParameters ==>
        productParameters[product].items == WithItem(old(productParameters[product].items), "page", "0") &&
        requests == Success([Request(ListingUrl(productParameters[product].items))])
      ensures forall p :: p in productParameters && p != product ==>
        productParameters[p].items == old(productParameters[p].items)
    {
      var url := GenerateUrl([("page", "0")]);
      if url.Failure? {
        return Failure(url.error);
      }
      requests := Success([Request(url.value)]);
    }

    /** The loop of `parse` over the product cards: one listing per card, queued
        in document order. */
    method EnqueueCards(cards: seq<Card>)
      modifies resultQueue
      ensures resultQueue.items == old(resultQueue.items) + ScrapedAll(cards)
    {
      var i := 0;
      while i < |cards|
        invariant 0 <= i <= |cards|
        invariant resultQueue.items == old(resultQueue.items) + ScrapedAll(cards[..i])
      {
        assert ScrapedAll(cards[..i + 1]) == ScrapedAll(cards[..i]) + [Scraped(cards[i])];
        resultQueue.Put(Scraped(cards[i]));
        i := i + 1;
      }
      assert cards[..i] == cards;
    }

    /** The list comprehension of `parse`: `generate_url({'page': str(i)})` for
        i in 1 .. n-1, each call setting the shared entry's `page` again. */
    method RequestPages(n: int) returns (requests: Result<seq<Request>>)
      requires n > 1
      requires DistinctEntries(productParameters)
      modifies productParameters.Values
      ensures product !in productParameters ==> requests == Failure(KeyError(product))
      ensures product in productParameters ==>
        requests == Success(PageRequests(old(productParameters[product].items), n)) &&
        productParameters[product].items == WithItem(old(productParameters[product].items), "page", NatToString(n - 1))
      ensures forall p :: p in productParameters && p != product ==>
        productParameters[p].items == old(productParameters[p].items)
    {
      ghost var p0 := if product in productParameters then productParameters[product].items else [];
      var done: seq<Request> := [];
      var k := 1;
      while k < n
        invariant 1 <= k <= n
        invariant k > 1 ==> product in productParameters
        invariant product in productParameters ==>
          done == PageRequests(p0, k) &&
          productParameters[product].items == if k == 1 then p0 else WithItem(p0, "page", NatToString(k - 1))
        invariant forall p :: p in productParameters && p != product ==>
          productParameters[p].items == old(productParameters[p].items)
      {
        ghost var before := if product in productParameters then productParameters[product].items else [];
        var url := GenerateUrl([("page", NatToString(k))]);
        if url.Failure? {
          return Failure(url.error);
        }
        PageSet(p0, before, k);
        PageRequestsStep(p0, k);
        done := done + [Request(url.value)];
        k := k + 1;
      }
      requests := Success(done);
    }

    /** `parse(response)`: queues the page's listings, then returns the requests
        for the other pages when this is page 0 of several, and None otherwise. */
    method Parse(page: Page) returns (follow: Result<Option<seq<Request>>>)
      requires DistinctEntries(productParameters)
      modifies resultQueue, productParameters.Values
      ensures resultQueue.items == old(resultQueue.items) + ScrapedAll(page.cards)
      ensures follow == FollowUps(page, product,
        if product in productParameters then Some(old(productParameters[product].items)) else None)
      ensures product in productParameters ==>
        productParameters[product].items ==
          if follow.Success? && follow.value.Some?
          then WithItem(old(productParameters[product].items), "page", NatToString(|follow.value.value|))
          else old(productParameters[product].items)
      ensures forall p :: p in productParameters && p != product ==>
        productParameters[p].items == old(productParameters[p].items)
    {
      EnqueueCards(page.cards);
      if page.currentPage != Some("0") {
        return Success(None);
      }
      var total := TotalPages(page.totalPages);
      if total.Failure? {
        return Failure(total.error);
      }
      var n := total.value;
      if n <= 1 {
        return Success(None);
      }
      var requests := RequestPages(n);
      if requests.Failure? {
        return Failure(requests.error);
      }
      follow := Success(Some(requests.value));
    }
  }
  // ---------------------------------------------------------------------------
  //   What the requests ask for
  // ---------------------------------------------------------------------------

  /** The value a listing URL gives `key`, read back from its query string. */
  function UrlParam(url: string, key: string): Option<string>
  {
    match ParseListingUrl(url)
    case None => None
    case Some(d) => Get(d, key)
  }

  /** The page number a listing URL asks for. */
  function PageOf(url: string): Option<int>
  {
    match UrlParam(url, "page")
    case None => None
    case Some(p) => if ParseInt(p).Success? then Some(ParseInt(p).value) else None
  }

  lemma NatToStringSafe(n: nat)
    ensures '&' !in NatToString(n) && '=' !in NatToString(n)
  {
    var s := NatToString(n);
    assert forall i :: 0 <= i < |s| ==> IsDigit(s[i]);
  }

  lemma WithItemSafe(d: Items, k: string, v: string)
    requires QuerySafe(d)
    requires '&' !in k && '=' !in k && '&' !in v
    ensures QuerySafe(WithItem(d, k, v))
  {
  }

  /** A request built from table entry `d` with `page` set to `str(i)` asks for
      page `i` and carries every other parameter of `d` unchanged. */
  lemma {:induction false} PageUrlParams(d: Items, i: nat)
    requires QuerySafe(d)
    ensures forall key :: (UrlParam(ListingUrl(WithItem(d, "page", NatToString(i))), key) ==
      if key == "page" then Some(NatToString(i)) else Get(d, key))
    ensures PageOf(ListingUrl(WithItem(d, "page", NatToString(i)))) == Some(i)
  {
    var d' := WithItem(d, "page", NatToString(i));
    NatToStringSafe(i);
    WithItemSafe(d, "page", NatToString(i));
    ListingUrlRoundTrip(d');
    forall key ensures Get(d', key) == if key == "page" then Some(NatToString(i)) else Get(d, key) {
      WithItemGet(d, "page", NatToString(i), key);
    }
    ParseIntOfNat(i);
  }

  /** The first request asks for page 0 and keeps the product's parameters. */
  lemma StartRequestParams(d: Items)
    requires QuerySafe(d)
    ensures forall key :: (UrlParam(ListingUrl(WithItem(d, "page", "0")), key) ==
      if key == "page" then Some("0") else Get(d, key))
    ensures PageOf(ListingUrl(WithItem(d, "page", "0"))) == Some(0)
  {
    assert NatToString(0) == "0";
    PageUrlParams(d, 0);
  }

  /** The fan-out: the j-th follow-up request asks for page j+1, so the requests
      cover pages 1 .. n-1 once each, and all of them carry the product's other
      parameters unchanged. */
  lemma {:induction false} FanOutCoversPages(p0: Items, n: int)
    requires n > 1 && QuerySafe(p0)
    ensures forall j :: 0 <= j < n - 1 ==> PageOf(PageRequests(p0, n)[j].url) == Some(j + 1)
    ensures forall j, key :: 0 <= j < n - 1 && key != "page" ==>
      UrlParam(PageRequests(p0, n)[j].url, key) == Get(p0, key)
  {
    forall j | 0 <= j < n - 1
      ensures PageOf(PageRequests(p0, n)[j].url) == Some(j + 1)
      ensures forall key :: key != "page" ==> UrlParam(PageRequests(p0, n)[j].url, key) == Get(p0, key)
    {
      PageUrlParams(p0, j + 1);
    }
  }

  lemma RtxEntryWithPage()
    ensures WithItem(InitialParameters["rtx-3080"], "page", "0") ==
      [("idFilters[]", "7498"), ("idFamilies[]", "6"), ("page", "0")]
  {
    var d := InitialParameters["rtx-3080"];
    assert d == [("idFilters[]", "7498"), ("idFamilies[]", "6")];
    assert Keys(d) == ["idFilters[]", "idFamilies[]"];
  }

  lemma RtxQueryWithPage()
    ensures Query([("idFilters[]", "7498"), ("idFamilies[]", "6"), ("page", "0")]) ==
      "idFilters[]=7498&idFamilies[]=6&page=0"
  {
    var parts := PairTexts([("idFilters[]", "7498"), ("idFamilies[]", "6"), ("page", "0")]);
    assert parts == ["idFilters[]=7498", "idFamilies[]=6", "page=0"] by {
      assert |parts| == 3;
      assert parts[0] == PairText(("idFilters[]", "7498")) == "idFilters[]=7498";
      assert parts[1] == PairText(("idFamilies[]", "6")) == "idFamilies[]=6";
      assert parts[2] == PairText(("page", "0")) == "page=0";
    }
    assert Join(parts[2..], '&') == "page=0";
    assert Join(parts[1..], '&') == "idFamilies[]=6&page=0" by {
      assert parts[1..][1..] == parts[2..];
    }
  }

  /** With the table as the class body defines it, the first request for
      "rtx-3080" is the listing of filter 7498 in family 6, page 0. */
  lemma FirstRequestForRtx3080()
    ensures ListingUrl(WithItem(InitialParameters["rtx-3080"], "page", "0")) ==
      SiteUrl + AjaxPath + "idFilters[]=7498&idFamilies[]=6&page=0"
  {
    RtxEntryWithPage();
    RtxQueryWithPage();
  }

  // ---------------------------------------------------------------------------
  //   The command callback
  // ---------------------------------------------------------------------------

  const NeedProductMessage: string := "You need to specify me a product_id!"
  const FoundHeader: string := "Here is the stock that I've found!\n"
  const NoStockMessage: string := "No stock available right now :("

  function SearchingMessage(product: string): string
  {
    "Hold on. Let me scout the web for \"" + product + "\" :)"
  }

  /** The stock codes the command counts as available. */
  predicate Available(code: Option<string>)
  {
    code == Some("1") || code == Some("2") || code == Some("3")
  }

  /** The listings kept from the drained queue, in queue order. */
  function InStock(rs: seq<Listing>): seq<Listing>
  {
    if rs == [] then []
    else InStock(rs[..|rs| - 1]) + (if Available(rs[|rs| - 1].stock) then [rs[|rs| - 1]] else [])
  }

  /** The lines the reply gives one listing. */
  function Block(r: Listing): string
  {
    "\nProduct: " + Display(r.name) + "\nPrice: " + Display(r.price) + "\nLink: " + r.href + "\n"
  }

  function Blocks(rs: seq<Listing>): string
  {
    if rs == [] then "" else Blocks(rs[..|rs| - 1]) + Block(rs[|rs| - 1])
  }

  /** The message sent for the listings in stock. */
  function StockMessage(stock: seq<Listing>): string
  {
    if stock == [] then NoStockMessage else FoundHeader + Blocks(stock)
  }

  /** What the command does that is visible from outside. */
  datatype Action = ReplyText(text: string) | SendMessage(chatId: int, text: string) | SpiderRun(product: string)

  /** How the crawl the command waits for ends: with the listings the spider
      queued, or with the exception it raised (a crochet timeout among them). */
  datatype Crawl = Crawled(listings: seq<Listing>) | CrawlFailed(error: PyException)

  /** The record of a command run: what it did and whether it raised. */
  datatype Reaction = Reaction(actions: seq<Action>, outcome: Outcome)

  /** How Telegram answers the command's requests: `update.message.reply_text`
      (the callback calls it at most once) and `bot.send_message` either return or
      raise. */
  datatype Chat = Chat(reply: Outcome, send: Outcome)

  /** The record of the stock callback for the command's arguments. */
  function StockReaction(args: seq<string>, chatId: int, crawl: Crawl, chat: Chat): (r: Reaction)
  {
    if |args| == 0 then Reaction([ReplyText(NeedProductMessage)], chat.reply)
    else
      var acknowledged := [ReplyText(SearchingMessage(args[0]))];
      if chat.reply.Raise? then Reaction(acknowledged, chat.reply)
      else
        var started := acknowledged + [SpiderRun(args[0])];
        match crawl
        case CrawlFailed(e) => Reaction(started, Raise(e))
        case Crawled(rs) => Reaction(started + [SendMessage(chatId, StockMessage(InStock(rs)))], chat.send)
  }

  /** The chat and the crawler, as far as the command is concerned: the log of its
      actions, in order. */
  class Effects {
    var actions: seq<Action>

    constructor ()
      ensures actions == []
    {
      actions := [];
    }

    method Record(a: Action)
      modifies this
      ensures actions == old(actions) + [a]
    {
      actions := actions + [a];
    }
  }

  /** `run_spider`: the crawl fills the queue with what it scraped, or raises. */
  method RunSpider(product: string, results: ResultQueue, crawl: Crawl, effects: Effects) returns (outcome: Outcome)
    modifies results, effects
    ensures effects.actions == old(effects.actions) + [SpiderRun(product)]
    ensures crawl.Crawled? ==> outcome == Pass && results.items == old(results.items) + crawl.listings
    ensures crawl.CrawlFailed? ==> outcome == Raise(crawl.error)
  {
    effects.Record(SpiderRun(product));
    match crawl {
      case Crawled(rs) =>
        var i := 0;
        while i < |rs|
          invariant 0 <= i <= |rs|
          invariant results.items == old(results.items) + rs[..i]
          invariant effects.actions == old(effects.actions) + [SpiderRun(product)]
        {
          assert rs[..i + 1] == rs[..i] + [rs[i]];
          results.Put(rs[i]);
          i := i + 1;
        }
        assert rs[..i] == rs;
        outcome := Pass;
      case CrawlFailed(e) =>
        outcome := Raise(e);
    }
  }

  /** The drain loop of the callback: takes listings off the queue until it is
      empty and keeps those with an available stock code. */
  method DrainInStock(results: ResultQueue) returns (stock: seq<Listing>)
    modifies results
    ensures results.items == []
    ensures stock == InStock(old(results.items))
  {
    stock := [];
    ghost var drained: seq<Listing> := [];
    while true
      invariant old(results.items) == drained + results.items
      invariant stock == InStock(drained)
      decreases |results.items|
    {
      var product := results.GetNoWait();
      if product.None? {
        break;
      }
      assert (drained + [product.value])[..|drained|] == drained;
      drained := drained + [product.value];
      if Available(product.value.stock) {
        stock := stock + [product.value];
      }
    }
    assert drained == old(results.items);
  }

  /** The message-building part of the callback, by repeated concatenation. */
  method ComposeMessage(stock: seq<Listing>) returns (message: string)
    ensures message == StockMessage(stock)
  {
    if stock == [] {
      return NoStockMessage;
    }
    message := FoundHeader;
    var i := 0;
    while i < |stock|
      invariant 0 <= i <= |stock|
      invariant message == FoundHeader + Blocks(stock[..i])
    {
      assert stock[..i + 1][..i] == stock[..i];
      message := message + Block(stock[i]);
      i := i + 1;
    }
    assert stock[..i] == stock;
  }

  /** `StockCommand.callback`: with no argument, the error reply and nothing else;
      otherwise the acknowledgement, one crawl for the first argument, and the
      message about what is in stock. An exception of the crawl propagates. */
  method StockCallback(args: seq<string>, chatId: int, crawl: Crawl, chat: Chat, effects: Effects) returns (outcome: Outcome)
    modifies effects
    ensures effects.actions == old(effects.actions) + StockReaction(args, chatId, crawl, chat).actions
    ensures outcome == StockReaction(args, chatId, crawl, chat).outcome
  {
    if |args| == 0 {
      effects.Record(ReplyText(NeedProductMessage));
      return chat.reply;
    }
    var product := args[0];
    effects.Record(ReplyText(SearchingMessage(product)));
    if chat.reply.Raise? {
      return chat.reply;
    }
    var results := new ResultQueue();
    outcome := RunSpider(product, results, crawl, effects);
    assert effects.actions == old(effects.actions) + [ReplyText(SearchingMessage(product)), SpiderRun(product)];
    if outcome.Raise? {
      return;
    }
    assert results.items == crawl.listings;
    var stock := DrainInStock(results);
    var message := ComposeMessage(stock);
    effects.Record(SendMessage(chatId, message));
    assert effects.actions == old(effects.actions) +
      ([ReplyText(SearchingMessage(product)), SpiderRun(product)] + [SendMessage(chatId, message)]);
    outcome := chat.send;
  }

  // ---------------------------------------------------------------------------
  //   Properties of the callback
  // ---------------------------------------------------------------------------

  /** A listing is kept exactly when it was queued and its stock code is available. */
  lemma {:induction false} InStockMembers(rs: seq<Listing>, r: Listing)
    ensures r in InStock(rs) <==> r in rs && Available(r.stock)
  {
    if rs != [] {
      InStockMembers(rs[..|rs| - 1], r);
      assert rs == rs[..|rs| - 1] + [rs[|rs| - 1]];
    }
  }

  /** Filtering commutes with concatenation: the kept listings stay in queue order. */
  lemma {:induction false} InStockAppend(a: seq<Listing>, b: seq<Listing>)
    ensures InStock(a + b) == InStock(a) + InStock(b)
  {
    if b != [] {
      assert (a + b)[..|a + b| - 1] == a + b[..|b| - 1];
      InStockAppend(a, b[..|b| - 1]);
    } else {
      assert a + b == a;
    }
  }

  /** Every kept listing is available, and filtering again keeps them all. */
  lemma {:induction false} InStockIdempotent(rs: seq<Listing>)
    ensures InStock(InStock(rs)) == InStock(rs)
  {
    if rs != [] {
      var init, last := rs[..|rs| - 1], rs[|rs| - 1];
      InStockIdempotent(init);
      var tail := if Available(last.stock) then [last] else [];
      InStockAppend(InStock(init), tail);
      assert InStock(tail) == tail by {
        if tail != [] { assert tail[..0] == []; }
      }
    }
  }

  lemma {:induction false} BlocksAppend(a: seq<Listing>, b: seq<Listing>)
    ensures Blocks(a + b) == Blocks(a) + Blocks(b)
  {
    if b != [] {
      assert (a + b)[..|a + b| - 1] == a + b[..|b| - 1];
      BlocksAppend(a, b[..|b| - 1]);
    } else {
      assert a + b == a;
    }
  }

  lemma {:induction false} BlocksFirst(stock: seq<Listing>)
    requires stock != []
    ensures Blocks(stock) == Block(stock[0]) + Blocks(stock[1..])
  {
    var first := [stock[0]];
    assert first[..0] == [];
    assert Blocks(first) == Blocks([]) + Block(stock[0]);
    BlocksAppend(first, stock[1..]);
    assert first + stock[1..] == stock;
  }

  /** The reply is the "no stock" text exactly when nothing is in stock; otherwise
      it is the header, then the first listing's lines, then the rest's. */
  lemma StockMessageCases(stock: seq<Listing>)
    ensures StockMessage(stock) == NoStockMessage <==> stock == []
    ensures stock != [] ==> StockMessage(stock) == FoundHeader + Block(stock[0]) + Blocks(stock[1..])
  {
    if stock != [] {
      var m := FoundHeader + Blocks(stock);
      assert m[0] == FoundHeader[0];
      assert NoStockMessage[0] != FoundHeader[0];
      BlocksFirst(stock);
    }
  }

  /** Without arguments the callback replies with the error text and does nothing
      else: no crawl, no result message. With an argument it always starts a crawl
      for that argument. */
  lemma StockReactionNoArguments(args: seq<string>, chatId: int, crawl: Crawl, chat: Chat)
    ensures |args| == 0 <==> StockReaction(args, chatId, crawl, chat).actions == [ReplyText(NeedProductMessage)]
    ensures |args| == 0 ==> forall p :: SpiderRun(p) !in StockReaction(args, chatId, crawl, chat).actions
    ensures |args| > 0 && chat.reply.Pass? ==> StockReaction(args, chatId, crawl, chat).actions[1] == SpiderRun(args[0])
  {
    if |args| > 0 {
      assert SearchingMessage(args[0])[0] != NeedProductMessage[0];
    }
  }

  /** When the acknowledgement raises, the callback ends there: no crawl runs, no
      result is sent, and the exception propagates. */
  lemma StockReactionReplyFails(args: seq<string>, chatId: int, crawl: Crawl, chat: Chat)
    requires chat.reply.Raise?
    ensures StockReaction(args, chatId, crawl, chat).outcome == chat.reply
    ensures |StockReaction(args, chatId, crawl, chat).actions| == 1
    ensures forall a :: a in StockReaction(args, chatId, crawl, chat).actions ==> a.ReplyText?
  {
  }

  /** When the crawl finishes, the last action is the result message to the chat,
      and it is the "no stock" text exactly when no queued listing is available. */
  lemma StockReactionReply(args: seq<string>, chatId: int, rs: seq<Listing>, chat: Chat)
    requires |args| > 0 && chat.reply.Pass?
    ensures StockReaction(args, chatId, Crawled(rs), chat).outcome == chat.send
    ensures var actions := StockReaction(args, chatId, Crawled(rs), chat).actions;
      |actions| == 3 && actions[2].SendMessage? && actions[2].chatId == chatId &&
      (actions[2].text == NoStockMessage <==> forall r :: r in rs ==> !Available(r.stock))
  {
    StockMessageCases(InStock(rs));
    if InStock(rs) != [] {
      InStockMembers(rs, InStock(rs)[0]);
    } else {
      forall r | r in rs ensures !Available(r.stock) {
        InStockMembers(rs, r);
      }
    }
  }

  /** Two queued listings with stock codes "1" and "0": the reply names the first
      and leaves out the second. */
  lemma StockReplyExample(a: Listing, b: Listing)
    requires a.stock == Some("1") && b.stock == Some("0")
    ensures StockMessage(InStock([a, b])) == FoundHeader + Block(a)
  {
    var s := [a, b];
    assert InStock(s) == [a] by {
      assert s[..|s| - 1] == [a] && s[|s| - 1] == b;
      assert !Available(b.stock);
      assert [a][..0] == [];
      assert Available(a.stock);
      assert InStock([a]) == InStock([]) + [a];
    }
    assert Blocks([a]) == Block(a) by {
      assert [a][..0] == [];
    }
  }
}
