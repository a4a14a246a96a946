/**
 * The seven tool handlers of the server, each given the upstream API and the
 * number rendering as values. A handler either yields the reply text or a
 * failure: an upstream request that failed, an upstream record lacking a field
 * that is read without optional chaining, or an absent argument used as a
 * string. The list handlers lay their reply out as a Listing; the loops that
 * append its entries are in module Render.
 */
module Handlers {
  import opened Wrappers
  import opened Text
  import opened Upstream
  import opened Protocol
  import opened Layout
  import Search

  // Pictographs the replies are decorated with.
  const ChartBars := "\U{1F4CA}"
  const ChartUp := "\U{1F4C8}"
  const MoneyBag := "\U{1F4B0}"
  const Trophy := "\U{1F3C6}"
  const Shop := "\U{1F3EA}"
  const LinkMark := "\U{1F517}"
  const Globe := "\U{1F310}"
  const Earth := "\U{1F30D}"
  const Calendar := "\U{1F4C5}"
  const Memo := "\U{1F4DD}"
  const Magnifier := "\U{1F50D}"
  const IdMark := "\U{1F194}"
  const Bullet := "\U{2022}"

  /** How a handler can end: a reply that does not read as an error text, or a failure of its own kind. */
  predicate Outcome(r: Result<string, Failure>) {
    match r
    case Ok(text) => text != [] && text[0] != 'E'
    case Err(f) => f.UpstreamError? || f.MissingData? || f.MissingArgument?
  }

  /** `x.quotes.USD`, read without optional chaining. */
  function UsdOf(q: Option<Quotes>): (r: Result<Usd, Failure>)
    ensures r.Ok? <==> UsdOpt(q).Some?
    ensures r.Ok? ==> r.value == UsdOpt(q).value
    ensures r.Err? ==> r.error.MissingData?
  {
    match q
    case None => Err(MissingData("USD"))
    case Some(Quotes(None)) => Err(MissingData("price"))
    case Some(Quotes(Some(u))) => Ok(u)
  }

  /** The `quotes.USD` of each ticker in order, or the failure of the first ticker without one. */
  function QuotesOf(coins: seq<Ticker>): (r: Result<seq<Usd>, Failure>)
    ensures r.Ok? <==> forall k :: 0 <= k < |coins| ==> UsdOf(coins[k].quotes).Ok?
    ensures r.Ok? ==> |r.value| == |coins|
    ensures r.Ok? ==> forall k :: 0 <= k < |coins| ==> UsdOf(coins[k].quotes) == Ok(r.value[k])
    ensures r.Err? ==> r.error.MissingData?
    ensures r.Err? ==> exists k :: 0 <= k < |coins| && UsdOf(coins[k].quotes) == Err(r.error)
                                   && forall j :: 0 <= j < k ==> UsdOf(coins[j].quotes).Ok?
    decreases |coins|
  {
    if coins == [] then Ok([])
    else
      var init, last := coins[..|coins| - 1], coins[|coins| - 1];
      assert forall k :: 0 <= k < |init| ==> init[k] == coins[k];
      match QuotesOf(init)
      case Err(f) => Err(f)
      case Ok(us) =>
        match UsdOf(last.quotes)
        case Err(f) => Err(f)
        case Ok(u) => Ok(us + [u])
  }

  // ---- get_coin_price ----

  /** The reply of `get_coin_price`: one template over the ticker and the coin. */
  function CoinPriceLines(fmt: Format, t: Ticker, usd: Usd, coin: Coin): (lines: seq<string>)
    ensures |lines| == 22 && lines[0] != [] && lines[0][0] == ChartUp[0]
    ensures !Truthy(ToLocale(fmt, t.maxSupply)) ==> lines[15] == Bullet + " Max: " + "N/A"
    ensures Truthy(ToLocale(fmt, t.maxSupply)) ==> lines[15] == Bullet + " Max: " + fmt.locale(t.maxSupply.value)
    ensures !Truthy(Website(coin.links)) ==> lines[18] == Bullet + " Website: " + "N/A"
    ensures Truthy(Website(coin.links)) ==> lines[18] == Bullet + " Website: " + Website(coin.links).value
    ensures !Truthy(Explorer(coin.links)) ==> lines[19] == Bullet + " Explorer: " + "N/A"
    ensures Truthy(Explorer(coin.links)) ==> lines[19] == Bullet + " Explorer: " + Explorer(coin.links).value
  {
    [ ChartUp + " **" + Show(t.name) + " (" + Show(t.symbol) + ")**",
      "",
      "**Current Price:** $" + Show(ToFixed(fmt, usd.price, 6)) + " USD",
      "**Rank:** #" + Show(ToPlain(fmt, t.rank)),
      "**Market Cap:** $" + Show(ToLocale(fmt, usd.marketCap)),
      "**24h Volume:** $" + Show(ToLocale(fmt, usd.volume24h)),
      "",
      "**Price Changes:**",
      Bullet + " 1h: " + Show(ToFixed(fmt, usd.percentChange1h, 2)) + "%",
      Bullet + " 24h: " + Show(ToFixed(fmt, usd.percentChange24h, 2)) + "%",
      Bullet + " 7d: " + Show(ToFixed(fmt, usd.percentChange7d, 2)) + "%",
      "",
      "**Supply:**",
      Bullet + " Circulating: " + Show(ToLocale(fmt, t.circulatingSupply)),
      Bullet + " Total: " + Show(ToLocale(fmt, t.totalSupply)),
      Bullet + " Max: " + OrElse(ToLocale(fmt, t.maxSupply), "N/A"),
      "",
      "**Links:**",
      Bullet + " Website: " + OrElse(Website(coin.links), "N/A"),
      Bullet + " Explorer: " + OrElse(Explorer(coin.links), "N/A"),
      "",
      "*Last Updated: " + Show(t.lastUpdated) + "*" ]
  }

  /**
   * `get_coin_price`: fetch `/tickers/{id}`, then `/coins/{id}`; both must answer,
   * and the ticker must carry `quotes.USD`.
   */
  function GetCoinPrice(api: Api, fmt: Format, coinId: Option<string>): (r: Result<string, Failure>)
    ensures Outcome(r)
    ensures api.ticker(Show(coinId)).Err? ==> r == Err(UpstreamError(api.ticker(Show(coinId)).error))
    ensures api.ticker(Show(coinId)).Ok? && api.coin(Show(coinId)).Err? ==>
              r == Err(UpstreamError(api.coin(Show(coinId)).error))
    ensures r.Ok? <==> api.ticker(Show(coinId)).Ok? && api.coin(Show(coinId)).Ok?
                       && UsdOpt(api.ticker(Show(coinId)).value.quotes).Some?
    ensures r.Err? ==> r.error.UpstreamError? || r.error.MissingData?
  {
    var id := Show(coinId);
    match api.ticker(id)
    case Err(m) => Err(UpstreamError(m))
    case Ok(t) =>
      match api.coin(id)
      case Err(m) => Err(UpstreamError(m))
      case Ok(coin) =>
        match UsdOf(t.quotes)
        case Err(f) => Err(f)
        case Ok(usd) => Ok(JoinLines(CoinPriceLines(fmt, t, usd, coin)))
  }

  /** A successful `get_coin_price` reply is the template over the ticker, its `quotes.USD` and the coin. */
  lemma CoinPriceReply(api: Api, fmt: Format, coinId: Option<string>)
    ensures GetCoinPrice(api, fmt, coinId).Ok? ==>
              var t := api.ticker(Show(coinId)).value;
              GetCoinPrice(api, fmt, coinId).value
                == JoinLines(CoinPriceLines(fmt, t, UsdOpt(t.quotes).value, api.coin(Show(coinId)).value))
  {
  }

  // ---- get_top_coins ----

  const DefaultTopLimit := 10
  const MaxTopLimit := 100
  const DefaultSort := "rank"

  /** The query parameters `get_top_coins` sends with `/tickers`. */
  function TopCoinsParams(limit: Option<int>, sort: Option<string>): (p: TickerParams)
    ensures p.limit.None? <==> limit == Some(0)
    ensures p.limit.Some? ==> p.limit.value <= MaxTopLimit
    ensures p.limit.Some? && limit.GetOr(DefaultTopLimit) <= MaxTopLimit ==> p.limit.value == limit.GetOr(DefaultTopLimit)
    ensures p.limit.Some? && limit.GetOr(DefaultTopLimit) > MaxTopLimit ==> p.limit.value == MaxTopLimit
    ensures p.sort.None? <==> sort == Some("")
    ensures p.sort.Some? ==> p.sort.value == sort.GetOr(DefaultSort)
  {
    var n := limit.GetOr(DefaultTopLimit);
    var s := sort.GetOr(DefaultSort);
    TickerParams(if n != 0 then Some(Min(n, MaxTopLimit)) else None, if s != "" then Some(s) else None)
  }

  function TopCoinsHeader(count: nat): (h: seq<string>)
    ensures |h| == 2 && NumberAfter(ChartBars + " **Top ", h[0]) == Some(count)
  {
    NumberAfterDecimal(ChartBars + " **Top ", count, " Cryptocurrencies**");
    [ChartBars + " **Top " + Decimal(count) + " Cryptocurrencies**", ""]
  }

  function CoinEntry(fmt: Format, k: nat, c: Ticker, usd: Usd): (e: seq<string>)
    ensures |e| == 5 && NumberAfter("**", e[0]) == Some(k)
  {
    [ EntryTitle(k, Show(c.name) + " (" + Show(c.symbol) + ")"),
      "   " + MoneyBag + " $" + Show(ToFixed(fmt, usd.price, 6)) + " USD",
      "   " + ChartUp + " 24h: " + Show(ToFixed(fmt, usd.percentChange24h, 2)) + "%",
      "   " + Trophy + " Market Cap: $" + Show(ToLocale(fmt, usd.marketCap)),
      "" ]
  }

  function CoinEntryFor(fmt: Format): (nat, Ticker, Usd) -> seq<string> {
    (k: nat, c: Ticker, usd: Usd) => CoinEntry(fmt, k, c, usd)
  }

  function CoinEntries(fmt: Format, coins: seq<Ticker>, usds: seq<Usd>): (es: seq<seq<string>>)
    requires |usds| == |coins|
    ensures |es| == |coins| && Numbered(es)
    ensures forall k :: 0 <= k < |coins| ==> es[k] == CoinEntry(fmt, k + 1, coins[k], usds[k])
  {
    PairedBlocks(coins, usds, CoinEntryFor(fmt))
  }

  /** The `get_top_coins` reply: the count in the header equals the number of entries. */
  function TopCoinsListing(fmt: Format, coins: seq<Ticker>, usds: seq<Usd>): (l: Listing)
    requires |usds| == |coins|
    ensures |l.header| == 2 && NumberAfter(ChartBars + " **Top ", l.header[0]) == Some(|l.entries|)
    ensures |l.entries| == |coins| && Numbered(l.entries)
    ensures forall k :: 0 <= k < |coins| ==> l.entries[k] == CoinEntry(fmt, k + 1, coins[k], usds[k])
  {
    Listing(TopCoinsHeader(|coins|), CoinEntries(fmt, coins, usds))
  }

  /** The reply to the tickers `/tickers` answered; every ticker must carry `quotes.USD`. */
  function TopCoinsOutput(fmt: Format, coins: seq<Ticker>): (r: Result<string, Failure>)
    ensures Outcome(r)
    ensures r.Ok? <==> forall k :: 0 <= k < |coins| ==> UsdOpt(coins[k].quotes).Some?
    ensures r.Err? ==> r.error.MissingData?
    ensures r.Ok? ==> QuotesOf(coins).Ok? && r.value == ListingText(TopCoinsListing(fmt, coins, QuotesOf(coins).value))
  {
    match QuotesOf(coins)
    case Err(f) => Err(f)
    case Ok(usds) =>
      var l := TopCoinsListing(fmt, coins, usds);
      ListingStartsWithHeader(l);
      Ok(ListingText(l))
  }

  /** `get_top_coins`: one `/tickers` request with the parameters above. */
  function GetTopCoins(api: Api, fmt: Format, limit: Option<int>, sort: Option<string>): (r: Result<string, Failure>)
    ensures Outcome(r)
    ensures api.tickers(TopCoinsParams(limit, sort)).Err? ==>
              r == Err(UpstreamError(api.tickers(TopCoinsParams(limit, sort)).error))
    ensures api.tickers(TopCoinsParams(limit, sort)).Ok? ==>
              r == TopCoinsOutput(fmt, api.tickers(TopCoinsParams(limit, sort)).value)
    ensures r.Err? ==> r.error.UpstreamError? || r.error.MissingData?
  {
    match api.tickers(TopCoinsParams(limit, sort))
    case Err(m) => Err(UpstreamError(m))
    case Ok(coins) => TopCoinsOutput(fmt, coins)
  }

  // ---- get_coin_markets ----

  const MarketsShown := 10

  function NoMarkets(coinId: Option<string>): string {
    "No markets found for " + Show(coinId)
  }

  function MarketEntry(fmt: Format, k: nat, m: Market): (e: seq<string>)
    ensures |e| == 5 && NumberAfter("**", e[0]) == Some(k)
  {
    [ EntryTitle(k, Show(m.exchangeName)),
      "   " + MoneyBag + " Price: $" + Show(ToFixed(fmt, QuotedPrice(m.quotes), 6)) + " USD",
      "   " + ChartBars + " Volume: $" + Show(ToLocale(fmt, QuotedVolume(m.quotes))),
      "   " + LinkMark + " Pair: " + Show(m.pair),
      "" ]
  }

  function MarketEntryFor(fmt: Format): (nat, Market) -> seq<string> {
    (k: nat, m: Market) => MarketEntry(fmt, k, m)
  }

  function MarketEntries(fmt: Format, markets: seq<Market>): (es: seq<seq<string>>)
    ensures |es| == |markets| && Numbered(es)
    ensures forall k :: 0 <= k < |markets| ==> es[k] == MarketEntry(fmt, k + 1, markets[k])
  {
    Blocks(markets, MarketEntryFor(fmt))
  }

  function MarketsHeader(id: string): seq<string> {
    [Shop + " **Markets for " + Upper(id) + "**", ""]
  }

  /** The `get_coin_markets` reply: the first ten markets, numbered from 1. */
  function MarketsListing(fmt: Format, id: string, markets: seq<Market>): (l: Listing)
    ensures |l.entries| == Min(MarketsShown, |markets|) && Numbered(l.entries)
    ensures forall k :: 0 <= k < |l.entries| ==> l.entries[k] == MarketEntry(fmt, k + 1, markets[k])
  {
    Listing(MarketsHeader(id), MarketEntries(fmt, Take(markets, MarketsShown)))
  }

  /** The reply to the markets upstream answered; an empty list is a plain message. */
  function MarketsOutput(fmt: Format, coinId: Option<string>, markets: seq<Market>): (r: Result<string, Failure>)
    ensures Outcome(r)
    ensures markets == [] ==> r == Ok(NoMarkets(coinId))
    ensures r.Err? <==> markets != [] && coinId.None?
    ensures r.Err? ==> r.error == MissingArgument("toUpperCase")
    ensures markets != [] && coinId.Some? ==> r == Ok(ListingText(MarketsListing(fmt, coinId.value, markets)))
  {
    if markets == [] then Ok(NoMarkets(coinId))
    else if coinId.None? then Err(MissingArgument("toUpperCase"))
    else
      var l := MarketsListing(fmt, coinId.value, markets);
      ListingStartsWithHeader(l);
      Ok(ListingText(l))
  }

  /** `get_coin_markets`: one `/coins/{id}/markets` request. */
  function GetCoinMarkets(api: Api, fmt: Format, coinId: Option<string>): (r: Result<string, Failure>)
    ensures Outcome(r)
    ensures api.markets(Show(coinId)).Err? ==> r == Err(UpstreamError(api.markets(Show(coinId)).error))
    ensures api.markets(Show(coinId)).Ok? ==> r == MarketsOutput(fmt, coinId, api.markets(Show(coinId)).value)
    ensures coinId.Some? && r.Err? ==> r.error.UpstreamError?
  {
    match api.markets(Show(coinId))
    case Err(m) => Err(UpstreamError(m))
    case Ok(markets) => MarketsOutput(fmt, coinId, markets)
  }

  // ---- get_exchanges ----

  const ExchangesShown := 15

  function ExchangeEntry(fmt: Format, k: nat, x: Exchange): (e: seq<string>)
    ensures |e| == 4 && NumberAfter("**", e[0]) == Some(k)
    ensures !Truthy(ToLocale(fmt, QuotedVolume(x.quotes))) ==>
              e[1] == "   " + ChartBars + " 24h Volume: $" + "N/A"
    ensures Truthy(ToLocale(fmt, QuotedVolume(x.quotes))) ==>
              e[1] == "   " + ChartBars + " 24h Volume: $" + fmt.locale(QuotedVolume(x.quotes).value)
    ensures !Truthy(Website(x.links)) ==> e[2] == "   " + Globe + " Website: " + "N/A"
    ensures Truthy(Website(x.links)) ==> e[2] == "   " + Globe + " Website: " + Website(x.links).value
  {
    [ EntryTitle(k, Show(x.name)),
      "   " + ChartBars + " 24h Volume: $" + OrElse(ToLocale(fmt, QuotedVolume(x.quotes)), "N/A"),
      "   " + Globe + " Website: " + OrElse(Website(x.links), "N/A"),
      "" ]
  }

  function ExchangeEntryFor(fmt: Format): (nat, Exchange) -> seq<string> {
    (k: nat, x: Exchange) => ExchangeEntry(fmt, k, x)
  }

  function ExchangeEntries(fmt: Format, xs: seq<Exchange>): (es: seq<seq<string>>)
    ensures |es| == |xs| && Numbered(es)
    ensures forall k :: 0 <= k < |xs| ==> es[k] == ExchangeEntry(fmt, k + 1, xs[k])
  {
    Blocks(xs, ExchangeEntryFor(fmt))
  }

  const ExchangesHeader := [Shop + " **Top Cryptocurrency Exchanges**", ""]

  /** The `get_exchanges` reply: the first fifteen exchanges, numbered from 1. */
  function ExchangesListing(fmt: Format, xs: seq<Exchange>): (l: Listing)
    ensures |l.entries| == Min(ExchangesShown, |xs|) && Numbered(l.entries)
    ensures forall k :: 0 <= k < |l.entries| ==> l.entries[k] == ExchangeEntry(fmt, k + 1, xs[k])
  {
    Listing(ExchangesHeader, ExchangeEntries(fmt, Take(xs, ExchangesShown)))
  }

  /** `get_exchanges`: one `/exchanges` request; any list, even an empty one, is a reply. */
  function GetExchanges(api: Api, fmt: Format): (r: Result<string, Failure>)
    ensures Outcome(r)
    ensures r.Ok? <==> api.exchanges.Ok?
    ensures r.Err? ==> r == Err(UpstreamError(api.exchanges.error))
    ensures r.Ok? ==> r.value == ListingText(ExchangesListing(fmt, api.exchanges.value))
  {
    match api.exchanges
    case Err(m) => Err(UpstreamError(m))
    case Ok(xs) =>
      var l := ExchangesListing(fmt, xs);
      ListingStartsWithHeader(l);
      Ok(ListingText(l))
  }

  // ---- get_global_stats ----

  /** The `get_global_stats` reply; every field is read with optional chaining. */
  function GlobalStatsLines(fmt: Format, g: Global): (lines: seq<string>)
    ensures |lines| == 13 && lines[0] != [] && lines[0][0] == Earth[0]
    ensures g.marketCapAthValue.None? ==> lines[7] == "**Active Markets:** " + "undefined"
    ensures g.marketCapAthValue.Some? ==> lines[7] == "**Active Markets:** " + fmt.locale(g.marketCapAthValue.value)
  {
    [ Earth + " **Global Cryptocurrency Market Statistics**",
      "",
      "**Market Capitalization:** $" + Show(ToLocale(fmt, g.marketCapUsd)) + " USD",
      "**24h Volume:** $" + Show(ToLocale(fmt, g.volume24hUsd)) + " USD",
      "**Bitcoin Dominance:** " + Show(ToFixed(fmt, g.bitcoinDominancePercentage, 2)) + "%",
      "**Active Cryptocurrencies:** " + Show(ToLocale(fmt, g.cryptocurrenciesNumber)),
      "**Active Exchanges:** " + Show(ToLocale(fmt, g.exchangesNumber)),
      "**Active Markets:** " + Show(ToLocale(fmt, g.marketCapAthValue)),
      "",
      "**Market Cap Change 24h:** " + Show(ToFixed(fmt, g.marketCapChange24h, 2)) + "%",
      "**Volume Change 24h:** " + Show(ToFixed(fmt, g.volume24hChange24h, 2)) + "%",
      "",
      "*Last Updated: " + Show(g.lastUpdated) + "*" ]
  }

  /** `get_global_stats`: one `/global` request; absent fields never make it fail. */
  function GetGlobalStats(api: Api, fmt: Format): (r: Result<string, Failure>)
    ensures Outcome(r)
    ensures r.Ok? <==> api.global.Ok?
    ensures r.Err? ==> r == Err(UpstreamError(api.global.error))
    ensures r.Ok? ==> r.value == JoinLines(GlobalStatsLines(fmt, api.global.value))
  {
    match api.global
    case Err(m) => Err(UpstreamError(m))
    case Ok(g) =>
      var lines := GlobalStatsLines(fmt, g);
      JoinLinesStartsWithFirst(lines);
      Ok(JoinLines(lines))
  }

  // ---- get_coin_events ----

  const EventsShown := 10

  function NoEvents(coinId: Option<string>): string {
    "No events found for " + Show(coinId)
  }

  function EventEntry(k: nat, e: Event): (lines: seq<string>)
    ensures |lines| == 5 && NumberAfter("**", lines[0]) == Some(k)
    ensures !Truthy(e.date) ==> lines[1] == "   " + Calendar + " Date: " + "TBD"
    ensures Truthy(e.date) ==> lines[1] == "   " + Calendar + " Date: " + e.date.value
    ensures !Truthy(e.description) ==> lines[2] == "   " + Memo + " Description: " + "No description"
    ensures Truthy(e.description) ==> lines[2] == "   " + Memo + " Description: " + e.description.value
    ensures !Truthy(e.link) ==> lines[3] == "   " + LinkMark + " Link: " + "N/A"
    ensures Truthy(e.link) ==> lines[3] == "   " + LinkMark + " Link: " + e.link.value
  {
    var title := EntryTitle(k, Show(e.name));
    [ title,
      "   " + Calendar + " Date: " + OrElse(e.date, "TBD"),
      "   " + Memo + " Description: " + OrElse(e.description, "No description"),
      "   " + LinkMark + " Link: " + OrElse(e.link, "N/A"),
      "" ]
  }

  function EventEntries(events: seq<Event>): (es: seq<seq<string>>)
    ensures |es| == |events| && Numbered(es)
    ensures forall k :: 0 <= k < |events| ==> es[k] == EventEntry(k + 1, events[k])
  {
    Blocks(events, EventEntry)
  }

  function EventsHeader(id: string): seq<string> {
    [Calendar + " **Events for " + Upper(id) + "**", ""]
  }

  /** The `get_coin_events` reply: the first ten events, numbered from 1. */
  function EventsListing(id: string, events: seq<Event>): (l: Listing)
    ensures |l.entries| == Min(EventsShown, |events|) && Numbered(l.entries)
    ensures forall k :: 0 <= k < |l.entries| ==> l.entries[k] == EventEntry(k + 1, events[k])
  {
    Listing(EventsHeader(id), EventEntries(Take(events, EventsShown)))
  }

  /** The reply to the events upstream answered; an empty list is a plain message. */
  function EventsOutput(coinId: Option<string>, events: seq<Event>): (r: Result<string, Failure>)
    ensures Outcome(r)
    ensures events == [] ==> r == Ok(NoEvents(coinId))
    ensures r.Err? <==> events != [] && coinId.None?
    ensures r.Err? ==> r.error == MissingArgument("toUpperCase")
    ensures events != [] && coinId.Some? ==> r == Ok(ListingText(EventsListing(coinId.value, events)))
  {
    if events == [] then Ok(NoEvents(coinId))
    else if coinId.None? then Err(MissingArgument("toUpperCase"))
    else
      var l := EventsListing(coinId.value, events);
      ListingStartsWithHeader(l);
      Ok(ListingText(l))
  }

  /** `get_coin_events`: one `/coins/{id}/events` request. */
  function GetCoinEvents(api: Api, coinId: Option<string>): (r: Result<string, Failure>)
    ensures Outcome(r)
    ensures api.events(Show(coinId)).Err? ==> r == Err(UpstreamError(api.events(Show(coinId)).error))
    ensures api.events(Show(coinId)).Ok? ==> r == EventsOutput(coinId, api.events(Show(coinId)).value)
    ensures coinId.Some? && r.Err? ==> r.error.UpstreamError?
  {
    match api.events(Show(coinId))
    case Err(m) => Err(UpstreamError(m))
    case Ok(events) => EventsOutput(coinId, events)
  }

  // ---- search_coins ----

  const DefaultSearchLimit := 10

  /** The parameters of the `/tickers` request `search_coins` makes: none. */
  const AllTickers := TickerParams(None, None)

  /** `tickers.filter(...).slice(0, limit)`, with the limit defaulting to ten. */
  function SearchSelection(tickers: seq<Ticker>, query: Option<string>, limit: Option<int>): (r: Result<seq<Ticker>, Failure>)
    ensures query.Some? && r.Ok? ==>
              r.value == Search.Slice(Search.Matching(tickers, query.value), limit.GetOr(DefaultSearchLimit))
    ensures query.Some? && r.Err? ==> r.error == MissingData("toLowerCase")
    ensures query.Some? && (forall t :: t in tickers ==> t.name.Some? && t.symbol.Some? && t.id.Some?) ==> r.Ok?
    ensures query.None? ==> (r.Ok? <==> tickers == [])
    ensures r.Ok? && limit.GetOr(DefaultSearchLimit) >= 0 ==> |r.value| <= limit.GetOr(DefaultSearchLimit)
  {
    Search.FilterOutcomes(tickers, query);
    match Search.Filter(tickers, query)
    case Err(f) => Err(f)
    case Ok(matched) => Ok(Search.Slice(matched, limit.GetOr(DefaultSearchLimit)))
  }

  function NoCoins(query: Option<string>): string {
    "No coins found for query: \"" + Show(query) + "\""
  }

  function SearchEntry(fmt: Format, k: nat, c: Ticker, usd: Usd): (e: seq<string>)
    ensures |e| == 5 && NumberAfter("**", e[0]) == Some(k)
  {
    [ EntryTitle(k, Show(c.name) + " (" + Show(c.symbol) + ")"),
      "   " + IdMark + " ID: " + Show(c.id),
      "   " + MoneyBag + " Price: $" + Show(ToFixed(fmt, usd.price, 6)) + " USD",
      "   " + Trophy + " Rank: #" + Show(ToPlain(fmt, c.rank)),
      "" ]
  }

  function SearchEntryFor(fmt: Format): (nat, Ticker, Usd) -> seq<string> {
    (k: nat, c: Ticker, usd: Usd) => SearchEntry(fmt, k, c, usd)
  }

  function SearchEntries(fmt: Format, coins: seq<Ticker>, usds: seq<Usd>): (es: seq<seq<string>>)
    requires |usds| == |coins|
    ensures |es| == |coins| && Numbered(es)
    ensures forall k :: 0 <= k < |coins| ==> es[k] == SearchEntry(fmt, k + 1, coins[k], usds[k])
  {
    PairedBlocks(coins, usds, SearchEntryFor(fmt))
  }

  function SearchHeader(query: string): seq<string> {
    [Magnifier + " **Search Results for \"" + query + "\"**", ""]
  }

  /** The `search_coins` reply: every selected ticker, numbered from 1. */
  function SearchListing(fmt: Format, query: string, coins: seq<Ticker>, usds: seq<Usd>): (l: Listing)
    requires |usds| == |coins|
    ensures |l.entries| == |coins| && Numbered(l.entries)
    ensures forall k :: 0 <= k < |coins| ==> l.entries[k] == SearchEntry(fmt, k + 1, coins[k], usds[k])
  {
    Listing(SearchHeader(query), SearchEntries(fmt, coins, usds))
  }

  /** The reply to the tickers upstream answered; no selected ticker gives a plain message. */
  function SearchOutput(fmt: Format, query: Option<string>, limit: Option<int>, tickers: seq<Ticker>): (r: Result<string, Failure>)
    ensures Outcome(r)
    ensures SearchSelection(tickers, query, limit) == Ok([]) ==> r == Ok(NoCoins(query))
    ensures SearchSelection(tickers, query, limit).Err? ==> r == Err(SearchSelection(tickers, query, limit).error)
    ensures query.Some? && r.Err? ==> r.error.MissingData?
    ensures var sel := SearchSelection(tickers, query, limit);
            sel.Ok? && sel.value != [] ==>
              (r.Ok? <==> QuotesOf(sel.value).Ok?)
              && (r.Ok? ==> r.value == ListingText(SearchListing(fmt, Show(query), sel.value, QuotesOf(sel.value).value)))
  {
    match SearchSelection(tickers, query, limit)
    case Err(f) => Err(f)
    case Ok(results) =>
      if results == [] then Ok(NoCoins(query))
      else
        match QuotesOf(results)
        case Err(f) => Err(f)
        case Ok(usds) =>
          var l := SearchListing(fmt, Show(query), results, usds);
          ListingStartsWithHeader(l);
          Ok(ListingText(l))
  }

  /** `search_coins`: one `/tickers` request without parameters, then the selection. */
  function SearchCoins(api: Api, fmt: Format, query: Option<string>, limit: Option<int>): (r: Result<string, Failure>)
    ensures Outcome(r)
    ensures api.tickers(AllTickers).Err? ==> r == Err(UpstreamError(api.tickers(AllTickers).error))
    ensures api.tickers(AllTickers).Ok? ==> r == SearchOutput(fmt, query, limit, api.tickers(AllTickers).value)
    ensures query.Some? && r.Err? ==> r.error.UpstreamError? || r.error.MissingData?
  {
    match api.tickers(AllTickers)
    case Err(m) => Err(UpstreamError(m))
    case Ok(tickers) => SearchOutput(fmt, query, limit, tickers)
  }

  /** A ticker with every field the handlers read without optional chaining. */
  predicate Complete(t: Ticker)
  {
    t.name.Some? && t.symbol.Some? && t.id.Some? && UsdOpt(t.quotes).Some?
  }

  /** With a query and complete tickers, the search always replies. */
  lemma SearchSucceedsOnCompleteTickers(fmt: Format, query: string, limit: Option<int>, tickers: seq<Ticker>)
    requires forall t :: t in tickers ==> Complete(t)
    ensures SearchOutput(fmt, Some(query), limit, tickers).Ok?
  {
    var sel := SearchSelection(tickers, Some(query), limit);
    assert sel.Ok?;
    Search.SearchResults(tickers, query, limit.GetOr(DefaultSearchLimit));
    Search.MatchingSound(tickers, query);
    forall k | 0 <= k < |sel.value| ensures UsdOf(sel.value[k].quotes).Ok? {
      assert sel.value[k] in Search.Matching(tickers, query);
    }
  }
}
