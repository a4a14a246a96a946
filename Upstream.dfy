/**
 * The remote market-data API as the handlers see it: the records it answers
 * with (every field optional, as the handlers read them), the request
 * parameters of the ticker listing, and the API itself as a value whose
 * operations either answer or fail with a message. Number rendering
 * (`toFixed`, `toLocaleString`, `String`) is likewise a value, because it
 * depends on floating point and on the locale.
 */
module Upstream {
  import opened Wrappers

  /** A JSON number as the API sends it. */
  type Num = real

  /** The `quotes.USD` object of a ticker, market or exchange. */
  datatype Usd = Usd(
    price: Option<Num>,
    priceBtc: Option<Num>,
    volume24h: Option<Num>,
    marketCap: Option<Num>,
    percentChange1h: Option<Num>,
    percentChange24h: Option<Num>,
    percentChange7d: Option<Num>)

  /** The `quotes` object: its `USD` member may be missing. */
  datatype Quotes = Quotes(usd: Option<Usd>)

  /** The `links` object of a coin or exchange: lists of URLs. */
  datatype Links = Links(website: Option<seq<string>>, explorer: Option<seq<string>>)

  /** An element of `/tickers`, or the answer of `/tickers/{id}`. */
  datatype Ticker = Ticker(
    id: Option<string>,
    name: Option<string>,
    symbol: Option<string>,
    rank: Option<Num>,
    circulatingSupply: Option<Num>,
    totalSupply: Option<Num>,
    maxSupply: Option<Num>,
    lastUpdated: Option<string>,
    quotes: Option<Quotes>)

  /** The answer of `/coins/{id}`, reduced to the fields the handlers read. */
  datatype Coin = Coin(description: Option<string>, links: Option<Links>)

  /** An element of `/coins/{id}/markets`. */
  datatype Market = Market(exchangeName: Option<string>, pair: Option<string>, quotes: Option<Quotes>)

  /** An element of `/exchanges`. */
  datatype Exchange = Exchange(name: Option<string>, quotes: Option<Quotes>, links: Option<Links>)

  /** An element of `/coins/{id}/events`. */
  datatype Event = Event(name: Option<string>, date: Option<string>, description: Option<string>, link: Option<string>)

  /** The answer of `/global`. */
  datatype Global = Global(
    marketCapUsd: Option<Num>,
    volume24hUsd: Option<Num>,
    bitcoinDominancePercentage: Option<Num>,
    cryptocurrenciesNumber: Option<Num>,
    exchangesNumber: Option<Num>,
    marketCapAthValue: Option<Num>,
    marketCapChange24h: Option<Num>,
    volume24hChange24h: Option<Num>,
    lastUpdated: Option<string>)

  /** Query parameters of `/tickers`; an absent one is not sent. */
  datatype TickerParams = TickerParams(limit: Option<int>, sort: Option<string>)

  /** What one HTTP GET yields: the parsed body, or the failure's message. */
  type Fetch<T> = Result<T, string>

  /** The remote API, one operation per resource; a path argument is the interpolated id. */
  datatype Api = Api(
    tickers: TickerParams -> Fetch<seq<Ticker>>,
    ticker: string -> Fetch<Ticker>,
    coin: string -> Fetch<Coin>,
    markets: string -> Fetch<seq<Market>>,
    events: string -> Fetch<seq<Event>>,
    exchanges: Fetch<seq<Exchange>>,
    global: Fetch<Global>)

  /** Number rendering: `x.toFixed(d)`, `x.toLocaleString()` and `String(x)`. */
  datatype Format = Format(fixed: (Num, nat) -> string, locale: Num -> string, plain: Num -> string)

  /** `x?.toFixed(digits)`. */
  function ToFixed(fmt: Format, x: Option<Num>, digits: nat): Option<string>
  {
    match x
    case Some(n) => Some(fmt.fixed(n, digits))
    case None => None
  }

  /** `x?.toLocaleString()`. */
  function ToLocale(fmt: Format, x: Option<Num>): Option<string>
  {
    match x
    case Some(n) => Some(fmt.locale(n))
    case None => None
  }

  /** A number interpolated as it is, `${x}`. */
  function ToPlain(fmt: Format, x: Option<Num>): Option<string>
  {
    match x
    case Some(n) => Some(fmt.plain(n))
    case None => None
  }

  /** `quotes?.USD`. */
  function UsdOpt(q: Option<Quotes>): Option<Usd>
  {
    match q
    case Some(Quotes(usd)) => usd
    case None => None
  }

  /** `quotes?.USD?.price`. */
  function QuotedPrice(q: Option<Quotes>): Option<Num>
  {
    match UsdOpt(q)
    case Some(u) => u.price
    case None => None
  }

  /** `quotes?.USD?.volume_24h`. */
  function QuotedVolume(q: Option<Quotes>): Option<Num>
  {
    match UsdOpt(q)
    case Some(u) => u.volume24h
    case None => None
  }

  /** `links?.website?.[0]`: the first website, if there is one. */
  function Website(links: Option<Links>): Option<string>
  {
    match links
    case Some(Links(Some(urls), _)) => if urls != [] then Some(urls[0]) else None
    case _ => None
  }

  /** `links?.explorer?.[0]`: the first explorer, if there is one. */
  function Explorer(links: Option<Links>): Option<string>
  {
    match links
    case Some(Links(_, Some(urls))) => if urls != [] then Some(urls[0]) else None
    case _ => None
  }
}
