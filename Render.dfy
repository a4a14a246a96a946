/**
 * The `forEach` loops of the list handlers. Each walks the shown elements in
 * order and builds one numbered entry per element (Layout.NumberBlocks, or
 * QuotedEntries below when every element's `quotes.USD` is read); the reply
 * text is then the header followed by every entry's lines
 * (Layout.AppendEntries). Every method here is proved to produce exactly the
 * reply its handler function in module Handlers specifies.
 */
module Render {
  import opened Wrappers
  import opened Text
  import opened Upstream
  import opened Protocol
  import opened Layout
  import opened Handlers

  /** A prefix of the tickers with `quotes.USD` leaves every earlier ticker readable. */
  lemma PrefixReadable(coins: seq<Ticker>, i: nat, usds: seq<Usd>)
    requires i <= |coins| && QuotesOf(coins[..i]) == Ok(usds)
    ensures forall k :: 0 <= k < i ==> UsdOf(coins[k].quotes).Ok?
  {
    forall k | 0 <= k < i ensures UsdOf(coins[k].quotes).Ok? {
      assert coins[..i][k] == coins[k];
    }
  }

  /** One more readable ticker extends the quotes read so far. */
  lemma QuotesOfSnoc(coins: seq<Ticker>, i: nat, usds: seq<Usd>, u: Usd)
    requires i < |coins| && QuotesOf(coins[..i]) == Ok(usds) && UsdOf(coins[i].quotes) == Ok(u)
    ensures QuotesOf(coins[..i + 1]) == Ok(usds + [u])
  {
    assert coins[..i + 1][..i] == coins[..i];
  }

  /**
   * The `forEach` of `get_top_coins` and `search_coins`: one numbered entry
   * per ticker, reading `quotes.USD.price` of each; the first ticker without
   * it ends the loop with that failure.
   */
  method QuotedEntries(coins: seq<Ticker>, entry: (nat, Ticker, Usd) -> seq<string>)
    returns (r: Result<seq<seq<string>>, Failure>)
    ensures QuotesOf(coins).Err? ==> r == Err(QuotesOf(coins).error)
    ensures QuotesOf(coins).Ok? ==> r == Ok(PairedBlocks(coins, QuotesOf(coins).value, entry))
  {
    var entries: seq<seq<string>> := [];
    var usds: seq<Usd> := [];
    var i := 0;
    while i < |coins|
      invariant 0 <= i <= |coins|
      invariant QuotesOf(coins[..i]) == Ok(usds)
      invariant entries == PairedBlocks(coins[..i], usds, entry)
    {
      match UsdOf(coins[i].quotes) {
        case Err(f) =>
          PrefixReadable(coins, i, usds);
          return Err(f);
        case Ok(u) =>
          QuotesOfSnoc(coins, i, usds, u);
          assert coins[..i + 1][..i] == coins[..i];
          assert (usds + [u])[..i] == usds;
          entries := entries + [entry(i + 1, coins[i], u)];
          usds := usds + [u];
      }
      i := i + 1;
    }
    assert coins[..i] == coins;
    return Ok(entries);
  }

  /** The handler of `get_top_coins` after the request: the header, then one entry per ticker. */
  method RenderTopCoins(fmt: Format, coins: seq<Ticker>) returns (r: Result<string, Failure>)
    ensures r == TopCoinsOutput(fmt, coins)
  {
    var entries := QuotedEntries(coins, CoinEntryFor(fmt));
    if entries.Err? {
      return Err(entries.error);
    }
    var text := AppendEntries(Unlines(TopCoinsHeader(|coins|)), entries.value);
    return Ok(text);
  }

  /** The handler of `get_coin_markets` after the request: empty check, then the first ten markets. */
  method RenderMarkets(fmt: Format, coinId: Option<string>, markets: seq<Market>) returns (r: Result<string, Failure>)
    ensures r == MarketsOutput(fmt, coinId, markets)
  {
    if |markets| == 0 {
      return Ok(NoMarkets(coinId));
    }
    if coinId.None? {
      return Err(MissingArgument("toUpperCase"));
    }
    var entries := NumberBlocks(Take(markets, MarketsShown), MarketEntryFor(fmt));
    var text := AppendEntries(Unlines(MarketsHeader(coinId.value)), entries);
    return Ok(text);
  }

  /** The handler of `get_exchanges` after the request: the first fifteen exchanges. */
  method RenderExchanges(fmt: Format, xs: seq<Exchange>) returns (text: string)
    ensures text == ListingText(ExchangesListing(fmt, xs))
  {
    var entries := NumberBlocks(Take(xs, ExchangesShown), ExchangeEntryFor(fmt));
    text := AppendEntries(Unlines(ExchangesHeader), entries);
  }

  /** The handler of `get_coin_events` after the request: empty check, then the first ten events. */
  method RenderEvents(coinId: Option<string>, events: seq<Event>) returns (r: Result<string, Failure>)
    ensures r == EventsOutput(coinId, events)
  {
    if |events| == 0 {
      return Ok(NoEvents(coinId));
    }
    if coinId.None? {
      return Err(MissingArgument("toUpperCase"));
    }
    var entries := NumberBlocks(Take(events, EventsShown), EventEntry);
    var text := AppendEntries(Unlines(EventsHeader(coinId.value)), entries);
    return Ok(text);
  }

  /** The handler of `search_coins` after the request: selection, empty check, one entry per result. */
  method RenderSearch(fmt: Format, query: Option<string>, limit: Option<int>, tickers: seq<Ticker>)
    returns (r: Result<string, Failure>)
    ensures r == SearchOutput(fmt, query, limit, tickers)
  {
    var selection := SearchSelection(tickers, query, limit);
    if selection.Err? {
      return Err(selection.error);
    }
    var results := selection.value;
    if |results| == 0 {
      return Ok(NoCoins(query));
    }
    var entries := QuotedEntries(results, SearchEntryFor(fmt));
    if entries.Err? {
      return Err(entries.error);
    }
    var text := AppendEntries(Unlines(SearchHeader(Show(query))), entries.value);
    return Ok(text);
  }
}
