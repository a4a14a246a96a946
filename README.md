# coinpaprika-mcp in Dafny

This is a verified model of the request-handling core of coinpaprika-mcp. That program is a Model Context Protocol (MCP) server. It offers seven cryptocurrency market-data tools over stdio and answers them from the CoinPaprika REST API.

The model covers three parts:

- **The tool registry.** `tools/list` answers with seven descriptors: a name, a description, and an input schema of properties, defaults and required names.
- **The `tools/call` router.** It refuses a call without an arguments object and dispatches on the tool name. Every thrown error becomes a one-block text reply that starts with `Error: ` and is flagged `isError`.
- **The seven handlers:**
  - `get_coin_price`
  - `get_top_coins`
  - `get_coin_markets`
  - `get_exchanges`
  - `get_global_stats`
  - `get_coin_events`
  - `search_coins`

  Each handler makes its upstream requests and renders a Markdown text reply. List replies are built by a `forEach` loop that appends one numbered block per element.

The upstream API is a value (`Upstream.Api`): for each resource it returns either the parsed body or a failure message. Records keep every field optional, because the handlers read them without validation. Reading a property of a missing record or argument throws a JavaScript `TypeError`. The model makes that throw explicit as `Protocol.Failure.MissingData` or `Protocol.Failure.MissingArgument`, with V8's message text. Interpolating an absent value renders `undefined` (`Text.Show`). `x || 'N/A'` is `Text.OrElse`, which treats the empty string as absent.

Modules, in dependency order:

| module | contents |
|---|---|
| `Wrappers` | `Option`, `Result`, `Min` |
| `Text` | ASCII case mapping, `includes`, decimal numerals and reading them back, line joining, `${}` and `\|\|` on optional strings |
| `Upstream` | API records, request parameters, the API and number formatting as values |
| `Protocol` | call arguments, failures and their messages, the reply envelope |
| `Layout` | list replies as a header plus numbered blocks; the generic `forEach` loops that build them |
| `Search` | the `search_coins` filter as evaluated, its reference selection, and `slice` |
| `Handlers` | the seven handlers as functions of the upstream answers |
| `Render` | the handlers' `forEach` loops as methods, proved equal to the handler functions |
| `Registry` | the `tools/list` descriptors |
| `Router` | the `tools/call` switch and the error envelope |

## Model

| member | source | states |
|---|---|---|
| Registry.Lookup | src/index.ts:99-196 | a descriptor is found exactly for the seven advertised names, and it carries that name |
| Registry.ToolsNamed | src/index.ts:99-196 | the seven descriptors are advertised in source order, and their names are exactly the registered names |
| Registry.NamesDistinct | src/index.ts:99-196 | there are seven tools with pairwise distinct names |
| Registry.RequiredAreDeclared | src/index.ts:99-196 | every required argument of every tool is a declared property of type string |
| Registry.LookupAt | src/index.ts:99-196 | looking up the k-th advertised name finds the k-th descriptor |
| Registry.RequiredArguments | src/index.ts:99-196 | `coinId` is the one required argument of `get_coin_price`, `get_coin_markets` and `get_coin_events`, `query` that of `search_coins`, and the other three tools require nothing |
| Registry.DefaultsMatchHandlers | src/index.ts:121-191 | the advertised defaults (limit 10, sort "rank", search limit 10) are the ones the handlers apply |
| Router.Dispatch | src/index.ts:200-235 | no arguments object gives "Arguments are required" whatever the name; an unregistered name, and only such a name, gives "Unknown tool"; a registered tool ends with a reply or a failure of its handler's kinds |
| Router.DispatchRoutes | src/index.ts:209-231 | each of the seven names runs its own handler, with `coinId`, `limit`/`sort`, or `query`/`limit` as that handler reads them |
| Router.CallTool | src/index.ts:200-244 | the reply is one text block; `isError` holds exactly when the call threw, and exactly when the text starts with "Error: "; the error text is "Error: " plus the thrown message |
| Router.ArgumentsRequired | src/index.ts:204-206 | a call without arguments replies "Error: Arguments are required", flagged as an error |
| Router.UnknownToolRejected | src/index.ts:230-231 | a name outside the registry replies "Error: Unknown tool: " plus the name |
| Router.RegistryMatchesRouter | src/index.ts:209-234 | the router has a case for a name exactly when `tools/list` advertises it |
| Router.ReadArgumentsSuffice | src/index.ts:209-231 | with `coinId` (or `query` for search) present, a call fails only through upstream or a missing upstream field, never a missing argument |
| Router.RequiredArePresent | src/index.ts:99-196 | arguments holding every key a tool's schema marks required hold `coinId` for the per-coin tools and `query` for the search |
| Router.PresentArgumentsSuffice | src/index.ts:99-231 | a call whose arguments hold every key the tool's schema marks required fails only through upstream or a missing upstream field, never a missing argument |
| Router.NoMarketsReply | src/index.ts:336-345 | an empty markets answer replies "No markets found for <id>" with `isError` false |
| Router.NoEventsReply | src/index.ts:417-426 | an empty events answer replies "No events found for <id>" with `isError` false |
| Router.NoMatchReply | src/index.ts:457-466 | a search with no match replies `No coins found for query: "<q>"`, not an error |
| Router.MissingCoinIdFails | src/index.ts:333-347 | without `coinId`, `get_coin_markets` requests the id "undefined"; a non-empty answer fails reading 'toUpperCase' |
| Router.MissingCoinIdFailsEvents | src/index.ts:414-428 | the same for `get_coin_events`: the id "undefined" is requested and a non-empty answer fails reading 'toUpperCase' |
| Router.MissingQueryFails | src/index.ts:447-455 | without `query`, search fails reading 'toLowerCase' on the first upstream ticker |
| Router.FirstRequestDecides | src/index.ts:247-485 | for every tool, a failed first upstream request is the failure the call ends with, before anything is rendered |
| Router.UpstreamFailureReported | src/index.ts:236-244 | for every tool, a failed first request replies "Error: " plus the request's failure message, flagged as an error |
| Router.ReliableUpstreamSucceeds | src/index.ts:209-231 | when upstream always answers with complete records and `coinId`/`query` are given, no tool call is an error |
| Handlers.UsdOf | src/index.ts:259 | reading `quotes.USD` succeeds exactly when both are present; otherwise a TypeError |
| Handlers.QuotesOf | src/index.ts:316-321 | every ticker's `quotes.USD` in order, or the failure of the first ticker without it |
| Handlers.CoinPriceLines | src/index.ts:279-300 | 22 lines starting with the chart emoji; Max, Website and Explorer show the value when it is truthy and "N/A" otherwise |
| Handlers.GetCoinPrice | src/index.ts:247-304 | fetches the ticker and then the coin; upstream failures in that order; succeeds exactly when both answer and the ticker has `quotes.USD` |
| Handlers.CoinPriceReply | src/index.ts:275-303 | a successful reply is the price template over the ticker, its `quotes.USD` and the coin |
| Handlers.TopCoinsParams | src/index.ts:306-309 | the defaults are limit 10 and sort "rank"; limit is sent unless 0, capped at 100 and unchanged up to 100; sort is sent unless empty |
| Handlers.TopCoinsHeader | src/index.ts:314 | the header's number reads back as the count of tickers |
| Handlers.CoinEntry | src/index.ts:317-320 | a five-line block whose title reads back as its number |
| Handlers.CoinEntries | src/index.ts:316-321 | one block per ticker, block k showing ticker k with its quote and the number k + 1, in upstream order |
| Handlers.TopCoinsListing | src/index.ts:314-321 | the count in the header equals the number of entries; entry k shows ticker k with the number k + 1 |
| Handlers.TopCoinsOutput | src/index.ts:312-321 | the reply succeeds exactly when every ticker has `quotes.USD`, and is then the listing of all tickers in order; otherwise a missing-data error |
| Handlers.GetTopCoins | src/index.ts:306-331 | one `/tickers` request with those parameters; its failure is the reply's failure |
| Handlers.MarketEntry | src/index.ts:350-353 | a five-line block whose title reads back as its number |
| Handlers.MarketEntries | src/index.ts:349-354 | one block per market, block k built from market k with the number k + 1 |
| Handlers.MarketsListing | src/index.ts:347-354 | at most the first ten markets, entry k being market k |
| Handlers.MarketsOutput | src/index.ts:336-354 | an empty list gives "No markets found for <id>"; otherwise it fails exactly when `coinId` is absent (reading 'toUpperCase'), and with `coinId` it is the listing of the first ten markets |
| Handlers.GetCoinMarkets | src/index.ts:333-364 | requests the interpolated id; upstream failure is the reply's failure; with `coinId` no other failure |
| Handlers.ExchangeEntry | src/index.ts:372-374 | a four-line block numbered k; volume and website show the value when it is truthy and "N/A" otherwise |
| Handlers.ExchangeEntries | src/index.ts:371-375 | one block per shown exchange, block k built from exchange k with the number k + 1 |
| Handlers.ExchangesListing | src/index.ts:369-375 | at most the first fifteen exchanges, entry k being exchange k |
| Handlers.GetExchanges | src/index.ts:366-385 | succeeds exactly when `/exchanges` answers, for any list including an empty one, with the listing of the first fifteen exchanges |
| Handlers.GlobalStatsLines | src/index.ts:390-402 | 13 lines; "Active Markets" shows the locale rendering of `market_cap_ath_value`, and "undefined" when it is absent |
| Handlers.GetGlobalStats | src/index.ts:387-412 | succeeds exactly when `/global` answers, with the statistics lines joined; absent fields never fail |
| Handlers.EventEntry | src/index.ts:431-434 | a five-line block numbered k; date, description and link show the value when it is truthy, else "TBD", "No description" and "N/A" |
| Handlers.EventEntries | src/index.ts:430-435 | one block per shown event, block k built from event k with the number k + 1 |
| Handlers.EventsListing | src/index.ts:428-435 | at most the first ten events, entry k being event k |
| Handlers.EventsOutput | src/index.ts:417-435 | an empty list gives "No events found for <id>"; otherwise it fails exactly when `coinId` is absent, and with `coinId` it is the listing of the first ten events |
| Handlers.GetCoinEvents | src/index.ts:414-445 | requests the interpolated id; upstream failure is the reply's failure; with `coinId` no other failure |
| Handlers.SearchSelection | src/index.ts:451-455 | with a query, the selection is `slice(0, limit)` of the matching tickers; it fails only on a ticker missing a field; without a query it fails unless there are no tickers; at most `limit` results |
| Handlers.SearchEntry | src/index.ts:471-474 | a five-line block whose title reads back as its number |
| Handlers.SearchEntries | src/index.ts:470-475 | one block per selected ticker, block k showing result k with its quote and the number k + 1 |
| Handlers.SearchListing | src/index.ts:468-475 | one entry per selected ticker, entry k showing result k with the number k + 1 |
| Handlers.SearchOutput | src/index.ts:451-475 | no result gives `No coins found for query: "<q>"`; a failed selection is the reply's failure; otherwise the reply succeeds exactly when every result has `quotes.USD` and is then the listing of the results; with a query only missing-data failures |
| Handlers.SearchCoins | src/index.ts:447-485 | one `/tickers` request without parameters; its failure is the reply's failure |
| Handlers.SearchSucceedsOnCompleteTickers | src/index.ts:451-475 | with a query and tickers carrying name, symbol, id and `quotes.USD`, the search always replies |
| Search.Test | src/index.ts:451-454 | the filter callback agrees with the matching rule whenever it does not throw; it throws only on a missing field or query |
| Search.FilterIsMatching | src/index.ts:451-454 | a filter that does not throw selects exactly the matching tickers |
| Search.FilterFailsOnData | src/index.ts:451-454 | with a query, the filter throws only reading a missing ticker field |
| Search.FilterTotal | src/index.ts:451-454 | tickers with name, symbol and id never make the filter throw |
| Search.FilterWithoutQuery | src/index.ts:452 | without a query the filter throws unless the list is empty |
| Search.FilterOutcomes | src/index.ts:451-454 | the filter's outcomes for a present and an absent query |
| Search.MatchingSound | src/index.ts:451-454 | every selected ticker is an upstream ticker that matches |
| Search.MatchingComplete | src/index.ts:451-454 | every matching upstream ticker is selected |
| Search.MatchingIsSubsequence | src/index.ts:451-454 | the selection keeps upstream order |
| Search.FilterIgnoresQueryCase | src/index.ts:452-454 | queries equal after lower-casing give the same selection |
| Search.SymbolQueryFinds | src/index.ts:453 | a ticker whose symbol equals the query up to case ("btc" for "BTC") is selected |
| Search.SliceEnd | src/index.ts:455 | `slice`'s end index: the limit capped at the length, or counted from the back when negative |
| Search.Slice | src/index.ts:455 | `slice(0, end)` is a prefix whose length is the end index `SliceEnd` (never more than a non-negative end) |
| Search.SearchResults | src/index.ts:451-455 | the results are a prefix of the matching tickers and a subsequence of upstream, all matching; for a non-negative limit exactly min(limit, number of matches) of them |
| Text.Lower | src/index.ts:452-454 | `toLowerCase` keeps the length, turns each upper-case ASCII letter into its lower-case letter (code + 32) and keeps every other character |
| Text.Upper | src/index.ts:347 | `toUpperCase` keeps the length, turns each lower-case ASCII letter into its upper-case letter (code - 32) and keeps every other character |
| Text.ContainsIffOccurs | src/index.ts:452-454 | `includes` holds exactly when the query occurs at some index |
| Text.DecimalRoundTrip | src/index.ts:317 | the decimal numeral of `index + 1` reads back as that number |
| Text.NumberAfterDecimal | src/index.ts:314 | a numeral followed by a non-digit reads back after its prefix |
| Layout.EntryTitle | src/index.ts:317 | a block title `**k. ...**` reads back as k |
| Layout.Take | src/index.ts:349 | `slice(0, n)` for n >= 0 is a prefix of length min(n, length) |
| Layout.Blocks | src/index.ts:349-354 | block k is the entry built from element k with number k + 1 |
| Layout.PairedBlocks | src/index.ts:316-321 | block k is built from ticker k and its quote, with number k + 1 |
| Layout.ListingTextIsLines | src/index.ts:314-321 | the reply text is its header and block lines, each followed by a newline |
| Layout.ListingStartsWithHeader | src/index.ts:314 | a list reply starts with the first character of its header, the tool's emoji |
| Layout.JoinLinesStartsWithFirst | src/index.ts:279 | the multi-line price reply starts with the first character of its first line |
| Layout.AppendEntries | src/index.ts:314-321 | the accumulated text is the header followed by every block's lines, in order |
| Layout.NumberBlocks | src/index.ts:349-354 | the loop builds one numbered block per shown element, in order |
| Render.QuotedEntries | src/index.ts:316-321 | the loop reading `quotes.USD` per ticker yields the blocks of every ticker, or the first ticker's failure |
| Render.RenderTopCoins | src/index.ts:314-321 | the loop's reply equals `Handlers.TopCoinsOutput` |
| Render.RenderMarkets | src/index.ts:336-354 | the loop's reply equals `Handlers.MarketsOutput` |
| Render.RenderExchanges | src/index.ts:369-375 | the loop's text equals the exchanges listing |
| Render.RenderEvents | src/index.ts:417-435 | the loop's reply equals `Handlers.EventsOutput` |
| Render.RenderSearch | src/index.ts:451-475 | the loop's reply equals `Handlers.SearchOutput` |

## Left out

- Transport and lifecycle are not modelled: the stdio transport, the start-up delay, `run`, the proxy and axios configuration, and the CLI entry point. Only the two request handlers are.
- Requests run one after another in the handlers; concurrency between calls is not modelled.
- Number rendering (`toFixed`, `toLocaleString`, and `String` of a number) depends on floating point and the locale. It is the parameter `Upstream.Format`, not computed.
- An upstream failure is its message only: the HTTP status, timeout and proxy behaviour of the client are not modelled.
- `null` and an absent field are both `None`. JSON values of an unexpected type (a string where a number is expected, an array where an object is) are not modelled. Arguments are a record of optional strings and an integer limit. An argument sent as JSON `null` is therefore treated as absent, which differs from the code in the cases listed next. Upstream fields that are JSON `null` are also `None`. Where the code interpolates such a field directly, the reply shows "null" where the model shows "undefined". Examples are a market's exchange name and pair (index.ts:350-353), an event's name (431), and a search result's symbol, id and rank (471-474). Where the code reads `quotes` without `?.`, a `null` `quotes` object fails with "Cannot read properties of null", and the model says "of undefined".
- Handlers.TopCoinsParams: `limit: null` or `sort: null` skips the default parameter value and so sends no `limit` or no `sort`; the model applies the defaults 10 and "rank" instead.
- Handlers.SearchSelection: `limit: null` makes `slice(0, null)` empty, so the reply is "No coins found"; the model applies the default limit of ten instead.
- Handlers.GetCoinMarkets: `coinId: null` requests the id "null" and fails reading 'toUpperCase' of null; the model requests "undefined" (the same holds for Handlers.GetCoinEvents and Handlers.GetCoinPrice).
- Case mapping (`toLowerCase`, `toUpperCase`) is modelled on ASCII letters only; other characters are left unchanged.
- `get_coin_price` reads the coin's `description` but never prints it, so it has no part in the reply; `price_btc` is likewise read and unused.
- `Render`: the loops build the list of blocks first and then append their text. The source appends to the string inside the loop; the resulting text is the same.
- The top-coins limit is taken as written in the code: `Math.min(limit, 100)`, not sent when 0, and with no lower bound (a negative limit is sent as is). It is not clamped to 1..100.
- Absent global statistics render "undefined", as the template does, not "N/A". The "Active Markets" line shows `market_cap_ath_value`, the field the code reads.
- The `search_coins` `limit` follows `slice`: a negative limit counts back from the end.
