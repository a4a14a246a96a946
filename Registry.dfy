/**
 * The tool registry answered to `tools/list`: seven tools, each with a name,
 * a description and a JSON input schema of type "object" listing its
 * properties, their defaults and the required ones.
 */
module Registry {
  import opened Wrappers
  import Handlers

  /** The JSON type a property is declared with. */
  datatype PropType = StringType | NumberType

  /** The `default` a schema property advertises, if any. */
  datatype Default = NoDefault | NumberDefault(number: int) | TextDefault(text: string)

  datatype Property = Property(name: string, kind: PropType, description: string, defaultValue: Default)

  /** An input schema of type "object". */
  datatype Schema = Schema(properties: seq<Property>, required: seq<string>)

  datatype Tool = Tool(name: string, description: string, inputSchema: Schema)

  const CoinPriceTool := "get_coin_price"
  const TopCoinsTool := "get_top_coins"
  const CoinMarketsTool := "get_coin_markets"
  const ExchangesTool := "get_exchanges"
  const GlobalStatsTool := "get_global_stats"
  const CoinEventsTool := "get_coin_events"
  const SearchCoinsTool := "search_coins"

  const SortKeys :=
    "Sort by: rank, id, name, symbol, price_usd, price_btc, volume_24h_usd, market_cap_usd, "
    + "circulating_supply, total_supply, max_supply, percent_change_1h, percent_change_24h, percent_change_7d"

  const CoinPriceDescriptor :=
    Tool(CoinPriceTool, "Get current price and market data for a specific cryptocurrency",
      Schema([Property("coinId", StringType, "Coin ID (e.g., btc-bitcoin, eth-ethereum)", NoDefault)], ["coinId"]))

  const TopCoinsDescriptor :=
    Tool(TopCoinsTool, "Get top cryptocurrencies by market capitalization",
      Schema([ Property("limit", NumberType, "Number of coins to return (default: 10, max: 100)", NumberDefault(10)),
               Property("sort", StringType, SortKeys, TextDefault("rank")) ], []))

  const CoinMarketsDescriptor :=
    Tool(CoinMarketsTool, "Get markets for a specific cryptocurrency",
      Schema([Property("coinId", StringType, "Coin ID (e.g., btc-bitcoin)", NoDefault)], ["coinId"]))

  const ExchangesDescriptor := Tool(ExchangesTool, "Get list of cryptocurrency exchanges", Schema([], []))

  const GlobalStatsDescriptor := Tool(GlobalStatsTool, "Get global cryptocurrency market statistics", Schema([], []))

  const CoinEventsDescriptor :=
    Tool(CoinEventsTool, "Get events for a specific cryptocurrency",
      Schema([Property("coinId", StringType, "Coin ID (e.g., btc-bitcoin)", NoDefault)], ["coinId"]))

  const SearchCoinsDescriptor :=
    Tool(SearchCoinsTool, "Search for cryptocurrencies by name or symbol",
      Schema([ Property("query", StringType, "Search term (name or symbol)", NoDefault),
               Property("limit", NumberType, "Number of results to return (default: 10)", NumberDefault(10)) ],
             ["query"]))

  /** The `tools` array of the `tools/list` reply, in declaration order. */
  function Tools(): seq<Tool>
  {
    [ CoinPriceDescriptor, TopCoinsDescriptor, CoinMarketsDescriptor, ExchangesDescriptor,
      GlobalStatsDescriptor, CoinEventsDescriptor, SearchCoinsDescriptor ]
  }

  /** The names `tools/list` advertises, in order. */
  const ToolNames := [CoinPriceTool, TopCoinsTool, CoinMarketsTool, ExchangesTool, GlobalStatsTool, CoinEventsTool, SearchCoinsTool]

  /** A name the router has a case for. */
  predicate IsRegistered(name: string)
  {
    name in ToolNames
  }

  /** The descriptor of a tool, found by name. */
  function Lookup(name: string): (r: Option<Tool>)
    ensures r.Some? <==> IsRegistered(name)
    ensures r.Some? ==> r.value in Tools() && r.value.name == name
  {
    ToolsNamed();
    LookupIn(Tools(), name)
  }

  function LookupIn(tools: seq<Tool>, name: string): (r: Option<Tool>)
    ensures r.Some? <==> exists t :: t in tools && t.name == name
    ensures r.Some? ==> r.value in tools && r.value.name == name
    decreases |tools|
  {
    if tools == [] then None
    else if tools[0].name == name then Some(tools[0])
    else
      var r := LookupIn(tools[1..], name);
      assert forall t :: t in tools[1..] ==> t in tools;
      assert forall t :: t in tools && t != tools[0] ==> t in tools[1..];
      r
  }

  /** The registered names are exactly the names of the advertised tools, in order. */
  lemma ToolsNamed()
    ensures |Tools()| == |ToolNames|
    ensures forall k :: 0 <= k < |ToolNames| ==> Tools()[k].name == ToolNames[k]
    ensures forall name :: name in ToolNames <==> exists t :: t in Tools() && t.name == name
  {
    forall name | name in ToolNames ensures exists t :: t in Tools() && t.name == name {
      var k :| 0 <= k < |ToolNames| && ToolNames[k] == name;
      assert Tools()[k] in Tools();
    }
  }

  /** The seven name constants differ pairwise, so at most one router case applies to a name. */
  lemma NameConstsDistinct()
    ensures CoinPriceTool != TopCoinsTool && CoinPriceTool != CoinMarketsTool && CoinPriceTool != ExchangesTool
    ensures CoinPriceTool != GlobalStatsTool && CoinPriceTool != CoinEventsTool && CoinPriceTool != SearchCoinsTool
    ensures TopCoinsTool != CoinMarketsTool && TopCoinsTool != ExchangesTool && TopCoinsTool != GlobalStatsTool
    ensures TopCoinsTool != CoinEventsTool && TopCoinsTool != SearchCoinsTool && CoinMarketsTool != ExchangesTool
    ensures CoinMarketsTool != GlobalStatsTool && CoinMarketsTool != CoinEventsTool && CoinMarketsTool != SearchCoinsTool
    ensures ExchangesTool != GlobalStatsTool && ExchangesTool != CoinEventsTool && ExchangesTool != SearchCoinsTool
    ensures GlobalStatsTool != CoinEventsTool && GlobalStatsTool != SearchCoinsTool && CoinEventsTool != SearchCoinsTool
  {
  }

  /** Tool names are unique, so a name identifies one tool. */
  lemma NamesDistinct()
    ensures |Tools()| == 7
    ensures forall i, j :: 0 <= i < j < |Tools()| ==> Tools()[i].name != Tools()[j].name
  {
  }

  /** Every required argument is a declared property of type string. */
  lemma RequiredAreDeclared()
    ensures forall t, r :: t in Tools() && r in t.inputSchema.required ==>
              exists p :: p in t.inputSchema.properties && p.name == r && p.kind == StringType
  {
    forall t, r | t in Tools() && r in t.inputSchema.required
      ensures exists p :: p in t.inputSchema.properties && p.name == r && p.kind == StringType
    {
      assert t.inputSchema.properties[0].name == r;
    }
  }

  /** Looking up the k-th advertised name finds the k-th tool, since no other tool has that name. */
  lemma LookupAt(k: nat)
    requires k < |ToolNames|
    ensures Lookup(ToolNames[k]) == Some(Tools()[k])
  {
    ToolsNamed();
    NamesDistinct();
    var t := Lookup(ToolNames[k]).value;
    var j :| 0 <= j < |Tools()| && Tools()[j] == t;
    assert Tools()[j].name == Tools()[k].name;
  }

  /** The arguments each tool's schema marks required: `coinId` for the three per-coin tools, `query` for the search. */
  lemma RequiredArguments(name: string)
    requires IsRegistered(name)
    ensures name == CoinPriceTool || name == CoinMarketsTool || name == CoinEventsTool ==>
              Lookup(name).value.inputSchema.required == ["coinId"]
    ensures name == SearchCoinsTool ==> Lookup(name).value.inputSchema.required == ["query"]
    ensures name == TopCoinsTool || name == ExchangesTool || name == GlobalStatsTool ==>
              Lookup(name).value.inputSchema.required == []
  {
    NameConstsDistinct();
    var k :| 0 <= k < |ToolNames| && ToolNames[k] == name;
    LookupAt(k);
  }

  /** The defaults a schema advertises are the ones its handler applies. */
  lemma DefaultsMatchHandlers()
    ensures Tools()[1].name == TopCoinsTool
    ensures Tools()[1].inputSchema.properties[0].defaultValue == NumberDefault(Handlers.DefaultTopLimit)
    ensures Tools()[1].inputSchema.properties[1].defaultValue == TextDefault(Handlers.DefaultSort)
    ensures Tools()[6].name == SearchCoinsTool
    ensures Tools()[6].inputSchema.properties[1].defaultValue == NumberDefault(Handlers.DefaultSearchLimit)
  {
  }
}
