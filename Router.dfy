/**
 * The `tools/call` handler: it rejects a call without arguments, sends a
 * registered name to its handler with the arguments it reads, and turns
 * every thrown error into a text reply flagged `isError`.
 */
module Router {
  import opened Wrappers
  import opened Text
  import opened Upstream
  import opened Protocol
  import opened Handlers
  import opened Registry
  import Search

  /** The switch over the tool name, after the check that arguments were given. */
  function Dispatch(api: Api, fmt: Format, name: string, args: Option<Arguments>): (r: Result<string, Failure>)
    ensures args.None? ==> r == Err(InvalidArguments)
    ensures args.Some? ==> (r == Err(UnknownTool(name)) <==> !IsRegistered(name))
    ensures args.Some? && IsRegistered(name) ==> Outcome(r)
  {
    if args.None? then Err(InvalidArguments)
    else
      var a := args.value;
      if name == CoinPriceTool then GetCoinPrice(api, fmt, a.coinId)
      else if name == TopCoinsTool then GetTopCoins(api, fmt, a.limit, a.sort)
      else if name == CoinMarketsTool then GetCoinMarkets(api, fmt, a.coinId)
      else if name == ExchangesTool then GetExchanges(api, fmt)
      else if name == GlobalStatsTool then GetGlobalStats(api, fmt)
      else if name == CoinEventsTool then GetCoinEvents(api, a.coinId)
      else if name == SearchCoinsTool then SearchCoins(api, fmt, a.query, a.limit)
      else Err(UnknownTool(name))
  }

  /** Each registered name runs its own handler, with the arguments that handler reads. */
  lemma DispatchRoutes(api: Api, fmt: Format, name: string, a: Arguments)
    ensures name == CoinPriceTool ==> Dispatch(api, fmt, name, Some(a)) == GetCoinPrice(api, fmt, a.coinId)
    ensures name == TopCoinsTool ==> Dispatch(api, fmt, name, Some(a)) == GetTopCoins(api, fmt, a.limit, a.sort)
    ensures name == CoinMarketsTool ==> Dispatch(api, fmt, name, Some(a)) == GetCoinMarkets(api, fmt, a.coinId)
    ensures name == ExchangesTool ==> Dispatch(api, fmt, name, Some(a)) == GetExchanges(api, fmt)
    ensures name == GlobalStatsTool ==> Dispatch(api, fmt, name, Some(a)) == GetGlobalStats(api, fmt)
    ensures name == CoinEventsTool ==> Dispatch(api, fmt, name, Some(a)) == GetCoinEvents(api, a.coinId)
    ensures name == SearchCoinsTool ==> Dispatch(api, fmt, name, Some(a)) == SearchCoins(api, fmt, a.query, a.limit)
  {
  }

  /**
   * The reply to `tools/call`: one text block, either the handler's text or
   * "Error: " and the thrown message, with `isError` set exactly in the
   * second case.
   */
  function CallTool(api: Api, fmt: Format, name: string, args: Option<Arguments>): (res: ToolResult)
    ensures |res.content| == 1
    ensures res.isError <==> Dispatch(api, fmt, name, args).Err?
    ensures res.isError <==> "Error: " <= res.content[0].text
    ensures res.isError ==> res.content[0].text == "Error: " + Message(Dispatch(api, fmt, name, args).error)
  {
    match Dispatch(api, fmt, name, args)
    case Ok(text) => ToolResult([Text(text)], false)
    case Err(f) => ToolResult([Text("Error: " + Message(f))], true)
  }

  /** A call without an arguments object is refused before the name is looked at. */
  lemma ArgumentsRequired(api: Api, fmt: Format, name: string)
    ensures CallTool(api, fmt, name, None) == ToolResult([Text("Error: " + "Arguments are required")], true)
  {
  }

  /** A name outside the registry is refused with the name in the message. */
  lemma UnknownToolRejected(api: Api, fmt: Format, name: string, a: Arguments)
    requires !IsRegistered(name)
    ensures CallTool(api, fmt, name, Some(a)) == ToolResult([Text("Error: " + ("Unknown tool: " + name))], true)
  {
  }

  /** The router has a case for exactly the names `tools/list` advertises. */
  lemma RegistryMatchesRouter(api: Api, fmt: Format, name: string, a: Arguments)
    ensures Lookup(name).Some? <==> Dispatch(api, fmt, name, Some(a)) != Err(UnknownTool(name))
  {
  }

  /**
   * With the argument it reads as a string present (`coinId`, or `query`
   * for `search_coins`), no handler fails on a missing argument: a call
   * fails only when upstream fails or sends a record without a field.
   */
  lemma ReadArgumentsSuffice(api: Api, fmt: Format, name: string, a: Arguments)
    requires IsRegistered(name)
    requires name == CoinPriceTool || name == CoinMarketsTool || name == CoinEventsTool ==> a.coinId.Some?
    requires name == SearchCoinsTool ==> a.query.Some?
    ensures Dispatch(api, fmt, name, Some(a)).Err? ==>
              Dispatch(api, fmt, name, Some(a)).error.UpstreamError? || Dispatch(api, fmt, name, Some(a)).error.MissingData?
  {
  }

  /**
   * A call whose arguments hold every key the tool's schema marks required
   * fails only when upstream fails or sends a record without a field.
   */
  lemma PresentArgumentsSuffice(api: Api, fmt: Format, name: string, a: Arguments)
    requires IsRegistered(name)
    requires forall key :: key in Lookup(name).value.inputSchema.required ==> Present(a, key)
    ensures Dispatch(api, fmt, name, Some(a)).Err? ==>
              Dispatch(api, fmt, name, Some(a)).error.UpstreamError? || Dispatch(api, fmt, name, Some(a)).error.MissingData?
  {
    RequiredArePresent(name, a);
    ReadArgumentsSuffice(api, fmt, name, a);
  }

  /** Arguments holding every required key hold the ones the handlers read as strings. */
  lemma RequiredArePresent(name: string, a: Arguments)
    requires IsRegistered(name)
    requires forall key :: key in Lookup(name).value.inputSchema.required ==> Present(a, key)
    ensures name == CoinPriceTool || name == CoinMarketsTool || name == CoinEventsTool ==> a.coinId.Some?
    ensures name == SearchCoinsTool ==> a.query.Some?
  {
    RequiredArguments(name);
    if name == CoinPriceTool || name == CoinMarketsTool || name == CoinEventsTool {
      assert "coinId" in Lookup(name).value.inputSchema.required;
      assert Present(a, "coinId");
    } else if name == SearchCoinsTool {
      assert "query" in Lookup(name).value.inputSchema.required;
      assert Present(a, "query");
    }
  }

  /** No markets is no error: the reply is the plain "No markets found" text. */
  lemma NoMarketsReply(api: Api, fmt: Format, a: Arguments)
    requires api.markets(Show(a.coinId)) == Ok([])
    ensures CallTool(api, fmt, CoinMarketsTool, Some(a)) == ToolResult([Text(NoMarkets(a.coinId))], false)
  {
  }

  /** No events is no error: the reply is the plain "No events found" text. */
  lemma NoEventsReply(api: Api, fmt: Format, a: Arguments)
    requires api.events(Show(a.coinId)) == Ok([])
    ensures CallTool(api, fmt, CoinEventsTool, Some(a)) == ToolResult([Text(NoEvents(a.coinId))], false)
  {
  }

  /** A search that matches nothing is no error: the reply is the plain "No coins found" text. */
  lemma NoMatchReply(api: Api, fmt: Format, a: Arguments)
    requires a.query.Some? && api.tickers(AllTickers).Ok?
    requires forall t :: t in api.tickers(AllTickers).value ==> t.name.Some? && t.symbol.Some? && t.id.Some?
    requires Search.Matching(api.tickers(AllTickers).value, a.query.value) == []
    ensures CallTool(api, fmt, SearchCoinsTool, Some(a)) == ToolResult([Text(NoCoins(a.query))], false)
  {
  }

  /** The reply to a call whose `coinId` or `query` is absent, once upstream has data for it. */
  const UndefinedToUpperCase := "Error: " + CannotRead + "toUpperCase')"
  const UndefinedToLowerCase := "Error: " + CannotRead + "toLowerCase')"

  /** The reply to a call whose handler failed upper-casing the absent `coinId`. */
  lemma UpperCaseFailureReply(api: Api, fmt: Format, name: string, a: Arguments)
    requires Dispatch(api, fmt, name, Some(a)) == Err(MissingArgument("toUpperCase"))
    ensures CallTool(api, fmt, name, Some(a)) == ToolResult([Text(UndefinedToUpperCase)], true)
  {
    var prefix := "Error: " + CannotRead;
    assert "Error: " + (CannotRead + "toUpperCase" + "')") == prefix + "toUpperCase" + "')";
    assert "toUpperCase" + "')" == "toUpperCase')";
    assert prefix + "toUpperCase" + "')" == prefix + "toUpperCase')";
  }

  /**
   * Without `coinId`, `get_coin_markets` requests the id "undefined"; a
   * non-empty answer then fails where the header upper-cases the id.
   */
  lemma MissingCoinIdFails(api: Api, fmt: Format, a: Arguments)
    requires a.coinId.None? && api.markets("undefined").Ok? && api.markets("undefined").value != []
    ensures CallTool(api, fmt, CoinMarketsTool, Some(a)) == ToolResult([Text(UndefinedToUpperCase)], true)
  {
    assert Dispatch(api, fmt, CoinMarketsTool, Some(a)) == Err(MissingArgument("toUpperCase"));
    UpperCaseFailureReply(api, fmt, CoinMarketsTool, a);
  }

  /** The same for `get_coin_events`, whose header upper-cases the id too. */
  lemma MissingCoinIdFailsEvents(api: Api, fmt: Format, a: Arguments)
    requires a.coinId.None? && api.events("undefined").Ok? && api.events("undefined").value != []
    ensures CallTool(api, fmt, CoinEventsTool, Some(a)) == ToolResult([Text(UndefinedToUpperCase)], true)
  {
    assert Dispatch(api, fmt, CoinEventsTool, Some(a)) == Err(MissingArgument("toUpperCase"));
    UpperCaseFailureReply(api, fmt, CoinEventsTool, a);
  }

  /** Without `query`, the search fails on the first ticker upstream returns. */
  lemma MissingQueryFails(api: Api, fmt: Format, a: Arguments)
    requires a.query.None?
    requires api.tickers(AllTickers).Ok? && api.tickers(AllTickers).value != []
    ensures CallTool(api, fmt, SearchCoinsTool, Some(a)) == ToolResult([Text(UndefinedToLowerCase)], true)
  {
    var ts := api.tickers(AllTickers).value;
    var f := Search.Test(ts[0], None).error;
    assert f == MissingData("toLowerCase") || f == MissingArgument("toLowerCase");
    assert Search.Filter(ts, None) == Err(f);
    assert Dispatch(api, fmt, SearchCoinsTool, Some(a)) == Err(f);
    var prefix := "Error: " + CannotRead;
    assert "Error: " + (CannotRead + "toLowerCase" + "')") == prefix + "toLowerCase" + "')";
    assert "toLowerCase" + "')" == "toLowerCase')";
    assert prefix + "toLowerCase" + "')" == prefix + "toLowerCase')";
  }

  /** The message of a failed request, if it failed. */
  function RequestError<T>(r: Fetch<T>): Option<string>
  {
    if r.Err? then Some(r.error) else None
  }

  /** The failure of the first upstream request a tool makes, if that request fails. */
  function FirstRequestError(api: Api, name: string, a: Arguments): Option<string>
  {
    if name == CoinPriceTool then RequestError(api.ticker(Show(a.coinId)))
    else if name == TopCoinsTool then RequestError(api.tickers(TopCoinsParams(a.limit, a.sort)))
    else if name == CoinMarketsTool then RequestError(api.markets(Show(a.coinId)))
    else if name == ExchangesTool then RequestError(api.exchanges)
    else if name == GlobalStatsTool then RequestError(api.global)
    else if name == CoinEventsTool then RequestError(api.events(Show(a.coinId)))
    else if name == SearchCoinsTool then RequestError(api.tickers(AllTickers))
    else None
  }

  /** A failed first request is the failure `Dispatch` ends with, for every tool. */
  lemma FirstRequestDecides(api: Api, fmt: Format, name: string, a: Arguments, m: string)
    requires FirstRequestError(api, name, a) == Some(m)
    ensures Dispatch(api, fmt, name, Some(a)) == Err(UpstreamError(m))
  {
    NameConstsDistinct();
    DispatchRoutes(api, fmt, name, a);
    var e := Err(UpstreamError(m));
    if name == CoinPriceTool {
      assert GetCoinPrice(api, fmt, a.coinId) == e;
    } else if name == TopCoinsTool {
      assert GetTopCoins(api, fmt, a.limit, a.sort) == e;
    } else if name == CoinMarketsTool {
      assert GetCoinMarkets(api, fmt, a.coinId) == e;
    } else if name == ExchangesTool {
      assert GetExchanges(api, fmt) == e;
    } else if name == GlobalStatsTool {
      assert GetGlobalStats(api, fmt) == e;
    } else if name == CoinEventsTool {
      assert GetCoinEvents(api, a.coinId) == e;
    } else {
      assert SearchCoins(api, fmt, a.query, a.limit) == e;
    }
  }

  /** A failed first request becomes the reply, its message after "Error: ", for every tool. */
  lemma UpstreamFailureReported(api: Api, fmt: Format, name: string, a: Arguments, m: string)
    requires FirstRequestError(api, name, a) == Some(m)
    ensures CallTool(api, fmt, name, Some(a)) == ToolResult([Text("Error: " + m)], true)
  {
    FirstRequestDecides(api, fmt, name, a, m);
  }

  /** An upstream that answers every request, with complete tickers. */
  ghost predicate Reliable(api: Api)
  {
    && (forall p :: api.tickers(p).Ok?)
    && (forall p, t :: api.tickers(p).Ok? && t in api.tickers(p).value ==> Complete(t))
    && (forall id :: api.ticker(id).Ok? && Complete(api.ticker(id).value))
    && (forall id :: api.coin(id).Ok?)
    && (forall id :: api.markets(id).Ok?)
    && (forall id :: api.events(id).Ok?)
    && api.exchanges.Ok? && api.global.Ok?
  }

  /** Against an upstream that always answers with complete data, every tool replies, given `coinId` and `query`. */
  lemma ReliableUpstreamSucceeds(api: Api, fmt: Format, name: string, a: Arguments)
    requires Reliable(api) && IsRegistered(name)
    requires name in [CoinPriceTool, CoinMarketsTool, CoinEventsTool] ==> a.coinId.Some?
    requires name == SearchCoinsTool ==> a.query.Some?
    ensures !CallTool(api, fmt, name, Some(a)).isError
  {
    NameConstsDistinct();
    DispatchRoutes(api, fmt, name, a);
    if name == CoinPriceTool {
      assert GetCoinPrice(api, fmt, a.coinId).Ok?;
    } else if name == TopCoinsTool {
      var ts := api.tickers(TopCoinsParams(a.limit, a.sort)).value;
      assert forall k :: 0 <= k < |ts| ==> ts[k] in ts && Complete(ts[k]);
      assert GetTopCoins(api, fmt, a.limit, a.sort).Ok?;
    } else if name == CoinMarketsTool {
      assert GetCoinMarkets(api, fmt, a.coinId).Ok?;
    } else if name == ExchangesTool {
      assert GetExchanges(api, fmt).Ok?;
    } else if name == GlobalStatsTool {
      assert GetGlobalStats(api, fmt).Ok?;
    } else if name == CoinEventsTool {
      assert GetCoinEvents(api, a.coinId).Ok?;
    } else {
      SearchSucceedsOnCompleteTickers(fmt, a.query.value, a.limit, api.tickers(AllTickers).value);
      assert SearchCoins(api, fmt, a.query, a.limit).Ok?;
    }
  }
}
