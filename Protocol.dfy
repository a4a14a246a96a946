/** The envelope of a tool call: its arguments, its result, and why it can fail. */
module Protocol {
  import opened Wrappers

  /**
   * The arguments object of a tool call. Every key is optional; the
   * handlers read `coinId`, `limit`, `sort` and `query`.
   */
  datatype Arguments = Arguments(
    coinId: Option<string>,
    limit: Option<int>,
    sort: Option<string>,
    query: Option<string>)

  /** The arguments object has a value under `key`; keys outside the four read are never present. */
  predicate Present(a: Arguments, key: string) {
    if key == "coinId" then a.coinId.Some?
    else if key == "limit" then a.limit.Some?
    else if key == "sort" then a.sort.Some?
    else if key == "query" then a.query.Some?
    else false
  }

  /** Everything a call can throw before the router catches it. */
  datatype Failure =
    | InvalidArguments                  // the arguments object is absent
    | UnknownTool(name: string)         // no case of the switch matches
    | UpstreamError(message: string)    // an HTTP request failed
    | MissingData(property: string)     // an upstream record lacks a field read without `?.`
    | MissingArgument(property: string) // an absent argument is used as a string

  /** The start of the TypeError message for a property read on `undefined`. */
  const CannotRead := "Cannot read properties of undefined (reading '"

  /** The `message` of the thrown error. */
  function Message(f: Failure): string
  {
    match f
    case InvalidArguments => "Arguments are required"
    case UnknownTool(name) => "Unknown tool: " + name
    case UpstreamError(message) => message
    case MissingData(p) => CannotRead + p + "')"
    case MissingArgument(p) => CannotRead + p + "')"
  }

  /** A content block of type "text". */
  datatype Content = Text(text: string)

  /** The reply to a tool call; a successful reply has no error flag, which reads as false. */
  datatype ToolResult = ToolResult(content: seq<Content>, isError: bool)
}
