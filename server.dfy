/** The MCP server of `mcp_esios.py`: the tool list, the dispatch of a tool call with its
    folding of every exception into one protocol error, the unused date parser, and the
    service's life cycle around the run loop. */
module Server {
  import opened Wrappers
  import opened Text
  import opened Catalog
  import opened Series
  import opened Service

  const SearchToolName := "search_indicators"
  const DataToolName := "get_indicator_data"

  /** The JSON-RPC error codes the server uses. */
  const MethodNotFound: int := -32601
  const InternalError: int := -32603

  /** The input schemas of the two tools, generated from the two argument models. */
  datatype Schema = SearchSchema | DataSchema

  datatype Tool = Tool(name: string, inputSchema: Schema)

  datatype TextContent = TextContent(kind: string, text: string)

  datatype ErrorData = ErrorData(code: int, message: string)

  /** An exception leaving the body of `call_tool`'s `try`: an `McpError`, or anything else
      (an argument validation error) with its text. */
  datatype Raised = McpFailure(error: ErrorData) | OtherFailure(message: string)

  /** The outcome of the body of the `try`. */
  datatype Attempt = Returned(contents: seq<TextContent>) | Threw(exception: Raised)

  /** The arguments of a call, as the two argument models judge them: the validated
      parameters, or the text of the validation error. */
  datatype Arguments = Arguments(search: Result<string, string>, data: Result<DataParams, string>)

  datatype Route = SearchRoute | DataRoute | NoRoute

  /** `list_tools`: the search tool, then the data tool. */
  function ListTools(): (tools: seq<Tool>)
    ensures |tools| == 2
    ensures tools[0].name == SearchToolName && tools[0].inputSchema == SearchSchema
    ensures tools[1].name == DataToolName && tools[1].inputSchema == DataSchema
  {
    [Tool(SearchToolName, SearchSchema), Tool(DataToolName, DataSchema)]
  }

  predicate Listed(name: string) {
    exists i :: 0 <= i < |ListTools()| && ListTools()[i].name == name
  }

  /** Which branch of `call_tool` a name takes. */
  function RouteOf(name: string): Route {
    if name == SearchToolName then SearchRoute
    else if name == DataToolName then DataRoute
    else NoRoute
  }

  /** A name is served exactly when it is one of the listed tools. */
  lemma RoutedIffListed(name: string)
    ensures RouteOf(name) != NoRoute <==> Listed(name)
  {
    var tools := ListTools();
    if RouteOf(name) == SearchRoute {
      assert tools[0].name == name;
    } else if RouteOf(name) == DataRoute {
      assert tools[1].name == name;
    }
  }

  /** `str()` of an exception: an `McpError` prints its message. */
  function Describe(e: Raised): string {
    match e
    case McpFailure(error) => error.message
    case OtherFailure(message) => message
  }

  /** The error raised for a name that is not a tool; `toolsRepr` is what the f-string prints for
      the value of `list_tools()`. */
  function UnknownTool(name: string, toolsRepr: string): ErrorData {
    ErrorData(MethodNotFound, "Unknown tool: " + name + ", available tools: " + toolsRepr)
  }

  /** The body of the `try`. `searchText` and `dataText` are what the service returned for
      the validated arguments; they are consulted only on the branch that calls the service. */
  function TryBody(name: string, args: Arguments, toolsRepr: string, searchText: string, dataText: string)
    : (a: Attempt)
    ensures a.Returned? <==> (RouteOf(name) == SearchRoute && args.search.Ok?)
                             || (RouteOf(name) == DataRoute && args.data.Ok?)
    ensures a.Returned? ==> a.contents == [TextContent("text", if RouteOf(name) == SearchRoute then searchText else dataText)]
    ensures RouteOf(name) == NoRoute ==> a == Threw(McpFailure(UnknownTool(name, toolsRepr)))
  {
    match RouteOf(name)
    case SearchRoute =>
      (match args.search
       case Err(message) => Threw(OtherFailure(message))
       case Ok(_) => Returned([TextContent("text", searchText)]))
    case DataRoute =>
      (match args.data
       case Err(message) => Threw(OtherFailure(message))
       case Ok(_) => Returned([TextContent("text", dataText)]))
    case NoRoute => Threw(McpFailure(UnknownTool(name, toolsRepr)))
  }

  /** The `except Exception` handler: whatever was raised, `METHOD_NOT_FOUND` included, leaves
      as `INTERNAL_ERROR` with the tool's name in front of the exception's text. */
  function Fold(name: string, a: Attempt): (r: Result<seq<TextContent>, ErrorData>)
    ensures a.Returned? <==> r.Ok?
    ensures r.Ok? ==> r.value == a.contents
    ensures r.Err? ==> r.error.code == InternalError
    ensures r.Err? ==> "Error calling tool " + name + ": " <= r.error.message
  {
    match a
    case Returned(contents) => Ok(contents)
    case Threw(e) =>
      var prefix := "Error calling tool " + name + ": ";
      PrefixOfAppend(prefix, Describe(e));
      Err(ErrorData(InternalError, prefix + Describe(e)))
  }

  /** What `call_tool` returns or raises. */
  function CallResult(name: string, args: Arguments, toolsRepr: string, searchText: string, dataText: string)
    : Result<seq<TextContent>, ErrorData>
  {
    Fold(name, TryBody(name, args, toolsRepr, searchText, dataText))
  }

  /** A name that is not a tool ends with `INTERNAL_ERROR`, not `METHOD_NOT_FOUND`, and the message
      carries the inner error's message. */
  lemma UnknownToolEndsInternal(name: string, args: Arguments, toolsRepr: string, searchText: string, dataText: string)
    requires !Listed(name)
    ensures var r := CallResult(name, args, toolsRepr, searchText, dataText);
            && r.Err? && r.error.code == InternalError && r.error.code != MethodNotFound
            && r.error.message == "Error calling tool " + name + ": " + UnknownTool(name, toolsRepr).message
  {
    RoutedIffListed(name);
  }

  /** A listed tool with valid arguments never errors: it answers one text item carrying the
      service's text. */
  lemma ListedToolAnswers(name: string, args: Arguments, toolsRepr: string, searchText: string, dataText: string)
    requires Listed(name)
    requires RouteOf(name) == SearchRoute ==> args.search.Ok?
    requires RouteOf(name) == DataRoute ==> args.data.Ok?
    ensures var r := CallResult(name, args, toolsRepr, searchText, dataText);
            && r.Ok? && |r.value| == 1 && r.value[0].kind == "text"
            && r.value[0].text == (if name == SearchToolName then searchText else dataText)
  {
    RoutedIffListed(name);
  }

  /** Rejected arguments of a listed tool surface as `INTERNAL_ERROR` with the validation text. */
  lemma InvalidArgumentsEndInternal(name: string, args: Arguments, toolsRepr: string, searchText: string, dataText: string)
    requires (RouteOf(name) == SearchRoute && args.search.Err?) || (RouteOf(name) == DataRoute && args.data.Err?)
    ensures var r := CallResult(name, args, toolsRepr, searchText, dataText);
            && r.Err? && r.error.code == InternalError
            && r.error.message == "Error calling tool " + name + ": "
                                  + (if RouteOf(name) == SearchRoute then args.search.error else args.data.error)
  {
  }

  /** `call_tool` against a service: the search branch goes through the catalog cache, the data
      branch through one request; any other outcome touches nothing. */
  method CallTool(service: EsiosService, name: string, args: Arguments, toolsRepr: string, regex: RegexEngine,
                  source: string -> CatalogFetch, upstream: string -> SeriesFetch)
    returns (r: Result<seq<TextContent>, ErrorData>)
    requires service.Valid()
    modifies service
    ensures service.Valid()
    ensures RouteOf(name) == SearchRoute && args.search.Ok? ==>
              && service.cache.Some?
              && r == CallResult(name, args, toolsRepr, SearchText(service.cache.value, regex, args.search.value), "")
              && (old(service.cache).Some? ==> service.cache == old(service.cache))
              && (old(service.cache).None? ==> service.cache == Some(Resolve(source(CatalogUrl))))
    ensures RouteOf(name) == DataRoute && args.data.Ok? ==>
              && r == CallResult(name, args, toolsRepr, "", DataText(args.data.value, upstream(Endpoint(args.data.value))))
              && service.cache == old(service.cache)
    ensures !((RouteOf(name) == SearchRoute && args.search.Ok?) || (RouteOf(name) == DataRoute && args.data.Ok?)) ==>
              && r == CallResult(name, args, toolsRepr, "", "")
              && service.cache == old(service.cache) && service.session == old(service.session)
  {
    var searchText, dataText := "", "";
    if RouteOf(name) == SearchRoute && args.search.Ok? {
      searchText := service.SearchIndicators(args.search.value, regex, source);
    } else if RouteOf(name) == DataRoute && args.data.Ok? {
      dataText := service.GetIndicatorData(args.data.value, upstream);
    }
    r := Fold(name, TryBody(name, args, toolsRepr, searchText, dataText));
  }

  /** A date argument: ISO text, or a value that is already a date. */
  datatype DateArgument<M> = IsoText(text: string) | Moment(value: M)

  /** `_parse_datetime`, with `datetime.fromisoformat` as the parameter `fromIso`: text has every
      "Z" turned into the UTC offset first; anything else is returned as it is. */
  function ParseDateTime<M>(v: DateArgument<M>, fromIso: string -> Result<M, string>): (r: Result<M, string>)
    ensures v.Moment? ==> r == Ok(v.value)
  {
    match v
    case IsoText(text) => fromIso(ReplaceZ(text))
    case Moment(value) => Ok(value)
  }

  /** The parser sees the text with no "Z" left; for text without a "+", nothing else has
      changed (putting the "Z"s back gives the text), and text without a "Z", an offset such as
      "+01:00" included, reaches the parser as it is. */
  lemma ParseDateTimeInput<M>(text: string, fromIso: string -> Result<M, string>)
    ensures ParseDateTime(IsoText(text), fromIso) == fromIso(ReplaceZ(text))
    ensures 'Z' !in ReplaceZ(text)
    ensures '+' !in text ==> RestoreZ(ReplaceZ(text)) == text
    ensures 'Z' !in text ==> ParseDateTime(IsoText(text), fromIso) == fromIso(text)
  {
    if '+' !in text {
      ReplaceZInverse(text);
    }
    if 'Z' !in text {
      ReplaceZKeeps(text);
    }
  }

  /** How the run loop ended: normally, or by an exception that `serve` passes on. */
  datatype RunEnd = Finished | Crashed(message: string)

  datatype Served = NotStarted(reason: string) | Stopped(service: EsiosService, end: RunEnd)

  /** `serve`: without a token nothing starts; otherwise the session opened before the run is
      closed however the run ends. */
  method Serve(apiToken: string, run: RunEnd) returns (r: Served)
    ensures r.NotStarted? <==> apiToken == ""
    ensures r.NotStarted? ==> r.reason == MissingToken
    ensures r.Stopped? ==> && fresh(r.service) && r.end == run && r.service.Valid()
                           && r.service.session != null && r.service.session.closed
  {
    var created := EsiosService.Create(apiToken);
    if created.ConfigError? {
      return NotStarted(created.message);
    }
    var service := created.service;
    var session := service.EnsureSession();
    service.Close();
    r := Stopped(service, run);
  }
}
