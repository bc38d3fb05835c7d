# mcp-esios in Dafny

mcp-esios is an MCP server. It gives a language model two tools over the ESIOS API, the market
data service of Red Eléctrica, the Spanish grid operator:

- `search_indicators` filters the indicator catalog with a regular expression.
- `get_indicator_data` fetches one indicator's time series.

Both tools answer with plain text. This project models the deterministic core of that server and
proves what the text and the state say:

- `wrappers.dfy` (`Wrappers`): `Option` and `Result`.
- `text.dfy` (`Text`): Python's `str()` of integers, with the fact that it reads back. Also the
  `"Z"` to `"+00:00"` rewrite of ISO dates, and small facts about `+` on strings.
- `catalog.dfy` (`Catalog`): the search itself.
  - Which catalog entries a pattern selects, in what order, and which missing key makes the list
    comprehension raise.
  - The report text: the count line, the note above 30 matches, and one block per match. A block
    carries its description only below 30 matches.
  - The report is built by a loop proved against the report function.
- `series.dfy` (`Series`): the data tool.
  - The request URL.
  - Which key lookup raises first.
  - The report text: the header, at most ten sample lines, and the trailer. It is built by a
    loop proved against the report function.
- `service.dfy` (`Service`): the class `EsiosService` with its token header, catalog cache and
  HTTP session, and the class `ClientSession`.
  - A ghost request counter, with the invariant `Valid`, shows that the catalog is requested at
    most once; a failed request caches the empty catalog for good.
- `server.dfy` (`Server`): the MCP side.
  - The tool list, and `call_tool`'s routing. Every exception, the inner `METHOD_NOT_FOUND`
    included, is folded into one `INTERNAL_ERROR`.
  - `_parse_datetime`, and `serve`, which closes the session on every way the run can end.

The regex engine, the network and `datetime.fromisoformat` are parameters, and so is the text
that prints the `list_tools` coroutine:

- A `RegexEngine` says whether a pattern compiles and whether it is found in a text.
- The network is a function from the requested URL to what the request produced: the decoded
  JSON, or the text of the exception raised.

Points of the code's behaviour worth knowing, all modelled as the code has them:

- The description threshold is 30. At exactly 30 matches the report shows neither the note nor
  the descriptions, because the note needs more than 30 and the descriptions need fewer than 30.
- The series report gives the number of points and lists at most ten of them. It computes
  nothing from the values.
- The catalog is fetched before the pattern is compiled, so an invalid pattern still fills the
  cache.
- An unknown tool name raises `METHOD_NOT_FOUND` inside the `try`. The handler catches it and
  raises `INTERNAL_ERROR`, which is what the caller receives.
- `_parse_datetime` is not called: its two call sites in `call_tool` are commented out. It is
  modelled on its own.

## Model

| member | source | states |
|---|---|---|
| Text.NatToString | src/mcp_esios/services/esios_service.py:94 | Python's decimal text of a count: at least one digit, all digits, one digit exactly below ten, no leading zero |
| Text.NatToStringInverse | src/mcp_esios/services/esios_service.py:94 | the decimal text of a count reads back as that count |
| Text.NatToStringInjective | src/mcp_esios/services/esios_service.py:142 | different counts print differently |
| Text.IntToString | src/mcp_esios/services/esios_service.py:104 | the text of an integer starts with '-' exactly when it is negative and is the count's text otherwise |
| Text.IntToStringInverse | src/mcp_esios/services/esios_service.py:125 | the text of an indicator id reads back as the id |
| Text.ReplaceZ | src/mcp_esios/mcp_esios.py:29 | the rewritten date text has no "Z" left and is never shorter |
| Text.ReplaceZInverse | src/mcp_esios/mcp_esios.py:29 | for text without '+', turning every "+00:00" back into "Z" restores the input |
| Text.ReplaceZKeeps | src/mcp_esios/mcp_esios.py:29 | text without a "Z", an explicit offset included, is left unchanged |
| Text.KeyErrorText | src/mcp_esios/services/esios_service.py:116 | `str()` of a KeyError on a string key, as the handlers print it: the key in single quotes |
| Catalog.Resolve | src/mcp_esios/services/esios_service.py:55-64 | the cache receives the delivered list, and the empty list after a client error or any other exception |
| Catalog.IsMatch | src/mcp_esios/services/esios_service.py:86-88 | the filter: the pattern is found in the name, the short name, or the description with "" for an absent one |
| Catalog.Project | src/mcp_esios/services/esios_service.py:79-84 | building a selected row reads `id` before `short_name` and raises KeyError on the first one missing |
| Catalog.Shown | src/mcp_esios/services/esios_service.py:79-84 | a row copies id, name and short name, and the description or "No description available" |
| Catalog.Examine | src/mcp_esios/services/esios_service.py:80-88 | one entry raises exactly when name or short_name is missing, or when it matches and id is missing; otherwise it is selected exactly when the pattern is found in name, short name or description ("" when absent) |
| Catalog.Select | src/mcp_esios/services/esios_service.py:78-89 | the comprehension succeeds exactly when every entry does; on failure it names the first failing entry's key; entries with id, name and short name never fail |
| Catalog.MatchIndices | src/mcp_esios/services/esios_service.py:85-88 | the reference selection: exactly the matching positions, strictly increasing |
| Catalog.SelectIsMatchingEntries | src/mcp_esios/services/esios_service.py:78-89 | a successful selection is one row per matching entry, in catalog order, each showing that entry |
| Catalog.Header | src/mcp_esios/services/esios_service.py:94 | the count line "Found {n} matching indicators:" and a blank line |
| Catalog.Lead | src/mcp_esios/services/esios_service.py:94-100 | the count line, followed by the note (the constant `Catalog.Note`, with 30 written in) only above 30 rows |
| Catalog.Entry | src/mcp_esios/services/esios_service.py:103-111 | one row's block: the ID, Name and Short name lines, then the description line and a blank line, or only a blank line |
| Catalog.Entries | src/mcp_esios/services/esios_service.py:102-111 | the blocks of all rows in row order, the description shown in all or in none |
| Catalog.Report | src/mcp_esios/services/esios_service.py:94-113 | the report on a non-empty selection: the lead, then the blocks, with descriptions only below 30 rows |
| Catalog.SearchText | src/mcp_esios/services/esios_service.py:70-116 | what `search_indicators` returns for a cached catalog: the invalid-pattern text, the KeyError text after "Failed to search indicators: ", the no-results sentence, or the report |
| Catalog.EntriesPrefix | src/mcp_esios/services/esios_service.py:102-111 | the blocks of the first rows are a prefix of the blocks of all rows |
| Catalog.EntryAt | src/mcp_esios/services/esios_service.py:102-111 | row k's block follows, whole, the blocks of the rows before it |
| Catalog.ReportEntryAt | src/mcp_esios/services/esios_service.py:94-111 | in the report, row k's block follows the lead and the rows before it; it carries a description exactly when there are fewer than 30 rows |
| Catalog.EntriesBegin | src/mcp_esios/services/esios_service.py:104 | the blocks of a non-empty selection begin with the "ID: " line |
| Catalog.WriteEntry | src/mcp_esios/services/esios_service.py:103-111 | one pass of the loop appends exactly that row's block |
| Catalog.WriteLead | src/mcp_esios/services/esios_service.py:94-100 | before the loop the text is the count line, plus the note above 30 |
| Catalog.AppendEntries | src/mcp_esios/services/esios_service.py:102-111 | the `+=` loop leaves its start text followed by every row's block in row order |
| Catalog.BuildReport | src/mcp_esios/services/esios_service.py:94-113 | the text built step by step is the report on the rows |
| Catalog.NoResultsIff | src/mcp_esios/services/esios_service.py:73-92 | the answer is "No indicators found matching your query." exactly when the pattern compiles and selects nothing |
| Catalog.SearchFailureIff | src/mcp_esios/services/esios_service.py:70-116 | the answer begins "Failed to search indicators: " exactly when the pattern compiles and the selection raises; the invalid-pattern text, the no-results text and the report never do |
| Catalog.HeaderCount | src/mcp_esios/services/esios_service.py:94 | the number in the count line reads back as the count |
| Catalog.ReportCount | src/mcp_esios/services/esios_service.py:94 | the report begins with its count line |
| Catalog.NoteShown | src/mcp_esios/services/esios_service.py:96-100 | above 30 rows the note follows the count line |
| Catalog.NoteHidden | src/mcp_esios/services/esios_service.py:96-111 | at 30 rows or fewer the count line is not followed by the note |
| Catalog.NoteIffAboveThreshold | src/mcp_esios/services/esios_service.py:96-100 | the note follows the count line exactly when there are more than 30 rows |
| Series.Query | src/mcp_esios/services/esios_service.py:126-128 | the query string: start and end dates, truncation and aggregation, in that order |
| Series.Endpoint | src/mcp_esios/services/esios_service.py:124-129 | the requested URL: the base URL, "/indicators/", the id and the query |
| Series.EndpointNamesIndicator | src/mcp_esios/services/esios_service.py:124-126 | the URL is the indicator path, then the id (which reads back as the id), then '?' |
| Series.EndpointForwardsOptions | src/mcp_esios/services/esios_service.py:127-128 | the URL ends with the time truncation and aggregation exactly as given |
| Series.MissingKey | src/mcp_esios/services/esios_service.py:147 | a sample line raises on `datetime`, then `value`, then `geo_name`, whichever is missing first |
| Series.FirstMissing | src/mcp_esios/services/esios_service.py:146-147 | no key is missing exactly when every sampled point is complete; otherwise it is the missing key of the first incomplete point |
| Series.FirstMissingExtends | src/mcp_esios/services/esios_service.py:146-147 | once a point lacks a key, later points do not change the failure |
| Series.Show | src/mcp_esios/services/esios_service.py:141 | what an f-string prints for a JSON scalar: None, True or False, the string itself, or the number's text |
| Series.Line | src/mcp_esios/services/esios_service.py:147 | one sample line: datetime, value and geo name of a complete point |
| Series.Lines | src/mcp_esios/services/esios_service.py:146-147 | the sample lines of the points, in order |
| Series.SampleSize | src/mcp_esios/services/esios_service.py:145 | `values[:10]` keeps all points up to ten and exactly ten beyond |
| Series.LinesPrefix | src/mcp_esios/services/esios_service.py:146-147 | the lines of the first points are a prefix of the lines of all points |
| Series.LineAt | src/mcp_esios/services/esios_service.py:146-147 | point k's line follows, whole, the lines of the points before it |
| Series.SampleLineAt | src/mcp_esios/services/esios_service.py:145-147 | the k-th listed line is the line of the k-th point of the answer, for k below min(count, 10) |
| Series.SeriesHeader | src/mcp_esios/services/esios_service.py:139-143 | the three header lines: the indicator id, its name, and the number of data points |
| Series.Trailer | src/mcp_esios/services/esios_service.py:149-150 | the "... and {n} more data points" line after more than ten points, nothing otherwise |
| Series.SeriesReport | src/mcp_esios/services/esios_service.py:139-152 | header, the lines of the first ten points, then the trailer |
| Series.SeriesText | src/mcp_esios/services/esios_service.py:145-155 | the KeyError text of the first incomplete listed point, or the report |
| Series.DataText | src/mcp_esios/services/esios_service.py:134-155 | the text for one answer: the request's failure text, the KeyError text of `indicator`, `values` or `name` in that order, or the series text |
| Series.SeriesHeaderCount | src/mcp_esios/services/esios_service.py:139-143 | the header's "Values:" number reads back as the number of points |
| Series.TrailerIff | src/mcp_esios/services/esios_service.py:149-150 | the trailer is written exactly when there are more than ten points |
| Series.TrailerCount | src/mcp_esios/services/esios_service.py:150 | the trailer's number reads back as the number of points minus ten |
| Series.OnlyListedPointsMatter | src/mcp_esios/services/esios_service.py:138-150 | answers with the same count and the same first ten points give the same text |
| Series.FailureIff | src/mcp_esios/services/esios_service.py:118-155 | the text starts "Failed to get indicator data: " exactly when the request failed, `indicator`, `values` or `name` is missing, or a listed point lacks a key |
| Series.WriteLine | src/mcp_esios/services/esios_service.py:147 | one sample line, or the key whose lookup raises |
| Series.AppendSamples | src/mcp_esios/services/esios_service.py:146-147 | the `+=` loop appends every sample line in order, or stops on the first missing key |
| Series.BuildDataText | src/mcp_esios/services/esios_service.py:138-155 | the text built step by step is the text the answer calls for |
| Service.ClientSession.constructor | src/mcp_esios/services/esios_service.py:40 | a new session is open |
| Service.ClientSession.Close | src/mcp_esios/services/esios_service.py:160 | closing leaves the session closed |
| Service.EsiosService.constructor | src/mcp_esios/services/esios_service.py:33-35 | a new service keeps the token in its `x-api-key` header and has no cache and no session |
| Service.EsiosService.Create | src/mcp_esios/services/esios_service.py:28-35 | construction fails, with its ValueError text, exactly on an empty token |
| Service.EsiosService.EnsureSession | src/mcp_esios/services/esios_service.py:37-41 | an open session is kept; a missing or closed one is replaced by a new open one |
| Service.EsiosService.FetchAllIndicators | src/mcp_esios/services/esios_service.py:43-66 | a filled cache is returned unchanged with no request; an empty one is filled exactly once from the catalog URL, with [] on failure |
| Service.EsiosService.SearchIndicators | src/mcp_esios/services/esios_service.py:68-116 | the catalog is obtained first, even for a pattern that does not compile, and the text is the search text of the cached catalog |
| Service.EsiosService.GetIndicatorData | src/mcp_esios/services/esios_service.py:118-155 | the answer to the one request for the endpoint URL decides the text; the cache is untouched and the session is open |
| Service.EsiosService.Close | src/mcp_esios/services/esios_service.py:157-160 | an open session ends closed; a closed one is left as it was |
| Server.ListTools | src/mcp_esios/mcp_esios.py:51-79 | exactly two tools, `search_indicators` then `get_indicator_data`, with their argument schemas |
| Server.RouteOf | src/mcp_esios/mcp_esios.py:84-99 | the branch a name takes: the search tool, the data tool, or neither |
| Server.RoutedIffListed | src/mcp_esios/mcp_esios.py:84-99 | a name reaches the service exactly when it is the name of a listed tool |
| Server.TryBody | src/mcp_esios/mcp_esios.py:84-99 | the try body returns exactly for a known tool with valid arguments, one text item with the service's text; an unknown name raises METHOD_NOT_FOUND |
| Server.UnknownTool | src/mcp_esios/mcp_esios.py:99 | the METHOD_NOT_FOUND error with "Unknown tool: {name}, available tools: {tools}" |
| Server.Describe | src/mcp_esios/mcp_esios.py:102-103 | `str()` of the caught exception: an McpError's message, or the other exception's text |
| Server.Fold | src/mcp_esios/mcp_esios.py:101-103 | whatever is raised leaves as INTERNAL_ERROR with "Error calling tool {name}: " in front |
| Server.CallResult | src/mcp_esios/mcp_esios.py:83-103 | what `call_tool` returns or raises: the try body folded by the handler |
| Server.UnknownToolEndsInternal | src/mcp_esios/mcp_esios.py:97-103 | an unlisted name ends with INTERNAL_ERROR, not METHOD_NOT_FOUND, and its message carries "Unknown tool: …" |
| Server.ListedToolAnswers | src/mcp_esios/mcp_esios.py:84-95 | a listed tool with valid arguments never errors and answers one text item with the service's text |
| Server.InvalidArgumentsEndInternal | src/mcp_esios/mcp_esios.py:85-103 | rejected arguments surface as INTERNAL_ERROR with the validation text |
| Server.CallTool | src/mcp_esios/mcp_esios.py:81-103 | `call_tool` against a service: the search goes through the cache, data through one request; any other outcome leaves the service as it was |
| Server.ParseDateTime | src/mcp_esios/mcp_esios.py:26-30 | a value that is not text is returned unchanged |
| Server.ParseDateTimeInput | src/mcp_esios/mcp_esios.py:28-29 | the parser receives the text with no "Z" left; the rewrite cannot be confused with the input when there was no '+'; text without a "Z" reaches the parser unchanged |
| Server.Serve | src/mcp_esios/mcp_esios.py:33-47 | with an empty token nothing starts; otherwise the session opened before the run is closed however the run ends |

## Left out

- HTTP, timeouts, `raise_for_status` and JSON decoding. The outcome of each request is an input:
  the decoded body, or the text of the exception raised. The `aiohttp` and `re` libraries, the
  MCP `Server` and `stdio_server`, and `McpError` are not part of this model. For `McpError`,
  the model assumes that `str()` of it is its message.
- The regular-expression engine, including IGNORECASE. It is a parameter.
- `strftime` and `datetime.fromisoformat`. The dates reach the model already formatted, and
  `fromisoformat` is a parameter.
- Python's `str()` of floats and other JSON values. A `Num` scalar carries the text it prints as.
- JSON values of an unexpected type. The model's keys are either present with a value of the
  expected kind or absent, so it does not capture these shapes or what Python does with them:
  - A `"description": null` in the catalog. On an entry whose name or short name matches,
    `ind.get` returns None. Below 30 matches the report prints "Description: None" where the
    model prints "No description available"; at 30 or more no description is printed. On an
    entry whose name and short name do not match, `pattern.search(None)` raises a TypeError,
    which ends in the "Failed to search indicators: " text.
  - A `"name": null` or `"short_name": null` in the catalog. `pattern.search(None)` raises a
    TypeError on the name, and on the short name when the name did not match. The model treats
    null as absent, so it fails there too, but with the KeyError text of the key instead of the
    TypeError text. A null short name on an entry whose name matches is printed as
    "Short name: None".
  - A name, short name or description that is a number, an object or a list. `pattern.search`
    raises a TypeError on it, unless an earlier field of the same entry already matched; an
    `id` of any kind is never searched and is printed as Python prints it.
  - A series `name`, `datetime`, `value` or `geo_name` that is an object or a list. The
    f-strings print it as Python prints it; the model's `Scalar` has only null, booleans,
    strings and numbers.
  - An `indicator` that is not an object. Looking `values` up in it raises a TypeError.
  - A `values` that is not a list. A number, boolean or null raises in `len`, and an object
    raises on the slice `values[:10]`. A string is counted and sliced like a list: an empty one
    gives a report with "Values: 0 data points", and a non-empty one raises a TypeError on its
    first character's `['datetime']`.
  - Every raise in these cases ends in the "Failed to get indicator data: " text. The model has
    none of these cases.
- The background warm-up task of `serve` and its race with a search that fills the cache. This
  is concurrency.
- The tool calls made while the server runs. `Serve` takes only the way the run ended.
- Pydantic validation. Its result is an input: the parameters, or the validation message. The
  defaults "hour" and "sum" are pydantic's business.
- The tool descriptions, which are prose. Logging. The click command line and the
  environment-variable lookup.
- Service.EsiosService.FetchAllIndicators: a request is made over the session but is not shown
  to have used it, because the request is a function of the URL alone.
- Server.ParseDateTime: for text, the result is whatever the parser returns.
  `Server.ParseDateTimeInput` states what the parser receives.
