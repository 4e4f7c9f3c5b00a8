# Search-then-summarise pipeline and nowcast weather tool, in Dafny

This project models the local logic of the `mcp-example` demos. That logic sits around the calls to a search API, a chat-completion API and the Korea Meteorological Administration's ultra-short nowcast API:

- **Weather tool** (`weather/weather.py`, module `Weather`):
  - `get_wind_direction` maps a bearing in degrees to one of 16 compass labels.
  - `get_current_time` picks the base hour of a request.
  - `format_weather_data` is a loop that turns the coded observation items (`T1H`, `RN1`, `UUU`, `VVV`, `REH`, `PTY`, `VEC`, `WSD`) into display texts.
  - `get_current_weather` checks a ladder of failure cases and then renders the report.
  - The two `datetime.now()` readings are parameters: the date, and the hour and minute. The HTTP request is a function parameter, `fetch`, from the request parameters to what `make_api_request` returns. That result is modelled as the datatype `Fetched`, with a missing `response` element, a result header and an item list.
- **Multi-result search** (`mcp-langgraph-fastapi-multisearch/tools/search_tool.py`, module `Search`):
  - `raise_for_status`, then `organic[:max_results]` projected to `{title, snippet}` records.
  - The POST is a function parameter, `post`.
- **Pipeline graph** (`mcp-langgraph-fastapi-multisearch/graph.py`, module `Graph`):
  - The search node keeps the non-empty snippets, joins them as `- ` bullet lines and stores the model's summary as the context.
  - The chat node answers the query from that context.
  - `build_graph` wires search → chat → END. The model represents that wiring as a node type, an entry point and a successor function, and `Invoke` runs the graph from the entry.
  - `chat_completion` is a function parameter returning the reply or a failure.
- **Single-result search** (`mcp-server/tools/search_tool.py`, module `LegacySearch`): the first organic snippet, or `"No results"`.

Shared wrappers (`Option`, `Result`, `d.get(k, default)`, string containment) are in module `Common`.

`format_weather_data` builds its dictionary by assignment inside a loop. It is therefore the method `Weather.FormatWeatherData`, with a `while` loop and its invariant. The method is proved equal to the fold `Weather.Formatted`, and the lemmas about the dictionary are stated about that fold. Everything else in the core is straight-line or comprehension code, modelled as functions.

Two behaviours of the code are easy to misread and are modelled as written:

- **Wind direction.** `get_wind_direction` documents its argument as 0 to 360 degrees (weather/weather.py:72). It truncates with `int()` and resets the index to 0 only when it reaches 16 (weather/weather.py:78-81), so it is not periodic: every bearing from 348.75 upward is north, including 380, while 20 is north-north-east. A negative index reads from the end of the list (-50 gives north-north-west), and a bearing at or below -393.75 gives an index below -16, which raises `IndexError`.
- **Missing snippets.** The three places that read snippets treat a missing one differently:
  - the single-result `search_google` raises `KeyError` for a first result without a snippet;
  - `search_google_all` keeps such a result with `""`;
  - only the graph's `search_node` drops empty snippets.

## Model

| member | source | states |
|---|---|---|
| `Weather.Trunc` | weather/weather.py:78 | `int()` truncates toward zero: the result is within one of its argument, on the zero side |
| `Weather.WindDirection` | weather/weather.py:67-81 | the lookup succeeds exactly for bearings above -393.75 and then yields one of the 16 compass labels; at or below -393.75 it raises `IndexError` |
| `Weather.WindSector` | weather/weather.py:77-81 | sector k (0 ≤ k < 16) covers [22.5k − 11.25, 22.5k + 11.25) of non-negative bearings and maps to the k-th label |
| `Weather.WindSectorOf` | weather/weather.py:77-81 | for 0 ≤ vec < 348.75 the label is the one at `floor((vec + 11.25) / 22.5)`, an index below 16 |
| `Weather.WindNorthFromLastHalfSector` | weather/weather.py:78-81 | every bearing ≥ 348.75, 360 and above included, gives index ≥ 16, which is reset to 0: north |
| `Weather.WindDirectionNotPeriodic` | weather/weather.py:78-81 | 20 is north-north-east but 380 is north: the mapping does not repeat beyond 360 |
| `Weather.WindBoundaries` | weather/weather.py:78-81 | 11.24 is north, 11.25 is already north-north-east, 354.5 is north, and 0 and 360 agree |
| `Weather.NegativeDirectionIndexesFromEnd` | weather/weather.py:78-81 | -50 gives north-north-west (list index -1), unlike 310, which gives north-west; -393.75 raises `IndexError` |
| `Weather.BaseHour` | weather/weather.py:124-127 | the base hour is the current hour from minute 10 on, and the hour before it (00 wrapping to 23) before minute 10 |
| `Weather.Digit` | weather/weather.py:130 | the digit character of a number below ten reads back as that number |
| `Weather.BaseTime` | weather/weather.py:115-130 | the base time has four characters, two decimal digits that read back as the base hour, then "00" |
| `Weather.RequestParams` | weather/weather.py:200-209 | the request carries exactly the eight query parameters: the service key, grid point, base date and time as given, page 1, 30 rows, XML |
| `Weather.MidnightPairsTodayWith2300` | weather/weather.py:196-209 | from 00:00 to 00:09 the request carries the date of the separate date reading, unchanged, with base time "2300" |
| `Weather.FieldOf` | weather/weather.py:144-177 | exactly the eight categories of `CATEGORY_UNITS` are recognised, each writing one of the eight field names |
| `Weather.FieldOfInjective` | weather/weather.py:149-177 | distinct recognised categories write distinct keys |
| `Weather.PtyDescription` | weather/weather.py:168-170 | the description is "알 수 없음" (unknown) exactly for codes missing from `PTY_CODE` |
| `Weather.Display` | weather/weather.py:144-177 | an item raises only for UUU, VVV or VEC with a value `float` rejects, or a VEC value ≤ -393.75 |
| `Weather.WindComponentSides` | weather/weather.py:155-163 | a UUU or VVV item renders the absolute value of its number, and "동"/"북" for a value ≥ 0 (zero included), "서"/"남" for a negative one |
| `Weather.PtyEchoesCode` | weather/weather.py:168-170 | a PTY item never raises and always echoes its raw code; codes "0" to "7" go through `PTY_CODE`, others are described as unknown |
| `Weather.VecRendering` | weather/weather.py:172-174 | a VEC item renders as raw value + "°" + " (" + the label of its sector + ")" |
| `Weather.VecRenderingAny` | weather/weather.py:172-174 | for every bearing `get_wind_direction` accepts, a VEC item renders as raw value + "°" + " (" + its compass label + ")" |
| `Weather.StepField` | weather/weather.py:144-177 | one item writes exactly its own category's key and leaves every other key as it was; an unrecognised category changes nothing |
| `Weather.Step` | weather/weather.py:144-177 | one pass of the loop raises exactly when the item raises, with the item's error; otherwise an unrecognised category leaves the dictionary as it was, and a recognised one adds or overwrites its own key with the item's display text and keeps every other key |
| `Weather.Formatted` | weather/weather.py:142-179 | the dictionary's keys are a subset of the eight field names; no items give an empty dictionary |
| `Weather.FailureIsFinal` | weather/weather.py:144-179 | once an item raises, the rest of the items make no difference: the whole call raises that error |
| `Weather.FormattedFailure` | weather/weather.py:144-179 | the call raises exactly when some item raises, and then with the error of the first such item |
| `Weather.FormattedField` | weather/weather.py:142-179 | a key is present exactly when some item of its category occurs, and its value is the display text of the last such item |
| `Weather.FormattedLastWins` | weather/weather.py:142-179 | the same, for all keys at once: only the eight names, and a later item of a category overwrites an earlier one |
| `Weather.FormatWeatherData` | weather/weather.py:132-179 | the loop computes exactly the fold `Formatted`, returning at the first item that raises |
| `Weather.ErrorText` | weather/weather.py:247-248 | `str(e)`: a failed `float()` quotes the raw value in single quotes; an out-of-range direction index reads "list index out of range", and only it does |
| `Weather.ApiError` | weather/weather.py:218-220 | the message for a result code other than "00" contains both `resultMsg` and the code |
| `Weather.FieldLines` | weather/weather.py:235-244 | each report line shows its label and the field's text, or "N/A" when the key is absent |
| `Weather.ReportParts` | weather/weather.py:230-245 | the template is 14 pieces: the title, the grid point, the base date and time, the first section's heading and its four field lines, the second section's heading and its four field lines, and the closing indentation |
| `Weather.ReportText` | weather/weather.py:230-245 | the report starts with its title and names the grid point |
| `Weather.ReportFieldsAreFieldNames` | weather/weather.py:235-244 | the report has eight field lines, one for each key `format_weather_data` can write |
| `Weather.ReportShowsEveryField` | weather/weather.py:230-245 | the report contains the line of every field, "N/A" for an absent one, and the base date and time |
| `Weather.CurrentWeather` | weather/weather.py:181-248 | the checks come in order: empty service key (before any request), no `response` (including the transport-error dict), result code ≠ "00", unreadable body, empty items, a raising item, and otherwise the report |
| `Weather.CurrentWeatherShowsAbsentAsNA` | weather/weather.py:222-246 | a successful report, whatever `resultMsg` accompanies code "00", shows "N/A" on the line of every category the response did not carry |
| `Search.IsErrorStatus` | mcp-langgraph-fastapi-multisearch/tools/search_tool.py:30 | `raise_for_status` raises exactly for a 4xx or 5xx status, never for a 2xx or 3xx one |
| `Search.OrganicResults` | mcp-langgraph-fastapi-multisearch/tools/search_tool.py:33 | `results.get("organic", [])`: the organic list, or an empty list when the key is absent |
| `Search.SliceLength` | mcp-langgraph-fastapi-multisearch/tools/search_tool.py:40 | `organic[:max_results]` has min(max_results, n) elements for max_results ≥ 0, and drops from the end for a negative one |
| `Search.Project` | mcp-langgraph-fastapi-multisearch/tools/search_tool.py:36-39 | each record has exactly the keys `title` and `snippet`, "" for a missing one; other fields are discarded |
| `Search.ProjectAll` | mcp-langgraph-fastapi-multisearch/tools/search_tool.py:35-41 | record i is the projection of organic result i, for as many records as the slice holds |
| `Search.SearchAll` | mcp-langgraph-fastapi-multisearch/tools/search_tool.py:29-41 | a 4xx or 5xx status raises before any parsing; otherwise the records are the projection of the slice |
| `Search.SearchGoogleAll` | mcp-langgraph-fastapi-multisearch/tools/search_tool.py:17-41 | with `max_results` defaulting to 5: at most `max_results` records when `max_results` ≥ 0, and never more than there are organic results |
| `Search.SearchAllResults` | mcp-langgraph-fastapi-multisearch/tools/search_tool.py:33-41 | for `max_results` ≥ 0: min(max_results, organic count) records, record i from organic result i, keys exactly `title` and `snippet`, "" defaults |
| `Search.NoOrganicKeyIsEmpty` | mcp-langgraph-fastapi-multisearch/tools/search_tool.py:33 | a payload with no `organic` key gives an empty list, not an error |
| `Search.ErrorStatusIgnoresBody` | mcp-langgraph-fastapi-multisearch/tools/search_tool.py:30-31 | with an error status the body is never looked at |
| `Search.FewerResultsArePrefix` | mcp-langgraph-fastapi-multisearch/tools/search_tool.py:35-41 | asking for fewer results gives a prefix of asking for more: truncation keeps the provider's order |
| `Graph.Snippets` | mcp-langgraph-fastapi-multisearch/graph.py:16 | at most one snippet per result, and none of them empty |
| `Graph.SnippetsAppend` | mcp-langgraph-fastapi-multisearch/graph.py:16 | the filter distributes over concatenation, so kept snippets stay in their original order |
| `Graph.SnippetsSingle` | mcp-langgraph-fastapi-multisearch/graph.py:16 | one result contributes its snippet exactly when the snippet is present and non-empty |
| `Graph.SnippetsKeepAll` | mcp-langgraph-fastapi-multisearch/graph.py:16 | when every result has a non-empty snippet, all are kept, in order |
| `Graph.SnippetsNoneKept` | mcp-langgraph-fastapi-multisearch/graph.py:16 | results without a snippet contribute nothing |
| `Graph.Join` | mcp-langgraph-fastapi-multisearch/graph.py:17 | `"\n".join`: empty for no lines, starts with the first line, and puts a line break right after it when there is a second |
| `Graph.Combined` | mcp-langgraph-fastapi-multisearch/graph.py:17 | the combined text is empty exactly when there are no snippets, and otherwise starts with "- " and the first snippet |
| `Graph.Bullets` | mcp-langgraph-fastapi-multisearch/graph.py:17 | bullet i is "- " followed by snippet i |
| `Graph.LinesOfJoin` | mcp-langgraph-fastapi-multisearch/graph.py:17 | splitting a `"\n".join` at line breaks gives back the lines when none contains a break |
| `Graph.JoinEndsWithLastLine` | mcp-langgraph-fastapi-multisearch/graph.py:17 | the join ends with its last line, with no trailing newline |
| `Graph.CombinedBullets` | mcp-langgraph-fastapi-multisearch/graph.py:17 | the combined text is empty exactly when no snippet survives and ends with the last bullet; when no snippet contains a line break, it splits back into one bullet per kept snippet |
| `Graph.AnswerPrompt` | mcp-langgraph-fastapi-multisearch/graph.py:26 | the prompt contains the query in single quotes before the blank line that precedes the context, and ends with that blank line and the context |
| `Graph.SearchNode` | mcp-langgraph-fastapi-multisearch/graph.py:12-22 | on success the state is the input state with only `context` set, to a value |
| `Graph.SearchNodeAtMostFive` | mcp-langgraph-fastapi-multisearch/graph.py:15-16 | the search node asks for at most 5 results, so it summarises at most 5 snippets |
| `Graph.SearchNodeStoresSummary` | mcp-langgraph-fastapi-multisearch/graph.py:16-22 | the stored context is the model's reply to the summarise instruction followed by the combined text, not the combined text itself |
| `Graph.ChatNode` | mcp-langgraph-fastapi-multisearch/graph.py:25-28 | with no context it raises `KeyError`; on success only `answer` is set, to the model's reply to the prompt built from the query and context |
| `Graph.Next` | mcp-langgraph-fastapi-multisearch/graph.py:38-40 | search has the single edge to chat, chat has the edge to END, and each edge moves one node closer to END |
| `Graph.Trace` | mcp-langgraph-fastapi-multisearch/graph.py:38-40 | the path from a node starts at it, follows an edge between every two consecutive nodes, and ends at the node whose edge is END |
| `Graph.RunFrom` | mcp-langgraph-fastapi-multisearch/graph.py:32-42 | running from a node applies exactly the nodes of its path, in order, stopping at the first failure |
| `Graph.ExecutionOrder` | mcp-langgraph-fastapi-multisearch/graph.py:38-40 | the path from the entry point (`set_entry_point("search")`) is search, then chat, each once, ending after chat |
| `Graph.Invoke` | mcp-langgraph-fastapi-multisearch/graph.py:32-42 | invoking the compiled graph applies search then chat; a successful run keeps the query and has both `context` and `answer` set |
| `Graph.InvokeIsSearchThenChat` | mcp-langgraph-fastapi-multisearch/graph.py:32-42 | invoking the graph is the search node followed by the chat node, stopping at the first failure |
| `Graph.AnswerUsesSearchedContext` | mcp-langgraph-fastapi-multisearch/graph.py:12-42 | from `{query}` a run never fails for want of a context; on success the query is unchanged and the answer is computed from the context the search node wrote |
| `LegacySearch.FirstSnippet` | mcp-server/tools/search_tool.py:15 | "No results" when `organic` is missing or empty; otherwise the first entry's snippet, or `KeyError` when it has none |
| `LegacySearch.SearchGoogle` | mcp-server/tools/search_tool.py:9-15 | for the body the POST returns: "No results" when `organic` is missing or empty, `KeyError("snippet")` exactly when the first entry has no snippet, otherwise that snippet |
| `LegacySearch.OnlyFirstResultMatters` | mcp-server/tools/search_tool.py:15 | entries after the first never affect the result |
| `LegacySearch.StatusIsIgnored` | mcp-server/tools/search_tool.py:13-15 | the HTTP status is never checked: responses with the same body give the same result |
| `LegacySearch.MissingSnippetContrast` | mcp-server/tools/search_tool.py:15 | a first entry without a snippet is a `KeyError` here, while the multi-result search keeps it with "" |

## Left out

- HTTP and parsing:
  - The HTTP calls (`httpx.AsyncClient.get`, `requests.post`), `xmltodict.parse` and `response.json()` are not modelled. They are function parameters (`fetch`, `post`), or the parsed value is a datatype.
  - The `xmltodict` quirk that turns a single `<item>` into a dictionary instead of a list is not modelled.
  - Items are assumed to always carry `category` and `obsrValue`, and the header to always carry `resultCode` and `resultMsg`.
- Search payloads: `Search.Entry` holds only string-valued fields, and `organic` is either absent or a list. A JSON `null` cannot be represented. So the model does not capture a `null` snippet, which `search_google_all` passes on as `None`, `search_node` drops and `search_google` returns as `None`. Nor does it capture `"organic": null`, which makes `search_google_all` raise `TypeError` and `search_google` return "No results".
- The POST never fails in the model: connection errors from `requests.post` and decode errors from `response.json()` cannot occur in `Search.SearchGoogleAll`, `LegacySearch.SearchGoogle` or `Graph.SearchNode`.
- `chat_completion`: the OpenAI client and its `.strip()` are the opaque function parameter `chat`.
- Wall-clock time: `datetime.now()` readings are parameters. `get_current_date` is the `today` argument itself.
- Floating point:
  - `float(value)` is an `Option<real>` field of each item (None where `float` raises). Non-finite values such as "nan" or "inf" are not modelled.
  - The `:.1f` rendering of wind components is the abstract parameter `fixed1`.
  - `get_wind_direction` is modelled on exact reals, not IEEE doubles.
- Exception texts: the text of an exception is carried as given. The `KeyError`/`TypeError` of a missing body level is the `detail` of `Body.Unreadable`. `ValueError` uses Python's "could not convert string to float" wording, with the raw value in single quotes (Python's `repr` quoting of values that contain quotes is not modelled).
- The `mcp`/FastMCP tool registration and the LangGraph `StateGraph` compile/invoke machinery are foreign libraries. The graph is modelled only as its fixed wiring.
- Not modelled:
  - the FastAPI handlers (`main.py` files), which call the graph (multisearch, msearch-hkey) or, in `mcp-server`, call `search_google` and then `chat_completion` directly with their own prompt;
  - `mcp-langgraph/main.py`, a second copy of the two-node graph whose search node uses the single-result `search_google`, with console input and output;
  - the `mcp-langgraph-fastapi/graph.py` variant, which has the same two-node shape without local string logic;
  - the Streamlit UI;
  - `.env` loading and async/await.
- `Graph.State` has the three `MCPState` fields only. An unset field and a field set to `None` are both `None` in the model, since the request handler starts from `{query}` alone.
