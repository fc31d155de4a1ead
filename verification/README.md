# MCP demo: tool-using chat client and weather tool server

This project models the two programs of the MCP demo repository.

- **The chat client** (`mcp-client/client.py`) reads queries at a prompt. It sends each query to a chat-completion
  endpoint, together with the tools an MCP server offers. It runs every tool call the model asks for and feeds the
  results back. When the model answers without tool calls, it prints the collected text.
- **The weather server** (`weather/weather_commented.py`) offers two tools: `get_alerts` and `get_forecast`. They turn
  National Weather Service JSON into text.

Everything outside the process is a parameter:

- The completion endpoint is a `Gateway`. It receives the request body and returns the assistant reply, or `None`
  when the HTTP call or the reply format fails.
- The MCP server's `call_tool` is an `Invoker`. It receives the name and the parsed arguments and returns the result
  text, or `None` when the call raises.
- Python's printing of the parsed arguments in the marker line is a `Renderer`.
- The weather server's request helper is a `Fetcher`. It receives a URL and returns the decoded JSON body, or `None`
  on any failure.

The project has these modules:

- `Wrappers`: `Option` and `Result`.
- `Json`: decoded JSON values and the Python operations the source applies to them: truthiness, `d[k]`, `k in d` and
  `str()`.
- `Text`: `str.join`, line splitting, `strip` and `lower`.
- `Client`: the tool adapter, the request body, the server command and the `quit` test.
- `Conversation`: `process_query`. The function `Converse` specifies it, the methods `ProcessQuery` and `ToolLoop` are its loop, and
  `ProcessValid` characterizes every run.
- `Chat`: `chat_loop`.
- `Weather`: the tool server.

The `process_query` loop has no bound in the source. The model gives it `fuel`, the number of gateway calls allowed
after the first. A run that would need more ends as `OutOfFuel`.

## Model

| member | source | states |
|---|---|---|
| Client.ConvertTool | mcp-client/client.py:60-69 | The adapted tool is a dict with exactly the keys `type` and `function`. `type` is `"function"`. The inner dict has exactly the keys `name`, `description` and `parameters`. The name and the input schema are copied unchanged. |
| Client.ConvertToolRoundTrip | mcp-client/client.py:60-69 | Decoding an adapted tool gives back the original name, description (a missing one becomes `null`) and schema, so nothing is lost or altered. |
| Client.ConvertToolInjective | mcp-client/client.py:60-69 | Different tools are never adapted to the same dict. |
| Client.ConvertTools | mcp-client/client.py:98 | There is one adapted dict per tool of the server, in the same order, and each one decodes to its tool. |
| Client.DropNone | mcp-client/client.py:85-86 | Dropping `None` values keeps only entries that were in the input with a present value. |
| Client.DropNoneKeepsPresent | mcp-client/client.py:85-86 | Every entry whose value is not `None` is kept, with its key and value. |
| Client.DropNoneConcat | mcp-client/client.py:85-86 | The filter works entry by entry, so the kept entries stay in the dict's order. |
| Client.RequestBodyShape | mcp-client/client.py:78-86 | The body's keys are `model`, `messages` and `max_tokens`, in that order, followed by `tools` exactly when the tool list is non-empty. The values are the model name, the transcript, 1000 and the tool list. |
| Client.ServerCommand | mcp-client/client.py:37-47 | A `.py` path runs under `python` and a `.js` path under `node`, with the path as the only argument. Any other path is rejected with the source's message. Each holds in both directions. |
| Client.IsQuitSpellings | mcp-client/client.py:150 | The quit test accepts exactly the four-letter words `quit` in any mix of letter cases. |
| Client.QuitIgnoresSpace | mcp-client/client.py:148-150 | `quit` surrounded by any white space still ends the session once the line is stripped. |
| Conversation.FirstFailing | mcp-client/client.py:116-123 | Gives the position of the first tool call whose invocation fails: every earlier call succeeds and this one fails. |
| Conversation.RunCallsSpec | mcp-client/client.py:116-130 | The calls of one reply run in list order. The turn fails exactly when some call fails, and then names the first failing call. Otherwise the k-th `tool` message carries the k-th call's id and that call's result, and the k-th marker names the k-th call. |
| Conversation.ExecuteToolCalls | mcp-client/client.py:116-130 | The inner `for` loop computes exactly the turn `RunCalls` specifies. |
| Conversation.ProcessQuery | mcp-client/client.py:92-139 | The method computes exactly the run `Process` specifies, including the failure of the first gateway call. The returned string is `final_text` joined with newlines. |
| Conversation.ToolLoop | mcp-client/client.py:111-137 | The `while` loop, from any state after a gateway reply, computes exactly the rest of the run `Converse` specifies. |
| Conversation.ConverseValid | mcp-client/client.py:111-139 | From any state the loop reaches, the rest of the loop is a valid run (see `ProcessValid`). |
| Conversation.ProcessValid | mcp-client/client.py:92-139 | Every run makes at most `fuel + 1` gateway calls and has these properties. The first request is the user message alone. Each request got the recorded reply. Each later request is the previous one plus the assistant reply and one `tool` message per call, answering the calls in order. A finished run returns the last transcript sent. The final tool-free reply is not in it. The output lines are each reply's content, when present and non-empty, followed by its marker lines. A failed tool names the first failing call. |
| Conversation.FirstReplyFinal | mcp-client/client.py:101-111 | If the first reply has no tool calls, the gateway is called exactly once, the transcript stays `[user query]`, and the result is the reply's content, or `""` without one. |
| Conversation.OneToolThenAnswer | mcp-client/client.py:111-139 | One tool call followed by a plain answer gives the transcript `[user, assistant, tool]`. The response is the marker line, a newline and the answer. |
| Conversation.DoneResponse | mcp-client/client.py:136-139 | A finished query returns its output lines joined with newlines, in the order they were appended. |
| Conversation.SentAppendOnly | mcp-client/client.py:111-134 | Every request extends every earlier one: the transcript only grows. |
| Conversation.SentOnlyToolTurns | mcp-client/client.py:111-113 | Every assistant message placed in a transcript has tool calls. |
| Conversation.FinalReplyNotRecorded | mcp-client/client.py:111-139 | The tool-free final reply of a finished query never enters its transcript. |
| Chat.Step | mcp-client/client.py:146-153 | One pass stops exactly at a `quit` line (after stripping) or at the end of input. Otherwise it moves forward in the input. |
| Chat.QuitFrom | mcp-client/client.py:148-151 | Gives the position of the first `quit` line at or after a position, or the end of input. |
| Chat.EventsSpec | mcp-client/client.py:146-155 | The session answers every line before the first `quit`, in order, each with the outcome of that stripped line as a query. It answers nothing from the `quit` line on. |
| Chat.QuitEndsSession | mcp-client/client.py:148-151 | `quit` or `QUIT`, with any surrounding white space, ends the session at once. |
| Chat.ChatLoop | mcp-client/client.py:146-157 | The read, strip, quit test, query and report loop prints exactly the events `Events` specifies. It stops at the end of input (see Findings). |
| Chat.Respond | mcp-client/client.py:153-157 | A query line prints the response after a newline, or an error report when the query raised. |
| Chat.EndOfInputAsWritten | mcp-client/client.py:146-157 | As written, every one of the next `n` passes at the end of input reports an input error, for any `n`. The loop never stops. |
| Chat.EventsBounded | mcp-client/client.py:146-157 | With the end of input ending the session, every session ends after at most one event per line. |
| Json.Index | weather/weather_commented.py:103 | `d[k]` succeeds exactly on a dict holding `k` and gives its value. It raises `KeyError(k)` on a dict without `k` and `TypeError` on anything else. |
| Json.Contains | weather/weather_commented.py:142 | `k in d` tests keys of a dict, elements of a list and substrings of a string. It raises `TypeError` on anything else. |
| Json.Str | weather/weather_commented.py:107-113 | `str()` of a string is the string. `None`, booleans and integers print as Python prints them. |
| Json.Digits | weather/weather_commented.py:205 | A natural number prints as decimal digits with no leading zero; zero prints as `0`. |
| Json.DigitsRoundTrip | weather/weather_commented.py:205 | The printed digits of a natural number read back as that number. |
| Text.JoinLength | weather/weather_commented.py:213 | Joining `n > 0` parts gives their total length plus `n - 1` separators: the join inserts one separator between each two neighbouring parts. |
| Text.SplitLinesJoin | weather/weather_commented.py:107-113 | Splitting lines joined by newlines gives back the lines, when none of them contains a newline. |
| Text.StripSpec | mcp-client/client.py:148 | A stripped line neither starts nor ends with white space. |
| Text.StripSurrounded | mcp-client/client.py:148 | Stripping removes exactly the surrounding white space. |
| Text.Lower | mcp-client/client.py:150 | Lower-casing keeps the length and lowers each character independently. |
| Weather.AlertsUrlRoundTrip | weather/weather_commented.py:133 | The state code can be read back from the alerts URL: it goes in unchanged after `https://api.weather.gov/alerts/active/area/`. |
| Weather.AlertsUrlInjective | weather/weather_commented.py:133 | Different states are sent to different URLs. |
| Weather.CoordinatesOfPointsUrl | weather/weather_commented.py:175 | Whatever it reads out of a URL is a comma-free latitude and a longitude that build that same URL. |
| Weather.PointsUrlRoundTrip | weather/weather_commented.py:175 | A latitude without a comma, as Python prints a float, and the longitude can both be read back from the points URL. |
| Weather.PointsUrlInjective | weather/weather_commented.py:175 | Different locations, with comma-free latitudes, are sent to different URLs. |
| Weather.Field | weather/weather_commented.py:108-112 | `props.get(key, default)` prints a present value verbatim and gives the default for a missing key. It raises `AttributeError` when `props` is not a dict. |
| Weather.FormatAlert | weather/weather_commented.py:91-113 | An alert prints its event, area, severity, description and instruction, each verbatim when present. The defaults are "Unknown" three times, then "No description available" and "No specific instructions provided". It fails exactly when the feature has no `properties` dict, with the error Python raises. |
| Weather.AlertTextRoundTrip | weather/weather_commented.py:107-113 | The printed alert is an empty line, the five labelled fields, one per line, and an empty line. Single-line fields read back line by line. |
| Weather.MapAllSpec | weather/weather_commented.py:151 | The list comprehension gives one result per element, in order, when every element succeeds. Otherwise it raises what the first failing element raised. |
| Weather.JoinAllSpec | weather/weather_commented.py:151-154 | A comprehension joined by `"\n---\n"` succeeds exactly when every element does, and then joins one string per element, in order. Otherwise it raises what the first failing element raised. |
| Weather.AlertsText | weather/weather_commented.py:142-154 | Missing or falsy data, or data without `features`, gives "Unable to fetch alerts or no alerts found.". A falsy `features` gives "No active alerts for this state.". The `in` test raises `TypeError` on a truthy number or boolean. On a list or string that contains `"features"`, `data["features"]` raises `TypeError`. When the data is a dict whose `features` value is truthy but not a list, iterating it raises `TypeError`. |
| Weather.GetAlerts | weather/weather_commented.py:121-154 | The tool fetches the alerts URL of the given state. No response gives "Unable to fetch alerts or no alerts found.". A dict response whose `features` is falsy, such as an empty list, gives "No active alerts for this state.", whatever other keys it has. A non-empty `features` list gives the joined comprehension over the features (see `JoinAllSpec` and `AlertsTextFeatures`). |
| Weather.AlertsTextFeatures | weather/weather_commented.py:146-154 | A non-empty list of features prints one alert per feature, in order, joined by `"\n---\n"`. Otherwise it raises what the first malformed feature raises. |
| Weather.PeriodTextSpec | weather/weather_commented.py:203-208 | A period prints when it is a dict with all six keys, and then each value appears in its place. A non-dict raises `TypeError`, and a dict raises `KeyError` for the first missing key in evaluation order. |
| Weather.PeriodTextRoundTrip | weather/weather_commented.py:203-208 | The printed period is its lines joined by newlines. Single-line fields read back line by line. |
| Weather.Window | weather/weather_commented.py:201 | `periods[:5]` visits the first `min(5, n)` list elements, or the first characters of a string. Other values raise `TypeError`. |
| Weather.Forecast | weather/weather_commented.py:175-190 | The points URL is always requested first, and at most two requests are made. A failed or falsy points response gives "Unable to fetch forecast data for this location." with no second request. The second request goes to the `forecast` URL of the points response. |
| Weather.GetForecast | weather/weather_commented.py:175-213 | The two requests and the `for` loop over `periods[:5]` compute exactly `Forecast`. |
| Weather.ForecastTextPeriods | weather/weather_commented.py:194-213 | With a list of periods, the forecast prints the first `min(5, n)` periods, in order, joined by `"\n---\n"`. Otherwise it raises what the first malformed one raises. |
| Weather.ForecastTextFirstFive | weather/weather_commented.py:201 | Periods after the fifth never affect the result. |
| Weather.ForecastFetched | weather/weather_commented.py:175-213 | When both responses are usable, the tool's text is the forecast text of the second response, after exactly the two requests. |
| Weather.ForecastUnavailable | weather/weather_commented.py:183-190 | A forecast URL whose response is missing or falsy gives "Unable to fetch detailed forecast." after exactly the two requests. |

## Left out

- HTTP and the MCP SDK are not modelled. This covers `requests.post`, `raise_for_status`, `httpx`, `stdio_client`, `ClientSession`, `list_tools`, `call_tool` and `mcp.run`, which are foreign library calls. They appear only as the `Gateway`, `Invoker` and `Fetcher` oracles. A malformed completion reply, such as one missing `choices`, counts as a gateway failure.
- The oracles are deterministic functions. A server whose answers change between identical requests is outside the model.
- The tool list is fetched once per session (`Session.descriptors`). The source lists tools again for every query.
- Environment, API key, `print`, `input` and `async` scheduling are left out as I/O. The lines typed at the prompt are a finite sequence of strings.
- `json.loads` of tool arguments and `str(result.content)` are not modelled. The arguments are already parsed and the result text comes from the `Invoker`. Malformed `tool_calls` entries, such as a missing `function` key or unparsable arguments, are not modelled.
- Conversation.ProcessQuery: the loop is bounded by `fuel` (gateway calls after the first). The source loops until the model stops asking for tools.
- Conversation.ExecuteToolCalls: the marker line is appended before the call, but with a pure `Invoker` this order is not observable. When a call raises, `final_text` is discarded anyway.
- Chat.ChatLoop: an error report carries the run's outcome, not the text of the exception. Empty lines are sent as queries, as the code does.
- Json.Str: lists and dicts print as `""` rather than as Python's `repr`. Floats are not modelled: JSON numbers are integers, and latitude and longitude are passed to `PointsUrl` already printed.
- Text.Lower: only ASCII letters are lowered. No other character lowers to a letter of `quit` without changing the length, so the quit test is exact.
- Weather.Window: slicing a dict raises `TypeError` in the model. Python 3.12 and later raise `KeyError` instead.
- Weather.Forecast: a forecast URL that is not a string makes the request helper fail before sending anything, so it is not counted as a request.
- `docs-site/astro.config.mjs` is static site configuration with no logic.

## Findings

| source | as written | input that shows it | evidently intended | confidence | as-written member | corrected member |
|---|---|---|---|---|---|---|
| mcp-client/client.py:146-157 | At the end of input, `input` raises `EOFError`. `except Exception` catches it, prints an error and reads again, forever. | Piped standard input that ends without a `quit` line. At a terminal, Ctrl-D makes one pass report an error and prompt again. | The session ends at the end of input. | medium, not executed | Chat.EndOfInputAsWritten | Chat.EventsBounded |
