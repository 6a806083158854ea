# Weather MCP study: a verified model of its deterministic core

The repository connects a local Ollama model, the US National Weather Service (NWS) API and
MCP clients. Its HTTP server (`mcp-server/server_app.py`) and two MCP servers
(`weather_mcp_simple.py`, `weather_mcp.py`) answer a natural-language weather question in
the same way:

1. One model call is made with a fixed system message.
2. The lower-cased query is tested for weather keywords.
3. A fixed tool call is chosen by an ordered chain of place names.
4. The NWS replies are formatted.
5. A second model call translates the result into Korean. If it fails, the answer falls back to the untranslated text.

`weather.py` carries the plain `get_alerts` and `get_forecast` tools. `mcp_bridge.py` relays
MCP tool calls to the HTTP server and folds its event stream into one string.
`mcp-client/client_ollama.py` is an MCP client with its own prompt builder, a recursive
flattener and an in-place argument converter.

The Dafny model keeps all of that logic. The model and the NWS service are inputs:
`Orchestration.World` gives the model's reply to each prompt and the NWS reply for each URL.
The pipeline methods also return the outside requests they make, so their contracts state
which calls happen and in what order: `Nws.FetchForecast`, `Orchestration.FetchWeatherData`,
`Orchestration.AnswerWithTool`, `Orchestration.ProcessWeatherQuery`,
`ServerApp.GenerateResponse`, `ServerApp.RespondToQuery` and
`ClientOllama.McpClient.ProcessQuery`. The tool and endpoint methods (`WeatherTool.GetForecast`,
`WeatherMcp.HandleCallTool`, `ServerApp.GetForecastEndpoint`) and the functions
`WeatherTool.GetAlerts` and `ServerApp.GetAlertsEndpoint` state only their results.

Modules:

- `Text` (text.dfy): substring tests, ASCII `lower()`, `join` and `split`.
- `OllamaPrompt` (ollama_prompt.dfy): the prompt loop and the 4000-character cap.
- `Nws` (nws.dfy): `format_alert`, the forecast loop, and the lookup outcomes.
- `QueryRouter` (router.dfy): keywords and place names.
- `Orchestration` (orchestration.dfy): the shared `process_weather_query` pipeline.
- `ServerApp` (server_app.dfy): the event stream and the two endpoints.
- `WeatherTool` (weather_tool.dfy): the tools of `weather.py`, which are also the tools of `weather_mcp_simple.py`.
- `WeatherMcp` (weather_mcp.dfy): the `handle_call_tool` dispatch.
- `McpBridge` (mcp_bridge.dfy): the bridge.
- `ClientOllama` (client_ollama.dfy): the client.

Where a method carries out a loop or a step-by-step state change of the source, its
`ensures` ties the result to a specification function. The properties are then proved about
that function.

Two behaviours of the code are worth knowing.

**Two entries of the California branch can never match.** The fourth branch of the place
chain (server_app.py:188, weather_mcp_simple.py:218, weather_mcp.py:266) lists "california",
"캘리포니아" and "ca" for the California alerts. The first branch (server_app.py:179 and its
copies) already lists "california" and "캘리포니아" for the Los Angeles forecast and is tried
first, so a query naming either gets the Los Angeles forecast
(`QueryRouter.CaliforniaNamesRouteToLosAngeles`), and the California alerts are reached only
through the bare "ca" (`QueryRouter.CaliforniaAlertsOnlyViaCa`). Also, "forecast" contains "ca", so a
forecast question naming none of the other places gets the California alerts
(`QueryRouter.ForecastKeywordSelectsCaliforniaAlerts`).

**The bridge's tools forward questions that are routed the same way.**
- `get_forecast` always ends at the Los Angeles forecast, whatever floats it is given (plain decimals, exponents, `inf`, `nan`).
- `get_alerts("NY")` ends at the New York forecast.

## Model

| member | source | states |
|---|---|---|
| Text.LowerIdempotent | mcp-server/server_app.py:169 | lower-casing a lowered query changes nothing |
| Text.ContainsTransitive | mcp-server/server_app.py:172 | a substring of a substring of the query is a substring of the query |
| Text.JoinLength | mcp-server/weather.py:111 | joining n parts inserts exactly n - 1 separators |
| OllamaPrompt.Truncated | mcp-server/server_app.py:79-80 | a prompt over 4000 characters becomes its first 4000 characters plus the truncation marker, any other prompt is unchanged, and the result is at most 4000 plus the marker's length |
| OllamaPrompt.BuildPrompt | mcp-server/server_app.py:67-76 | the `+=` loop yields each message's labelled segment in message order, then the `Assistant: ` cue |
| OllamaPrompt.BuildCappedPrompt | mcp-server/server_app.py:67-80 | the prompt the server copies post is the flattened prompt after the cap, and its length is bounded |
| OllamaPrompt.TruncatedIdempotent | mcp-server/server_app.py:79-80 | capping a capped prompt again leaves it unchanged |
| OllamaPrompt.SegmentsAppend | mcp-server/server_app.py:68-74 | the segments of two message lists concatenate |
| OllamaPrompt.RoleOf | mcp-server/server_app.py:69-74 | a role string is one of the other roles exactly when it is not "system", "user" or "assistant", and keeps its name |
| OllamaPrompt.OtherRolesIgnored | mcp-server/server_app.py:68-74 | messages with a role other than system, user or assistant contribute nothing |
| OllamaPrompt.SystemTextInPrompt | mcp-server/server_app.py:70 | the system text follows its `System: ` label inside the sent prompt |
| OllamaPrompt.SystemUserPrompt | mcp-server/weather_mcp_simple.py:50-60 | the exact prompt of a system-plus-user conversation |
| Nws.AlertDefaults | mcp-server/server_app.py:108-117 | with no keys, every field takes its default: Unknown, No description available, No specific instructions provided |
| Nws.AlertReadsOnlyItsKeys | mcp-server/weather.py:39-48 | the alert text depends only on its five keys |
| Nws.AlertBlockIsLines | mcp-server/server_app.py:111-117 | the alert block is its Event, Area, Severity, Description and Instructions lines in that order, between newlines |
| Nws.AlertBlockRoundTrip | mcp-server/server_app.py:111-117 | for newline-free fields, reading the five fields back from an alert block gives the fields it was made from |
| Nws.AlertRoundTrip | mcp-server/weather_mcp.py:92-101 | for newline-free fields, the fields `format_alert` shows, with defaults filled, are read back from its text |
| Nws.Shown | mcp-server/server_app.py:208 | exactly min(5, n) periods are kept, the first ones in order |
| Nws.ForecastText | mcp-server/weather.py:99-111 | the forecast text is empty exactly when there are no periods, and otherwise starts with the first period's block |
| Nws.FormatForecast | mcp-server/weather.py:99-111 | the append loop and join produce the forecast text of the periods |
| Nws.ForecastBlocksInOrder | mcp-server/weather_mcp_simple.py:143-154 | there are min(5, n) blocks and block i describes period i |
| Nws.ForecastTextLength | mcp-server/weather.py:101-111 | the text's length is the blocks' lengths plus min(5, n) - 1 separators |
| Nws.ForecastIgnoresLaterPeriods | mcp-server/weather_mcp.py:176 | periods after the fifth never change the forecast |
| Nws.ForecastOutcomeOf | mcp-server/weather.py:83-111 | a failed points lookup, a failed forecast lookup, and a forecast text happen for exactly the matching replies |
| Nws.ForecastRequests | mcp-server/server_app.py:197-205 | the forecast tool GETs the points URL first, and the forecast URL second exactly when the points lookup succeeded |
| Nws.FetchForecast | mcp-server/weather_mcp.py:165-189 | the two-step lookup yields the forecast outcome with those requests |
| Nws.AlertsOutcomeOf | mcp-server/server_app.py:224-234 | alerts are unavailable exactly when there is no data, "no active alerts" exactly for an empty list, the KeyError exactly when a non-empty list has a feature without `properties`, and otherwise the `format_alert` blocks joined by the separator, which start with a newline |
| Nws.AlertsTextLength | mcp-server/weather.py:69-71 | the joined alert text has the blocks' lengths plus one separator between each pair |
| QueryRouter.SelectTool | mcp-server/server_app.py:179-194 | each of the four selections happens exactly under its place-name condition, in chain order, with the Los Angeles default when nothing matches |
| QueryRouter.Route | mcp-server/server_app.py:169-172 | no tool is chosen exactly when the lowered query has no weather keyword |
| QueryRouter.RouteIgnoresCase | mcp-server/weather_mcp_simple.py:199-200 | two queries equal after `lower()` are routed alike |
| QueryRouter.RouteOfLowered | mcp-server/weather_mcp.py:249-250 | routing the lowered query gives the same selection |
| QueryRouter.CaliforniaNamesRouteToLosAngeles | mcp-server/server_app.py:179-181 | a query naming "california" or "캘리포니아" gets the Los Angeles forecast |
| QueryRouter.CaliforniaAlertsOnlyViaCa | mcp-server/server_app.py:188-190 | the California alerts are reached only through a bare "ca" |
| QueryRouter.ForecastKeywordSelectsCaliforniaAlerts | mcp-server/server_app.py:170-190 | a "forecast" query with no Los Angeles, New York or Texas name gets the California alerts |
| QueryRouter.TexasQueryNamesNoLosAngeles | mcp-server/server_app.py:179 | the lowered Texas question contains no Los Angeles name |
| QueryRouter.TexasQueryNamesNoNewYork | mcp-server/server_app.py:182 | the lowered Texas question contains no New York name |
| QueryRouter.TexasQueryExample | mcp-server/server_app.py:185-187 | "What's the weather in Texas?" gets the Texas alerts |
| QueryRouter.KoreanTexasQueryExample | mcp-server/weather_mcp_simple.py:199-224 | "텍사스 날씨" gets the Texas alerts |
| QueryRouter.NonWeatherQueryExample | mcp-server/server_app.py:172 | "Hi" is not a weather question |
| Orchestration.WeatherData | mcp-server/server_app.py:196-234 | for the forecast call: the no-data text exactly when the points or the forecast lookup found nothing, a failure exactly when one raised, else the forecast text; for the alerts call: the no-data text exactly for no reply, the no-alerts text exactly for an empty list, a failure exactly when a feature lacks `properties`, else the joined alert blocks |
| Orchestration.WeatherRequests | mcp-server/weather_mcp_simple.py:227-262 | the alerts call GETs exactly the state's alerts URL; the forecast call GETs the points URL first, then the forecast URL the points reply names exactly when the points were found |
| Orchestration.FetchWeatherData | mcp-server/weather_mcp.py:275-312 | the tool-call branch yields that weather text with those requests |
| Orchestration.AnswerWithTool | mcp-server/weather_mcp_simple.py:226-298 | the tool branch returns the error text when a lookup raises, else the translated weather text (the untranslated text when translation fails), after the NWS GETs and one translation call |
| Orchestration.ProcessWeatherQuery | mcp-server/weather_mcp_simple.py:157-306 | `process_weather_query` returns the pipeline's answer and makes the pipeline's requests |
| Orchestration.WeatherCallsShape | mcp-server/weather_mcp.py:215-356 | the query goes to the model first, then only NWS GETs except possibly the last request, so at most two GETs and at most one more model call |
| Orchestration.NonWeatherQueryAnsweredByModel | mcp-server/weather_mcp_simple.py:298-301 | a non-weather question is answered with the model's reply and makes no NWS call |
| Orchestration.ErrorAnswersCarryPrefix | mcp-server/weather_mcp_simple.py:303-304 | the answer starts with `오류가 발생했습니다: ` when the first call raises or a weather question's lookup raises |
| Orchestration.NoResponseAnswer | mcp-server/weather_mcp_simple.py:192-194 | a first reply without `response` gives the no-response text after that one request and no NWS call |
| Orchestration.QueryAndTranslationPromptsDiffer | mcp-server/server_app.py:139-263 | the first prompt and the translation prompt are never the same text |
| Orchestration.FirstReplyIgnoredForWeather | mcp-server/server_app.py:166-268 | for a weather question the first reply's text never reaches the answer |
| Orchestration.TranslationFallsBackToWeatherText | mcp-server/weather_mcp_simple.py:291-298 | a translation call that raises or lacks `response` gives the untranslated weather text |
| ServerApp.Events | mcp-server/server_app.py:133-276 | the stream has 3 to 5 events: two opening statuses, then only statuses, ending with exactly one result or error |
| ServerApp.AfterModelCall | mcp-server/server_app.py:160-276 | after the model call come one to three events, the last terminal and the others statuses |
| ServerApp.GenerateResponse | mcp-server/server_app.py:133-276 | the generator yields exactly the modelled events and makes the pipeline's requests |
| ServerApp.RespondToQuery | mcp-server/server_app.py:160-276 | the generator body after its opening statuses yields those events |
| ServerApp.StreamEndsWithToolAnswer | mcp-server/server_app.py:162-276 | the stream's last event carries the same string `process_weather_query` returns, and it is an error exactly when the first call failed or a lookup raised |
| ServerApp.WeatherStreamStatuses | mcp-server/server_app.py:136-237 | a weather question with data yields the four statuses in order, then the result carrying the answer `process_weather_query` returns |
| ServerApp.NoResponseStream | mcp-server/server_app.py:136-164 | a first reply without `response` yields the two opening statuses and the no-response error, with no NWS call |
| ServerApp.GetForecastEndpoint | mcp-server/server_app.py:289-343 | `/api/get_forecast` returns the response for the forecast outcome |
| ServerApp.ForecastResponseConsistent | mcp-server/server_app.py:296-343 | a forecast response succeeds exactly when it has no error and both lookups succeeded, and then carries the forecast text |
| ServerApp.GetAlertsEndpoint | mcp-server/server_app.py:345-382 | an alerts response succeeds exactly when it has no error and the data has features with properties; it carries the no-alerts text exactly for an empty list and otherwise the joined `format_alert` blocks; the fetch error is reported exactly when there is no data, and the KeyError text otherwise |
| WeatherTool.GetAlerts | mcp-server/weather.py:51-71 | the unavailable text, the no-alerts text, a raised error, and the joined blocks each happen for exactly their reply |
| WeatherTool.GetForecast | mcp-server/weather.py:74-111 | `get_forecast` returns the text for the forecast outcome |
| WeatherTool.ForecastSentinelsDistinct | mcp-server/weather_mcp_simple.py:132-140 | each sentinel is returned for exactly one failure |
| WeatherMcp.HandleCallTool | mcp-server/weather_mcp.py:158-359 | the dispatch returns the modelled result for every tool name and argument map |
| WeatherMcp.DispatchMatchesToolList | mcp-server/weather_mcp.py:104-155 | the call raises "Unknown tool" exactly for names not in the three-tool list |
| WeatherMcp.RequiredArgumentsEnforced | mcp-server/weather_mcp.py:123-151 | a listed tool fails for a missing argument exactly when one of its required arguments is absent |
| WeatherMcp.ForecastSentinelsDistinct | mcp-server/weather_mcp.py:169-189 | the location and forecast failure texts each come from exactly one failure |
| WeatherMcp.AlertsSentinelsDistinct | mcp-server/weather_mcp.py:200-209 | the alerts-unavailable text answers exactly a missing reply, and the no-alerts text exactly an empty list |
| WeatherMcp.NoActiveAlertsNamesState | mcp-server/weather_mcp.py:207-209 | the no-alerts text names the state, so different states give different texts |
| McpBridge.CallHttpServer | mcp-server/mcp_bridge.py:33-89 | the line loop returns the answer for the HTTP outcome and stream |
| McpBridge.FoldAppend | mcp-server/mcp_bridge.py:52-72 | folding concatenated lines continues from where the first part stopped |
| McpBridge.InertLineIgnored | mcp-server/mcp_bridge.py:55-72 | a non-`data:` line, an undecodable payload, a status or another type changes nothing wherever it appears |
| McpBridge.ErrorLineStops | mcp-server/mcp_bridge.py:65-68 | the first error event returns `오류: ` plus its message, discarding earlier results and later lines |
| McpBridge.FoldCollectsResults | mcp-server/mcp_bridge.py:62-63 | without errors the fold collects the result contents in arrival order |
| McpBridge.CleanStreamAnswer | mcp-server/mcp_bridge.py:74 | an error-free stream returns its results joined by newlines, or the fallback when there are none |
| McpBridge.StreamFold | mcp-server/mcp_bridge.py:51-74 | a stream of statuses ending in one result or error folds to that event's text |
| McpBridge.BridgeRelaysServerAnswer | mcp-server/mcp_bridge.py:119-128 | relaying the server's stream gives the pipeline's answer, with `오류: ` in front when it ended in an error |
| McpBridge.ServerRelay | mcp-server/mcp_bridge.py:33-89 | the bridge's reading of the server's reply for a query is the pipeline's answer, prefixed with `오류: ` exactly when the first call gave no `response` or a weather lookup raised |
| McpBridge.BridgeProcessWeatherQueryRelays | mcp-server/mcp_bridge.py:119-128 | the bridge's `process_weather_query`, connected to the server, returns the pipeline's answer for the same query, prefixed exactly on a server error |
| McpBridge.BridgeRelaysRoutedAnswer | mcp-server/mcp_bridge.py:33-89 | a forwarded query the server routes to a tool call comes back as that call's answer, prefixed exactly when its lookup raised |
| McpBridge.AlertsQueryLowered | mcp-server/mcp_bridge.py:99 | lower-casing the forwarded alerts question lowers only the state; the fixed text is already lower case |
| McpBridge.AlertsQueryIsWeatherQuery | mcp-server/mcp_bridge.py:99 | every forwarded alerts question is a weather question |
| McpBridge.NewYorkAlertsQueryGetsForecast | mcp-server/mcp_bridge.py:92-102 | `get_alerts("NY")` ends at the New York forecast |
| McpBridge.FloridaAlertsQueryGetsLosAngelesForecast | mcp-server/mcp_bridge.py:92-102 | `get_alerts("FL")` ends at the Los Angeles forecast |
| McpBridge.CaliforniaAlertsQueryGetsAlerts | mcp-server/mcp_bridge.py:92-102 | `get_alerts("CA")` ends at the California alerts |
| McpBridge.BridgeGetAlertsNewYork | mcp-server/mcp_bridge.py:92-102 | the bridge's `get_alerts("NY")`, connected to the server, returns the New York forecast answer |
| McpBridge.BridgeGetAlertsFlorida | mcp-server/mcp_bridge.py:92-102 | the bridge's `get_alerts("FL")`, connected to the server, returns the Los Angeles forecast answer |
| McpBridge.BridgeGetAlertsCalifornia | mcp-server/mcp_bridge.py:92-102 | the bridge's `get_alerts("CA")`, connected to the server, returns the California alerts answer |
| McpBridge.ForecastQueryCharacters | mcp-server/mcp_bridge.py:113 | the forwarded forecast question holds only the coordinates' characters and the fixed Korean text |
| McpBridge.ForecastQueryGetsLosAngelesForecast | mcp-server/mcp_bridge.py:105-116 | for coordinates made of the characters `str` gives a float (digits, sign, point, exponent, `inf`, `nan`), `get_forecast` ends at the Los Angeles forecast |
| McpBridge.BridgeGetForecastLosAngeles | mcp-server/mcp_bridge.py:105-116 | the bridge's `get_forecast`, connected to the server, returns the Los Angeles forecast answer for any float coordinates |
| ClientOllama.FlattenAllAppend | mcp-client/client_ollama.py:18-22 | flattening concatenated items concatenates their flattenings |
| ClientOllama.FlattenToStrList | mcp-client/client_ollama.py:16-26 | the recursive extend loop returns the in-order flattening |
| ClientOllama.FlattenNested | mcp-client/client_ollama.py:18-22 | nested lists and tuples flatten like one list of their items |
| ClientOllama.FlattenStrings | mcp-client/client_ollama.py:24-26 | flattening a list of strings gives the strings back |
| ClientOllama.FlattenIdempotent | mcp-client/client_ollama.py:16-26 | re-flattening a flattened result changes nothing |
| ClientOllama.FirstToolIndex | mcp-client/client_ollama.py:224-228 | the schema search stops at the first tool with the name, and finds none exactly when no tool has it |
| ClientOllama.ConvertedArgs | mcp-client/client_ollama.py:230-250 | the key set is preserved and only string values change |
| ClientOllama.UnknownToolUnchanged | mcp-client/client_ollama.py:224-230 | an unknown tool name leaves the arguments unchanged |
| ClientOllama.UnconvertedArguments | mcp-client/client_ollama.py:231-236 | a parameter not in the schema, or a value that is not a string, is kept |
| ClientOllama.BooleanConversion | mcp-client/client_ollama.py:247-248 | a boolean parameter becomes true exactly for "true", "1", "yes" or "on" in any case |
| ClientOllama.ConversionIdempotent | mcp-client/client_ollama.py:230-248 | converting twice is the same as converting once |
| ClientOllama.McpClient.FindToolSchema | mcp-client/client_ollama.py:224-228 | the search loop with `break` finds the first matching tool's schema |
| ClientOllama.McpClient.ConvertParameterTypes | mcp-client/client_ollama.py:221-250 | the values are rewritten in place to the converted arguments, and the same object is returned |
| ClientOllama.McpClient.ProcessQuery | mcp-client/client_ollama.py:127-219 | `process_query` returns the joined `final_text` and makes the modelled requests |
| ClientOllama.McpClient.CallForecastTool | mcp-client/client_ollama.py:175-215 | the tool branch appends the success note, the flattened content and the summary reply, or the error text |
| ClientOllama.FirstCallFailureCallsNoTool | mcp-client/client_ollama.py:157-160 | a failing first call returns "Error calling Ollama API: ..." and nothing else is requested |
| ClientOllama.OnlyLosAngelesForecastCalled | mcp-client/client_ollama.py:172-178 | the only tool call is `get_forecast` with the Los Angeles coordinates, made exactly when the reply triggers it |
| ClientOllama.LatitudeMentionTriggersCall | mcp-client/client_ollama.py:172-174 | a reply naming `get_forecast` and "latitude" triggers the Los Angeles call, since "latitude" contains "la" |
| ClientOllama.UntriggeredReplyReturned | mcp-client/client_ollama.py:166-174 | a reply that does not trigger the tool is returned unchanged after one request |
| ClientOllama.AnswerStartsWithReply | mcp-client/client_ollama.py:166-219 | the answer always begins with the first reply |
| ClientOllama.PromptKeepsWholeQuery | mcp-client/client_ollama.py:90-99 | the client's prompt is not capped: the whole query always reaches the model |

The identical prompt loops in weather_mcp_simple.py (lines 50-64), weather_mcp.py (lines
52-66) and client_ollama.py (lines 90-99) are the same `OllamaPrompt.BuildPrompt`. The client
loop has no cap. Both MCP servers' `process_weather_query` share `Orchestration`, and their
routers are `QueryRouter`.

## Left out

- Network I/O is not modelled. This covers `make_nws_request`, the POSTs to Ollama and to `/api/query`, and timeouts. Each becomes an input: the reply to each prompt or URL, or a failure.
- An NWS reply that lacks a key the code indexes (`properties`, `forecast`, `periods`, a period field) is one `Malformed(err)` reply carrying the exception text. The exact Python KeyError message for each key is not modelled.
- The period fields are taken as rendered strings. Python's formatting of numbers and `None` inside f-strings is not modelled.
- Floating point is not modelled. Coordinates are the strings their f-strings render ("34.0522", "-74.006"). `float()` and `int()` parsing in `_convert_parameter_types` are inputs.
- JSON encoding and decoding are inputs. In the end-to-end bridge lemma the server's encoder is assumed to decode back to each event's payload. Each encoded event is assumed to fit on one line, as `json.dumps` escapes newlines.
- `str.lower()` maps ASCII capitals only. Unicode case folding is not modelled; the Korean keywords have no case.
- `str()` of arbitrary objects is an input: a dict or other object carries its own text, and a tool result carries the text of `result.content`. Python's `repr` quoting of tool names is modelled as single quotes.
- `ClientOllama.McpClient.ProcessQuery`: a tool result without a `content` attribute is not modelled, and neither is the fallback when its content cannot be processed (client_ollama.py:190-194). A `response` value that is not a string is not modelled either.
- `McpBridge.CallHttpServer`: a connection error raised partway through the stream is not modelled; only a failure before the stream starts is. The debug prints are not modelled.
- `connect_to_server`, `chat_loop`, `cleanup` and the unused `available_tools` list of the client are not modelled (wiring and console I/O).
- The FastAPI and FastMCP wiring, CORS, `StreamingResponse`, the `/`, `/health` and `/api/tools` routes, and logging are not modelled.
- client_app.py, logger_config.py, setup_logs.py and simple_test.py are not part of this model.
- The payload options sent to Ollama (model name, temperature, `num_predict`) and the tool descriptions are not modelled. Only the tool names and required arguments are.
