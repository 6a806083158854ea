/**
 * The low-level MCP server of weather_mcp.py: the three tools `handle_list_tools`
 * advertises and the `handle_call_tool` dispatch, with this file's own sentinel strings.
 * Tool arguments are the JSON object the client sent, each value as the f-string
 * renders it.
 */
module WeatherMcp {
  import opened Wrappers
  import opened Text
  import opened Nws
  import opened Orchestration

  /** An advertised tool: its name and the arguments its input schema requires. */
  datatype ToolSpec = ToolSpec(name: string, required: seq<string>)

  type Arguments = map<string, string>

  /** How a call fails: a required argument is missing (KeyError), a lookup raised,
      or the name is not a tool (ValueError). */
  datatype ToolFailure = MissingArgument(key: string) | Raised(err: string) | UnknownTool(message: string)

  const LocationUnavailableText := "Unable to fetch location data."
  const ForecastDataUnavailableText := "Unable to fetch forecast data."
  const AlertsDataUnavailableText := "Unable to fetch alerts data."

  /** The tools `handle_list_tools` advertises, in order. */
  function Tools(): seq<ToolSpec> {
    [ToolSpec("get_forecast", ["latitude", "longitude"]),
     ToolSpec("get_alerts", ["state"]),
     ToolSpec("process_weather_query", ["query"])]
  }

  predicate IsTool(name: string) {
    exists i | 0 <= i < |Tools()| :: Tools()[i].name == name
  }

  /** The required arguments of the advertised tool `name`. */
  function Required(name: string): seq<string>
    requires IsTool(name)
  {
    if name == "get_forecast" then Tools()[0].required
    else if name == "get_alerts" then Tools()[1].required
    else Tools()[2].required
  }

  /** The no-alerts text, with the requested state embedded. */
  function NoActiveAlertsFor(state: string): string {
    "No active alerts for " + state + "."
  }

  /** The `get_forecast` branch's result for each forecast outcome. */
  function ForecastCallResult(outcome: ForecastOutcome): Result<string, ToolFailure> {
    match outcome
    case NoPoints => Success(LocationUnavailableText)
    case NoForecast => Success(ForecastDataUnavailableText)
    case ForecastRaised(err) => Failure(Raised(err))
    case ForecastReady(text) => Success(text)
  }

  /** The `get_alerts` branch's result for each alerts outcome. */
  function AlertsCallResult(state: string, outcome: AlertsOutcome): Result<string, ToolFailure> {
    match outcome
    case AlertsUnavailable => Success(AlertsDataUnavailableText)
    case NoActiveAlerts => Success(NoActiveAlertsFor(state))
    case AlertsRaised(err) => Failure(Raised(err))
    case AlertBlocks(text) => Success(text)
  }

  /** The text `handle_call_tool` returns, or how it fails. */
  function CallToolResult(name: string, arguments: Arguments, world: World): Result<string, ToolFailure> {
    if name == "get_forecast" then
      if "latitude" !in arguments then Failure(MissingArgument("latitude"))
      else if "longitude" !in arguments then Failure(MissingArgument("longitude"))
      else ForecastCallResult(ForecastAt(world.nws, PointsUrl(arguments["latitude"], arguments["longitude"])))
    else if name == "get_alerts" then
      if "state" !in arguments then Failure(MissingArgument("state"))
      else AlertsCallResult(arguments["state"], AlertsAt(world.nws, arguments["state"]))
    else if name == "process_weather_query" then
      if "query" !in arguments then Failure(MissingArgument("query"))
      else Success(WeatherAnswer(arguments["query"], world))
    else Failure(UnknownTool("Unknown tool: " + name))
  }

  /** `handle_call_tool(name, arguments)`. */
  method HandleCallTool(name: string, arguments: Arguments, world: World) returns (r: Result<string, ToolFailure>)
    ensures r == CallToolResult(name, arguments, world)
  {
    if name == "get_forecast" {
      if "latitude" !in arguments {
        return Failure(MissingArgument("latitude"));
      }
      if "longitude" !in arguments {
        return Failure(MissingArgument("longitude"));
      }
      var outcome, _ := FetchForecast(world.nws, PointsUrl(arguments["latitude"], arguments["longitude"]));
      match outcome {
        case NoPoints =>
          r := Success(LocationUnavailableText);
        case NoForecast =>
          r := Success(ForecastDataUnavailableText);
        case ForecastRaised(err) =>
          r := Failure(Raised(err));
        case ForecastReady(text) =>
          r := Success(text);
      }
    } else if name == "get_alerts" {
      if "state" !in arguments {
        return Failure(MissingArgument("state"));
      }
      r := AlertsCallResult(arguments["state"], AlertsAt(world.nws, arguments["state"]));
    } else if name == "process_weather_query" {
      if "query" !in arguments {
        return Failure(MissingArgument("query"));
      }
      var result, _ := ProcessWeatherQuery(arguments["query"], world);
      r := Success(result);
    } else {
      r := Failure(UnknownTool("Unknown tool: " + name));
    }
  }

  /** The dispatch accepts exactly the advertised tools; any other name raises. */
  lemma DispatchMatchesToolList(name: string, arguments: Arguments, world: World)
    ensures (CallToolResult(name, arguments, world).Failure?
             && CallToolResult(name, arguments, world).error.UnknownTool?) <==> !IsTool(name)
  {
    if IsTool(name) {
      var i :| 0 <= i < |Tools()| && Tools()[i].name == name;
    } else {
      assert Tools()[0].name != name && Tools()[1].name != name && Tools()[2].name != name;
    }
  }

  /** An advertised tool fails for a missing argument exactly when one of its required
      arguments is absent. */
  lemma RequiredArgumentsEnforced(name: string, arguments: Arguments, world: World)
    requires IsTool(name)
    ensures (CallToolResult(name, arguments, world).Failure?
             && CallToolResult(name, arguments, world).error.MissingArgument?)
            <==> exists k | k in Required(name) :: k !in arguments
  {
    var r := CallToolResult(name, arguments, world);
    var req := Required(name);
    if r.Failure? && r.error.MissingArgument? {
      assert r.error.key in req && r.error.key !in arguments;
    }
    if exists k | k in req :: k !in arguments {
      var k :| k in req && k !in arguments;
      if name == "get_forecast" {
        assert k == "latitude" || k == "longitude";
      } else if name == "get_alerts" {
        assert k == "state";
      } else {
        assert k == "query";
      }
    }
  }

  /** The three forecast results are told apart: a points failure, a forecast failure and
      a forecast text never share a string. */
  lemma ForecastSentinelsDistinct(latitude: string, longitude: string, nws: NwsService)
    ensures var outcome := ForecastAt(nws, PointsUrl(latitude, longitude));
      (ForecastCallResult(outcome) == Success(LocationUnavailableText) <==> outcome.NoPoints?)
      && (ForecastCallResult(outcome) == Success(ForecastDataUnavailableText) <==> outcome.NoForecast?)
  {
    assert LocationUnavailableText[0] == 'U' && ForecastDataUnavailableText[0] == 'U';
    assert LocationUnavailableText[16] == 'l' && ForecastDataUnavailableText[16] == 'f';
  }

  /** The two alerts sentinels each answer exactly one reply: the unavailable text no data
      at all, the no-alerts text an empty list. */
  lemma AlertsSentinelsDistinct(state: string, nws: NwsService)
    ensures var outcome := AlertsAt(nws, state);
      var reply := nws.alerts(AlertsUrl(state));
      (AlertsCallResult(state, outcome) == Success(AlertsDataUnavailableText) <==> reply.None?)
      && (AlertsCallResult(state, outcome) == Success(NoActiveAlertsFor(state)) <==> reply == Some([]))
  {
    assert AlertsDataUnavailableText[0] == 'U' && NoActiveAlertsFor(state)[0] == 'N';
  }

  /** With no active alerts the answer names the state it was asked for, so different
      states give different texts. */
  lemma NoActiveAlertsNamesState(s1: string, s2: string)
    requires s1 != s2
    ensures NoActiveAlertsFor(s1) != NoActiveAlertsFor(s2)
  {
    var prefix := "No active alerts for ";
    var t1, t2 := NoActiveAlertsFor(s1), NoActiveAlertsFor(s2);
    assert t1[|prefix|..|t1| - 1] == s1;
    assert t2[|prefix|..|t2| - 1] == s2;
  }
}
