/**
 * The `get_alerts` and `get_forecast` MCP tools of weather.py; weather_mcp_simple.py
 * carries the same two tools with the same strings. An exception a tool lets escape
 * (the KeyError of a malformed NWS reply) is a `Failure` carrying its message.
 */
module WeatherTool {
  import opened Wrappers
  import opened Text
  import opened Nws

  const AlertsUnavailableText := "Unable to fetch alerts or no alerts found."
  const NoActiveAlertsText := "No active alerts for this state."
  const PointsUnavailableText := "Unable to fetch forecast data" + " for this location."
  const ForecastUnavailableText := "Unable to fetch detailed forecast."

  /** `get_alerts(state)`. */
  function GetAlerts(state: string, nws: NwsService): (r: Result<string, string>)
    ensures r == Success(AlertsUnavailableText) <==> nws.alerts(AlertsUrl(state)).None?
    ensures r == Success(NoActiveAlertsText) <==> nws.alerts(AlertsUrl(state)) == Some([])
    ensures r.Failure? <==>
      (nws.alerts(AlertsUrl(state)).Some? && !AllHaveProperties(nws.alerts(AlertsUrl(state)).value))
    ensures r.Success? && nws.alerts(AlertsUrl(state)).Some? && nws.alerts(AlertsUrl(state)).value != [] ==>
      r.value == Join(Separator, AlertTexts(nws.alerts(AlertsUrl(state)).value))
  {
    match AlertsAt(nws, state)
    case AlertsUnavailable => Success(AlertsUnavailableText)
    case NoActiveAlerts => Success(NoActiveAlertsText)
    case AlertsRaised(err) => Failure(err)
    case AlertBlocks(text) => Success(text)
  }

  /** What `get_forecast` returns for each forecast outcome. */
  function ForecastResult(outcome: ForecastOutcome): Result<string, string> {
    match outcome
    case NoPoints => Success(PointsUnavailableText)
    case NoForecast => Success(ForecastUnavailableText)
    case ForecastRaised(err) => Failure(err)
    case ForecastReady(text) => Success(text)
  }

  /** `get_forecast` for coordinates rendered as `latitude` and `longitude`. */
  method GetForecast(latitude: string, longitude: string, nws: NwsService) returns (r: Result<string, string>)
    ensures r == ForecastResult(ForecastAt(nws, PointsUrl(latitude, longitude)))
  {
    var outcome, _ := FetchForecast(nws, PointsUrl(latitude, longitude));
    match outcome {
      case NoPoints =>
        r := Success(PointsUnavailableText);
      case NoForecast =>
        r := Success(ForecastUnavailableText);
      case ForecastRaised(err) =>
        r := Failure(err);
      case ForecastReady(text) =>
        r := Success(text);
    }
  }

  /** The returned text tells the outcomes apart: each sentinel comes from exactly one
      failure, since a forecast text is empty or starts with a newline. */
  lemma ForecastSentinelsDistinct(latitude: string, longitude: string, nws: NwsService)
    ensures var outcome := ForecastAt(nws, PointsUrl(latitude, longitude));
      (ForecastResult(outcome) == Success(PointsUnavailableText) <==> outcome.NoPoints?)
      && (ForecastResult(outcome) == Success(ForecastUnavailableText) <==> outcome.NoForecast?)
  {
    assert PointsUnavailableText[0] == 'U' && ForecastUnavailableText[0] == 'U';
  }
}
