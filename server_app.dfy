/**
 * The HTTP server of server_app.py: the event stream `generate_response` yields for
 * `/api/query`, and the `/api/get_forecast` and `/api/get_alerts` endpoints with their
 * `WeatherResponse` results. Each yielded `data: {...}` frame is modelled as the
 * `Event` it carries.
 */
module ServerApp {
  import opened Wrappers
  import opened Text
  import opened OllamaPrompt
  import opened Nws
  import opened QueryRouter
  import opened Orchestration

  /** One server-sent event: `{"type": "status", "message": ..}`, `{"type": "result",
      "content": ..}` or `{"type": "error", "message": ..}`. */
  datatype Event = Status(message: string) | ResultEvent(content: string) | ErrorEvent(message: string)

  const ProcessingStatus := "쿼리를 처리하고 있습니다..."
  const CallingModelStatus := "AI 모델을 호출하고 있습니다..."
  const FetchingWeatherStatus := "날씨 정보를 가져오고 있습니다..."
  const TranslatingStatus := "한국어로 번역하고 있습니다..."

  predicate Terminal(e: Event) {
    e.ResultEvent? || e.ErrorEvent?
  }

  /** The text a terminal event carries. */
  function TerminalText(e: Event): string
    requires Terminal(e)
  {
    if e.ResultEvent? then e.content else e.message
  }

  /** The events `generate_response` yields for `query`, in order. */
  function Events(query: string, world: World): (r: seq<Event>)
    ensures 3 <= |r| <= 5
    ensures r[0] == Status(ProcessingStatus) && r[1] == Status(CallingModelStatus)
    ensures Terminal(r[|r| - 1]) && forall i | 0 <= i < |r| - 1 :: r[i].Status?
  {
    [Status(ProcessingStatus), Status(CallingModelStatus)] + AfterModelCall(query, world)
  }

  /** The events after the two opening statuses. */
  function AfterModelCall(query: string, world: World): (r: seq<Event>)
    ensures 1 <= |r| <= 3
    ensures Terminal(r[|r| - 1]) && forall i | 0 <= i < |r| - 1 :: r[i].Status?
  {
    match world.llm(QueryPrompt(query))
    case ModelFailed(reason) => [ErrorEvent(ErrorPrefix + OllamaError(reason))]
    case NoResponseField => [ErrorEvent(NoModelResponse)]
    case ModelText(text) =>
      match Route(query)
      case None => [ResultEvent(text)]
      case Some(sel) =>
        [Status(FetchingWeatherStatus)]
        + match WeatherData(sel, world.nws)
          case Failure(err) => [ErrorEvent(ErrorPrefix + err)]
          case Success(data) =>
            [Status(TranslatingStatus), ResultEvent(Translated(data, world.llm(TranslationPrompt(data))))]
  }

  /** The generator body: each `yield` appends one event. */
  method GenerateResponse(query: string, world: World) returns (events: seq<Event>, calls: seq<Call>)
    ensures events == Events(query, world)
    ensures calls == WeatherCalls(query, world)
  {
    events := [Status(ProcessingStatus)];
    events := events + [Status(CallingModelStatus)];
    var rest;
    rest, calls := RespondToQuery(query, world);
    events := events + rest;
  }

  /** The generator body after its two opening statuses. */
  method RespondToQuery(query: string, world: World) returns (events: seq<Event>, calls: seq<Call>)
    ensures events == AfterModelCall(query, world)
    ensures calls == WeatherCalls(query, world)
  {
    var prompt := BuildCappedPrompt(QueryMessages(query));
    calls := [ModelCall(prompt)];
    var response := world.llm(prompt);
    if response.ModelFailed? {
      return [ErrorEvent(ErrorPrefix + OllamaError(response.reason))], calls;
    }
    if response.NoResponseField? {
      return [ErrorEvent(NoModelResponse)], calls;
    }
    var route := Route(query);
    if route.None? {
      return [ResultEvent(response.text)], calls;
    }
    events := [Status(FetchingWeatherStatus)];
    var data, gets := FetchWeatherData(route.value, world.nws);
    calls := calls + Gets(gets);
    if data.Failure? {
      events := events + [ErrorEvent(ErrorPrefix + data.error)];
      return;
    }
    events := events + [Status(TranslatingStatus)];
    var translationPrompt := BuildCappedPrompt(TranslationMessages(data.value));
    calls := calls + [ModelCall(translationPrompt)];
    var finalResponse := world.llm(translationPrompt);
    if finalResponse.ModelText? {
      events := events + [ResultEvent(finalResponse.text)];
    } else {
      events := events + [ResultEvent(data.value)];
    }
  }

  /** The stream ends with the string the `process_weather_query` tools return for the
      same query and the same replies; it is an error event exactly when the first call
      failed or gave no `response`, or a lookup raised. */
  lemma StreamEndsWithToolAnswer(query: string, world: World)
    ensures var r := Events(query, world);
      TerminalText(r[|r| - 1]) == WeatherAnswer(query, world)
    ensures var r := Events(query, world);
      r[|r| - 1].ErrorEvent? <==>
        !world.llm(QueryPrompt(query)).ModelText?
        || (IsWeatherQuery(Lower(query))
            && WeatherData(SelectTool(Lower(query)), world.nws).Failure?)
  {
  }

  /** A weather question whose data arrived goes through all four statuses, in order. */
  lemma WeatherStreamStatuses(query: string, world: World, data: string)
    requires world.llm(QueryPrompt(query)).ModelText?
    requires IsWeatherQuery(Lower(query))
    requires WeatherData(SelectTool(Lower(query)), world.nws) == Success(data)
    ensures |Events(query, world)| == 5
    ensures Events(query, world)[..4] == [Status(ProcessingStatus), Status(CallingModelStatus),
                                          Status(FetchingWeatherStatus), Status(TranslatingStatus)]
    ensures Events(query, world)[4] == ResultEvent(WeatherAnswer(query, world))
  {
  }

  /** A first reply without `response` ends the stream at once: the two opening statuses,
      then the no-response error, and no NWS call. */
  lemma NoResponseStream(query: string, world: World)
    requires world.llm(QueryPrompt(query)) == NoResponseField
    ensures Events(query, world)
      == [Status(ProcessingStatus), Status(CallingModelStatus), ErrorEvent(NoModelResponse)]
    ensures WeatherCalls(query, world) == [ModelCall(QueryPrompt(query))]
  {
  }

  // ---------------------------------------------------------------- endpoints

  /** The endpoints' response model; `error` is `None` unless set. */
  datatype WeatherResponse = WeatherResponse(success: bool, data: string, error: Option<string>)

  const ForecastLocationError := "Unable to fetch forecast data for this location."
  const DetailedForecastError := "Unable to fetch detailed forecast."
  const ForecastRequestErrorPrefix := "Error processing forecast request: "
  const AlertsError := "Unable to fetch alerts or no alerts found."
  const NoActiveAlertsForState := "No active alerts for this state."
  const AlertsRequestErrorPrefix := "Error processing alerts request: "

  /** The `/api/get_forecast` response for each forecast outcome. */
  function ForecastResponse(outcome: ForecastOutcome): WeatherResponse {
    match outcome
    case NoPoints => WeatherResponse(false, "", Some(ForecastLocationError))
    case NoForecast => WeatherResponse(false, "", Some(DetailedForecastError))
    case ForecastRaised(err) => WeatherResponse(false, "", Some(ForecastRequestErrorPrefix + err))
    case ForecastReady(text) => WeatherResponse(true, text, None)
  }

  /** `/api/get_forecast` for coordinates rendered as `latitude` and `longitude`. */
  method GetForecastEndpoint(latitude: string, longitude: string, nws: NwsService) returns (r: WeatherResponse)
    ensures r == ForecastResponse(ForecastAt(nws, PointsUrl(latitude, longitude)))
  {
    var outcome, _ := FetchForecast(nws, PointsUrl(latitude, longitude));
    match outcome {
      case NoPoints =>
        r := WeatherResponse(false, "", Some(ForecastLocationError));
      case NoForecast =>
        r := WeatherResponse(false, "", Some(DetailedForecastError));
      case ForecastRaised(err) =>
        r := WeatherResponse(false, "", Some(ForecastRequestErrorPrefix + err));
      case ForecastReady(text) =>
        r := WeatherResponse(true, text, None);
    }
  }

  /** A forecast response succeeds exactly when it carries no error, and then its data is
      the forecast text of the periods the service returned. */
  lemma ForecastResponseConsistent(latitude: string, longitude: string, nws: NwsService)
    ensures var r := ForecastResponse(ForecastAt(nws, PointsUrl(latitude, longitude)));
      (r.success <==> r.error.None?) && (!r.success ==> r.data == "")
    ensures var r := ForecastResponse(ForecastAt(nws, PointsUrl(latitude, longitude)));
      var points := nws.points(PointsUrl(latitude, longitude));
      r.success <==> points.PointsFound? && nws.forecast(points.forecastUrl).PeriodsFound?
    ensures var r := ForecastResponse(ForecastAt(nws, PointsUrl(latitude, longitude)));
      var points := nws.points(PointsUrl(latitude, longitude));
      r.success ==> r.data == ForecastText(nws.forecast(points.forecastUrl).periods)
  {
  }

  /** `/api/get_alerts` for `state`. */
  function GetAlertsEndpoint(state: string, nws: NwsService): (r: WeatherResponse)
    ensures r.success <==> r.error.None?
    ensures !r.success ==> r.data == ""
    ensures r.success <==>
      nws.alerts(AlertsUrl(state)).Some? && AllHaveProperties(nws.alerts(AlertsUrl(state)).value)
    ensures r.success ==> r.data == NoActiveAlertsForState || (|r.data| > 0 && r.data[0] == '\n')
    ensures (r.success && r.data == NoActiveAlertsForState) <==> nws.alerts(AlertsUrl(state)) == Some([])
    ensures r.success && nws.alerts(AlertsUrl(state)) != Some([]) ==>
      r.data == Join(Separator, AlertTexts(nws.alerts(AlertsUrl(state)).value))
    ensures r.error == Some(AlertsError) <==> nws.alerts(AlertsUrl(state)).None?
    ensures !r.success && nws.alerts(AlertsUrl(state)).Some? ==>
      r.error == Some(AlertsRequestErrorPrefix + MissingPropertiesError)
  {
    assert NoActiveAlertsForState[0] == 'N';
    assert AlertsError[0] == 'U' && AlertsRequestErrorPrefix[0] == 'E';
    match AlertsAt(nws, state)
    case AlertsUnavailable => WeatherResponse(false, "", Some(AlertsError))
    case NoActiveAlerts => WeatherResponse(true, NoActiveAlertsForState, None)
    case AlertsRaised(err) => WeatherResponse(false, "", Some(AlertsRequestErrorPrefix + err))
    case AlertBlocks(text) => WeatherResponse(true, text, None)
  }
}
