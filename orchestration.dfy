/**
 * The weather-query pipeline shared by `generate_response` (server_app.py) and the
 * `process_weather_query` tools (weather_mcp_simple.py, weather_mcp.py): one model call
 * with the fixed system message, keyword routing, one NWS tool call, and a second model
 * call that translates the weather text into Korean, falling back to the untranslated
 * text. The model and the NWS service are inputs: `World` gives their reply to each
 * request.
 */
module Orchestration {
  import opened Wrappers
  import opened Text
  import opened OllamaPrompt
  import opened Nws
  import opened QueryRouter

  /** What a `call_ollama` call gives: it raises (`ModelFailed`), or returns a JSON object
      with no `response` key, or one whose `response` is `text`. */
  datatype LlmReply = ModelFailed(reason: string) | NoResponseField | ModelText(text: string)

  /** The outside services: the model's reply to each prompt and the NWS replies by URL. */
  datatype World = World(llm: string -> LlmReply, nws: NwsService)

  /** One outside request: a model call with its prompt, or an NWS GET of a URL. */
  datatype Call = ModelCall(prompt: string) | NwsGet(url: string)

  /** The system message of the first call. */
  const SystemMessage := "\nYou" + " are a helpful assistant with access to weather tools. \nAvailable tools: ['get_alerts', 'get_forecast']\nWhen asked about weather, I will automatically call the appropriate weather tool.\n답변은 한국어로 해주세요.\n"

  /** The system message of the translation call. */
  const TranslationSystemMessage := "\n당신은" + " 도움이 되는 어시스턴트입니다.\n다음 날씨 정보를 한국어로 번역하고, 단위를 한국에서 사용하는 단위로 변경해주세요:\n\n1. 화씨(°F) → 섭씨(°C)로 변환\n2. 마일(mph) → 킬로미터(km/h)로 변환\n3. 모든 텍스트를 자연스러운 한국어로 번역\n4. 날씨 상태를 한국어로 표현 (예: sunny → 맑음, cloudy → 흐림)\n\n답변은 반드시 한국어로만 작성해주세요.\n"

  const TranslationRequest := "다음 날씨 정보를 한국어로 번역하고 단위를 변환해주세요:\n\n"

  const NoModelResponse := "AI 모델 응답을 받을 수 없습니다."
  const NoWeatherData := "날씨 데이터를 가져올 수 없습니다."
  const NoActiveAlertsHere := "이 지역에 활성화된 경보가 없습니다."
  const NoAlertsData := "경보 데이터를 가져올 수 없습니다."
  const ErrorPrefix := "오류가 발생했습니다: "
  const OllamaErrorPrefix := "Ollama API error: "

  /** The message of the exception `call_ollama` raises when the request fails. */
  function OllamaError(reason: string): string {
    OllamaErrorPrefix + reason
  }

  /** The first conversation: the fixed system message and the user's query. */
  function QueryMessages(query: string): seq<Message> {
    [Message(System, SystemMessage), Message(User, query)]
  }

  /** The translation conversation for the weather text `data`. */
  function TranslationMessages(data: string): seq<Message> {
    [Message(System, TranslationSystemMessage), Message(User, TranslationRequest + data)]
  }

  function QueryPrompt(query: string): string {
    SentPrompt(QueryMessages(query))
  }

  function TranslationPrompt(data: string): string {
    SentPrompt(TranslationMessages(data))
  }

  /** The weather text the selected tool call produces; `Failure(err)` when a lookup raises
      KeyError with message `err`. */
  function WeatherData(sel: Selection, nws: NwsService): (r: Result<string, string>)
    ensures sel.ForecastFor? ==>
      var outcome := ForecastAt(nws, PointsUrl(Latitude(sel.place), Longitude(sel.place)));
      (r == Success(NoWeatherData) <==> outcome.NoPoints? || outcome.NoForecast?)
      && (r.Failure? <==> outcome.ForecastRaised?)
      && (outcome.ForecastReady? ==> r == Success(outcome.text))
    ensures sel.AlertsFor? ==>
      var reply := nws.alerts(AlertsUrl(sel.state));
      (r == Success(NoAlertsData) <==> reply.None?)
      && (r == Success(NoActiveAlertsHere) <==> reply == Some([]))
      && (r.Failure? <==> reply.Some? && reply.value != [] && !AllHaveProperties(reply.value))
      && (r.Success? && reply.Some? && reply.value != [] ==>
            r.value == Join(Separator, AlertTexts(reply.value)))
    ensures r.Success? && sel.AlertsFor? ==>
      r.value in {NoAlertsData, NoActiveAlertsHere} || (|r.value| > 0 && r.value[0] == '\n')
  {
    match sel
    case ForecastFor(place) =>
      (match ForecastAt(nws, PointsUrl(Latitude(place), Longitude(place)))
       case NoPoints => Success(NoWeatherData)
       case NoForecast => Success(NoWeatherData)
       case ForecastRaised(err) => Failure(err)
       case ForecastReady(text) => Success(text))
    case AlertsFor(state) =>
      (match AlertsAt(nws, state)
       case AlertsUnavailable => Success(NoAlertsData)
       case NoActiveAlerts => Success(NoActiveAlertsHere)
       case AlertsRaised(err) => Failure(err)
       case AlertBlocks(text) => Success(text))
  }

  /** The NWS GETs the selected tool call makes. */
  function WeatherRequests(sel: Selection, nws: NwsService): (r: seq<string>)
    ensures 1 <= |r| <= 2
    ensures sel.AlertsFor? ==> r == [AlertsUrl(sel.state)]
    ensures sel.ForecastFor? ==>
      var pointsUrl := PointsUrl(Latitude(sel.place), Longitude(sel.place));
      r[0] == pointsUrl
      && (|r| == 2 <==> nws.points(pointsUrl).PointsFound?)
      && (|r| == 2 ==> r[1] == nws.points(pointsUrl).forecastUrl)
  {
    match sel
    case ForecastFor(place) => ForecastRequests(nws, PointsUrl(Latitude(place), Longitude(place)))
    case AlertsFor(state) => [AlertsUrl(state)]
  }

  function Gets(urls: seq<string>): (r: seq<Call>)
    ensures |r| == |urls|
  {
    seq(|urls|, i requires 0 <= i < |urls| => NwsGet(urls[i]))
  }

  /** The translated answer: the model's text, or the weather text itself when the model
      raised or gave no `response`. */
  function Translated(data: string, reply: LlmReply): string {
    if reply.ModelText? then reply.text else data
  }

  /** The string the `process_weather_query` tools return for `query`. */
  function WeatherAnswer(query: string, world: World): string {
    match world.llm(QueryPrompt(query))
    case ModelFailed(reason) => ErrorPrefix + OllamaError(reason)
    case NoResponseField => NoModelResponse
    case ModelText(text) =>
      match Route(query)
      case None => text
      case Some(sel) => ToolAnswer(sel, world)
  }

  /** The answer once the query was routed to `sel`. */
  function ToolAnswer(sel: Selection, world: World): string {
    match WeatherData(sel, world.nws)
    case Failure(err) => ErrorPrefix + err
    case Success(data) => Translated(data, world.llm(TranslationPrompt(data)))
  }

  /** The requests made once the query was routed to `sel`. */
  function ToolCalls(sel: Selection, world: World): seq<Call> {
    Gets(WeatherRequests(sel, world.nws))
    + match WeatherData(sel, world.nws)
      case Failure(_) => []
      case Success(data) => [ModelCall(TranslationPrompt(data))]
  }

  /** The outside requests answering `query` makes, in order. */
  function WeatherCalls(query: string, world: World): seq<Call> {
    [ModelCall(QueryPrompt(query))]
    + match world.llm(QueryPrompt(query))
      case ModelText(_) =>
        (match Route(query)
         case None => []
         case Some(sel) => ToolCalls(sel, world))
      case _ => []
  }

  /** The tool call and its formatting, as the pipeline bodies run them. */
  method FetchWeatherData(sel: Selection, nws: NwsService) returns (data: Result<string, string>, gets: seq<string>)
    ensures data == WeatherData(sel, nws)
    ensures gets == WeatherRequests(sel, nws)
  {
    match sel
    case ForecastFor(place) =>
      var outcome;
      outcome, gets := FetchForecast(nws, PointsUrl(Latitude(place), Longitude(place)));
      match outcome {
        case NoPoints =>
          data := Success(NoWeatherData);
        case NoForecast =>
          data := Success(NoWeatherData);
        case ForecastRaised(err) =>
          data := Failure(err);
        case ForecastReady(text) =>
          data := Success(text);
      }
    case AlertsFor(state) =>
      var url := AlertsUrl(state);
      gets := [url];
      var reply := nws.alerts(url);
      if reply.None? {
        data := Success(NoAlertsData);
      } else if reply.value == [] {
        data := Success(NoActiveAlertsHere);
      } else if !AllHaveProperties(reply.value) {
        data := Failure(MissingPropertiesError);
      } else {
        data := Success(Join(Separator, AlertTexts(reply.value)));
      }
  }

  /** `process_weather_query`, with the outside requests it makes. */
  method ProcessWeatherQuery(query: string, world: World) returns (result: string, calls: seq<Call>)
    ensures result == WeatherAnswer(query, world)
    ensures calls == WeatherCalls(query, world)
  {
    var prompt := BuildCappedPrompt(QueryMessages(query));
    calls := [ModelCall(prompt)];
    var response := world.llm(prompt);
    if response.ModelFailed? {
      return ErrorPrefix + OllamaError(response.reason), calls;
    }
    if response.NoResponseField? {
      return NoModelResponse, calls;
    }
    var route := Route(query);
    if route.None? {
      return response.text, calls;
    }
    var toolCalls;
    result, toolCalls := AnswerWithTool(route.value, world);
    calls := calls + toolCalls;
  }

  /** The tool call, then the translation call with its fallback. */
  method AnswerWithTool(sel: Selection, world: World) returns (result: string, calls: seq<Call>)
    ensures result == ToolAnswer(sel, world)
    ensures calls == ToolCalls(sel, world)
  {
    var data, gets := FetchWeatherData(sel, world.nws);
    calls := Gets(gets);
    if data.Failure? {
      return ErrorPrefix + data.error, calls;
    }
    var translationPrompt := BuildCappedPrompt(TranslationMessages(data.value));
    calls := calls + [ModelCall(translationPrompt)];
    var finalResponse := world.llm(translationPrompt);
    if finalResponse.ModelText? {
      result := finalResponse.text;
    } else {
      result := data.value;
    }
  }

  // ---------------------------------------------------------------- properties

  /** The query goes to the model first, whatever it asks; at most one model call
      follows, after at most two NWS GETs. */
  lemma WeatherCallsShape(query: string, world: World)
    ensures var calls := WeatherCalls(query, world);
      1 <= |calls| <= 4 && calls[0] == ModelCall(QueryPrompt(query))
      && (forall i | 1 <= i < |calls| - 1 :: calls[i].NwsGet?)
      && (|calls| == 4 ==> calls[3].ModelCall?)
  {
  }

  /** The answer is an error text, starting with `오류가 발생했습니다: `, when the first call
      raises, and when a weather question's lookup raises. */
  lemma ErrorAnswersCarryPrefix(query: string, world: World)
    requires world.llm(QueryPrompt(query)).ModelFailed?
      || (world.llm(QueryPrompt(query)).ModelText? && IsWeatherQuery(Lower(query))
          && WeatherData(SelectTool(Lower(query)), world.nws).Failure?)
    ensures StartsWith(WeatherAnswer(query, world), ErrorPrefix)
  {
  }

  /** A first reply without `response` is answered with the fixed no-response text, after
      that one request and no NWS call. */
  lemma NoResponseAnswer(query: string, world: World)
    requires world.llm(QueryPrompt(query)) == NoResponseField
    ensures WeatherAnswer(query, world) == NoModelResponse
    ensures WeatherCalls(query, world) == [ModelCall(QueryPrompt(query))]
  {
  }

  /** A question that is not about the weather makes exactly one request, and its
      answer is the model's reply unchanged. */
  lemma NonWeatherQueryAnsweredByModel(query: string, world: World, text: string)
    requires world.llm(QueryPrompt(query)) == ModelText(text)
    requires !IsWeatherQuery(Lower(query))
    ensures WeatherAnswer(query, world) == text
    ensures WeatherCalls(query, world) == [ModelCall(QueryPrompt(query))]
  {
  }

  /** The two model prompts are never the same text: they differ in the tenth character,
      the first of the system message after its leading newline. */
  lemma QueryAndTranslationPromptsDiffer(query: string, data: string)
    ensures QueryPrompt(query) != TranslationPrompt(data)
  {
    assert SystemMessage[1] == 'Y';
    assert TranslationSystemMessage[1] == '당';
    SystemTextInPrompt(SystemMessage, query, 1);
    SystemTextInPrompt(TranslationSystemMessage, TranslationRequest + data, 1);
  }

  /** For a weather question the first reply only has to be present: its text never
      reaches the answer, so any two first replies with a `response` give the same
      answer. */
  lemma FirstReplyIgnoredForWeather(query: string, w1: World, w2: World)
    requires IsWeatherQuery(Lower(query))
    requires w1.nws == w2.nws
    requires w1.llm(QueryPrompt(query)).ModelText? && w2.llm(QueryPrompt(query)).ModelText?
    requires forall p | p != QueryPrompt(query) :: w1.llm(p) == w2.llm(p)
    ensures WeatherAnswer(query, w1) == WeatherAnswer(query, w2)
  {
    var sel := SelectTool(Lower(query));
    assert Route(query) == Some(sel);
    var data := WeatherData(sel, w1.nws);
    if data.Success? {
      QueryAndTranslationPromptsDiffer(query, data.value);
      assert w1.llm(TranslationPrompt(data.value)) == w2.llm(TranslationPrompt(data.value));
    }
  }

  /** When the translation call fails or gives no `response`, the answer is the weather
      text itself. */
  lemma TranslationFallsBackToWeatherText(query: string, world: World, data: string)
    requires world.llm(QueryPrompt(query)).ModelText?
    requires IsWeatherQuery(Lower(query))
    requires WeatherData(SelectTool(Lower(query)), world.nws) == Success(data)
    requires !world.llm(TranslationPrompt(data)).ModelText?
    ensures WeatherAnswer(query, world) == data
  {
  }
}
