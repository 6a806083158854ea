/**
 * The MCP bridge of mcp_bridge.py: `call_http_server` posts a query to the HTTP
 * server's `/api/query` and folds the streamed lines into one answer, and the three
 * bridge tools build the query they forward. The HTTP exchange is an input: the reply
 * is a failure or the sequence of lines `aiter_lines` yields, and `json.loads` is a
 * decoder giving the fields the fold reads, or `None` for a JSONDecodeError.
 */
module McpBridge {
  import opened Wrappers
  import opened Text
  import opened QueryRouter
  import opened Orchestration
  import opened ServerApp

  /** A decoded `data:` payload, by what the fold does with it: a `status`, a `result`
      with its `content`, an `error` with its `message`, another `type`, or an object
      the fold cannot read (a missing key, or not an object), whose exception text is
      `err`. */
  datatype Payload = StatusPayload | ResultPayload(content: string) | ErrorPayload(message: string)
                   | OtherType | Broken(err: string)

  /** How the POST ends: `raise_for_status` raised with the status code and body, the
      request itself failed, another exception escaped, or the stream arrived. */
  datatype HttpReply = StatusError(code: string, body: string) | RequestFailed(message: string)
                     | OtherFailure(message: string) | Lines(lines: seq<string>)

  /** Where the fold over the lines stands: it returned early with `text`, or it has
      collected `parts` so far. */
  datatype Fold = Stopped(text: string) | Collected(parts: seq<string>)

  const DataPrefix := "data: "
  const ErrorEventPrefix := "오류: "
  const NoResponseText := "응답을 받을 수 없습니다."
  const StatusErrorPrefix := "HTTP 상태 오류: "
  const RequestErrorPrefix := "HTTP 요청 오류: "
  const ServerCallErrorPrefix := "HTTP 서버 호출 오류: "

  /** What one line contributes: nothing (`None`), a stop, or a result part. */
  function LineEffect(line: string, decode: string -> Option<Payload>): Option<Fold> {
    if !StartsWith(line, DataPrefix) then None
    else match decode(line[|DataPrefix|..])
      case None => None
      case Some(p) =>
        match p
        case StatusPayload => None
        case OtherType => None
        case ResultPayload(c) => Some(Collected([c]))
        case ErrorPayload(m) => Some(Stopped(ErrorEventPrefix + m))
        case Broken(err) => Some(Stopped(ServerCallErrorPrefix + err))
  }

  /** The `async for line` loop, from the parts collected so far. */
  function FoldLines(lines: seq<string>, decode: string -> Option<Payload>, parts: seq<string>): Fold {
    if lines == [] then Collected(parts)
    else match LineEffect(lines[0], decode)
      case None => FoldLines(lines[1..], decode, parts)
      case Some(Stopped(t)) => Stopped(t)
      case Some(Collected(c)) => FoldLines(lines[1..], decode, parts + c)
  }

  /** The string `call_http_server` returns for `reply`. */
  function BridgeAnswer(reply: HttpReply, decode: string -> Option<Payload>): string {
    match reply
    case StatusError(code, body) => StatusErrorPrefix + code + " - " + body
    case RequestFailed(message) => RequestErrorPrefix + message
    case OtherFailure(message) => ServerCallErrorPrefix + message
    case Lines(lines) =>
      match FoldLines(lines, decode, [])
      case Stopped(text) => text
      case Collected(parts) => if parts == [] then NoResponseText else Join("\n", parts)
  }

  /** `call_http_server`, line by line. */
  method CallHttpServer(reply: HttpReply, decode: string -> Option<Payload>) returns (answer: string)
    ensures answer == BridgeAnswer(reply, decode)
  {
    match reply {
      case StatusError(code, body) =>
        return StatusErrorPrefix + code + " - " + body;
      case RequestFailed(message) =>
        return RequestErrorPrefix + message;
      case OtherFailure(message) =>
        return ServerCallErrorPrefix + message;
      case Lines(lines) =>
        var resultParts: seq<string> := [];
        var i := 0;
        while i < |lines|
          invariant 0 <= i <= |lines|
          invariant FoldLines(lines[i..], decode, resultParts) == FoldLines(lines, decode, [])
        {
          var line := lines[i];
          assert lines[i..][1..] == lines[i + 1..];
          if StartsWith(line, DataPrefix) {
            var data := decode(line[|DataPrefix|..]);
            if data.Some? {
              match data.value {
                case StatusPayload =>
                case OtherType =>
                case ResultPayload(content) =>
                  resultParts := resultParts + [content];
                case ErrorPayload(message) =>
                  return ErrorEventPrefix + message;
                case Broken(err) =>
                  return ServerCallErrorPrefix + err;
              }
            }
          }
          i := i + 1;
        }
        answer := if resultParts == [] then NoResponseText else Join("\n", resultParts);
    }
  }

  // ---------------------------------------------------------------- the fold

  /** Folding a concatenation folds the second part from where the first one left off. */
  lemma {:induction false} FoldAppend(a: seq<string>, b: seq<string>, decode: string -> Option<Payload>, parts: seq<string>)
    ensures FoldLines(a + b, decode, parts) ==
      match FoldLines(a, decode, parts)
      case Stopped(t) => Stopped(t)
      case Collected(p) => FoldLines(b, decode, p)
  {
    if a != [] {
      assert (a + b)[1..] == a[1..] + b;
      match LineEffect(a[0], decode)
      case None => FoldAppend(a[1..], b, decode, parts);
      case Some(Stopped(t)) =>
      case Some(Collected(c)) => FoldAppend(a[1..], b, decode, parts + c);
    } else {
      assert a + b == b;
    }
  }

  /** A line the fold passes over: not a `data: ` line, a payload that does not decode,
      a status, or another type. */
  predicate Inert(line: string, decode: string -> Option<Payload>) {
    !StartsWith(line, DataPrefix)
    || decode(line[|DataPrefix|..]).None?
    || decode(line[|DataPrefix|..]) == Some(StatusPayload)
    || decode(line[|DataPrefix|..]) == Some(OtherType)
  }

  /** Inserting an inert line anywhere in the stream changes nothing. */
  lemma InertLineIgnored(a: seq<string>, line: string, b: seq<string>, decode: string -> Option<Payload>)
    requires Inert(line, decode)
    ensures FoldLines(a + [line] + b, decode, []) == FoldLines(a + b, decode, [])
  {
    FoldAppend(a + [line], b, decode, []);
    FoldAppend(a, [line], decode, []);
    FoldAppend(a, b, decode, []);
    match FoldLines(a, decode, [])
    case Stopped(t) =>
    case Collected(p) =>
      assert FoldLines([line], decode, p) == Collected(p) by {
        assert [line][1..] == [];
      }
  }

  /** An error event returns `"오류: " + message` at once: the results before it and
      every line after it are discarded. */
  lemma ErrorLineStops(a: seq<string>, line: string, message: string, b: seq<string>,
                       decode: string -> Option<Payload>)
    requires StartsWith(line, DataPrefix) && decode(line[|DataPrefix|..]) == Some(ErrorPayload(message))
    requires FoldLines(a, decode, []).Collected?
    ensures FoldLines(a + [line] + b, decode, []) == Stopped(ErrorEventPrefix + message)
  {
    FoldAppend(a + [line], b, decode, []);
    FoldAppend(a, [line], decode, []);
  }

  /** The contents of the result payloads among `lines`, in arrival order. */
  function Results(lines: seq<string>, decode: string -> Option<Payload>): seq<string> {
    if lines == [] then []
    else match LineEffect(lines[0], decode)
      case Some(Collected(c)) => c + Results(lines[1..], decode)
      case _ => Results(lines[1..], decode)
  }

  /** No line of the stream carries an error or an unreadable payload. */
  predicate NoStop(lines: seq<string>, decode: string -> Option<Payload>) {
    forall i | 0 <= i < |lines| :: !(LineEffect(lines[i], decode).Some? && LineEffect(lines[i], decode).value.Stopped?)
  }

  /** Without an error, the fold collects the result contents in arrival order. */
  lemma {:induction false} FoldCollectsResults(lines: seq<string>, decode: string -> Option<Payload>, parts: seq<string>)
    requires NoStop(lines, decode)
    ensures FoldLines(lines, decode, parts) == Collected(parts + Results(lines, decode))
  {
    if lines != [] {
      assert NoStop(lines[1..], decode) by {
        forall i | 0 <= i < |lines| - 1 ensures lines[1..][i] == lines[i + 1] {
        }
      }
      assert !(LineEffect(lines[0], decode).Some? && LineEffect(lines[0], decode).value.Stopped?);
      match LineEffect(lines[0], decode)
      case None => FoldCollectsResults(lines[1..], decode, parts);
      case Some(Collected(c)) =>
        FoldCollectsResults(lines[1..], decode, parts + c);
        assert parts + c + Results(lines[1..], decode) == parts + (c + Results(lines[1..], decode));
    }
  }

  /** A stream without errors is answered with its result contents joined by newlines,
      or with the fallback when it has none. */
  lemma CleanStreamAnswer(lines: seq<string>, decode: string -> Option<Payload>)
    requires NoStop(lines, decode)
    ensures Results(lines, decode) == [] ==> BridgeAnswer(Lines(lines), decode) == NoResponseText
    ensures Results(lines, decode) != [] ==> BridgeAnswer(Lines(lines), decode) == Join("\n", Results(lines, decode))
  {
    FoldCollectsResults(lines, decode, []);
    assert [] + Results(lines, decode) == Results(lines, decode);
  }

  // ---------------------------------------------------------------- end to end

  /** The payload each server event decodes to. */
  function PayloadOf(e: Event): Payload {
    match e
    case Status(_) => StatusPayload
    case ResultEvent(content) => ResultPayload(content)
    case ErrorEvent(message) => ErrorPayload(message)
  }

  /** The lines of the server's stream: each event is yielded as `data: <json>` followed
      by an empty line. */
  function StreamLines(events: seq<Event>, encode: Event -> string): seq<string> {
    if events == [] then []
    else [DataPrefix + encode(events[0]), ""] + StreamLines(events[1..], encode)
  }

  /** Statuses followed by one terminal event fold to that event's text. */
  lemma {:induction false} StreamFold(events: seq<Event>, encode: Event -> string,
                                      decode: string -> Option<Payload>, parts: seq<string>)
    requires forall e :: decode(encode(e)) == Some(PayloadOf(e))
    requires |events| >= 1 && Terminal(events[|events| - 1])
    requires forall i | 0 <= i < |events| - 1 :: events[i].Status?
    ensures var last := events[|events| - 1];
      FoldLines(StreamLines(events, encode), decode, parts) ==
        if last.ResultEvent? then Collected(parts + [last.content]) else Stopped(ErrorEventPrefix + last.message)
  {
    var e := events[0];
    var line := DataPrefix + encode(e);
    var rest := StreamLines(events[1..], encode);
    var lines := StreamLines(events, encode);
    assert lines == [line, ""] + rest;
    assert line[..|DataPrefix|] == DataPrefix && line[|DataPrefix|..] == encode(e);
    assert lines[1..] == [""] + rest && lines[1..][1..] == rest;
    assert decode(line[|DataPrefix|..]) == Some(PayloadOf(e));
    assert LineEffect("", decode) == None;
    if |events| == 1 {
      assert rest == [] && lines[1..][1..] == [];
      if e.ResultEvent? {
        assert FoldLines(lines[1..], decode, parts + [e.content]) == FoldLines([], decode, parts + [e.content]);
        assert LineEffect(line, decode) == Some(Collected([e.content]));
        assert FoldLines(lines, decode, parts) == FoldLines(lines[1..], decode, parts + [e.content]);
        assert FoldLines(lines, decode, parts) == Collected(parts + [e.content]);
      } else {
        assert LineEffect(line, decode) == Some(Stopped(ErrorEventPrefix + e.message));
      }
    } else {
      assert e.Status?;
      StreamFold(events[1..], encode, decode, parts);
    }
  }

  /** The bridge's `process_weather_query`, reading the server's own stream for the same
      query, returns what the weather pipeline answers, prefixed with `"오류: "` when the
      stream ended with an error event. */
  lemma BridgeRelaysServerAnswer(query: string, world: World, encode: Event -> string,
                                 decode: string -> Option<Payload>)
    requires forall e :: decode(encode(e)) == Some(PayloadOf(e))
    ensures var events := Events(query, world);
      BridgeAnswer(Lines(StreamLines(events, encode)), decode) ==
        if events[|events| - 1].ResultEvent? then WeatherAnswer(query, world)
        else ErrorEventPrefix + WeatherAnswer(query, world)
  {
    var events := Events(query, world);
    StreamFold(events, encode, decode, []);
    StreamEndsWithToolAnswer(query, world);
  }

  // ---------------------------------------------------------------- the tools

  const AlertsQuerySuffix := " 주의 날씨 경보를 알려줘"

  /** The query the bridge's `get_alerts` forwards. */
  function AlertsQuery(state: string): string {
    state + AlertsQuerySuffix
  }

  /** The query the bridge's `get_forecast` forwards, for coordinates rendered as
      `latitude` and `longitude`. */
  function ForecastQuery(latitude: string, longitude: string): string {
    "위도 " + latitude + ", 경도 " + longitude + " 위치의 날씨 예보를 알려줘"
  }

  /** The bridge's `get_alerts`: the answer to the alerts question for `state`. */
  function BridgeGetAlerts(state: string, http: string -> HttpReply, decode: string -> Option<Payload>): string {
    BridgeAnswer(http(AlertsQuery(state)), decode)
  }

  /** The bridge's `get_forecast`. */
  function BridgeGetForecast(latitude: string, longitude: string, http: string -> HttpReply,
                             decode: string -> Option<Payload>): string {
    BridgeAnswer(http(ForecastQuery(latitude, longitude)), decode)
  }

  /** The bridge's `process_weather_query` forwards the query unchanged. */
  function BridgeProcessWeatherQuery(query: string, http: string -> HttpReply,
                                     decode: string -> Option<Payload>): string {
    BridgeAnswer(http(query), decode)
  }

  // ---------------------------------------------------------------- the tools against the server

  /** The reply of the HTTP server for `query`: `/api/query` streams the events of
      `generate_response`, each encoded by `encode`. */
  function ServerReply(query: string, world: World, encode: Event -> string): HttpReply {
    Lines(StreamLines(Events(query, world), encode))
  }

  /** The server's stream for `query` ends in an error event: the first model call did not
      give a `response`, or a weather question's lookup raised. */
  predicate ServerReportsError(query: string, world: World) {
    !world.llm(QueryPrompt(query)).ModelText?
    || (IsWeatherQuery(Lower(query)) && WeatherData(SelectTool(Lower(query)), world.nws).Failure?)
  }

  /** What a bridge tool returns when the server answered with the tool call `sel`. */
  function RelayedToolAnswer(sel: Selection, world: World): string {
    if WeatherData(sel, world.nws).Failure? then ErrorEventPrefix + ToolAnswer(sel, world)
    else ToolAnswer(sel, world)
  }

  /** The bridge's `process_weather_query`, connected to the server, returns what the
      server's pipeline answers for the same query, with `"오류: "` in front exactly when the
      server reported an error. */
  lemma BridgeProcessWeatherQueryRelays(query: string, world: World, http: string -> HttpReply,
                                        encode: Event -> string, decode: string -> Option<Payload>)
    requires forall e :: decode(encode(e)) == Some(PayloadOf(e))
    requires forall q :: http(q) == ServerReply(q, world, encode)
    ensures BridgeProcessWeatherQuery(query, http, decode)
      == if ServerReportsError(query, world) then ErrorEventPrefix + WeatherAnswer(query, world)
         else WeatherAnswer(query, world)
  {
    ServerRelay(query, world, encode, decode);
  }

  /** The relay on the server's reply, whatever the query. */
  lemma ServerRelay(query: string, world: World, encode: Event -> string, decode: string -> Option<Payload>)
    requires forall e :: decode(encode(e)) == Some(PayloadOf(e))
    ensures BridgeAnswer(ServerReply(query, world, encode), decode)
      == if ServerReportsError(query, world) then ErrorEventPrefix + WeatherAnswer(query, world)
         else WeatherAnswer(query, world)
  {
    var events := Events(query, world);
    BridgeRelaysServerAnswer(query, world, encode, decode);
    StreamEndsWithToolAnswer(query, world);
    assert Terminal(events[|events| - 1]);
  }

  /** A forwarded query the server routes to `sel` comes back as that tool call's answer. */
  lemma BridgeRelaysRoutedAnswer(query: string, sel: Selection, world: World, encode: Event -> string,
                                 decode: string -> Option<Payload>)
    requires forall e :: decode(encode(e)) == Some(PayloadOf(e))
    requires world.llm(QueryPrompt(query)).ModelText? && Route(query) == Some(sel)
    ensures BridgeAnswer(ServerReply(query, world, encode), decode) == RelayedToolAnswer(sel, world)
  {
    ServerRelay(query, world, encode, decode);
    assert IsWeatherQuery(Lower(query)) && SelectTool(Lower(query)) == sel;
    assert WeatherAnswer(query, world) == ToolAnswer(sel, world);
  }

  // ---------------------------------------------------------------- routing of the forwarded queries

  /** The characters of the fixed part of the alerts question. */
  const AlertsSuffixChars: set<char> := {' ', '주', '의', '날', '씨', '경', '보', '를', '알', '려', '줘'}

  /** Lowering the alerts question lowers only the state. */
  lemma AlertsQueryLowered(state: string)
    ensures Lower(AlertsQuery(state)) == Lower(state) + AlertsQuerySuffix
    ensures AllIn(AlertsQuerySuffix, AlertsSuffixChars)
  {
    var suffix := AlertsQuerySuffix;
    assert Lower(suffix) == suffix by {
      forall i | 0 <= i < |suffix| ensures Lower(suffix)[i] == suffix[i] {
      }
    }
    LowerAppendUnchanged(state, suffix);
  }

  /** Every alerts question the bridge forwards is a weather question: it says "날씨". */
  lemma AlertsQueryIsWeatherQuery(state: string)
    ensures IsWeatherQuery(Lower(AlertsQuery(state)))
  {
    AlertsQueryLowered(state);
    assert OccursAt(AlertsQuerySuffix, "날씨", 4);
    ContainsInConcat(Lower(state), AlertsQuerySuffix, "날씨");
    assert Contains(Lower(AlertsQuery(state)), WeatherKeywords[3]);
  }

  /** A name holding a character the text never uses does not occur in the text. */
  lemma NameAbsent(q: string, chars: set<char>, name: string, c: char)
    requires AllIn(q, chars) && c !in chars && c in name
    ensures !Contains(q, name)
  {
    var j :| 0 <= j < |name| && name[j] == c;
    assert OccursAt(name, [c], j);
    FirstCharAbsent(q, [c]);
    if Contains(q, name) {
      ContainsTransitive(q, name, [c]);
    }
  }

  /** The lowered alerts question for a two-letter state, and the characters it uses. */
  lemma TwoLetterAlertsQuery(state: string, a: char, b: char)
    requires Lower(state) == [a, b]
    ensures Lower(AlertsQuery(state)) == [a, b] + AlertsQuerySuffix
    ensures AllIn(Lower(AlertsQuery(state)), AlertsSuffixChars + {a, b})
    ensures OccursAt(Lower(AlertsQuery(state)), [a, b], 0)
  {
    AlertsQueryLowered(state);
    AllInConcat([a, b], AlertsQuerySuffix, AlertsSuffixChars + {a, b});
  }

  /** A weather question over the characters of the New York alerts question names
      New York and no Los Angeles name. */
  lemma NewYorkLettersSelectNewYork(q: string)
    requires AllIn(q, AlertsSuffixChars + {'n', 'y'}) && OccursAt(q, "ny", 0)
    ensures SelectTool(q) == ForecastFor(NewYork)
  {
    var chars := AlertsSuffixChars + {'n', 'y'};
    NameAbsent(q, chars, LosAngelesNames[0], 'o');
    NameAbsent(q, chars, LosAngelesNames[1], 'a');
    NameAbsent(q, chars, LosAngelesNames[2], '캘');
    NameAbsent(q, chars, LosAngelesNames[3], 'c');
    assert Contains(q, NewYorkNames[2]);
  }

  /** `get_alerts("NY")` asks the server a question that the router sends to the New York
      forecast, not to any alerts. */
  lemma NewYorkAlertsQueryGetsForecast()
    ensures Route(AlertsQuery("NY")) == Some(ForecastFor(NewYork))
  {
    assert Lower("NY") == ['n', 'y'];
    TwoLetterAlertsQuery("NY", 'n', 'y');
    AlertsQueryIsWeatherQuery("NY");
    NewYorkLettersSelectNewYork(Lower(AlertsQuery("NY")));
  }

  /** A question over the characters of the Florida alerts question names no place. */
  lemma FloridaLettersSelectLosAngeles(q: string)
    requires AllIn(q, AlertsSuffixChars + {'f', 'l'})
    ensures SelectTool(q) == ForecastFor(LosAngeles)
  {
    var chars := AlertsSuffixChars + {'f', 'l'};
    NameAbsent(q, chars, LosAngelesNames[0], 'o');
    NameAbsent(q, chars, LosAngelesNames[1], 'a');
    NameAbsent(q, chars, LosAngelesNames[2], '캘');
    NameAbsent(q, chars, LosAngelesNames[3], 'c');
    NameAbsent(q, chars, NewYorkNames[0], 'n');
    NameAbsent(q, chars, NewYorkNames[1], '뉴');
    NameAbsent(q, chars, NewYorkNames[2], 'n');
    NameAbsent(q, chars, TexasNames[0], 't');
    NameAbsent(q, chars, TexasNames[1], '텍');
    NameAbsent(q, chars, TexasNames[2], 't');
    NameAbsent(q, chars, CaliforniaNames[0], 'c');
    NameAbsent(q, chars, CaliforniaNames[1], '캘');
    NameAbsent(q, chars, CaliforniaNames[2], 'c');
  }

  /** `get_alerts("FL")` names no known place, so it gets the Los Angeles forecast. */
  lemma FloridaAlertsQueryGetsLosAngelesForecast()
    ensures Route(AlertsQuery("FL")) == Some(ForecastFor(LosAngeles))
  {
    assert Lower("FL") == ['f', 'l'];
    TwoLetterAlertsQuery("FL", 'f', 'l');
    AlertsQueryIsWeatherQuery("FL");
    FloridaLettersSelectLosAngeles(Lower(AlertsQuery("FL")));
  }

  /** A question over the characters of the California alerts question that starts with
      "ca" names only California, and only through "ca". */
  lemma CaliforniaLettersSelectAlerts(q: string)
    requires AllIn(q, AlertsSuffixChars + {'c', 'a'}) && OccursAt(q, "ca", 0)
    ensures SelectTool(q) == AlertsFor("CA")
  {
    var chars := AlertsSuffixChars + {'c', 'a'};
    NameAbsent(q, chars, LosAngelesNames[0], 'o');
    NameAbsent(q, chars, LosAngelesNames[1], 'l');
    NameAbsent(q, chars, LosAngelesNames[2], '캘');
    NameAbsent(q, chars, LosAngelesNames[3], 'l');
    NameAbsent(q, chars, NewYorkNames[0], 'n');
    NameAbsent(q, chars, NewYorkNames[1], '뉴');
    NameAbsent(q, chars, NewYorkNames[2], 'n');
    NameAbsent(q, chars, TexasNames[0], 't');
    NameAbsent(q, chars, TexasNames[1], '텍');
    NameAbsent(q, chars, TexasNames[2], 't');
    assert Contains(q, CaliforniaNames[2]);
  }

  /** `get_alerts("CA")` reaches the California alerts through the bare "ca". */
  lemma CaliforniaAlertsQueryGetsAlerts()
    ensures Route(AlertsQuery("CA")) == Some(AlertsFor("CA"))
  {
    assert Lower("CA") == ['c', 'a'];
    TwoLetterAlertsQuery("CA", 'c', 'a');
    AlertsQueryIsWeatherQuery("CA");
    CaliforniaLettersSelectAlerts(Lower(AlertsQuery("CA")));
  }

  /** The characters of a float as `str` renders it: digits, sign and point, the exponent
      of `1e-05` or `1e+16`, and the words `inf` and `nan`. */
  const NumberChars: set<char> :=
    {'0', '1', '2', '3', '4', '5', '6', '7', '8', '9', '.', '-', '+', 'e', 'i', 'n', 'f', 'a'}

  /** The characters a forecast question can hold when its coordinates are numbers. */
  const ForecastQueryChars: set<char> :=
    NumberChars + {' ', ',', '위', '도', '경', '치', '의', '날', '씨', '예', '보', '를', '알', '려', '줘'}

  predicate AllIn(s: string, chars: set<char>) {
    forall i | 0 <= i < |s| :: s[i] in chars
  }

  lemma AllInConcat(a: string, b: string, chars: set<char>)
    requires AllIn(a, chars) && AllIn(b, chars)
    ensures AllIn(a + b, chars)
  {
  }

  /** The forecast question is built from its coordinates and fixed Korean text only. */
  lemma ForecastQueryCharacters(latitude: string, longitude: string)
    requires AllIn(latitude, NumberChars) && AllIn(longitude, NumberChars)
    ensures AllIn(ForecastQuery(latitude, longitude), ForecastQueryChars)
  {
    var c := ForecastQueryChars;
    assert AllIn("위도 ", c);
    assert AllIn(", 경도 ", c);
    assert AllIn(" 위치의 날씨 예보를 알려줘", c);
    AllInConcat("위도 ", latitude, c);
    AllInConcat("위도 " + latitude, ", 경도 ", c);
    AllInConcat("위도 " + latitude + ", 경도 ", longitude, c);
    AllInConcat("위도 " + latitude + ", 경도 " + longitude, " 위치의 날씨 예보를 알려줘", c);
  }

  /** The forecast question has no capitals, so lowering leaves it as it is. */
  lemma ForecastQueryLowered(latitude: string, longitude: string)
    requires AllIn(latitude, NumberChars) && AllIn(longitude, NumberChars)
    ensures Lower(ForecastQuery(latitude, longitude)) == ForecastQuery(latitude, longitude)
  {
    var q := ForecastQuery(latitude, longitude);
    ForecastQueryCharacters(latitude, longitude);
    forall i | 0 <= i < |q| ensures Lower(q)[i] == q[i] {
      assert q[i] in ForecastQueryChars;
    }
  }

  /** The forecast question always says "날씨". */
  lemma ForecastQuerySaysWeather(latitude: string, longitude: string)
    ensures Contains(ForecastQuery(latitude, longitude), "날씨")
  {
    var head := "위도 " + latitude + ", 경도 " + longitude;
    var tail := " 위치의 날씨 예보를 알려줘";
    assert ForecastQuery(latitude, longitude) == head + tail;
    assert OccursAt(tail, "날씨", 5);
    ContainsInConcat(head, tail, "날씨");
  }

  /** The bridge's `get_forecast` ignores its coordinates: the question it forwards names
      no place, so whatever floats it is given, finite or not, the server answers with the
      Los Angeles forecast. */
  lemma ForecastQueryGetsLosAngelesForecast(latitude: string, longitude: string)
    requires AllIn(latitude, NumberChars) && AllIn(longitude, NumberChars)
    ensures Route(ForecastQuery(latitude, longitude)) == Some(ForecastFor(LosAngeles))
  {
    var q := ForecastQuery(latitude, longitude);
    ForecastQueryCharacters(latitude, longitude);
    ForecastQueryLowered(latitude, longitude);
    ForecastQuerySaysWeather(latitude, longitude);
    assert Contains(q, WeatherKeywords[3]);
    ForecastCharsSelectLosAngeles(q);
  }

  /** A text made of forecast-question characters names no place at all. */
  lemma ForecastCharsSelectLosAngeles(q: string)
    requires AllIn(q, ForecastQueryChars)
    ensures SelectTool(q) == ForecastFor(LosAngeles)
  {
    NoNameOutsideChars(q, LosAngelesNames);
    NameAbsent(q, ForecastQueryChars, NewYorkNames[0], 'w');
    NameAbsent(q, ForecastQueryChars, NewYorkNames[1], '뉴');
    NameAbsent(q, ForecastQueryChars, NewYorkNames[2], 'y');
    NoNameOutsideChars(q, TexasNames);
    NoNameOutsideChars(q, CaliforniaNames);
  }

  /** A text made of forecast-question characters names no place whose first character
      is not one of them. */
  lemma NoNameOutsideChars(q: string, names: seq<string>)
    requires AllIn(q, ForecastQueryChars)
    requires forall k | 0 <= k < |names| :: names[k] != [] && names[k][0] !in ForecastQueryChars
    ensures !ContainsAny(q, names)
  {
    forall k | 0 <= k < |names| ensures !Contains(q, names[k]) {
      FirstCharAbsent(q, names[k]);
    }
  }

  /** The bridge's `get_alerts("NY")`, connected to the server, returns the New York
      forecast, not any alerts. */
  lemma BridgeGetAlertsNewYork(world: World, http: string -> HttpReply, encode: Event -> string,
                               decode: string -> Option<Payload>)
    requires forall e :: decode(encode(e)) == Some(PayloadOf(e))
    requires forall q :: http(q) == ServerReply(q, world, encode)
    requires world.llm(QueryPrompt(AlertsQuery("NY"))).ModelText?
    ensures BridgeGetAlerts("NY", http, decode) == RelayedToolAnswer(ForecastFor(NewYork), world)
  {
    NewYorkAlertsQueryGetsForecast();
    BridgeRelaysRoutedAnswer(AlertsQuery("NY"), ForecastFor(NewYork), world, encode, decode);
  }

  /** The bridge's `get_alerts("FL")`, connected to the server, returns the Los Angeles
      forecast. */
  lemma BridgeGetAlertsFlorida(world: World, http: string -> HttpReply, encode: Event -> string,
                               decode: string -> Option<Payload>)
    requires forall e :: decode(encode(e)) == Some(PayloadOf(e))
    requires forall q :: http(q) == ServerReply(q, world, encode)
    requires world.llm(QueryPrompt(AlertsQuery("FL"))).ModelText?
    ensures BridgeGetAlerts("FL", http, decode) == RelayedToolAnswer(ForecastFor(LosAngeles), world)
  {
    FloridaAlertsQueryGetsLosAngelesForecast();
    BridgeRelaysRoutedAnswer(AlertsQuery("FL"), ForecastFor(LosAngeles), world, encode, decode);
  }

  /** The bridge's `get_alerts("CA")`, connected to the server, returns the California
      alerts. */
  lemma BridgeGetAlertsCalifornia(world: World, http: string -> HttpReply, encode: Event -> string,
                                  decode: string -> Option<Payload>)
    requires forall e :: decode(encode(e)) == Some(PayloadOf(e))
    requires forall q :: http(q) == ServerReply(q, world, encode)
    requires world.llm(QueryPrompt(AlertsQuery("CA"))).ModelText?
    ensures BridgeGetAlerts("CA", http, decode) == RelayedToolAnswer(AlertsFor("CA"), world)
  {
    CaliforniaAlertsQueryGetsAlerts();
    BridgeRelaysRoutedAnswer(AlertsQuery("CA"), AlertsFor("CA"), world, encode, decode);
  }

  /** The bridge's `get_forecast`, connected to the server, returns the Los Angeles
      forecast whatever floats it is given. */
  lemma BridgeGetForecastLosAngeles(latitude: string, longitude: string, world: World,
                                    http: string -> HttpReply, encode: Event -> string,
                                    decode: string -> Option<Payload>)
    requires forall e :: decode(encode(e)) == Some(PayloadOf(e))
    requires forall q :: http(q) == ServerReply(q, world, encode)
    requires AllIn(latitude, NumberChars) && AllIn(longitude, NumberChars)
    requires world.llm(QueryPrompt(ForecastQuery(latitude, longitude))).ModelText?
    ensures BridgeGetForecast(latitude, longitude, http, decode)
      == RelayedToolAnswer(ForecastFor(LosAngeles), world)
  {
    ForecastQueryGetsLosAngelesForecast(latitude, longitude);
    BridgeRelaysRoutedAnswer(ForecastQuery(latitude, longitude), ForecastFor(LosAngeles), world, encode, decode);
  }
}
