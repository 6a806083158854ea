/**
 * The helpers of the Ollama MCP client in client_ollama.py: `_flatten_to_str_list`, the
 * in-place `_convert_parameter_types`, and `process_query` with its keyword trigger for
 * the one tool call it makes. The model, the MCP session and the number parsers are
 * inputs; the prompt is built by the same `+=` loop as the server's, without a cap.
 */
module ClientOllama {
  import opened Wrappers
  import opened Text
  import opened OllamaPrompt
  import opened QueryRouter
  import opened Orchestration

  // ---------------------------------------------------------------- _flatten_to_str_list

  /** A Python value as `_flatten_to_str_list` sees it: a string, a list or tuple of
      values, a dict, or any other object; `repr` is what `str()` gives for the last two. */
  datatype PyValue = PyStr(s: string) | PyList(items: seq<PyValue>) | PyTuple(items: seq<PyValue>)
                   | PyDict(repr: string) | PyOther(repr: string)

  predicate IsSequence(v: PyValue) {
    v.PyList? || v.PyTuple?
  }

  /** `str(v)` for a value that is not a list or tuple. */
  function StrOf(v: PyValue): string
    requires !IsSequence(v)
  {
    match v
    case PyStr(s) => s
    case PyDict(r) => r
    case PyOther(r) => r
  }

  /** `_flatten_to_str_list(v)`. */
  function Flatten(v: PyValue): seq<string>
    decreases v
  {
    if IsSequence(v) then FlattenAll(v.items) else [StrOf(v)]
  }

  /** The flattenings of `items`, concatenated in order. */
  function FlattenAll(items: seq<PyValue>): seq<string>
    decreases items
  {
    if items == [] then [] else Flatten(items[0]) + FlattenAll(items[1..])
  }

  /** Flattening a concatenation of items concatenates their flattenings. */
  lemma {:induction false} FlattenAllAppend(a: seq<PyValue>, b: seq<PyValue>)
    ensures FlattenAll(a + b) == FlattenAll(a) + FlattenAll(b)
  {
    if a == [] {
      assert a + b == b;
    } else {
      assert (a + b)[1..] == a[1..] + b;
      FlattenAllAppend(a[1..], b);
    }
  }

  /** The recursive function with its `result.extend` loop. */
  method FlattenToStrList(v: PyValue) returns (result: seq<string>)
    ensures result == Flatten(v)
    decreases v
  {
    if IsSequence(v) {
      result := [];
      for i := 0 to |v.items|
        invariant result == FlattenAll(v.items[..i])
      {
        var part := FlattenToStrList(v.items[i]);
        FlattenAllAppend(v.items[..i], [v.items[i]]);
        assert v.items[..i + 1] == v.items[..i] + [v.items[i]];
        assert FlattenAll([v.items[i]]) == Flatten(v.items[i]) + FlattenAll([]);
        result := result + part;
      }
      assert v.items[..|v.items|] == v.items;
    } else {
      result := [StrOf(v)];
    }
  }

  /** Nesting does not matter: a list of two lists or tuples flattens like one list of
      all their items, in order. */
  lemma FlattenNested(a: seq<PyValue>, b: seq<PyValue>)
    ensures Flatten(PyList([PyList(a), PyTuple(b)])) == Flatten(PyList(a + b))
  {
    var pair := [PyList(a), PyTuple(b)];
    FlattenAllAppend(a, b);
    assert pair[1..] == [PyTuple(b)] && pair[1..][1..] == [];
    assert FlattenAll(pair[1..]) == Flatten(PyTuple(b)) + FlattenAll([]);
    assert FlattenAll(pair) == Flatten(PyList(a)) + FlattenAll(pair[1..]);
  }

  /** A list of the given strings. */
  function StrValues(ss: seq<string>): seq<PyValue> {
    seq(|ss|, i requires 0 <= i < |ss| => PyStr(ss[i]))
  }

  /** Flattening a list of strings gives the strings back. */
  lemma {:induction false} FlattenStrings(ss: seq<string>)
    ensures FlattenAll(StrValues(ss)) == ss
  {
    if ss != [] {
      assert StrValues(ss)[1..] == StrValues(ss[1..]);
      FlattenStrings(ss[1..]);
    }
  }

  /** Flattening is idempotent: re-flattening the flattened strings changes nothing. */
  lemma FlattenIdempotent(v: PyValue)
    ensures Flatten(PyList(StrValues(Flatten(v)))) == Flatten(v)
  {
    FlattenStrings(Flatten(v));
  }

  // ---------------------------------------------------------------- _convert_parameter_types

  /** A tool argument value. */
  datatype ArgValue = StrArg(s: string) | FloatArg(x: real) | IntArg(n: int) | BoolArg(b: bool)
                    | OtherArg(repr: string)

  /** The `type` entry of each parameter in a schema's `properties` (`None` when it has none). */
  type Properties = map<string, Option<string>>

  /** A listed tool: its name and its input schema's `properties`, `None` when the schema
      is `None`, empty or has no `properties`. */
  datatype ToolInfo = ToolInfo(name: string, properties: Option<Properties>)

  /** `float(s)` and `int(s)`: the number, or `None` for a ValueError. */
  datatype Parsers = Parsers(toFloat: string -> Option<real>, toInt: string -> Option<int>)

  const TrueWords: set<string> := {"true", "1", "yes", "on"}

  /** The index of the first tool called `name`, where the search loop breaks. */
  function FirstToolIndex(tools: seq<ToolInfo>, name: string): (r: Option<nat>)
    ensures r.None? <==> forall i | 0 <= i < |tools| :: tools[i].name != name
    ensures r.Some? ==> (r.value < |tools| && tools[r.value].name == name
                         && forall j | 0 <= j < r.value :: tools[j].name != name)
  {
    if tools == [] then None
    else if tools[0].name == name then Some(0)
    else match FirstToolIndex(tools[1..], name)
      case None => None
      case Some(i) => Some(i + 1)
  }

  /** The `properties` of the schema found for `name`, if any. */
  function SchemaProperties(tools: seq<ToolInfo>, name: string): Option<Properties> {
    match FirstToolIndex(tools, name)
    case None => None
    case Some(i) => tools[i].properties
  }

  /** One argument after conversion to the schema's `type`: only strings are converted,
      a failed parse leaves the string, and an unknown type leaves it too. */
  function ConvertValue(paramType: Option<string>, value: ArgValue, parsers: Parsers): ArgValue {
    if !value.StrArg? then value
    else if paramType == Some("number") then
      (match parsers.toFloat(value.s) case Some(x) => FloatArg(x) case None => value)
    else if paramType == Some("integer") then
      (match parsers.toInt(value.s) case Some(n) => IntArg(n) case None => value)
    else if paramType == Some("boolean") then BoolArg(Lower(value.s) in TrueWords)
    else value
  }

  /** The arguments after `_convert_parameter_types`, for the schema found. */
  function ConvertedArgs(properties: Option<Properties>, args: map<string, ArgValue>, parsers: Parsers): (r: map<string, ArgValue>)
    ensures r.Keys == args.Keys
    ensures forall k | k in args :: r[k] == args[k] || args[k].StrArg?
  {
    if properties.None? then args
    else map k | k in args :: if k in properties.value then ConvertValue(properties.value[k], args[k], parsers) else args[k]
  }

  /** A tool the client does not list leaves the arguments as they are. */
  lemma UnknownToolUnchanged(tools: seq<ToolInfo>, name: string, args: map<string, ArgValue>, parsers: Parsers)
    requires forall i | 0 <= i < |tools| :: tools[i].name != name
    ensures ConvertedArgs(SchemaProperties(tools, name), args, parsers) == args
  {
  }

  /** Arguments the schema does not name, and values that are not strings, are kept. */
  lemma UnconvertedArguments(properties: Option<Properties>, args: map<string, ArgValue>, parsers: Parsers, k: string)
    requires k in args
    requires properties.None? || k !in properties.value || !args[k].StrArg?
    ensures ConvertedArgs(properties, args, parsers)[k] == args[k]
  {
  }

  /** A string for a `boolean` parameter becomes true exactly for "true", "1", "yes" and
      "on", in any letter case. */
  lemma BooleanConversion(properties: Properties, args: map<string, ArgValue>, parsers: Parsers, k: string)
    requires k in args && args[k].StrArg? && k in properties && properties[k] == Some("boolean")
    ensures ConvertedArgs(Some(properties), args, parsers)[k].BoolArg?
    ensures ConvertedArgs(Some(properties), args, parsers)[k].b <==>
      Lower(args[k].s) == "true" || Lower(args[k].s) == "1" || Lower(args[k].s) == "yes" || Lower(args[k].s) == "on"
  {
  }

  /** Converting twice is converting once: a converted value is no longer a string, and a
      string left in place fails the same way again. */
  lemma ConversionIdempotent(properties: Option<Properties>, args: map<string, ArgValue>, parsers: Parsers)
    ensures ConvertedArgs(properties, ConvertedArgs(properties, args, parsers), parsers)
         == ConvertedArgs(properties, args, parsers)
  {
    var once := ConvertedArgs(properties, args, parsers);
    var twice := ConvertedArgs(properties, once, parsers);
    if properties.Some? {
      forall k | k in args ensures twice[k] == once[k] {
        if k in properties.value {
          var t := properties.value[k];
          assert once[k] == ConvertValue(t, args[k], parsers);
          assert twice[k] == ConvertValue(t, once[k], parsers);
        }
      }
    }
  }

  /** The `tool_args` dict, updated in place. */
  class ToolArgs {
    var entries: map<string, ArgValue>

    constructor (entries: map<string, ArgValue>)
      ensures this.entries == entries
    {
      this.entries := entries;
    }
  }

  // ---------------------------------------------------------------- process_query

  /** What `session.call_tool` gives: it raises with message `err`, or returns a result
      whose `content` is `content` and whose `str(result.content)` is `contentText`. */
  datatype ToolReply = ToolRaised(err: string) | ToolResult(content: PyValue, contentText: string)

  /** The client's outside services: the model's reply to each prompt and the MCP
      session's reply to each tool call. */
  datatype ClientEnv = ClientEnv(llm: string -> LlmReply, callTool: (string, map<string, string>) -> ToolReply)

  /** One outside request of `process_query`. */
  datatype ClientCall = OllamaCall(prompt: string) | ToolCall(name: string, arguments: map<string, string>)

  const ApiErrorPrefix := "Error calling Ollama API: "
  const ToolSuccessNote := "[Tool get_forecast executed successfully]"
  const ToolErrorPrefix := "[Error calling tool get_forecast: "
  const ToolReportPrefix := "I called the get_forecast tool and got the following result: "
  const SummaryRequest := "Please provide a summary of the weather information."
  const SystemHead := "You are a helpful assistant with access to weather tools. \nAvailable tools: "
  const SystemTail := "\n\nWhen asked about weather, I will automatically call the appropriate weather tool.\nFor Los Angeles weather, I will use the get_forecast tool with coordinates: latitude=34.0522, longitude=-118.2437"

  /** The one argument set the client ever sends, with the floats as they render. */
  function LosAngelesArguments(): map<string, string> {
    map["latitude" := Latitude(LosAngeles), "longitude" := Longitude(LosAngeles)]
  }

  /** The `repr` of the list of tool names. */
  function ToolNamesRepr(tools: seq<ToolInfo>): string {
    "[" + Join(", ", seq(|tools|, i requires 0 <= i < |tools| => "'" + tools[i].name + "'")) + "]"
  }

  /** The first conversation: the system message naming the listed tools, then the query. */
  function FirstMessages(tools: seq<ToolInfo>, query: string): seq<Message> {
    [Message(System, SystemHead + ToolNamesRepr(tools) + SystemTail), Message(User, query)]
  }

  /** The conversation of the summary call, after the tool returned `contentText`. */
  function SummaryMessages(tools: seq<ToolInfo>, query: string, contentText: string): seq<Message> {
    FirstMessages(tools, query)
    + [Message(Assistant, ToolReportPrefix + contentText)]
    + [Message(User, SummaryRequest)]
  }

  function ToolError(message: string): string {
    ToolErrorPrefix + message + "]"
  }

  /** The reply mentions a tool name and Los Angeles (or any "la"), in any letter case. */
  predicate TriggersToolCall(reply: string) {
    var lowered := Lower(reply);
    (Contains(lowered, "get_forecast") || Contains(lowered, "get_alerts"))
    && (Contains(lowered, "los angeles") || Contains(lowered, "la"))
  }

  /** The texts appended after the reply when the tool call is triggered. */
  function ToolStepTexts(tools: seq<ToolInfo>, query: string, env: ClientEnv): seq<string> {
    match env.callTool("get_forecast", LosAngelesArguments())
    case ToolRaised(err) => [ToolError(err)]
    case ToolResult(content, contentText) =>
      [ToolSuccessNote] + Flatten(content)
      + match env.llm(Flattened(SummaryMessages(tools, query, contentText)))
        case ModelFailed(reason) => [ToolError(OllamaError(reason))]
        case NoResponseField => []
        case ModelText(text) => [text]
  }

  /** The requests made after the reply when the tool call is triggered. */
  function ToolStepCalls(tools: seq<ToolInfo>, query: string, env: ClientEnv): seq<ClientCall> {
    [ToolCall("get_forecast", LosAngelesArguments())]
    + match env.callTool("get_forecast", LosAngelesArguments())
      case ToolRaised(_) => []
      case ToolResult(_, contentText) => [OllamaCall(Flattened(SummaryMessages(tools, query, contentText)))]
  }

  function FirstPrompt(tools: seq<ToolInfo>, query: string): string {
    Flattened(FirstMessages(tools, query))
  }

  /** The `final_text` list when the first call returned. */
  function FinalTexts(tools: seq<ToolInfo>, query: string, env: ClientEnv): seq<string> {
    match env.llm(FirstPrompt(tools, query))
    case ModelText(text) => [text] + (if TriggersToolCall(text) then ToolStepTexts(tools, query, env) else [])
    case _ => []
  }

  /** The string `process_query` returns. */
  function ClientAnswer(tools: seq<ToolInfo>, query: string, env: ClientEnv): string {
    match env.llm(FirstPrompt(tools, query))
    case ModelFailed(reason) => ApiErrorPrefix + OllamaError(reason)
    case _ => Join("\n", FinalTexts(tools, query, env))
  }

  /** The requests `process_query` makes, in order. */
  function ClientCalls(tools: seq<ToolInfo>, query: string, env: ClientEnv): seq<ClientCall> {
    [OllamaCall(FirstPrompt(tools, query))]
    + match env.llm(FirstPrompt(tools, query))
      case ModelText(text) => if TriggersToolCall(text) then ToolStepCalls(tools, query, env) else []
      case _ => []
  }

  /** The client object: the tools the server listed when it connected. */
  class McpClient {
    var tools: seq<ToolInfo>

    /** The state `connect_to_server` leaves: the listed tools. */
    constructor (tools: seq<ToolInfo>)
      ensures this.tools == tools
    {
      this.tools := tools;
    }

    /** The schema search loop of `_convert_parameter_types`. */
    method FindToolSchema(toolName: string) returns (properties: Option<Properties>)
      ensures properties == SchemaProperties(tools, toolName)
    {
      properties := None;
      var i := 0;
      while i < |tools|
        invariant 0 <= i <= |tools|
        invariant forall j | 0 <= j < i :: tools[j].name != toolName
      {
        if tools[i].name == toolName {
          properties := tools[i].properties;
          break;
        }
        i := i + 1;
      }
    }

    /** `_convert_parameter_types(tool_name, tool_args)`: rewrites the values of `args` in
        place and returns the same object. */
    method ConvertParameterTypes(toolName: string, args: ToolArgs, parsers: Parsers) returns (r: ToolArgs)
      modifies args
      ensures r == args
      ensures args.entries == ConvertedArgs(SchemaProperties(tools, toolName), old(args.entries), parsers)
    {
      var properties := FindToolSchema(toolName);
      if properties.Some? {
        ghost var original := args.entries;
        var pending := args.entries.Keys;
        while pending != {}
          invariant args.entries.Keys == original.Keys && pending <= original.Keys
          invariant forall k | k in pending :: args.entries[k] == original[k]
          invariant forall k | k in original && k !in pending ::
            args.entries[k] == ConvertedArgs(properties, original, parsers)[k]
          decreases pending
        {
          var name :| name in pending;
          var value := args.entries[name];
          if name in properties.value && value.StrArg? {
            var paramType := properties.value[name];
            if paramType == Some("number") {
              var parsed := parsers.toFloat(value.s);
              if parsed.Some? {
                args.entries := args.entries[name := FloatArg(parsed.value)];
              }
            } else if paramType == Some("integer") {
              var parsed := parsers.toInt(value.s);
              if parsed.Some? {
                args.entries := args.entries[name := IntArg(parsed.value)];
              }
            } else if paramType == Some("boolean") {
              args.entries := args.entries[name := BoolArg(Lower(value.s) in TrueWords)];
            }
          }
          pending := pending - {name};
        }
      }
      return args;
    }

    /** `process_query(query)`, with the requests it makes. */
    method ProcessQuery(query: string, env: ClientEnv) returns (answer: string, calls: seq<ClientCall>)
      ensures answer == ClientAnswer(tools, query, env)
      ensures calls == ClientCalls(tools, query, env)
    {
      var messages := FirstMessages(tools, query);
      var prompt := BuildPrompt(messages);
      calls := [OllamaCall(prompt)];
      var response := env.llm(prompt);
      if response.ModelFailed? {
        return ApiErrorPrefix + OllamaError(response.reason), calls;
      }
      var finalText: seq<string> := [];
      if response.ModelText? {
        var responseText := response.text;
        finalText := finalText + [responseText];
        var lowered := Lower(responseText);
        if Contains(lowered, "get_forecast") || Contains(lowered, "get_alerts") {
          if Contains(lowered, "los angeles") || Contains(lowered, "la") {
            var texts, toolCalls := CallForecastTool(query, messages, env);
            finalText := finalText + texts;
            calls := calls + toolCalls;
          }
        }
      }
      answer := Join("\n", finalText);
    }

    /** The tool-call branch of `process_query`. */
    method CallForecastTool(query: string, messages: seq<Message>, env: ClientEnv)
      returns (texts: seq<string>, calls: seq<ClientCall>)
      requires messages == FirstMessages(tools, query)
      ensures texts == ToolStepTexts(tools, query, env)
      ensures calls == ToolStepCalls(tools, query, env)
    {
      var toolArgs := LosAngelesArguments();
      calls := [ToolCall("get_forecast", toolArgs)];
      var result := env.callTool("get_forecast", toolArgs);
      if result.ToolRaised? {
        return [ToolError(result.err)], calls;
      }
      texts := [ToolSuccessNote];
      if result.content.PyStr? {
        texts := texts + [result.content.s];
      } else {
        var parts := FlattenToStrList(result.content);
        texts := texts + parts;
      }
      var conversation := messages + [Message(Assistant, ToolReportPrefix + result.contentText)];
      conversation := conversation + [Message(User, SummaryRequest)];
      var prompt := BuildPrompt(conversation);
      calls := calls + [OllamaCall(prompt)];
      var finalResponse := env.llm(prompt);
      if finalResponse.ModelFailed? {
        texts := texts + [ToolError(OllamaError(finalResponse.reason))];
      } else if finalResponse.ModelText? {
        texts := texts + [finalResponse.text];
      }
    }
  }

  // ---------------------------------------------------------------- properties

  /** If the first model call raises, the answer is the error text and nothing else is
      requested: no tool is called. */
  lemma FirstCallFailureCallsNoTool(tools: seq<ToolInfo>, query: string, env: ClientEnv, reason: string)
    requires env.llm(FirstPrompt(tools, query)) == ModelFailed(reason)
    ensures ClientAnswer(tools, query, env) == ApiErrorPrefix + OllamaError(reason)
    ensures ClientCalls(tools, query, env) == [OllamaCall(FirstPrompt(tools, query))]
  {
  }

  /** The only tool ever called is `get_forecast` with the Los Angeles coordinates, and it
      is called exactly when the first reply triggers it. */
  lemma OnlyLosAngelesForecastCalled(tools: seq<ToolInfo>, query: string, env: ClientEnv)
    ensures var calls := ClientCalls(tools, query, env);
      forall i | 0 <= i < |calls| && calls[i].ToolCall? :: calls[i] == ToolCall("get_forecast", LosAngelesArguments())
    ensures var calls := ClientCalls(tools, query, env);
      (exists i | 0 <= i < |calls| :: calls[i].ToolCall?) <==>
        env.llm(FirstPrompt(tools, query)).ModelText? && TriggersToolCall(env.llm(FirstPrompt(tools, query)).text)
  {
    var calls := ClientCalls(tools, query, env);
    var reply := env.llm(FirstPrompt(tools, query));
    if reply.ModelText? && TriggersToolCall(reply.text) {
      assert calls[1].ToolCall?;
    }
  }

  /** "latitude" contains "la": a reply that mentions `get_forecast` and any latitude, for
      New York as much as for Los Angeles, triggers the Los Angeles call. */
  lemma LatitudeMentionTriggersCall(reply: string)
    requires Contains(Lower(reply), "get_forecast") && Contains(Lower(reply), "latitude")
    ensures TriggersToolCall(reply)
  {
    assert OccursAt("latitude", "la", 0);
    ContainsTransitive(Lower(reply), "latitude", "la");
  }

  /** A reply that does not trigger the tool is returned unchanged, after one request. */
  lemma UntriggeredReplyReturned(tools: seq<ToolInfo>, query: string, env: ClientEnv, text: string)
    requires env.llm(FirstPrompt(tools, query)) == ModelText(text)
    requires !TriggersToolCall(text)
    ensures ClientAnswer(tools, query, env) == text
    ensures ClientCalls(tools, query, env) == [OllamaCall(FirstPrompt(tools, query))]
  {
  }

  /** Whatever the tool and the summary call do, the answer begins with the first reply. */
  lemma AnswerStartsWithReply(tools: seq<ToolInfo>, query: string, env: ClientEnv, text: string)
    requires env.llm(FirstPrompt(tools, query)) == ModelText(text)
    ensures StartsWith(ClientAnswer(tools, query, env), text)
  {
    JoinStartsWithFirst("\n", FinalTexts(tools, query, env));
  }

  /** The client does not cap its prompt: the whole query reaches the model however long
      it is. */
  lemma PromptKeepsWholeQuery(tools: seq<ToolInfo>, query: string)
    ensures Contains(FirstPrompt(tools, query), query)
  {
    var system := SystemHead + ToolNamesRepr(tools) + SystemTail;
    SystemUserPrompt(system, query);
    var before := "System: " + system + "\n\n" + "User: ";
    var after := "\n\n" + "Assistant: ";
    assert FirstPrompt(tools, query) == before + query + after;
    assert OccursAt(query, query, 0);
    ContainsInConcat(before, query, query);
    ContainsInConcat(before + query, after, query);
  }
}
