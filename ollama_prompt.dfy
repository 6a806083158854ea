/**
 * How `call_ollama` turns a role-tagged conversation into the single prompt string
 * sent to Ollama's generate endpoint, and the 4000-character cap the server-side
 * copies apply to it.
 */
module OllamaPrompt {
  import opened Text

  /** A message's `role` string: the three names the prompt builder knows, or any other
      name, which `RoleOf` never maps to "system", "user" or "assistant". */
  datatype Role = System | User | Assistant | OtherRole(name: string)

  /** The role a `role` string stands for. */
  function RoleOf(name: string): (r: Role)
    ensures r.OtherRole? <==> name != "system" && name != "user" && name != "assistant"
    ensures r.OtherRole? ==> r.name == name
  {
    if name == "system" then System
    else if name == "user" then User
    else if name == "assistant" then Assistant
    else OtherRole(name)
  }

  /** One `{"role": ..., "content": ...}` entry of the `messages` list. */
  datatype Message = Message(role: Role, content: string)

  const MaxPromptLength: nat := 4000
  const TruncationMarker := "\n\n[Content truncated due to length]"
  /** The cue appended after the last message. */
  const AssistantCue := "Assistant: "

  /** What one message adds to the prompt; a message with any other role adds nothing. */
  function Segment(m: Message): string {
    match m.role
    case System => "System: " + m.content + "\n\n"
    case User => "User: " + m.content + "\n\n"
    case Assistant => "Assistant: " + m.content + "\n\n"
    case OtherRole(_) => ""
  }

  /** The segments of `messages`, in message order. */
  function Segments(messages: seq<Message>): string
    decreases |messages|
  {
    if messages == [] then "" else Segment(messages[0]) + Segments(messages[1..])
  }

  /** The prompt before any length cap: all segments, then the assistant cue. */
  function Flattened(messages: seq<Message>): string {
    Segments(messages) + AssistantCue
  }

  /** The length cap of the server-side `call_ollama` copies. */
  function Truncated(prompt: string): (r: string)
    ensures |r| <= MaxPromptLength + |TruncationMarker|
    ensures |prompt| <= MaxPromptLength ==> r == prompt
    ensures |prompt| > MaxPromptLength ==>
      StartsWith(r, prompt[..MaxPromptLength]) && r[MaxPromptLength..] == TruncationMarker
  {
    if |prompt| > MaxPromptLength then prompt[..MaxPromptLength] + TruncationMarker else prompt
  }

  /** The prompt the server-side copies post: flattened, then capped. */
  function SentPrompt(messages: seq<Message>): string {
    Truncated(Flattened(messages))
  }

  /** The `prompt +=` loop of `call_ollama`. */
  method BuildPrompt(messages: seq<Message>) returns (prompt: string)
    ensures prompt == Flattened(messages)
  {
    prompt := "";
    for i := 0 to |messages|
      invariant prompt == Segments(messages[..i])
    {
      var msg := messages[i];
      SegmentsStep(messages, i);
      if msg.role == System {
        prompt := prompt + ("System: " + msg.content + "\n\n");
      } else if msg.role == User {
        prompt := prompt + ("User: " + msg.content + "\n\n");
      } else if msg.role == Assistant {
        prompt := prompt + ("Assistant: " + msg.content + "\n\n");
      }
    }
    assert messages[..|messages|] == messages;
    prompt := prompt + AssistantCue;
  }

  /** Flattening then capping, as the server-side `call_ollama` copies do before posting. */
  method BuildCappedPrompt(messages: seq<Message>) returns (prompt: string)
    ensures prompt == SentPrompt(messages)
    ensures |prompt| <= MaxPromptLength + |TruncationMarker|
  {
    prompt := BuildPrompt(messages);
    if |prompt| > MaxPromptLength {
      prompt := prompt[..MaxPromptLength] + TruncationMarker;
    }
  }

  /** Capping an already capped prompt changes nothing. */
  lemma TruncatedIdempotent(prompt: string)
    ensures Truncated(Truncated(prompt)) == Truncated(prompt)
  {
    if |prompt| > MaxPromptLength {
      var r := Truncated(prompt);
      assert r[..MaxPromptLength] == prompt[..MaxPromptLength];
    }
  }

  /** The prompt of a conversation is the prompt of its first part followed by that of the rest. */
  lemma {:induction false} SegmentsAppend(a: seq<Message>, b: seq<Message>)
    ensures Segments(a + b) == Segments(a) + Segments(b)
    decreases |a|
  {
    if a == [] {
      assert a + b == b;
    } else {
      assert (a + b)[1..] == a[1..] + b;
      SegmentsAppend(a[1..], b);
    }
  }

  /** The messages whose role is system, user or assistant, in order. */
  function KnownRoles(messages: seq<Message>): seq<Message>
    decreases |messages|
  {
    if messages == [] then []
    else (if messages[0].role.OtherRole? then [] else [messages[0]]) + KnownRoles(messages[1..])
  }

  /** One more message adds its own segment at the end. */
  lemma SegmentsStep(messages: seq<Message>, i: nat)
    requires i < |messages|
    ensures Segments(messages[..i + 1]) == Segments(messages[..i]) + Segment(messages[i])
  {
    assert messages[..i + 1] == messages[..i] + [messages[i]];
    SegmentsAppend(messages[..i], [messages[i]]);
    assert [messages[i]][1..] == [];
  }

  /** Messages with any other role leave no trace in the prompt. */
  lemma {:induction false} OtherRolesIgnored(messages: seq<Message>)
    ensures Segments(messages) == Segments(KnownRoles(messages))
    decreases |messages|
  {
    if messages != [] {
      var head := if messages[0].role.OtherRole? then [] else [messages[0]];
      OtherRolesIgnored(messages[1..]);
      SegmentsAppend(head, KnownRoles(messages[1..]));
      if head != [] {
        assert head[1..] == [];
      }
    }
  }

  /** The system text is copied into the sent prompt right after its `System: ` label. */
  lemma SystemTextInPrompt(system: string, user: string, i: nat)
    requires i < |system| && 8 + i < MaxPromptLength
    ensures SentPrompt([Message(System, system), Message(User, user)])[8 + i] == system[i]
  {
    var ms := [Message(System, system), Message(User, user)];
    var seg := Segment(ms[0]);
    assert seg == "System: " + system + "\n\n";
    assert seg[8 + i] == system[i];
    var f := Flattened(ms);
    assert f == seg + Segments(ms[1..]) + AssistantCue;
    assert f[8 + i] == seg[8 + i];
    var r := SentPrompt(ms);
    if |f| > MaxPromptLength {
      assert r[..MaxPromptLength] == f[..MaxPromptLength];
      assert r[8 + i] == r[..MaxPromptLength][8 + i];
    }
  }

  /** The prompt of the two-message conversation every core caller sends. */
  lemma SystemUserPrompt(system: string, user: string)
    ensures Flattened([Message(System, system), Message(User, user)])
         == "System: " + system + "\n\n" + "User: " + user + "\n\n" + "Assistant: "
  {
    var ms := [Message(System, system), Message(User, user)];
    assert ms[1..][1..] == [];
    assert Segments(ms[1..]) == Segment(ms[1]) + "";
  }
}
