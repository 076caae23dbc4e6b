/** `McpHost` of bin/main/io/modelcontextprotocol/example/host/Main.kt: the
    chat-message list `handleSamplingRequest` builds for OpenAI, its
    defaults, and the input loop of `start` with its `/exit` and `/ls`
    commands. */
module Host {
  import opened Wrappers
  import opened Text
  import opened Connection

  /** The SDK's `Role` of a sampling message. */
  datatype Role = User | Assistant

  /** OpenAI's `ChatRole`. */
  datatype ChatRole = SystemRole | UserRole | AssistantRole

  datatype SamplingMessage = SamplingMessage(role: Role, content: Content)

  /** The parts of a `CreateMessageRequest` the host reads. */
  datatype CreateMessageRequest = CreateMessageRequest(systemPrompt: Option<string>, messages: seq<SamplingMessage>)

  datatype ChatMessage = ChatMessage(role: ChatRole, content: string)

  /** The role mapping: each sampling role keeps its speaker, and none
      becomes the system role. */
  function MapRole(role: Role): (r: ChatRole)
    ensures r != SystemRole
    ensures r == UserRole <==> role == User
    ensures r == AssistantRole <==> role == Assistant
  {
    match role
    case User => UserRole
    case Assistant => AssistantRole
  }

  /** The `map` callback: a text message keeps its role and text (`""` when
      null); any other content is refused by name. */
  function ConvertMessage(m: SamplingMessage): Result<ChatMessage, string> {
    match m.content
    case TextContent(text) => Success(ChatMessage(MapRole(m.role), text.GetOr("")))
    case OtherContent(className) => Failure("Unsupported content type: " + className)
  }

  /** `request.messages.map { ... }`: every message converted in order, or
      the refusal of the first message that is not text. */
  function ConvertAll(ms: seq<SamplingMessage>): (r: Result<seq<ChatMessage>, string>)
    ensures r.Success? <==> forall i | 0 <= i < |ms| :: ms[i].content.TextContent?
    ensures r.Success? ==>
              && |r.value| == |ms|
              && forall i | 0 <= i < |ms| ::
                   r.value[i] == ChatMessage(MapRole(ms[i].role), ms[i].content.text.GetOr(""))
    ensures r.Failure? ==>
              exists i | 0 <= i < |ms| ::
                && ms[i].content.OtherContent?
                && (forall j | 0 <= j < i :: ms[j].content.TextContent?)
                && r.error == "Unsupported content type: " + ms[i].content.className
  {
    if |ms| == 0 then Success([])
    else
      var init := ms[..|ms| - 1];
      var last := ms[|ms| - 1];
      assert forall i | 0 <= i < |ms| - 1 :: ms[i] == init[i];
      match ConvertAll(init)
      case Failure(e) => Failure(e)
      case Success(done) =>
        match ConvertMessage(last)
        case Failure(e) => Failure(e)
        case Success(message) => Success(done + [message])
  }

  /** The list `handleSamplingRequest` sends: the system prompt first when
      there is one, then the converted messages. */
  function ChatMessages(request: CreateMessageRequest): Result<seq<ChatMessage>, string> {
    match ConvertAll(request.messages)
    case Failure(e) => Failure(e)
    case Success(converted) =>
      Success((if request.systemPrompt.Some? then [ChatMessage(SystemRole, request.systemPrompt.value)] else []) + converted)
  }

  /** The list starts with a system message exactly when the request has a
      system prompt, and then holds one message per request message, in order. */
  lemma ChatMessagesShape(request: CreateMessageRequest)
    requires ChatMessages(request).Success?
    ensures var ms := ChatMessages(request).value;
            var offset := if request.systemPrompt.Some? then 1 else 0;
            && |ms| == offset + |request.messages|
            && (|ms| > 0 && ms[0].role == SystemRole <==> request.systemPrompt.Some?)
            && (request.systemPrompt.Some? ==> ms[0].content == request.systemPrompt.value)
            && forall i | 0 <= i < |request.messages| ::
                 ms[offset + i] == ChatMessage(MapRole(request.messages[i].role), request.messages[i].content.text.GetOr(""))
  {
    PrefixedMessages(request.systemPrompt, ConvertAll(request.messages).value, request.messages);
  }

  /** The converted messages behind an optional system message. */
  lemma PrefixedMessages(systemPrompt: Option<string>, converted: seq<ChatMessage>, messages: seq<SamplingMessage>)
    requires |converted| == |messages|
    requires forall i | 0 <= i < |messages| :: messages[i].content.TextContent?
    requires forall i | 0 <= i < |messages| ::
               converted[i] == ChatMessage(MapRole(messages[i].role), messages[i].content.text.GetOr(""))
    ensures var ms := (if systemPrompt.Some? then [ChatMessage(SystemRole, systemPrompt.value)] else []) + converted;
            var offset := if systemPrompt.Some? then 1 else 0;
            && |ms| == offset + |messages|
            && (|ms| > 0 && ms[0].role == SystemRole <==> systemPrompt.Some?)
            && (systemPrompt.Some? ==> ms[0].content == systemPrompt.value)
            && forall i | 0 <= i < |messages| ::
                 ms[offset + i] == ChatMessage(MapRole(messages[i].role), messages[i].content.text.GetOr(""))
  {
    if systemPrompt.None? && |converted| > 0 {
      assert converted[0].role == MapRole(messages[0].role);
    }
  }

  /** Once a prefix of the messages is refused, so is the whole list, with the same refusal. */
  lemma {:induction false} RefusalSticks(ms: seq<SamplingMessage>, k: nat)
    requires k <= |ms| && ConvertAll(ms[..k]).Failure?
    ensures ConvertAll(ms) == ConvertAll(ms[..k])
  {
    if k < |ms| {
      var init := ms[..|ms| - 1];
      assert init[..k] == ms[..k];
      RefusalSticks(init, k);
    } else {
      assert ms[..k] == ms;
    }
  }

  /** The `messages` list of `handleSamplingRequest`, built with `add` and `addAll`. */
  method BuildMessages(request: CreateMessageRequest) returns (r: Result<seq<ChatMessage>, string>)
    ensures r == ChatMessages(request)
  {
    var messages: seq<ChatMessage> := [];
    if request.systemPrompt.Some? {
      messages := messages + [ChatMessage(SystemRole, request.systemPrompt.value)];
    }
    assert messages == if request.systemPrompt.Some? then [ChatMessage(SystemRole, request.systemPrompt.value)] else [];
    var converted: seq<ChatMessage> := [];
    var ms := request.messages;
    for i := 0 to |ms|
      invariant ConvertAll(ms[..i]) == Success(converted)
    {
      assert ms[..i + 1][..i] == ms[..i];
      match ms[i].content {
        case TextContent(text) =>
          converted := converted + [ChatMessage(MapRole(ms[i].role), text.GetOr(""))];
        case OtherContent(className) =>
          assert ms[..i + 1][i] == ms[i];
          assert ConvertAll(ms[..i + 1]) == Failure("Unsupported content type: " + className);
          RefusalSticks(ms, i + 1);
          return Failure("Unsupported content type: " + className);
      }
    }
    assert ms[..|ms|] == ms;
    assert ConvertAll(request.messages) == Success(converted);
    messages := messages + converted;
    r := Success(messages);
  }

  // ------------------------------------------------------------------
  // The OpenAI call
  // ------------------------------------------------------------------

  /** The `.env` entries `handleSamplingRequest` reads. */
  datatype Env = Env(modelName: Option<string>, maxTokens: Option<string>)

  /** The `ChatCompletionRequest` sent to OpenAI. */
  datatype CompletionRequest = CompletionRequest(model: string, messages: seq<ChatMessage>, maxTokens: int)

  /** One of the completion's `choices`, by its message content. */
  datatype Choice = Choice(content: Option<string>)

  /** The `CreateMessageResult` returned to the server. */
  datatype CreateMessageResult = CreateMessageResult(model: string, role: Role, text: string)

  /** `dotenv["MODEL_NAME"] ?: "gpt-4"`. */
  function ModelName(env: Env): (name: string)
    ensures env.modelName.None? ==> name == "gpt-4"
    ensures env.modelName.Some? ==> name == env.modelName.value
  {
    env.modelName.GetOr("gpt-4")
  }

  /** `dotenv["MAX_TOKENS"]?.toIntOrNull() ?: 1024`. */
  function MaxTokens(env: Env): (n: int)
    ensures IsInt32(n)
    ensures env.maxTokens.Some? && ToIntOrNull(env.maxTokens.value).Some? ==> n == ToIntOrNull(env.maxTokens.value).value
    ensures env.maxTokens.None? || ToIntOrNull(env.maxTokens.value).None? ==> n == 1024
  {
    match env.maxTokens
    case None => 1024
    case Some(text) => ToIntOrNull(text).GetOr(1024)
  }

  /** A token limit written in `.env` reaches OpenAI unchanged. */
  lemma MaxTokensRoundTrip(n: int, modelName: Option<string>)
    requires IsInt32(n)
    ensures MaxTokens(Env(modelName, Some(IntToString(n)))) == n
  {
    IntToStringRoundTrip(n);
  }

  /** `completion.choices.firstOrNull()?.message?.content ?: "No response from OpenAI"`. */
  function ResponseText(choices: seq<Choice>): (text: string)
    ensures |choices| > 0 && choices[0].content.Some? ==> text == choices[0].content.value
    ensures |choices| == 0 || choices[0].content.None? ==> text == "No response from OpenAI"
  {
    if |choices| > 0 && choices[0].content.Some? then choices[0].content.value else "No response from OpenAI"
  }

  /** `handleSamplingRequest(request)`, where `choices` is OpenAI's answer:
      the request sent and the result returned, or the refusal of a message
      that is not text, in which case nothing is sent. */
  method HandleSamplingRequest(request: CreateMessageRequest, env: Env, choices: seq<Choice>)
    returns (r: Result<(CompletionRequest, CreateMessageResult), string>)
    ensures r.Failure? <==> ChatMessages(request).Failure?
    ensures r.Failure? ==> r.error == ChatMessages(request).error
    ensures r.Success? ==>
              && r.value.0 == CompletionRequest(ModelName(env), ChatMessages(request).value, MaxTokens(env))
              && r.value.1 == CreateMessageResult(ModelName(env), Assistant, ResponseText(choices))
  {
    var messages := BuildMessages(request);
    if messages.Failure? {
      return Failure(messages.error);
    }
    var model := env.modelName.GetOr("gpt-4");
    var maxTokens := if env.maxTokens.Some? then ToIntOrNull(env.maxTokens.value).GetOr(1024) else 1024;
    var sent := CompletionRequest(model, messages.value, maxTokens);
    var text := if |choices| > 0 && choices[0].content.Some? then choices[0].content.value else "No response from OpenAI";
    r := Success((sent, CreateMessageResult(model, Assistant, text)));
  }

  // ------------------------------------------------------------------
  // The input loop
  // ------------------------------------------------------------------

  /** `reviewToolCall(name, arguments)`: every tool call is approved. */
  function ReviewToolCall(name: string, arguments: map<string, string>): (approved: bool)
    ensures approved
  {
    true
  }

  /** What one input line asks for. */
  datatype Command = Exit | ListDirectory(path: string) | ChatInput(text: string)

  /** The tests of the input loop: a line that trims to `/exit` ends it; a
      line starting with `/ls` lists the trimmed rest, or `.` when that is
      empty; anything else is sent to the model as typed. */
  function ParseInput(input: string): (c: Command)
    ensures c.Exit? <==> Trim(input) == "/exit"
    ensures c.ListDirectory? <==> Trim(input) != "/exit" && StartsWith(input, "/ls")
    ensures c.ListDirectory? ==> c.path != "" && IsTrimmed(c.path)
    ensures c.ChatInput? ==> c.text == input
  {
    if Trim(input) == "/exit" then Exit
    else if StartsWith(input, "/ls") then
      var rest := Trim(input[3..]);
      ListDirectory(if rest == "" then "." else rest)
    else ChatInput(input)
  }

  /** `/ls` followed by a space and a path lists that path, and a bare
      `/ls` lists the current directory. */
  lemma LsCommandRoundTrip(path: string)
    requires path != "" && IsTrimmed(path)
    ensures ParseInput("/ls " + path) == ListDirectory(path)
  {
    var line := "/ls " + path;
    LsPathIsNotExit(path);
    assert StartsWith(line, "/ls") by {
      assert line[..3] == "/ls";
    }
    assert Trim(line[3..]) == path by {
      assert line[3..] == " " + path;
      TrimAfterSpace(path);
    }
    LsLine(line);
  }

  lemma LsPathIsNotExit(path: string)
    requires path != "" && IsTrimmed(path)
    ensures Trim("/ls " + path) != "/exit"
  {
    var line := "/ls " + path;
    assert line[0] == '/' && line[|line| - 1] == path[|path| - 1];
    TrimOfTrimmed(line);
    assert line[1] == 'l';
  }

  /** A line that is not `/exit` and starts with `/ls` lists what follows, trimmed. */
  lemma LsLine(line: string)
    requires Trim(line) != "/exit" && StartsWith(line, "/ls")
    ensures ParseInput(line).ListDirectory?
    ensures Trim(line[3..]) != "" ==> ParseInput(line).path == Trim(line[3..])
    ensures Trim(line[3..]) == "" ==> ParseInput(line).path == "."
  {
  }

  /** A bare `/ls` lists the current directory. */
  lemma BareLsListsCurrentDirectory()
    ensures ParseInput("/ls") == ListDirectory(".")
  {
    BareLsIsNotExit();
    assert "/ls"[3..] == "";
    assert Trim("") == "";
    LsLine("/ls");
  }

  lemma BareLsIsNotExit()
    ensures Trim("/ls") != "/exit" && StartsWith("/ls", "/ls")
  {
    TrimOfTrimmed("/ls");
  }

  /** The request a chat line becomes. */
  function ChatRequest(text: string): CreateMessageRequest {
    CreateMessageRequest(Some("You are a helpful assistant."), [SamplingMessage(User, TextContent(Some(text)))])
  }

  /** What the loop does for each line it handles. */
  datatype Action = CallLs(path: string) | Sample(request: CreateMessageRequest)

  /** What the loop does with one command; `Exit` leads to nothing. */
  function CommandAction(c: Command): Option<Action> {
    match c
    case Exit => None
    case ListDirectory(path) => Some(CallLs(path))
    case ChatInput(text) => Some(Sample(ChatRequest(text)))
  }

  /** The commands of the lines read, in order. */
  function Commands(lines: seq<string>): (cs: seq<Command>)
    ensures |cs| == |lines|
  {
    if |lines| == 0 then [] else [ParseInput(lines[0])] + Commands(lines[1..])
  }

  /** The actions for a run of commands: each in turn, up to the first
      `Exit` or the end of input. */
  function Actions(cs: seq<Command>): (actions: seq<Action>)
    ensures |actions| <= |cs|
  {
    if |cs| == 0 || cs[0].Exit? then []
    else [CommandAction(cs[0]).value] + Actions(cs[1..])
  }

  /** The `k`-th action is that of the `k`-th command, and every command
      before the last action's is not `Exit`; all commands are acted on
      unless one of them is `Exit`. */
  lemma {:induction false} ActionsOfCommands(cs: seq<Command>)
    ensures forall k | 0 <= k < |Actions(cs)| :: !cs[k].Exit? && Some(Actions(cs)[k]) == CommandAction(cs[k])
    ensures (forall k | 0 <= k < |cs| :: !cs[k].Exit?) ==> |Actions(cs)| == |cs|
  {
    if |cs| > 0 && !cs[0].Exit? {
      ActionsOfCommands(cs[1..]);
      assert forall k | 0 < k < |cs| :: cs[1..][k - 1] == cs[k];
    }
  }

  /** Typing `/exit` gives the `Exit` command. */
  lemma ExitLine()
    ensures ParseInput("/exit") == Exit
  {
    TrimOfTrimmed("/exit");
  }

  /** Nothing after the first `Exit` is acted on. */
  lemma {:induction false} ExitEndsLoop(before: seq<Command>, after: seq<Command>)
    requires forall i | 0 <= i < |before| :: !before[i].Exit?
    ensures Actions(before + [Exit] + after) == Actions(before)
  {
    var cs := before + [Exit] + after;
    if |before| == 0 {
      assert cs[0] == Exit;
    } else {
      var rest := before[1..];
      assert cs[0] == before[0];
      assert cs[1..] == rest + [Exit] + after;
      ExitEndsLoop(rest, after);
    }
  }

  /** The command of line `i` is that line parsed. */
  lemma {:induction false} CommandAt(lines: seq<string>, i: nat)
    requires i < |lines|
    ensures Commands(lines)[i] == ParseInput(lines[i])
  {
    if i > 0 {
      CommandAt(lines[1..], i - 1);
    }
  }

  /** The actions from command `i` on, one command unfolded. */
  lemma ActionsFrom(cs: seq<Command>, i: nat)
    requires i < |cs|
    ensures CommandAction(cs[i]).None? ==> Actions(cs[i..]) == []
    ensures CommandAction(cs[i]).Some? ==> Actions(cs[i..]) == [CommandAction(cs[i]).value] + Actions(cs[i + 1..])
  {
    assert cs[i..][0] == cs[i];
    assert cs[i..][1..] == cs[i + 1..];
  }

  /** One more line handled: the loop stops on `Exit` with the actions so
      far, and otherwise appends the command's action. */
  lemma ActionsStep(cs: seq<Command>, i: nat, actions: seq<Action>, action: Option<Action>)
    requires i < |cs| && action == CommandAction(cs[i])
    requires Actions(cs) == actions + Actions(cs[i..])
    ensures action.None? ==> Actions(cs) == actions
    ensures action.Some? ==> Actions(cs) == (actions + [action.value]) + Actions(cs[i + 1..])
  {
    ActionsFrom(cs, i);
    if action.None? {
      assert actions + [] == actions;
    }
  }

  /** The body of the input loop for one line: the tool call or model
      request the line leads to, every tool call being approved, or none
      when the loop stops. */
  method HandleLine(line: string) returns (action: Option<Action>)
    ensures action == CommandAction(ParseInput(line))
  {
    action := None;
    var command := ParseInput(line);
    match command {
      case Exit =>
      case ListDirectory(path) =>
        if ReviewToolCall("ls", map["path" := path]) {
          action := Some(CallLs(path));
        }
      case ChatInput(text) =>
        action := Some(Sample(ChatRequest(text)));
    }
  }

  /** Handling the `i`-th line read gives the action of its command. */
  method HandleLineAt(lines: seq<string>, i: nat) returns (action: Option<Action>)
    requires i < |lines|
    ensures action == CommandAction(Commands(lines)[i])
  {
    CommandAt(lines, i);
    action := HandleLine(lines[i]);
  }

  /** The `while (true)` loop of `start` over the lines read, with every
      tool call and model call succeeding: the actions of the lines' commands. */
  method RunInputLoop(lines: seq<string>) returns (actions: seq<Action>)
    ensures actions == Actions(Commands(lines))
  {
    ghost var cs := Commands(lines);
    actions := [];
    var i := 0;
    assert cs[i..] == cs;
    while i < |lines|
      invariant 0 <= i <= |lines|
      invariant Actions(cs) == actions + Actions(cs[i..])
    {
      var action := HandleLineAt(lines, i);
      ActionsStep(cs, i, actions, action);
      if action.None? {
        return;
      }
      actions := actions + [action.value];
      i := i + 1;
    }
    assert cs[i..] == [];
    assert actions + [] == actions;
  }

  /** A typed line reaches OpenAI after the host's own system prompt, as a
      user message. */
  lemma ChatLineMessages(text: string)
    ensures ChatMessages(ChatRequest(text)) ==
            Success([ChatMessage(SystemRole, "You are a helpful assistant."), ChatMessage(UserRole, text)])
  {
    var ms := ChatRequest(text).messages;
    var r := ConvertAll(ms);
    assert ms[0].content.TextContent?;
    assert r.Success? && |r.value| == 1;
    assert r.value[0] == ChatMessage(UserRole, text);
    assert r.value == [ChatMessage(UserRole, text)];
    assert ChatRequest(text).systemPrompt == Some("You are a helpful assistant.");
    assert ChatMessages(ChatRequest(text)) == Success([ChatMessage(SystemRole, "You are a helpful assistant.")] + r.value);
    assert [ChatMessage(SystemRole, "You are a helpful assistant.")] + r.value
        == [ChatMessage(SystemRole, "You are a helpful assistant."), ChatMessage(UserRole, text)];
  }
}
