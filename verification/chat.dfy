/** `ChatSession` of src/server/chat.ts: the model guard of its constructor
    and of `switchModel`, the tool configuration `createChat` builds from
    the tool catalog and the zod schemas, the bookkeeping of `sendMessage`
    and its ordered rewriting of failures into `McpError`s, and
    `validateSession`. */
module Chat {
  import opened Wrappers
  import opened Text
  import opened Ai

  // ------------------------------------------------------------------
  // Thrown values
  // ------------------------------------------------------------------

  /** The class an `Error` object was constructed from. */
  datatype ErrorClass =
    | McpErrorClass
    | ChatSessionErrorClass
    | ToolConfigurationErrorClass
    | SyntaxErrorClass
    | OtherErrorClass(className: string)

  /** A thrown value: an `Error` object with its class, `name` and
      `message`, or a value that is not an `Error` at all. */
  datatype Thrown = ErrorThrown(cls: ErrorClass, name: string, message: string) | NonErrorThrown

  function McpError(message: string): Thrown {
    ErrorThrown(McpErrorClass, "McpError", message)
  }

  function ChatSessionError(message: string): Thrown {
    ErrorThrown(ChatSessionErrorClass, "ChatSessionError", message)
  }

  function ToolConfigurationError(message: string): Thrown {
    ErrorThrown(ToolConfigurationErrorClass, "ToolConfigurationError", message)
  }

  /** The one error `createChat` ever rejects with. */
  const InitFailedMessage: string := "Failed to initialize chat session. Please check your configuration."

  // ------------------------------------------------------------------
  // Tool configuration
  // ------------------------------------------------------------------

  /** A `z.string()` of a zod input shape, with its `.describe(...)` text. */
  datatype ZodString = ZodString(description: Option<string>)

  /** One category of `toolSchemas`: its key and each tool name's input
      shape, an object from field keys to zod strings. */
  datatype ZodCategory = ZodCategory(key: string, schemas: seq<(string, seq<(string, ZodString)>)>)

  /** `toolSchemas` as shipped. */
  const ToolSchemas: seq<ZodCategory> := [
    ZodCategory("filesystem", [
      ("read_file", [("path", ZodString(Some("Path to the file to read")))]),
      ("write_to_file", [("path", ZodString(Some("Path to write the file to"))),
                         ("content", ZodString(Some("Content to write to the file")))]),
      ("list_files", [("path", ZodString(Some("Directory path to list"))),
                      ("recursive", ZodString(Some("Whether to list recursively")))]),
      ("search_files", [("path", ZodString(Some("Directory to search in"))),
                        ("regex", ZodString(Some("Regular expression pattern to search for"))),
                        ("file_pattern", ZodString(Some("File pattern to filter (e.g., *.ts)")))]),
      ("replace_in_file", [("path", ZodString(Some("Path to the file to modify"))),
                           ("diff", ZodString(Some("Content changes in SEARCH/REPLACE format")))])
    ])
  ]

  /** The `Tool` handed to the chat: a name, a description and an input schema. */
  datatype ToolConfig = ToolConfig(name: string, description: string, schema: ToolSchema)

  /** The `ChatOptions` of `ai.chat(options)`; the chat is known by them. */
  datatype ChatOptions = ChatOptions(model: ModelRef, tools: seq<ToolConfig>, system: string)

  /** The first zod category that has a schema for `toolName`. */
  function FindZodCategory(zod: seq<ZodCategory>, toolName: string): (r: Option<ZodCategory>)
    ensures r.None? <==> forall i | 0 <= i < |zod| :: toolName !in ObjectKeys(zod[i].schemas)
    ensures r.Some? ==> toolName in ObjectKeys(r.value.schemas)
  {
    if |zod| == 0 then None
    else if toolName in ObjectKeys(zod[0].schemas) then Some(zod[0])
    else
      var r := FindZodCategory(zod[1..], toolName);
      assert forall i | 1 <= i < |zod| :: zod[i] == zod[1..][i - 1];
      r
  }

  /** The input shape stored under `toolName` in a category that has one. */
  function ShapeOf(schemas: seq<(string, seq<(string, ZodString)>)>, toolName: string): seq<(string, ZodString)>
    requires toolName in ObjectKeys(schemas)
  {
    if schemas[0].0 == toolName then schemas[0].1 else ShapeOf(schemas[1..], toolName)
  }

  /** The first tool of the flattened catalog named `name`. */
  function FindInCategory(tools: seq<(string, ToolDef)>, name: string): Option<ToolDef> {
    if |tools| == 0 then None
    else if tools[0].1.name == name then Some(tools[0].1)
    else FindInCategory(tools[1..], name)
  }

  function FindToolDef(catalog: seq<Category>, name: string): Option<ToolDef> {
    if |catalog| == 0 then None
    else match FindInCategory(catalog[0].tools, name)
      case Some(def) => Some(def)
      case None => FindToolDef(catalog[1..], name)
  }

  /** The tool's catalog entry is missing or has no schema. */
  predicate SchemaMissing(catalog: seq<Category>, name: string) {
    var def := FindToolDef(catalog, name);
    def.None? || def.value.schema.None?
  }

  /** The generated `properties`: every key of the shape, typed `string`,
      described by its zod description or `""`. */
  function PropertiesOf(shape: seq<(string, ZodString)>): (props: seq<(string, Property)>)
    ensures |props| == |shape|
    ensures forall i | 0 <= i < |shape| ::
              props[i] == (shape[i].0, Property("string", shape[i].1.description.GetOr("")))
  {
    if |shape| == 0 then []
    else [(shape[0].0, Property("string", shape[0].1.description.GetOr("")))] + PropertiesOf(shape[1..])
  }

  /** An object input schema whose properties are all strings and all
      required, in the order of the properties. */
  predicate AllStringsRequired(schema: ToolSchema) {
    && schema.inputType == "object"
    && |schema.required| == |schema.properties|
    && forall i | 0 <= i < |schema.properties| ::
         schema.properties[i].1.propertyType == "string" && schema.required[i] == schema.properties[i].0
  }

  /** `if (!category)` passes: some zod category knows the tool, and the
      first such category's key is truthy, that is, not empty. */
  predicate HasZodSchema(zod: seq<ZodCategory>, toolName: string) {
    var category := FindZodCategory(zod, toolName);
    category.Some? && category.value.key != ""
  }

  /** The config's schema is the one built from the zod input shape stored
      under its name: one string property per key, and `required` the keys. */
  predicate BuiltFromShape(cfg: ToolConfig, zod: seq<ZodCategory>) {
    && HasZodSchema(zod, cfg.name)
    && var shape := ShapeOf(FindZodCategory(zod, cfg.name).value.schemas, cfg.name);
       && cfg.schema.properties == PropertiesOf(shape)
       && cfg.schema.required == ObjectKeys(shape)
  }

  /** The `map` callback of `createChat` for one tool: a
      `ToolConfigurationError` when its catalog schema is missing, nothing
      when no zod category knows it or the first that does has an empty
      key (the tool is dropped), otherwise a config whose properties are
      all strings and all required. */
  function ConfigureTool(tool: McpTool, catalog: seq<Category>, zod: seq<ZodCategory>): (r: Result<Option<ToolConfig>, Thrown>)
    ensures r.Failure? <==> SchemaMissing(catalog, tool.name)
    ensures r.Failure? ==> r.error == ToolConfigurationError("No schema found for tool: " + tool.name)
    ensures r == Success(None) <==> !SchemaMissing(catalog, tool.name) && !HasZodSchema(zod, tool.name)
    ensures r.Success? && r.value.Some? ==>
              var cfg := r.value.value;
              && cfg.name == tool.name && cfg.description == tool.description
              && AllStringsRequired(cfg.schema)
              && BuiltFromShape(cfg, zod)
  {
    if SchemaMissing(catalog, tool.name) then
      Failure(ToolConfigurationError("No schema found for tool: " + tool.name))
    else match FindZodCategory(zod, tool.name)
      case None => Success(None)
      case Some(category) =>
        if category.key == "" then Success(None)
        else
          var shape := ShapeOf(category.schemas, tool.name);
          Success(Some(ToolConfig(tool.name, tool.description, ToolSchema("object", PropertiesOf(shape), ObjectKeys(shape)))))
  }

  /** The names of the tools that pass `if (!category)`, in order. */
  function NamesWithZodSchema(tools: seq<McpTool>, zod: seq<ZodCategory>): seq<string> {
    if |tools| == 0 then []
    else (if HasZodSchema(zod, tools[0].name) then [tools[0].name] else [])
         + NamesWithZodSchema(tools[1..], zod)
  }

  function ConfigNames(configs: seq<ToolConfig>): (names: seq<string>)
    ensures |names| == |configs|
    ensures forall i | 0 <= i < |configs| :: names[i] == configs[i].name
  {
    if |configs| == 0 then [] else [configs[0].name] + ConfigNames(configs[1..])
  }

  /** `availableTools.map(...).filter(t => t !== undefined)`: the first
      failing tool's error, or the configs of exactly the tools that pass
      `if (!category)`, in order, each an object of required strings. */
  function ConfigureTools(tools: seq<McpTool>, catalog: seq<Category>, zod: seq<ZodCategory>): (r: Result<seq<ToolConfig>, Thrown>)
    ensures r.Failure? <==> exists i | 0 <= i < |tools| :: SchemaMissing(catalog, tools[i].name)
    ensures r.Success? ==> ConfigNames(r.value) == NamesWithZodSchema(tools, zod)
    ensures r.Success? ==> forall i | 0 <= i < |r.value| :: AllStringsRequired(r.value[i].schema)
    ensures r.Success? ==> forall i | 0 <= i < |r.value| :: BuiltFromShape(r.value[i], zod)
  {
    if |tools| == 0 then Success([])
    else
      assert forall i | 1 <= i < |tools| :: tools[i] == tools[1..][i - 1];
      match ConfigureTool(tools[0], catalog, zod)
      case Failure(e) => Failure(e)
      case Success(config) =>
        match ConfigureTools(tools[1..], catalog, zod)
        case Failure(e) => Failure(e)
        case Success(rest) =>
          var configs := (if config.Some? then [config.value] else []) + rest;
          PrependConfig(config, rest, zod);
          Success(configs)
  }

  /** Putting a generated config, if any, in front of generated configs
      keeps every config generated and the names in order. */
  lemma PrependConfig(config: Option<ToolConfig>, rest: seq<ToolConfig>, zod: seq<ZodCategory>)
    requires config.Some? ==> AllStringsRequired(config.value.schema) && BuiltFromShape(config.value, zod)
    requires forall i | 0 <= i < |rest| :: AllStringsRequired(rest[i].schema)
    requires forall i | 0 <= i < |rest| :: BuiltFromShape(rest[i], zod)
    ensures var configs := (if config.Some? then [config.value] else []) + rest;
            && ConfigNames(configs) == (if config.Some? then [config.value.name] else []) + ConfigNames(rest)
            && (forall i | 0 <= i < |configs| :: AllStringsRequired(configs[i].schema))
            && (forall i | 0 <= i < |configs| :: BuiltFromShape(configs[i], zod))
  {
    var configs := (if config.Some? then [config.value] else []) + rest;
    if config.Some? {
      assert configs[1..] == rest;
      assert forall i | 1 <= i < |configs| :: configs[i] == rest[i - 1];
    } else {
      assert configs == rest;
    }
  }

  /** `tools.filter(t => t.available)`. */
  function AvailableOnly(tools: seq<McpTool>): (r: seq<McpTool>)
    ensures (forall i | 0 <= i < |tools| :: tools[i].available) ==> r == tools
  {
    if |tools| == 0 then []
    else (if tools[0].available then [tools[0]] else []) + AvailableOnly(tools[1..])
  }

  /** `createChat(modelKey)` as the promise it settles to: the chat's
      options, or the `ChatSessionError` every failure inside it becomes. */
  function CreateChat(modelKey: string, models: seq<(string, ModelRef)>, catalog: seq<Category>, zod: seq<ZodCategory>): (r: Result<ChatOptions, Thrown>)
    ensures r.Failure? ==> r.error == ChatSessionError(InitFailedMessage)
    ensures r.Failure? <==>
              !IsAvailable(models, modelKey)
              || exists i | 0 <= i < |ToolEntries(catalog)| :: SchemaMissing(catalog, ToolEntries(catalog)[i].name)
    ensures r.Success? ==>
              && Some(r.value.model) == LookupModel(models, modelKey)
              && r.value.system == SystemPrompt
              && ConfigNames(r.value.tools) == NamesWithZodSchema(ToolEntries(catalog), zod)
              && (forall i | 0 <= i < |r.value.tools| :: AllStringsRequired(r.value.tools[i].schema))
              && (forall i | 0 <= i < |r.value.tools| :: BuiltFromShape(r.value.tools[i], zod))
  {
    var available := AvailableOnly(ToolEntries(catalog));
    match LookupModel(models, modelKey)
    case None => Failure(ChatSessionError(InitFailedMessage))
    case Some(model) =>
      match ConfigureTools(available, catalog, zod)
      case Failure(_) => Failure(ChatSessionError(InitFailedMessage))
      case Success(tools) => Success(ChatOptions(model, tools, SystemPrompt))
  }

  /** When every tool has a zod schema, every tool is configured, in order. */
  lemma {:induction false} AllNamesWithZodSchema(tools: seq<McpTool>, zod: seq<ZodCategory>)
    requires forall i | 0 <= i < |tools| :: HasZodSchema(zod, tools[i].name)
    ensures |NamesWithZodSchema(tools, zod)| == |tools|
    ensures forall i | 0 <= i < |tools| :: NamesWithZodSchema(tools, zod)[i] == tools[i].name
  {
    if |tools| > 0 {
      AllNamesWithZodSchema(tools[1..], zod);
    }
  }

  // ------------------------------------------------------------------
  // Rewriting failures of sendMessage
  // ------------------------------------------------------------------

  /** The messages of the `McpError`s `sendMessage` throws. */
  const ConnectionFailedText: string := "Failed to connect to MCP server. Please check if the server is running."
  const ExecutionFailedText: string := "Failed to execute MCP tool. Please verify tool configuration."
  const ToolNotFoundText: string := "Requested MCP tool is not available. Please check tool configuration."
  const AnyMcpText: string := "An MCP-related error occurred. Please check server logs for details."
  const OtherErrorText: string := "Failed to process message. Please try again or contact support."
  const UnknownErrorText: string := "An unknown error occurred"

  /** The branches of `sendMessage`'s `catch`, in their order. */
  datatype Rule =
    | ToolConfigurationRule
    | ChatSessionRule
    | ConnectionFailedRule
    | ExecutionFailedRule
    | ToolNotFoundRule
    | AnyMcpRule
    | OtherErrorRule
    | NonErrorRule

  const RuleOrder: seq<Rule> := [
    ToolConfigurationRule, ChatSessionRule, ConnectionFailedRule, ExecutionFailedRule,
    ToolNotFoundRule, AnyMcpRule, OtherErrorRule, NonErrorRule
  ]

  /** The condition of one branch, on its own. */
  predicate Applies(rule: Rule, e: Thrown) {
    match rule
    case ToolConfigurationRule => e.ErrorThrown? && e.cls == ToolConfigurationErrorClass
    case ChatSessionRule => e.ErrorThrown? && e.cls == ChatSessionErrorClass
    case ConnectionFailedRule => e.ErrorThrown? && Contains(e.message, "MCP connection failed")
    case ExecutionFailedRule => e.ErrorThrown? && Contains(e.message, "MCP tool execution failed")
    case ToolNotFoundRule => e.ErrorThrown? && Contains(e.message, "MCP tool not found")
    case AnyMcpRule => e.ErrorThrown? && Contains(e.message, "MCP")
    case OtherErrorRule => e.ErrorThrown?
    case NonErrorRule => true
  }

  /** The message of the `McpError` a branch throws. */
  function RuleMessage(rule: Rule, e: Thrown): string {
    match rule
    case ToolConfigurationRule => "Tool configuration error: " + (if e.ErrorThrown? then e.message else "")
    case ChatSessionRule => "Chat session error: " + (if e.ErrorThrown? then e.message else "")
    case ConnectionFailedRule => ConnectionFailedText
    case ExecutionFailedRule => ExecutionFailedText
    case ToolNotFoundRule => ToolNotFoundText
    case AnyMcpRule => AnyMcpText
    case OtherErrorRule => OtherErrorText
    case NonErrorRule => UnknownErrorText
  }

  /** The first of `rules` whose condition holds. */
  function FirstApplying(rules: seq<Rule>, e: Thrown): (r: Option<nat>)
    ensures r.Some? ==> r.value < |rules| && Applies(rules[r.value], e)
    ensures r.Some? ==> forall j | 0 <= j < r.value :: !Applies(rules[j], e)
    ensures r.None? ==> forall j | 0 <= j < |rules| :: !Applies(rules[j], e)
  {
    if |rules| == 0 then None
    else if Applies(rules[0], e) then Some(0)
    else match FirstApplying(rules[1..], e)
      case None => None
      case Some(k) => Some(k + 1)
  }

  /** The `catch` of `sendMessage`: every failure leaves as an `McpError`. */
  function RewriteError(e: Thrown): (r: Thrown)
    ensures r.ErrorThrown? && r.cls == McpErrorClass && r.name == "McpError"
  {
    match e
    case NonErrorThrown => McpError(UnknownErrorText)
    case ErrorThrown(cls, _, message) =>
      if cls == ToolConfigurationErrorClass then McpError("Tool configuration error: " + message)
      else if cls == ChatSessionErrorClass then McpError("Chat session error: " + message)
      else if Contains(message, "MCP connection failed") then
        McpError(ConnectionFailedText)
      else if Contains(message, "MCP tool execution failed") then
        McpError(ExecutionFailedText)
      else if Contains(message, "MCP tool not found") then
        McpError(ToolNotFoundText)
      else if Contains(message, "MCP") then
        McpError(AnyMcpText)
      else McpError(OtherErrorText)
  }

  /** A rule that holds while every earlier one fails is the first to apply. */
  lemma {:induction false} FirstApplyingAt(rules: seq<Rule>, e: Thrown, k: nat)
    requires k < |rules| && Applies(rules[k], e)
    requires forall j | 0 <= j < k :: !Applies(rules[j], e)
    ensures FirstApplying(rules, e) == Some(k)
  {
    if k > 0 {
      FirstApplyingAt(rules[1..], e, k - 1);
    }
  }

  /** The rewriting is first-match over the branches in their order: the
      message is that of the first branch whose condition holds. */
  lemma RewriteIsFirstMatch(e: Thrown)
    ensures FirstApplying(RuleOrder, e).Some?
    ensures RewriteError(e) == McpError(RuleMessage(RuleOrder[FirstApplying(RuleOrder, e).value], e))
  {
    var k: nat :=
      if e.NonErrorThrown? then 7
      else if e.cls == ToolConfigurationErrorClass then 0
      else if e.cls == ChatSessionErrorClass then 1
      else if Contains(e.message, "MCP connection failed") then 2
      else if Contains(e.message, "MCP tool execution failed") then 3
      else if Contains(e.message, "MCP tool not found") then 4
      else if Contains(e.message, "MCP") then 5
      else 6;
    FirstApplyingAt(RuleOrder, e, k);
  }

  // ------------------------------------------------------------------
  // The session
  // ------------------------------------------------------------------

  /** What awaiting the chat and sending one message gives: the reply's
      text, or the rewritten failure of either step. */
  function SendOutcome(chat: Result<ChatOptions, Thrown>, reply: Result<string, Thrown>): (r: Result<string, Thrown>)
    ensures r.Success? <==> chat.Success? && reply.Success?
    ensures r.Success? ==> r.value == reply.value
    ensures r.Failure? ==> r.error == RewriteError(if chat.Failure? then chat.error else reply.error)
  {
    match chat
    case Failure(e) => Failure(RewriteError(e))
    case Success(_) =>
      match reply
      case Success(text) => Success(text)
      case Failure(e) => Failure(RewriteError(e))
  }

  /** A session whose chat could not be created reports that on every
      message, whatever the model would have answered. */
  lemma BrokenChatReportsInitFailure(modelKey: string, models: seq<(string, ModelRef)>, catalog: seq<Category>,
                                     zod: seq<ZodCategory>, reply: Result<string, Thrown>)
    requires CreateChat(modelKey, models, catalog, zod).Failure?
    ensures SendOutcome(CreateChat(modelKey, models, catalog, zod), reply) ==
            Failure(McpError("Chat session error: " + InitFailedMessage))
  {
    var e := CreateChat(modelKey, models, catalog, zod).error;
    assert FirstApplying(RuleOrder, e) == Some(1);
    RewriteIsFirstMatch(e);
  }

  /** `tools.some(t => t.available)`. */
  function AnyAvailable(tools: seq<McpTool>): (some: bool)
    ensures some <==> exists i | 0 <= i < |tools| :: tools[i].available
  {
    if |tools| == 0 then false
    else
      assert forall i | 1 <= i < |tools| :: tools[i] == tools[1..][i - 1];
      tools[0].available || AnyAvailable(tools[1..])
  }

  /** `validateSession()`: healthy exactly when the catalog has a tool. */
  function SessionHealthy(catalog: seq<Category>): (ok: bool)
    ensures ok <==> ToolCount(catalog) > 0
  {
    AnyAvailable(ToolEntries(catalog))
  }

  class ChatSession {
    /** `MODELS`, the tool catalog and the zod schemas the session reads. */
    const models: seq<(string, ModelRef)>
    const catalog: seq<Category>
    const zod: seq<ZodCategory>
    var currentModel: string
    /** The settled `this.chat` promise. */
    var chat: Result<ChatOptions, Thrown>
    /** `Date.now()` at the last construction, switch or successful send. */
    var lastAccess: int

    /** The constructor past its model guard (see `NewChatSession`). */
    constructor (models: seq<(string, ModelRef)>, catalog: seq<Category>, zod: seq<ZodCategory>, modelKey: string, now: int)
      requires IsAvailable(models, modelKey)
      ensures this.models == models && this.catalog == catalog && this.zod == zod
      ensures currentModel == modelKey
      ensures chat == CreateChat(modelKey, models, catalog, zod)
      ensures lastAccess == now
    {
      this.models := models;
      this.catalog := catalog;
      this.zod := zod;
      currentModel := modelKey;
      chat := CreateChat(modelKey, models, catalog, zod);
      lastAccess := now;
    }

    /** `getCurrentModelName()`. */
    function CurrentModelName(): string
      reads this
    {
      ModelLabel(currentModel)
    }

    /** `switchModel(modelKey)`: refused, changing nothing, for a model that
        is not available; otherwise the session moves to the model with a
        new chat and a fresh access time. */
    method SwitchModel(modelKey: string, now: int) returns (switched: bool)
      modifies this
      ensures switched <==> IsAvailable(models, modelKey)
      ensures !switched ==> currentModel == old(currentModel) && chat == old(chat) && lastAccess == old(lastAccess)
      ensures switched ==>
                currentModel == modelKey && chat == CreateChat(modelKey, models, catalog, zod) && lastAccess == now
    {
      if LookupModel(models, modelKey).None? {
        return false;
      }
      currentModel := modelKey;
      chat := CreateChat(modelKey, models, catalog, zod);
      lastAccess := now;
      switched := true;
    }

    /** `sendMessage(message)`, where `reply` is what the chat answers: the
        access time moves only when the answer arrives. */
    method SendMessage(reply: Result<string, Thrown>, now: int) returns (r: Result<string, Thrown>)
      modifies this
      ensures r == SendOutcome(chat, reply)
      ensures lastAccess == if r.Success? then now else old(lastAccess)
      ensures currentModel == old(currentModel) && chat == old(chat)
    {
      match chat {
        case Failure(e) =>
          return Failure(RewriteError(e));
        case Success(_) =>
      }
      match reply {
        case Failure(e) =>
          return Failure(RewriteError(e));
        case Success(text) =>
          lastAccess := now;
          r := Success(text);
      }
    }
  }

  /** `new ChatSession(modelKey)`: a `ChatSessionError` naming the model
      when it is not available, otherwise a session on that model. */
  method NewChatSession(models: seq<(string, ModelRef)>, catalog: seq<Category>, zod: seq<ZodCategory>, modelKey: string, now: int)
    returns (r: Result<ChatSession, Thrown>)
    ensures r.Failure? <==> !IsAvailable(models, modelKey)
    ensures r.Failure? ==> r.error == ChatSessionError("Model " + modelKey + " is not available. Please check your API keys.")
    ensures r.Success? ==>
              && fresh(r.value)
              && r.value.models == models && r.value.catalog == catalog && r.value.zod == zod
              && r.value.currentModel == modelKey
              && r.value.chat == CreateChat(modelKey, models, catalog, zod)
              && r.value.lastAccess == now
  {
    if LookupModel(models, modelKey).None? {
      return Failure(ChatSessionError("Model " + modelKey + " is not available. Please check your API keys."));
    }
    var session := new ChatSession(models, catalog, zod, modelKey, now);
    r := Success(session);
  }
}
