/** The tool catalog and model table of src/core/ai.ts: `MCP_TOOLS`,
    `validateTools`, `MODELS`, `getCurrentModel` and `validateModels`. */
module Ai {
  import opened Wrappers

  /** `SYSTEM_PROMPT`. */
  const SystemPrompt: string := "You are an intelligent programmer with access to various tools through the Model Context Protocol (MCP)."

  // ------------------------------------------------------------------
  // Tool catalog
  // ------------------------------------------------------------------

  /** One entry of a schema's `properties`. */
  datatype Property = Property(propertyType: string, description: string)

  /** A tool's `schema.input`. */
  datatype ToolSchema = ToolSchema(inputType: string, properties: seq<(string, Property)>, required: seq<string>)

  /** One tool of `MCP_TOOLS`. */
  datatype ToolDef = ToolDef(name: string, description: string, schema: Option<ToolSchema>)

  /** One category of `MCP_TOOLS`: its key and its tools, each under its own
      key, in `Object.entries` order. */
  datatype Category = Category(key: string, tools: seq<(string, ToolDef)>)

  /** The `McpTool` records `validateTools` returns. */
  datatype McpTool = McpTool(name: string, description: string, schema: Option<ToolSchema>, available: bool)

  /** `MCP_TOOLS` as shipped: one `filesystem` category with `read` and `write`. */
  const McpTools: seq<Category> := [
    Category("filesystem", [
      ("read", ToolDef("read_file", "Read file contents from workspace",
        Some(ToolSchema("object", [("path", Property("string", "Path to the file to read"))], ["path"])))),
      ("write", ToolDef("write_to_file", "Write content to file in workspace",
        Some(ToolSchema("object", [("path", Property("string", "Path to write the file to")),
                                   ("content", Property("string", "Content to write to the file"))],
                        ["path", "content"]))))
    ])
  ]

  /** The record `validateTools` pushes for one tool. */
  function Entry(def: ToolDef): (tool: McpTool)
    ensures tool.available
    ensures tool.name == def.name && tool.description == def.description && tool.schema == def.schema
  {
    McpTool(def.name, def.description, def.schema, true)
  }

  /** The records for one category's tools, in order. */
  function CategoryEntries(tools: seq<(string, ToolDef)>): (entries: seq<McpTool>)
    ensures |entries| == |tools|
    ensures forall t | 0 <= t < |tools| :: entries[t] == Entry(tools[t].1)
  {
    if |tools| == 0 then []
    else CategoryEntries(tools[..|tools| - 1]) + [Entry(tools[|tools| - 1].1)]
  }

  /** How many tools the catalog holds over all its categories. */
  function ToolCount(catalog: seq<Category>): nat {
    if |catalog| == 0 then 0
    else ToolCount(catalog[..|catalog| - 1]) + |catalog[|catalog| - 1].tools|
  }

  /** What `validateTools()` returns for `catalog`: the records of every
      category's tools, categories in order and tools in order within each. */
  function ToolEntries(catalog: seq<Category>): (tools: seq<McpTool>)
    ensures |tools| == ToolCount(catalog)
    ensures forall k | 0 <= k < |tools| :: tools[k].available
  {
    if |catalog| == 0 then []
    else ToolEntries(catalog[..|catalog| - 1]) + CategoryEntries(catalog[|catalog| - 1].tools)
  }

  /** The tool at position `t` of category `c` gives the entry right after
      the entries of all earlier categories and of the earlier tools of `c`:
      one entry per tool, in category-then-tool order. */
  lemma {:induction false} ToolEntriesAt(catalog: seq<Category>, c: nat, t: nat)
    requires c < |catalog| && t < |catalog[c].tools|
    ensures ToolCount(catalog[..c]) + t < |ToolEntries(catalog)|
    ensures ToolEntries(catalog)[ToolCount(catalog[..c]) + t] == Entry(catalog[c].tools[t].1)
  {
    var n := |catalog| - 1;
    var init := catalog[..n];
    if c == n {
      assert catalog[..c] == init;
    } else {
      ToolEntriesAt(init, c, t);
      assert init[..c] == catalog[..c];
      assert init[c] == catalog[c];
    }
  }

  /** `validateTools()`: the nested `forEach` loops pushing one record per tool. */
  method ValidateTools(catalog: seq<Category>) returns (toolList: seq<McpTool>)
    ensures toolList == ToolEntries(catalog)
  {
    toolList := [];
    for c := 0 to |catalog|
      invariant toolList == ToolEntries(catalog[..c])
    {
      toolList := PushCategory(toolList, catalog[c].tools);
      assert catalog[..c + 1][..c] == catalog[..c];
    }
    assert catalog[..|catalog|] == catalog;
  }

  /** The inner `forEach` of `validateTools`: one record pushed per tool of
      a category, in order. */
  method PushCategory(toolList: seq<McpTool>, tools: seq<(string, ToolDef)>) returns (pushed: seq<McpTool>)
    ensures pushed == toolList + CategoryEntries(tools)
  {
    pushed := toolList;
    for t := 0 to |tools|
      invariant pushed == toolList + CategoryEntries(tools[..t])
    {
      assert tools[..t + 1][..t] == tools[..t];
      pushed := pushed + [Entry(tools[t].1)];
    }
    assert tools[..|tools|] == tools;
  }

  /** The shipped catalog yields `read_file` then `write_to_file`. */
  lemma ShippedTools()
    ensures |ToolEntries(McpTools)| == 2
    ensures ToolEntries(McpTools)[0].name == "read_file"
    ensures ToolEntries(McpTools)[1].name == "write_to_file"
  {
    assert McpTools[..0] == [];
    ToolEntriesAt(McpTools, 0, 0);
    ToolEntriesAt(McpTools, 0, 1);
  }

  // ------------------------------------------------------------------
  // Models
  // ------------------------------------------------------------------

  /** What a `MODELS` key maps to: the Genkit `gemini15Pro` reference or a model id. */
  datatype ModelRef = Gemini15Pro | ModelId(id: string)

  /** JavaScript truthiness of an environment variable: set and non-empty. */
  predicate Truthy(v: Option<string>) {
    v.Some? && v.value != ""
  }

  /** `Object.keys(o)` of an object given as its entries in insertion order,
      such as `MODELS` or a category of `toolSchemas`. */
  function ObjectKeys<V>(entries: seq<(string, V)>): (keys: seq<string>)
    ensures |keys| == |entries|
    ensures forall i | 0 <= i < |entries| :: keys[i] == entries[i].0
  {
    if |entries| == 0 then [] else [entries[0].0] + ObjectKeys(entries[1..])
  }

  /** `MODELS`, built from `GOOGLE_GENAI_API_KEY` and `ANTHROPIC_API_KEY`. */
  function Models(googleKey: Option<string>, anthropicKey: Option<string>): (models: seq<(string, ModelRef)>)
    ensures "gemini" in ObjectKeys(models) <==> Truthy(googleKey)
    ensures "claude" in ObjectKeys(models) <==> Truthy(anthropicKey)
    ensures forall k | k in ObjectKeys(models) :: k == "gemini" || k == "claude"
  {
    (if Truthy(googleKey) then [("gemini", Gemini15Pro)] else [])
    + (if Truthy(anthropicKey) then [("claude", ModelId("anthropic/claude-3-opus-20240229"))] else [])
  }

  /** `MODELS[key]` read as an own property: the model stored under `key`, if any. */
  function LookupModel(models: seq<(string, ModelRef)>, key: string): (r: Option<ModelRef>)
    ensures r.Some? <==> key in ObjectKeys(models)
  {
    if |models| == 0 then None
    else if models[0].0 == key then Some(models[0].1)
    else LookupModel(models[1..], key)
  }

  /** The availability guard `!MODELS[key]` means to express: `key` is one of `MODELS`' own keys. */
  predicate IsAvailable(models: seq<(string, ModelRef)>, key: string) {
    LookupModel(models, key).Some?
  }

  /** The names every plain JavaScript object inherits from `Object.prototype`. */
  const ObjectPrototypeMembers: set<string> := {
    "constructor", "hasOwnProperty", "isPrototypeOf", "propertyIsEnumerable",
    "toLocaleString", "toString", "valueOf", "__proto__",
    "__defineGetter__", "__defineSetter__", "__lookupGetter__", "__lookupSetter__"
  }

  /** The guard as written: `MODELS[key]` is truthy for an own key (every
      stored model is a non-empty reference) and for any inherited member,
      since `MODELS` is a plain object literal. */
  function GuardAsWritten(models: seq<(string, ModelRef)>, key: string): (passes: bool)
    ensures passes <==> key in ObjectKeys(models) || key in ObjectPrototypeMembers
  {
    LookupModel(models, key).Some? || key in ObjectPrototypeMembers
  }

  /** With no API key at all, no model is configured, yet the guard as
      written lets "toString" through as a model key. */
  lemma PrototypeNamePassesGuard()
    ensures !ValidateModels(Models(None, None))
    ensures GuardAsWritten(Models(None, None), "toString")
    ensures !IsAvailable(Models(None, None), "toString")
  {
    assert ObjectKeys(Models(None, None)) == [];
  }

  /** `validateModels()`: some model key exists. */
  function ValidateModels(models: seq<(string, ModelRef)>): (ok: bool)
    ensures ok <==> exists k :: k in ObjectKeys(models)
  {
    assert ObjectKeys(models) != [] ==> ObjectKeys(models)[0] in ObjectKeys(models);
    ObjectKeys(models) != []
  }

  /** Some model is available exactly when at least one API key is set. */
  lemma ModelsConfigured(googleKey: Option<string>, anthropicKey: Option<string>)
    ensures ValidateModels(Models(googleKey, anthropicKey)) <==> Truthy(googleKey) || Truthy(anthropicKey)
  {
    var keys := ObjectKeys(Models(googleKey, anthropicKey));
    if ValidateModels(Models(googleKey, anthropicKey)) {
      var k :| k in keys;
    }
  }

  /** `getCurrentModel(modelKey)`. */
  function ModelLabel(modelKey: string): string {
    "Using " + modelKey + " model"
  }

  /** The label names the model between its fixed prefix and suffix, so
      different keys give different labels. */
  lemma ModelLabelNamesModel(a: string, b: string)
    ensures |ModelLabel(a)| == |a| + 12
    ensures ModelLabel(a)[6..|ModelLabel(a)| - 6] == a
    ensures ModelLabel(a) == ModelLabel(b) ==> a == b
  {
    assert ModelLabel(a)[6..|ModelLabel(a)| - 6] == a;
    assert ModelLabel(b)[6..|ModelLabel(b)| - 6] == b;
  }
}
