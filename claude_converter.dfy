/**
  `converter/claude_converter.py`: each tool becomes a dict with exactly
  `name`, `description` and `input_schema`, each read from the tool's
  attribute when it has one and from its dict key otherwise.
*/
module ClaudeConverter {
  import opened Wrappers
  import opened Json

  /**
    A tool as the converter sees it: the attributes `getattr` can read,
    and the entries `.get` reads when the tool is a mapping (`None` when
    it has no `.get` at all, as a pydantic tool object has none).
  */
  datatype ToolObject = ToolObject(attributes: seq<(string, Json)>, mapping: Option<seq<(string, Json)>>)

  /** The tool answers `.get`. */
  predicate SupportsGet(tool: ToolObject) {
    tool.mapping.Some?
  }

  /** `getattr(tool, attr, tool.get(key, None))`: the default is computed first, so `.get` must exist. */
  function Lookup(tool: ToolObject, attr: string, key: string): Json
    requires SupportsGet(tool)
  {
    var fallback := GetOr(tool.mapping.value, key, Null);
    GetOr(tool.attributes, attr, fallback)
  }

  /** The converted dict of one tool. */
  function ConvertTool(tool: ToolObject): Json
    requires SupportsGet(tool)
  {
    Obj([
      ("name", Lookup(tool, "name", "name")),
      ("description", Lookup(tool, "description", "description")),
      ("input_schema", Lookup(tool, "inputSchema", "input_schema"))])
  }

  /**
    `convert_tools(server_tools)`: one dict per tool, in order, with the
    fallback to `.get` taken only when the attribute is missing (see
    `ConvertToolIntended`); on every tool that answers `.get` this is the
    code's own conversion.
  */
  method ConvertTools(tools: seq<ToolObject>) returns (converted: seq<Json>)
    ensures |converted| == |tools|
    ensures forall i :: 0 <= i < |tools| ==> converted[i] == ConvertToolIntended(tools[i])
    ensures forall i :: 0 <= i < |tools| && SupportsGet(tools[i]) ==> converted[i] == ConvertTool(tools[i])
  {
    converted := [];
    for i := 0 to |tools|
      invariant |converted| == i
      invariant forall j :: 0 <= j < i ==> converted[j] == ConvertToolIntended(tools[j])
    {
      var entry := ConvertOne(tools[i]);
      converted := converted + [entry];
    }
    forall i | 0 <= i < |tools| && SupportsGet(tools[i])
      ensures converted[i] == ConvertTool(tools[i])
    {
      IntendedAgrees(tools[i]);
    }
  }

  /**
    The dict literal the loop body of `convert_tools` appends for one tool,
    evaluated as the host does; `ConvertToolIntended` is the same value as a
    function, for use in contracts and lemmas.
  */
  method ConvertOne(tool: ToolObject) returns (entry: Json)
    ensures entry == ConvertToolIntended(tool)
  {
    var name := LookupIntended(tool, "name", "name");
    var description := LookupIntended(tool, "description", "description");
    var schema := LookupIntended(tool, "inputSchema", "input_schema");
    entry := Obj([("name", name), ("description", description), ("input_schema", schema)]);
  }

  // ---------------------------------------------------------------- properties

  /** What a field reads: the attribute if present, else the dict key, else `None`. */
  function Fallback(attributes: seq<(string, Json)>, mapping: seq<(string, Json)>, attr: string, key: string): Json {
    match Get(attributes, attr)
    case Some(v) => v
    case None =>
      match Get(mapping, key)
      case Some(v) => v
      case None => Null
  }

  /**
    A converted tool has exactly the keys `name`, `description`,
    `input_schema`; `name` and `description` come from the attribute, else
    the dict key of the same name, else `None`; `input_schema` comes from
    the attribute `inputSchema`, else the dict key `input_schema`, else `None`.
  */
  lemma ConvertToolFields(tool: ToolObject)
    requires SupportsGet(tool)
    ensures var r := ConvertTool(tool);
      && r.Obj? && Keys(r.fields) == ["name", "description", "input_schema"]
      && Get(r.fields, "name") == Some(Fallback(tool.attributes, tool.mapping.value, "name", "name"))
      && Get(r.fields, "description") == Some(Fallback(tool.attributes, tool.mapping.value, "description", "description"))
      && Get(r.fields, "input_schema") == Some(Fallback(tool.attributes, tool.mapping.value, "inputSchema", "input_schema"))
  {
    GetThree(ConvertTool(tool).fields, "name", "description", "input_schema");
  }

  /** A plain dict (no attributes) whose `name`, `description`, `input_schema` keys are set. */
  function AsDict(r: Json): ToolObject
    requires r.Obj?
  {
    ToolObject([], Some(r.fields))
  }

  /** Converting a converted tool again, as a plain dict, gives it back. */
  lemma ConvertIdempotent(tool: ToolObject)
    requires SupportsGet(tool)
    ensures ConvertTool(AsDict(ConvertTool(tool))) == ConvertTool(tool)
  {
    var r := ConvertTool(tool);
    ConvertToolFields(tool);
    var again := ConvertTool(AsDict(r));
    assert Lookup(AsDict(r), "name", "name") == r.fields[0].1;
    assert Lookup(AsDict(r), "description", "description") == r.fields[1].1;
    assert Lookup(AsDict(r), "inputSchema", "input_schema") == r.fields[2].1;
  }

  // ---------------------------------------------------------------- the `.get` fallback

  /** Reading a field with the fallback taken only when the tool is a mapping. */
  function LookupIntended(tool: ToolObject, attr: string, key: string): Json {
    match Get(tool.attributes, attr)
    case Some(v) => v
    case None =>
      if tool.mapping.Some? then GetOr(tool.mapping.value, key, Null) else Null
  }

  /** The conversion with the fallback made lazy: defined for every tool object. */
  function ConvertToolIntended(tool: ToolObject): Json {
    Obj([
      ("name", LookupIntended(tool, "name", "name")),
      ("description", LookupIntended(tool, "description", "description")),
      ("input_schema", LookupIntended(tool, "inputSchema", "input_schema"))])
  }

  /** Wherever the code as written is defined, the lazy fallback agrees with it. */
  lemma IntendedAgrees(tool: ToolObject)
    requires SupportsGet(tool)
    ensures ConvertToolIntended(tool) == ConvertTool(tool)
  {
    assert LookupIntended(tool, "name", "name") == Lookup(tool, "name", "name");
    assert LookupIntended(tool, "description", "description") == Lookup(tool, "description", "description");
    assert LookupIntended(tool, "inputSchema", "input_schema") == Lookup(tool, "inputSchema", "input_schema");
  }

  /** An MCP tool object: attributes `name`, `description`, `inputSchema`, and no `.get`. */
  function McpToolObject(name: string, description: string, schema: Json): ToolObject {
    ToolObject([("name", Str(name)), ("description", Str(description)), ("inputSchema", schema)], None)
  }

  /**
    An MCP tool object, the input the attribute names are written for, has
    no `.get`: the code as written raises on it before reading any
    attribute, while the lazy fallback converts it from its attributes.
  */
  lemma McpToolObjectRejected(name: string, description: string, schema: Json)
    ensures !SupportsGet(McpToolObject(name, description, schema))
    ensures ConvertToolIntended(McpToolObject(name, description, schema)) ==
      Obj([("name", Str(name)), ("description", Str(description)), ("input_schema", schema)])
  {
    GetThree(McpToolObject(name, description, schema).attributes, "name", "description", "inputSchema");
  }
}
