/**
  `converter/openai_converter.py`: an MCP tool descriptor becomes an
  OpenAI strict function entry. Property schemas are cut down to their
  `type` and their `description` or `title`; nothing is recursed into and
  the `required` list is copied as given.
*/
module OpenAIConverter {
  import opened Wrappers
  import opened Json

  /** An MCP tool as the converter reads it: `name`, `description` (may be `None`) and the `inputSchema` dict. */
  datatype McpTool = McpTool(name: string, description: Option<string>, inputSchema: seq<(string, Json)>)

  /** Every property schema answers `.get`: it is a dict. */
  predicate PropertiesShaped(props: seq<(string, Json)>) {
    forall i :: 0 <= i < |props| ==> props[i].1.Obj?
  }

  /** What the converter demands of an input schema: its `properties`, when present, is a dict of dicts. */
  predicate Shaped(schema: seq<(string, Json)>) {
    match Get(schema, "properties")
    case None => true
    case Some(v) => v.Obj? && PropertiesShaped(v.fields)
  }

  /** `schema.get("properties", {})` */
  function PropertiesIn(schema: seq<(string, Json)>): (props: seq<(string, Json)>)
    requires Shaped(schema)
    ensures PropertiesShaped(props)
  {
    match Get(schema, "properties")
    case None => []
    case Some(v) => v.fields
  }

  /** One property: its `type` (default `"string"`), then its `description` if it has one, else its `title` if it has one. */
  function ConvertProperty(schema: seq<(string, Json)>): seq<(string, Json)> {
    var typed := [("type", GetOr(schema, "type", Str("string")))];
    if HasKey(schema, "description") then typed + [("description", Get(schema, "description").value)]
    else if HasKey(schema, "title") then typed + [("title", Get(schema, "title").value)]
    else typed
  }

  /**
    A converted property has a `type` (the schema's, default `"string"`),
    the schema's `description` if it has one, otherwise its `title` if it
    has one, never both; every other key is dropped, and nothing nested
    is looked into.
  */
  lemma PropertyFields(schema: seq<(string, Json)>)
    ensures var r := ConvertProperty(schema);
      && UniqueKeys(r)
      && Get(r, "type") == Some(GetOr(schema, "type", Str("string")))
      && Get(r, "description") == Get(schema, "description")
      && Get(r, "title") == (if HasKey(schema, "description") then None else Get(schema, "title"))
      && !(HasKey(r, "description") && HasKey(r, "title"))
      && forall k :: k in Keys(r) ==> k == "type" || k == "description" || k == "title"
  {
    var r := ConvertProperty(schema);
    GetAt(r, 0);
    if |r| == 2 {
      GetAt(r, 1);
    }
  }

  /** The loop over the properties: each converted property is written under its name. */
  function PropertiesOf(props: seq<(string, Json)>): seq<(string, Json)>
    requires PropertiesShaped(props)
    decreases |props|
  {
    if props == [] then []
    else
      var last := props[|props| - 1];
      Put(PropertiesOf(props[..|props| - 1]), last.0, Obj(ConvertProperty(last.1.fields)))
  }

  /** The `parameters` dict: `type`, the converted `properties`, `required`, `additionalProperties`. */
  function ConvertParameters(schema: seq<(string, Json)>): seq<(string, Json)>
    requires Shaped(schema)
  {
    [("type", GetOr(schema, "type", Str("object"))),
     ("properties", Obj(PropertiesOf(PropertiesIn(schema)))),
     ("required", GetOr(schema, "required", Arr([]))),
     ("additionalProperties", Bool(false))]
  }

  /**
    The `parameters` dict has exactly the keys `type`, `properties`,
    `required`, `additionalProperties`: `type` is the schema's (default
    `"object"`), `required` the schema's copied verbatim (default `[]`),
    and `additionalProperties` false.
  */
  lemma ParametersFields(schema: seq<(string, Json)>)
    requires Shaped(schema)
    ensures var r := ConvertParameters(schema);
      && Keys(r) == ["type", "properties", "required", "additionalProperties"]
      && Get(r, "type") == Some(GetOr(schema, "type", Str("object")))
      && Get(r, "required") == Some(GetOr(schema, "required", Arr([])))
      && Get(r, "additionalProperties") == Some(Bool(false))
      && Get(r, "properties") == Some(Obj(PropertiesOf(PropertiesIn(schema))))
  {
    GetFour(ConvertParameters(schema), "type", "properties", "required", "additionalProperties");
  }

  /** The falsy-to-empty description: `tool.description or ""`. */
  function DescriptionText(description: Option<string>): string {
    if description.Some? && description.value != "" then description.value else ""
  }

  /** An OpenAI function entry: `type`, `name`, `description`, `strict`, `parameters`, in that order. */
  function Entry(name: string, description: string, parameters: seq<(string, Json)>): Json {
    Obj([
      ("type", Str("function")),
      ("name", Str(name)),
      ("description", Str(description)),
      ("strict", Bool(true)),
      ("parameters", Obj(parameters))])
  }

  /** One OpenAI function entry for an MCP tool. */
  function ConvertTool(tool: McpTool): Json
    requires Shaped(tool.inputSchema)
  {
    Entry(tool.name, DescriptionText(tool.description), ConvertParameters(tool.inputSchema))
  }

  /**
    Every entry has exactly the keys `type`, `name`, `description`,
    `strict`, `parameters`: `type` is `"function"`, `name` the tool's name,
    `description` the tool's description or `""` when it is falsy,
    `strict` true, and `parameters` the rewritten input schema.
  */
  lemma ConvertToolFields(tool: McpTool)
    requires Shaped(tool.inputSchema)
    ensures var r := ConvertTool(tool);
      && r.Obj? && Keys(r.fields) == ["type", "name", "description", "strict", "parameters"]
      && Get(r.fields, "type") == Some(Str("function"))
      && Get(r.fields, "name") == Some(Str(tool.name))
      && Get(r.fields, "description") == Some(Str(match tool.description case Some(d) => d case None => ""))
      && Get(r.fields, "strict") == Some(Bool(true))
      && Get(r.fields, "parameters") == Some(Obj(ConvertParameters(tool.inputSchema)))
  {
    EntryKeys(tool.name, DescriptionText(tool.description), ConvertParameters(tool.inputSchema));
    EntryFields(tool.name, DescriptionText(tool.description), ConvertParameters(tool.inputSchema));
  }

  lemma EntryKeys(name: string, description: string, parameters: seq<(string, Json)>)
    ensures Keys(Entry(name, description, parameters).fields) == ["type", "name", "description", "strict", "parameters"]
  {
  }

  lemma EntryFields(name: string, description: string, parameters: seq<(string, Json)>)
    ensures var r := Entry(name, description, parameters);
      && Get(r.fields, "type") == Some(Str("function"))
      && Get(r.fields, "name") == Some(Str(name))
      && Get(r.fields, "description") == Some(Str(description))
      && Get(r.fields, "strict") == Some(Bool(true))
      && Get(r.fields, "parameters") == Some(Obj(parameters))
  {
    EntryLayoutReads(Entry(name, description, parameters).fields);
  }

  /** Reading each key of a dict laid out as an entry. */
  lemma EntryLayoutReads(fields: seq<(string, Json)>)
    requires |fields| == 5
    requires fields[0].0 == "type" && fields[1].0 == "name" && fields[2].0 == "description"
    requires fields[3].0 == "strict" && fields[4].0 == "parameters"
    ensures Get(fields, "type") == Some(fields[0].1) && Get(fields, "name") == Some(fields[1].1)
    ensures Get(fields, "description") == Some(fields[2].1) && Get(fields, "strict") == Some(fields[3].1)
    ensures Get(fields, "parameters") == Some(fields[4].1)
  {
    GetAt(fields, 0);
    GetAt(fields, 1);
    GetAt(fields, 2);
    GetAt(fields, 3);
    GetAt(fields, 4);
  }

  /** `convert_tools(tools)`: one entry per tool, in order. */
  method ConvertTools(tools: seq<McpTool>) returns (converted: seq<Json>)
    requires forall i :: 0 <= i < |tools| ==> Shaped(tools[i].inputSchema)
    ensures |converted| == |tools|
    ensures forall i :: 0 <= i < |tools| ==> converted[i] == ConvertTool(tools[i])
  {
    converted := [];
    for i := 0 to |tools|
      invariant converted == Map(ConvertTool, tools[..i])
    {
      var entry := BuildEntry(tools[i]);
      assert tools[..i + 1][..i] == tools[..i];
      converted := converted + [entry];
    }
    assert tools[..|tools|] == tools;
    forall i | 0 <= i < |tools| ensures |converted| == |tools| && converted[i] == ConvertTool(tools[i]) {
      MapAt(ConvertTool, tools, i);
    }
  }

  /** `f` applied to each element, in order. */
  function Map<A, B>(f: A --> B, xs: seq<A>): seq<B>
    requires forall i :: 0 <= i < |xs| ==> f.requires(xs[i])
    decreases |xs|
  {
    if xs == [] then [] else Map(f, xs[..|xs| - 1]) + [f(xs[|xs| - 1])]
  }

  lemma {:induction false} MapAt<A, B>(f: A --> B, xs: seq<A>, i: nat)
    requires forall i :: 0 <= i < |xs| ==> f.requires(xs[i])
    requires i < |xs|
    ensures |Map(f, xs)| == |xs| && Map(f, xs)[i] == f(xs[i])
    decreases |xs|
  {
    var init := xs[..|xs| - 1];
    if i < |init| {
      MapAt(f, init, i);
      assert xs[i] == init[i];
    } else if init != [] {
      MapAt(f, init, 0);
    }
  }

  /** The body of the loop of `convert_tools`: the `openai_tool` dict of one tool. */
  method BuildEntry(tool: McpTool) returns (entry: Json)
    requires Shaped(tool.inputSchema)
    ensures entry == ConvertTool(tool)
  {
    var schema := tool.inputSchema;
    var properties := WriteProperties(PropertiesIn(schema));
    var parameters := [
      ("type", GetOr(schema, "type", Str("object"))),
      ("properties", Obj(properties)),
      ("required", GetOr(schema, "required", Arr([]))),
      ("additionalProperties", Bool(false))];
    var description := if tool.description.Some? && tool.description.value != "" then tool.description.value else "";
    entry := Entry(tool.name, description, parameters);
  }

  /** The inner loop of `convert_tools`: each property's conversion written under its name. */
  method WriteProperties(items: seq<(string, Json)>) returns (properties: seq<(string, Json)>)
    requires PropertiesShaped(items)
    ensures properties == PropertiesOf(items)
  {
    properties := [];
    for j := 0 to |items|
      invariant properties == PropertiesOf(items[..j])
    {
      var (propName, propSchema) := items[j];
      var param := [("type", GetOr(propSchema.fields, "type", Str("string")))];
      if HasKey(propSchema.fields, "description") {
        param := param + [("description", Get(propSchema.fields, "description").value)];
      } else if HasKey(propSchema.fields, "title") {
        param := param + [("title", Get(propSchema.fields, "title").value)];
      }
      assert param == ConvertProperty(propSchema.fields);
      properties := Put(properties, propName, Obj(param));
      assert items[..j + 1][..j] == items[..j];
    }
    assert items[..|items|] == items;
  }

  // ---------------------------------------------------------------- properties

  /** The converted properties never repeat a name. */
  lemma {:induction false} PropertiesOfUnique(props: seq<(string, Json)>)
    requires PropertiesShaped(props)
    ensures UniqueKeys(PropertiesOf(props))
    decreases |props|
  {
    if props != [] {
      var last := props[|props| - 1];
      PropertiesOfUnique(props[..|props| - 1]);
      PutUnique(PropertiesOf(props[..|props| - 1]), last.0, Obj(ConvertProperty(last.1.fields)));
    }
  }

  /** The conversion of the property schema stored under `k`, if any. */
  function ConvertedAt(props: seq<(string, Json)>, k: string): Option<Json>
    requires PropertiesShaped(props)
  {
    match Get(props, k)
    case None => None
    case Some(v) => Some(Obj(ConvertProperty(v.fields)))
  }

  /**
    For the properties of a dict: the output keys are the input keys in
    their order, and each one holds the conversion of its schema.
  */
  lemma {:induction false} PropertiesOfKeys(props: seq<(string, Json)>)
    requires PropertiesShaped(props) && UniqueKeys(props)
    ensures Keys(PropertiesOf(props)) == Keys(props)
    ensures forall k :: Get(PropertiesOf(props), k) == ConvertedAt(props, k)
    decreases |props|
  {
    if props != [] {
      var init := props[..|props| - 1];
      var last := props[|props| - 1];
      PropertiesOfKeys(init);
      assert !HasKey(init, last.0) by {
        forall j | 0 <= j < |init| ensures Keys(init)[j] != last.0 {
          assert init[j] == props[j];
        }
      }
      assert Keys(props) == Keys(init) + [last.0];
      forall k ensures Get(PropertiesOf(props), k) == ConvertedAt(props, k) {
        PutGet(PropertiesOf(init), last.0, Obj(ConvertProperty(last.1.fields)), k);
        PutGet(init, last.0, last.1, k);
        assert Put(init, last.0, last.1) == props;
      }
    }
  }

  /** A property written by the converter: converting it again changes nothing. */
  predicate IsConverted(v: Json) {
    v.Obj? && Obj(ConvertProperty(v.fields)) == v
  }

  /** Converting a property twice is converting it once. */
  lemma ConvertPropertyIdempotent(schema: seq<(string, Json)>)
    ensures IsConverted(Obj(ConvertProperty(schema)))
  {
    var r := ConvertProperty(schema);
    PropertyFields(schema);
    var again := ConvertProperty(r);
    assert GetOr(r, "type", Str("string")) == GetOr(schema, "type", Str("string"));
    if HasKey(schema, "description") {
      assert HasKey(r, "description");
    } else if HasKey(schema, "title") {
      assert HasKey(r, "title");
    }
  }

  lemma {:induction false} PropertiesOfConverted(props: seq<(string, Json)>)
    requires PropertiesShaped(props)
    ensures forall i :: 0 <= i < |PropertiesOf(props)| ==> IsConverted(PropertiesOf(props)[i].1)
    decreases |props|
  {
    if props != [] {
      var init := props[..|props| - 1];
      var last := props[|props| - 1];
      PropertiesOfConverted(init);
      var v := Obj(ConvertProperty(last.1.fields));
      ConvertPropertyIdempotent(last.1.fields);
      PutEntries(PropertiesOf(init), last.0, v);
      forall i | 0 <= i < |PropertiesOf(props)| ensures IsConverted(PropertiesOf(props)[i].1) {
        var e := PropertiesOf(props)[i];
        assert e in Put(PropertiesOf(init), last.0, v);
      }
    }
  }

  /** Converting a dict of already converted properties gives it back. */
  lemma {:induction false} PropertiesOfFixed(props: seq<(string, Json)>)
    requires UniqueKeys(props)
    requires forall i :: 0 <= i < |props| ==> IsConverted(props[i].1)
    ensures PropertiesShaped(props) && PropertiesOf(props) == props
    decreases |props|
  {
    if props != [] {
      var init := props[..|props| - 1];
      var last := props[|props| - 1];
      PropertiesOfFixed(init);
      assert !HasKey(init, last.0) by {
        forall j | 0 <= j < |init| ensures Keys(init)[j] != last.0 {
          assert init[j] == props[j];
        }
      }
      assert init + [last] == props;
    }
  }

  /**
    The `parameters` rewrite is idempotent: feeding an entry's
    `parameters` back in as an input schema yields the same `parameters`.
  */
  lemma ParametersIdempotent(schema: seq<(string, Json)>)
    requires Shaped(schema)
    ensures Shaped(ConvertParameters(schema))
    ensures ConvertParameters(ConvertParameters(schema)) == ConvertParameters(schema)
  {
    var params := ConvertParameters(schema);
    ParametersFields(schema);
    var props := PropertiesOf(PropertiesIn(schema));
    PropertiesOfUnique(PropertiesIn(schema));
    PropertiesOfConverted(PropertiesIn(schema));
    PropertiesOfFixed(props);
    assert Shaped(params);
    assert PropertiesIn(params) == props;
  }
}
