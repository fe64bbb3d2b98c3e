/** Tool definitions and tool calls between the OpenAI and the Anthropic JSON shapes.

    Both mappings take one element at a time and drop what has no counterpart: tools that
    are not named functions, and blocks that are not tool uses with an object as input.
    An empty outcome is none at all. */
module SchemaMapper {
  import opened Wrappers
  import opened Json

  // ---- Tool definitions ----------------------------------------------------

  const NO_PARAMETERS := Obj(map["type" := Str("object"), "properties" := Obj(map[])])

  /** The Anthropic form of one OpenAI tool; only named functions have one. */
  function MapTool(tool: Json): Option<Json>
  {
    if StrField(tool, "type") != Some("function") then None
    else
      match Field(tool, "function")
      case Some(Obj(fields)) =>
        var function_ := Obj(fields);
        (match StrField(function_, "name")
         case None => None
         case Some(name) =>
           var description := if StrField(function_, "description").Some? then StrField(function_, "description").value else "";
           var parameters := if "parameters" in fields then fields["parameters"] else NO_PARAMETERS;
           Some(Obj(map["name" := Str(name), "description" := Str(description), "input_schema" := parameters])))
      case _ => None
  }

  function MapEach(tools: seq<Json>): seq<Json>
  {
    if tools == [] then []
    else
      MapEach(tools[..|tools| - 1])
      + match MapTool(tools[|tools| - 1]) case Some(mapped) => [mapped] case None => []
  }

  method MapOpenAiToolsToAnthropic(tools: Option<seq<Json>>) returns (mapped: Option<seq<Json>>)
    ensures mapped == if tools.None? || MapEach(tools.value) == [] then None else Some(MapEach(tools.value))
  {
    if tools.None? { return None; }
    var out: seq<Json> := [];
    for i := 0 to |tools.value|
      invariant out == MapEach(tools.value[..i])
    {
      assert tools.value[..i + 1][..i] == tools.value[..i];
      var one := MapTool(tools.value[i]);
      if one.Some? { out := out + [one.value]; }
    }
    assert tools.value[..|tools.value|] == tools.value;
    return if out == [] then None else Some(out);
  }

  /** The OpenAI function tool an Anthropic tool stands for. */
  function AsFunctionTool(mapped: Json): Json
    requires mapped.Obj? && "name" in mapped.fields && "description" in mapped.fields && "input_schema" in mapped.fields
  {
    Obj(map["type" := Str("function"),
            "function" := Obj(map["name" := mapped.fields["name"],
                                  "description" := mapped.fields["description"],
                                  "parameters" := mapped.fields["input_schema"]])])
  }

  /** A mapped tool stands for a function tool that maps to it again, and a function
      with a description and parameters loses neither name, description nor schema. */
  lemma MappedToolIsStable(tool: Json)
    requires MapTool(tool).Some?
    ensures var mapped := MapTool(tool).value;
      && mapped.Obj? && mapped.fields.Keys == {"name", "description", "input_schema"}
      && MapTool(AsFunctionTool(mapped)) == Some(mapped)
      && var f := Field(tool, "function").value;
         && StrField(mapped, "name") == StrField(f, "name")
         && (StrField(f, "description").Some? ==> StrField(mapped, "description") == StrField(f, "description"))
         && (Field(f, "parameters").Some? ==> Field(mapped, "input_schema") == Field(f, "parameters"))
  {
  }

  /** The tool is an object of type `function` with a function of this name. */
  predicate IsNamedFunction(tool: Json, f: map<string, Json>, name: string)
  {
    && tool.Obj? && "type" in tool.fields && tool.fields["type"] == Str("function")
    && "function" in tool.fields && tool.fields["function"] == Obj(f)
    && "name" in f && f["name"] == Str(name)
  }

  /** Every named function is mapped, and nothing else: to its name, its description or
      none, and its parameters or those of a function without any. */
  lemma NamedFunctionsAreMapped(tool: Json)
    ensures MapTool(tool).Some? <==> exists f: map<string, Json>, name: string :: IsNamedFunction(tool, f, name)
    ensures forall f: map<string, Json>, name: string | IsNamedFunction(tool, f, name) ::
      MapTool(tool) == Some(Obj(map[
        "name" := Str(name),
        "description" := if "description" in f && f["description"].Str? then f["description"] else Str(""),
        "input_schema" := if "parameters" in f then f["parameters"]
                          else Obj(map["type" := Str("object"), "properties" := Obj(map[])])]))
  {
    if MapTool(tool).Some? {
      var f := tool.fields["function"].fields;
      assert IsNamedFunction(tool, f, StrField(Obj(f), "name").value);
    }
  }

  lemma {:induction false} MapEachConcat(a: seq<Json>, b: seq<Json>)
    ensures MapEach(a + b) == MapEach(a) + MapEach(b)
  {
    if b == [] {
      assert a + b == a;
    } else {
      var n := |b| - 1;
      MapEachConcat(a, b[..n]);
      assert (a + b)[..|a + b| - 1] == a + b[..n];
    }
  }

  lemma MapOne(tool: Json)
    ensures MapEach([tool]) == match MapTool(tool) case Some(mapped) => [mapped] case None => []
  {
    assert [tool][..0] == [] && MapEach([tool][..0]) == [];
  }

  /** Tools are mapped one by one and keep their order. */
  lemma MappedInOrder(first: seq<Json>, tool: Json, rest: seq<Json>)
    ensures MapEach(first + [tool] + rest)
         == MapEach(first) + (match MapTool(tool) case Some(mapped) => [mapped] case None => []) + MapEach(rest)
  {
    MapEachConcat(first + [tool], rest);
    MapEachConcat(first, [tool]);
    MapOne(tool);
  }

  // ---- Tool calls ----------------------------------------------------------

  /** The OpenAI form of one Anthropic content block, if it is a tool use with an object input. */
  function MapBlock(codec: Codec, block: Json): Option<Json>
  {
    if StrField(block, "type") != Some("tool_use") then None
    else
      match (StrField(block, "id"), StrField(block, "name"), Field(block, "input"))
      case (Some(id), Some(name), Some(Obj(input))) =>
        Some(Obj(map["id" := Str(id), "type" := Str("function"),
                     "function" := Obj(map["name" := Str(name), "arguments" := Str(codec.print_(Obj(input)))])]))
      case _ => None
  }

  function MapBlocks(codec: Codec, blocks: seq<Json>): seq<Json>
  {
    if blocks == [] then []
    else
      MapBlocks(codec, blocks[..|blocks| - 1])
      + match MapBlock(codec, blocks[|blocks| - 1]) case Some(call) => [call] case None => []
  }

  method MapAnthropicToolUseToOpenAiCalls(codec: Codec, blocks: seq<Json>) returns (calls: Option<seq<Json>>)
    ensures calls == if MapBlocks(codec, blocks) == [] then None else Some(MapBlocks(codec, blocks))
  {
    var out: seq<Json> := [];
    for i := 0 to |blocks|
      invariant out == MapBlocks(codec, blocks[..i])
    {
      assert blocks[..i + 1][..i] == blocks[..i];
      var one := MapBlock(codec, blocks[i]);
      if one.Some? { out := out + [one.value]; }
    }
    assert blocks[..|blocks|] == blocks;
    return if out == [] then None else Some(out);
  }

  /** The block is a tool use with text for id and name and an object for input. */
  predicate IsToolUse(block: Json, id: string, name: string, input: map<string, Json>)
  {
    && block.Obj? && {"type", "id", "name", "input"} <= block.fields.Keys
    && block.fields["type"] == Str("tool_use") && block.fields["id"] == Str(id)
    && block.fields["name"] == Str(name) && block.fields["input"] == Obj(input)
  }

  /** Every such block is mapped, and nothing else: to a function call with the printed
      input as its arguments. */
  lemma ToolUsesAreMapped(codec: Codec, block: Json)
    ensures MapBlock(codec, block).Some? <==> exists id: string, name: string, input: map<string, Json> :: IsToolUse(block, id, name, input)
    ensures forall id: string, name: string, input: map<string, Json> | IsToolUse(block, id, name, input) ::
      MapBlock(codec, block) == Some(Obj(map[
        "id" := Str(id), "type" := Str("function"),
        "function" := Obj(map["name" := Str(name), "arguments" := Str(codec.print_(Obj(input)))])]))
  {
    if MapBlock(codec, block).Some? {
      assert IsToolUse(block, StrField(block, "id").value, StrField(block, "name").value, block.fields["input"].fields);
    }
  }
}
