/** Lazy tool schemas: the parameters of registered tools are replaced by one-line
    summaries, and served when the model asks for them through a phantom tool.

    Bodies and responses are JSON trees, read through an assumed codec. Each tool is
    rewritten on its own; which tools are wanted in full is any function of the body's
    messages, and looking a name up gives the last tool registered under it. */
module ToolRouter {
  import opened Wrappers
  import opened Json

  const PHANTOM_TOOL_NAME: string := "get_tool_details"

  const PHANTOM_PARAMETERS := Obj(map[
    "type" := Str("object"),
    "properties" := Obj(map["tool_name" := Obj(map[
      "type" := Str("string"), "description" := Str("Exact name of the MCP tool")])]),
    "required" := Arr([Str("tool_name")])])

  const PHANTOM_TOOL := Obj(map[
    "type" := Str("function"),
    "function" := Obj(map[
      "name" := Str(PHANTOM_TOOL_NAME),
      "description" := Str("Returns the complete parameter schema for an MCP tool. Call this when you need exact parameter types and required fields."),
      "parameters" := PHANTOM_PARAMETERS])])

  // ---- The registry --------------------------------------------------------

  datatype ToolDescriptor = ToolDescriptor(name: string, summary: string, schema: Option<Json>)

  datatype ToolRegistry = ToolRegistry(tools: seq<ToolDescriptor>, index: map<string, nat>)

  /** The index leads each name to the last tool of that name, and knows all names. */
  ghost predicate Indexed(registry: ToolRegistry)
  {
    && (forall i | 0 <= i < |registry.tools| :: registry.tools[i].name in registry.index)
    && (forall name <- registry.index ::
          && registry.index[name] < |registry.tools| && registry.tools[registry.index[name]].name == name
          && forall j | registry.index[name] < j < |registry.tools| :: registry.tools[j].name != name)
  }

  type Registry = r: ToolRegistry | Indexed(r) witness ToolRegistry([], map[])

  method Load(descriptors: seq<ToolDescriptor>) returns (registry: Registry)
    ensures registry.tools == descriptors
  {
    var index: map<string, nat> := map[];
    for i := 0 to |descriptors|
      invariant Indexed(ToolRegistry(descriptors[..i], index))
    {
      ghost var before := ToolRegistry(descriptors[..i], index);
      index := index[descriptors[i].name := i];
      ghost var after := ToolRegistry(descriptors[..i + 1], index);
      assert forall j | 0 <= j < i :: after.tools[j] == before.tools[j];
    }
    assert descriptors[..|descriptors|] == descriptors;
    return ToolRegistry(descriptors, index);
  }

  function Lookup(registry: Registry, name: string): (r: Option<ToolDescriptor>)
    ensures r.Some? <==> exists i | 0 <= i < |registry.tools| :: registry.tools[i].name == name
    ensures r.Some? ==> r.value.name == name && r.value in registry.tools
  {
    if name in registry.index then Some(registry.tools[registry.index[name]]) else None
  }

  // ---- Injection -----------------------------------------------------------

  function FunctionName(tool: Json): (r: Option<string>)
    ensures r.Some? ==> tool.Obj? && "function" in tool.fields && tool.fields["function"].Obj?
  {
    match Field(tool, "function")
    case Some(f) => StrField(f, "name")
    case None => None
  }

  function WithFunction(tool: Json, fields: map<string, Json>): Json
    requires tool.Obj?
  {
    Obj(tool.fields["function" := Obj(fields)])
  }

  function Summary(d: ToolDescriptor): Json
  {
    Str("Available Tool: " + d.name + " \U{2014} " + d.summary)
  }

  function RewriteTool(registry: Registry, wanted: set<string>, tool: Json): Json
  {
    match FunctionName(tool)
    case None => tool
    case Some(name) =>
      var f := tool.fields["function"].fields;
      match Lookup(registry, name)
      case None => tool
      case Some(d) =>
        if name !in wanted then WithFunction(tool, (f - {"parameters"})["description" := Summary(d)])
        else if d.schema.Some? then WithFunction(tool, f["parameters" := d.schema.value])
        else tool
  }

  /** A registered tool that is wanted in full, or has parameters to strip. */
  predicate Concerns(registry: Registry, wanted: set<string>, tool: Json)
  {
    match FunctionName(tool)
    case None => false
    case Some(name) =>
      Lookup(registry, name).Some? && (name in wanted || "parameters" in tool.fields["function"].fields)
  }

  predicate PhantomIn(tools: seq<Json>)
  {
    exists i | 0 <= i < |tools| :: FunctionName(tools[i]) == Some(PHANTOM_TOOL_NAME)
  }

  function RewriteTools(registry: Registry, wanted: set<string>, tools: seq<Json>): seq<Json>
  {
    var rewritten := seq(|tools|, i requires 0 <= i < |tools| => RewriteTool(registry, wanted, tools[i]));
    if PhantomIn(rewritten) then rewritten else rewritten + [PHANTOM_TOOL]
  }

  predicate AnyConcerned(registry: Registry, wanted: set<string>, tools: seq<Json>)
  {
    exists i | 0 <= i < |tools| :: Concerns(registry, wanted, tools[i])
  }

  /** The tools whose full schema is asked for depend on the messages alone. */
  type Detector = Option<Json> -> set<string>

  function Wanted(detect: Detector, body: Json): set<string>
  {
    detect(Field(body, "messages"))
  }

  function Inject(registry: Registry, detect: Detector, body: Json): (out: Option<Json>)
  {
    match Field(body, "tools")
    case Some(Arr(tools)) =>
      var wanted := Wanted(detect, body);
      if AnyConcerned(registry, wanted, tools)
      then Some(Obj(body.fields["tools" := Arr(RewriteTools(registry, wanted, tools))]))
      else None
    case _ => None
  }

  /** One tool of the loop: what becomes of it, and whether it counts as a change. */
  method RewriteOne(registry: Registry, wanted: set<string>, tool: Json) returns (out: Json, touched: bool)
    ensures out == RewriteTool(registry, wanted, tool) && touched == Concerns(registry, wanted, tool)
  {
    out, touched := tool, false;
    var name := FunctionName(tool);
    if name.None? { return; }
    var descriptor := Lookup(registry, name.value);
    if descriptor.None? { return; }
    var func := tool.fields["function"].fields;
    touched := "parameters" in func;
    if name.value in wanted {
      touched := true;
      if descriptor.value.schema.None? { return; }
      func := func["parameters" := descriptor.value.schema.value];
    } else {
      func := func - {"parameters"};
      func := func["description" := Summary(descriptor.value)];
    }
    out := Obj(tool.fields["function" := Obj(func)]);
  }

  method RewriteEach(registry: Registry, wanted: set<string>, tools: seq<Json>)
    returns (rewritten: seq<Json>, modified: bool)
    ensures rewritten == seq(|tools|, i requires 0 <= i < |tools| => RewriteTool(registry, wanted, tools[i]))
    ensures modified == AnyConcerned(registry, wanted, tools)
  {
    rewritten, modified := tools, false;
    for i := 0 to |tools|
      invariant |rewritten| == |tools|
      invariant forall k | 0 <= k < i :: rewritten[k] == RewriteTool(registry, wanted, tools[k])
      invariant forall k | i <= k < |tools| :: rewritten[k] == tools[k]
      invariant modified <==> exists k | 0 <= k < i :: Concerns(registry, wanted, tools[k])
    {
      var tool, touched := RewriteOne(registry, wanted, rewritten[i]);
      rewritten := rewritten[i := tool];
      if touched { modified := true; }
    }
  }

  /** The body text with lazy schemas; without a result the text goes on as it came. */
  method InjectLazySummaries(codec: Codec, registry: Registry, detect: Detector, bodyText: string)
    returns (out: Option<string>)
    ensures out == match codec.parse(bodyText)
                   case None => None
                   case Some(body) =>
                     match Inject(registry, detect, body) case None => None case Some(v) => Some(codec.print_(v))
  {
    var parsed := codec.parse(bodyText);
    if registry.tools == [] {
      assert parsed.Some? ==> Inject(registry, detect, parsed.value) == None;
      return None;
    }
    if parsed.None? { return None; }
    var body := parsed.value;
    var fullSchemaFor := Wanted(detect, body);
    var field := Field(body, "tools");
    if field.None? || !field.value.Arr? { return None; }
    var tools, modified := RewriteEach(registry, fullSchemaFor, field.value.items);
    if !modified { return None; }
    if !PhantomIn(tools) { tools := tools + [PHANTOM_TOOL]; }
    return Some(codec.print_(Obj(body.fields["tools" := Arr(tools)])));
  }

  // ---- Frame ---------------------------------------------------------------

  /** All a rewriting may change in a tool: the description and parameters of its
      function, and only if it is registered. */
  ghost predicate Framed(registry: Registry, wanted: set<string>, tool: Json, out: Json)
  {
    match FunctionName(tool)
    case None => out == tool
    case Some(name) =>
      match Lookup(registry, name)
      case None => out == tool
      case Some(d) =>
        && FunctionName(out) == Some(name)
        && out.fields - {"function"} == tool.fields - {"function"}
        && var f, g := tool.fields["function"].fields, out.fields["function"].fields;
           if name in wanted
           then g - {"parameters"} == f - {"parameters"}
                && Field(Obj(g), "parameters") == if d.schema.Some? then d.schema else Field(Obj(f), "parameters")
           else g - {"description"} == f - {"description", "parameters"}
                && Field(Obj(g), "description") == Some(Summary(d))
  }

  lemma RewriteIsFramed(registry: Registry, wanted: set<string>, tool: Json)
    ensures Framed(registry, wanted, tool, RewriteTool(registry, wanted, tool))
    ensures FunctionName(RewriteTool(registry, wanted, tool)) == FunctionName(tool)
  {
    var out := RewriteTool(registry, wanted, tool);
    if FunctionName(tool).Some? && Lookup(registry, FunctionName(tool).value).Some? {
      var f, g := tool.fields["function"].fields, out.fields["function"].fields;
      assert "name" in g && g["name"] == f["name"];
      assert out.fields - {"function"} == tool.fields - {"function"};
      if FunctionName(tool).value in wanted {
        assert g - {"parameters"} == f - {"parameters"};
      } else {
        assert g - {"description"} == f - {"description", "parameters"};
      }
    }
  }

  lemma PhantomStays(registry: Registry, wanted: set<string>, tools: seq<Json>)
    ensures var rewritten := seq(|tools|, i requires 0 <= i < |tools| => RewriteTool(registry, wanted, tools[i]));
      PhantomIn(rewritten) <==> PhantomIn(tools)
    ensures PhantomIn(RewriteTools(registry, wanted, tools))
  {
    var rewritten := seq(|tools|, i requires 0 <= i < |tools| => RewriteTool(registry, wanted, tools[i]));
    forall i | 0 <= i < |tools| ensures FunctionName(rewritten[i]) == FunctionName(tools[i]) {
      RewriteIsFramed(registry, wanted, tools[i]);
    }
    var phantom := tools + [PHANTOM_TOOL];
    if !PhantomIn(rewritten) { assert RewriteTools(registry, wanted, tools)[|tools|] == PHANTOM_TOOL; }
  }

  /** All other fields of the body stay, tools keep their order and everything but the
      description and parameters of registered functions, and one phantom tool is added
      at the end exactly if there was none. */
  lemma InjectIsFramed(registry: Registry, detect: Detector, body: Json)
    requires Inject(registry, detect, body).Some?
    ensures var out := Inject(registry, detect, body).value;
      && body.Obj? && out.Obj? && out.fields.Keys == body.fields.Keys
      && out.fields - {"tools"} == body.fields - {"tools"}
      && body.fields["tools"].Arr? && out.fields["tools"].Arr?
      && var was, now := body.fields["tools"].items, out.fields["tools"].items;
         && |now| == |was| + (if PhantomIn(was) then 0 else 1)
         && (forall k | 0 <= k < |was| :: Framed(registry, Wanted(detect, body), was[k], now[k]))
         && (!PhantomIn(was) ==> now[|was|] == PHANTOM_TOOL)
         && PhantomIn(now)
  {
    var wanted, tools := Wanted(detect, body), body.fields["tools"].items;
    PhantomStays(registry, wanted, tools);
    forall k | 0 <= k < |tools|
      ensures Framed(registry, wanted, tools[k], RewriteTools(registry, wanted, tools)[k])
    {
      RewriteIsFramed(registry, wanted, tools[k]);
    }
  }

  // ---- Fixpoint ------------------------------------------------------------

  lemma RewriteIsIdempotent(registry: Registry, wanted: set<string>, tool: Json)
    ensures var once := RewriteTool(registry, wanted, tool); RewriteTool(registry, wanted, once) == once
  {
    var once := RewriteTool(registry, wanted, tool);
    RewriteIsFramed(registry, wanted, tool);
    if FunctionName(tool).Some? && Lookup(registry, FunctionName(tool).value).Some? {
      var d := Lookup(registry, FunctionName(tool).value).value;
      var g := once.fields["function"].fields;
      var again := RewriteTool(registry, wanted, once);
      if d.name in wanted {
        assert d.schema.Some? ==> g["parameters" := d.schema.value] == g;
      } else {
        assert (g - {"parameters"})["description" := Summary(d)] == g;
      }
      assert once.fields["function" := Obj(g)] == once.fields;
    }
  }

  /** A registered phantom would itself be rewritten, unless it is wanted in full and
      has no schema but the phantom's own. */
  predicate PhantomIsRewritten(registry: Registry, wanted: set<string>)
  {
    match Lookup(registry, PHANTOM_TOOL_NAME)
    case None => false
    case Some(d) => PHANTOM_TOOL_NAME !in wanted || (d.schema.Some? && d.schema.value != PHANTOM_PARAMETERS)
  }

  lemma PhantomRewritten(registry: Registry, wanted: set<string>)
    ensures FunctionName(PHANTOM_TOOL) == Some(PHANTOM_TOOL_NAME)
    ensures RewriteTool(registry, wanted, PHANTOM_TOOL) != PHANTOM_TOOL <==> PhantomIsRewritten(registry, wanted)
    ensures PhantomIsRewritten(registry, wanted) ==> Concerns(registry, wanted, PHANTOM_TOOL)
  {
    var out := RewriteTool(registry, wanted, PHANTOM_TOOL);
    var f := PHANTOM_TOOL.fields["function"].fields;
    assert "parameters" in f && f["parameters"] == PHANTOM_PARAMETERS;
    var d := Lookup(registry, PHANTOM_TOOL_NAME);
    if d.Some? {
      if PHANTOM_TOOL_NAME !in wanted {
        assert "parameters" !in out.fields["function"].fields;
      } else if d.value.schema.Some? {
        assert out.fields["function"].fields["parameters"] == d.value.schema.value;
        if d.value.schema.value == PHANTOM_PARAMETERS {
          assert f["parameters" := PHANTOM_PARAMETERS] == f;
          assert PHANTOM_TOOL.fields["function" := Obj(f)] == PHANTOM_TOOL.fields;
        }
      }
    }
  }

  lemma RewriteTwice(registry: Registry, wanted: set<string>, tools: seq<Json>)
    ensures var once := RewriteTools(registry, wanted, tools);
      RewriteTools(registry, wanted, once) == once <==> PhantomIn(tools) || !PhantomIsRewritten(registry, wanted)
  {
    var once := RewriteTools(registry, wanted, tools);
    var twice := RewriteTools(registry, wanted, once);
    PhantomStays(registry, wanted, tools);
    PhantomStays(registry, wanted, once);
    PhantomRewritten(registry, wanted);
    forall k | 0 <= k < |tools| ensures twice[k] == once[k] { RewriteIsIdempotent(registry, wanted, tools[k]); }
    if !PhantomIn(tools) {
      assert twice[|tools|] == RewriteTool(registry, wanted, PHANTOM_TOOL);
    }
  }

  predicate AnyWanted(registry: Registry, wanted: set<string>, tools: seq<Json>)
  {
    exists i | 0 <= i < |tools| ::
      var name := FunctionName(tools[i]);
      name.Some? && name.value in wanted && Lookup(registry, name.value).Some?
  }

  lemma OnlyWantedConcern(registry: Registry, wanted: set<string>, tools: seq<Json>)
    requires PhantomIn(tools) || !PhantomIsRewritten(registry, wanted)
    ensures var once := RewriteTools(registry, wanted, tools);
      AnyConcerned(registry, wanted, once) <==> AnyWanted(registry, wanted, once)
  {
    var once := RewriteTools(registry, wanted, tools);
    PhantomStays(registry, wanted, tools);
    PhantomRewritten(registry, wanted);
    forall k | 0 <= k < |once|
      ensures Concerns(registry, wanted, once[k])
           <==> var name := FunctionName(once[k]);
                name.Some? && name.value in wanted && Lookup(registry, name.value).Some?
    {
      if k < |tools| { RewriteIsFramed(registry, wanted, tools[k]); }
    }
  }

  /** Injecting the outcome again gives nothing or the same, exactly unless the phantom
      was just added to a registry that would rewrite it. */
  lemma InjectIsFixpoint(registry: Registry, detect: Detector, body: Json)
    requires Inject(registry, detect, body).Some?
    ensures var out := Inject(registry, detect, body).value;
      var again := Inject(registry, detect, out);
      (again == None || again == Some(out)) <==> Settles(registry, detect, body)
  {
    var wanted, tools := Wanted(detect, body), body.fields["tools"].items;
    var out := Inject(registry, detect, body).value;
    var once := RewriteTools(registry, wanted, tools);
    assert Field(out, "messages") == Field(body, "messages");
    RewriteTwice(registry, wanted, tools);
    if RewriteTools(registry, wanted, once) == once {
      assert out.fields["tools" := Arr(once)] == out.fields;
    } else {
      PhantomStays(registry, wanted, tools);
      PhantomRewritten(registry, wanted);
      assert once[|tools|] == PHANTOM_TOOL && Concerns(registry, wanted, once[|tools|]);
    }
  }

  /** The phantom is there already, or would not be rewritten. */
  predicate Settles(registry: Registry, detect: Detector, body: Json)
  {
    match Field(body, "tools")
    case Some(Arr(tools)) => PhantomIn(tools) || !PhantomIsRewritten(registry, Wanted(detect, body))
    case _ => true
  }

  /** The second time it gives the same, rather than nothing, exactly if some registered
      tool is still wanted in full. */
  lemma InjectAgain(registry: Registry, detect: Detector, body: Json)
    requires Inject(registry, detect, body).Some? && Settles(registry, detect, body)
    ensures var out := Inject(registry, detect, body).value;
      Inject(registry, detect, out)
        == if AnyWanted(registry, Wanted(detect, body), out.fields["tools"].items) then Some(out) else None
  {
    var wanted, tools := Wanted(detect, body), body.fields["tools"].items;
    InjectIsFixpoint(registry, detect, body);
    OnlyWantedConcern(registry, wanted, tools);
    assert Field(Inject(registry, detect, body).value, "messages") == Field(body, "messages");
  }

  const PLAIN_FUNCTION := Obj(map["name" := Str("a"), "parameters" := Null])
  const PLAIN_TOOL := Obj(map["function" := PLAIN_FUNCTION])
  const PLAIN_BODY := Obj(map["tools" := Arr([PLAIN_TOOL])])
  /** Registers the tool and the phantom's name. */
  const BOTH := ToolRegistry(
    [ToolDescriptor("a", "", None), ToolDescriptor(PHANTOM_TOOL_NAME, "", None)],
    map["a" := 0, PHANTOM_TOOL_NAME := 1])

  lemma BothAreRegistered()
    ensures Indexed(BOTH) && Lookup(BOTH, "a").Some? && Lookup(BOTH, PHANTOM_TOOL_NAME).Some?
  {
    assert BOTH.tools[0].name == "a" && BOTH.tools[1].name == PHANTOM_TOOL_NAME;
    assert |"a"| != |PHANTOM_TOOL_NAME|;
  }

  lemma PlainToolIsConcerned(registry: Registry)
    requires Lookup(registry, "a").Some?
    ensures FunctionName(PLAIN_TOOL) == Some("a") && Concerns(registry, {}, PLAIN_TOOL)
  {
    assert StrField(PLAIN_FUNCTION, "name") == Some("a");
    assert Field(PLAIN_TOOL, "function") == Some(PLAIN_FUNCTION);
  }

  lemma PlainBodyDoesNotSettle(registry: Registry, detect: Detector)
    requires Lookup(registry, "a").Some? && Lookup(registry, PHANTOM_TOOL_NAME).Some? && detect(None) == {}
    ensures Inject(registry, detect, PLAIN_BODY).Some? && !Settles(registry, detect, PLAIN_BODY)
  {
    PlainToolIsConcerned(registry);
    assert Field(PLAIN_BODY, "tools") == Some(Arr([PLAIN_TOOL])) && Field(PLAIN_BODY, "messages") == None;
    assert [PLAIN_TOOL][0] == PLAIN_TOOL && |"a"| != |PHANTOM_TOOL_NAME|;
    assert AnyConcerned(registry, {}, [PLAIN_TOOL]);
  }

  /** A registry and a body for which a second injection changes the first one's outcome. */
  lemma SecondInjectionChanges(detect: Detector)
    requires detect(None) == {}
    ensures Indexed(BOTH) && Inject(BOTH, detect, PLAIN_BODY).Some?
    ensures var once := Inject(BOTH, detect, PLAIN_BODY);
      var twice := Inject(BOTH, detect, once.value);
      twice.Some? && twice != once
  {
    BothAreRegistered();
    PlainBodyDoesNotSettle(BOTH, detect);
    InjectIsFixpoint(BOTH, detect, PLAIN_BODY);
  }

  // ---- The phantom tool ----------------------------------------------------

  function Item(v: Option<Json>, i: nat): Option<Json>
  {
    match v
    case Some(Arr(items)) => if i < |items| then Some(items[i]) else None
    case _ => None
  }

  function FieldOf(v: Option<Json>, key: string): Option<Json>
  {
    if v.Some? then Field(v.value, key) else None
  }

  /** `/choices/0/message/tool_calls/0` */
  function FirstCall(response: Json): Option<Json>
  {
    Item(FieldOf(FieldOf(Item(Field(response, "choices"), 0), "message"), "tool_calls"), 0)
  }

  function TextOr(v: Option<Json>, otherwise: string): string
  {
    match v
    case Some(Str(s)) => s
    case _ => otherwise
  }

  predicate StartsAt(text: string, i: nat, word: string)
  {
    i + |word| <= |text| && text[i..i + |word|] == word
  }

  predicate Mentions(text: string, word: string)
  {
    exists i | 0 <= i <= |text| :: StartsAt(text, i, word)
  }

  /** The tool whose details a response asks for. */
  function AskedFor(codec: Codec, response: Json): Option<string>
  {
    match FirstCall(response)
    case None => None
    case Some(call) =>
      if FunctionName(call) != Some(PHANTOM_TOOL_NAME) then None
      else
        match codec.parse(TextOr(FieldOf(Field(call, "function"), "arguments"), "{}"))
        case None => None
        case Some(args) => StrField(args, "tool_name")
  }

  function SchemaContent(codec: Codec, d: ToolDescriptor): string
  {
    match d.schema
    case Some(schema) => codec.print_(schema)
    case None => "{\"summary\":\"" + d.summary + "\"}"
  }

  function ToolMessage(callId: string, content: string): Json
  {
    Obj(map["role" := Str("tool"), "tool_call_id" := Str(callId), "content" := Str(content)])
  }

  function Synthetic(id: Json, message: Json): Json
  {
    Obj(map[
      "id" := id,
      "object" := Str("chat.completion"),
      "choices" := Arr([Obj(map["index" := Number("0"), "message" := message, "finish_reason" := Str("stop")])]),
      "usage" := Obj(map["prompt_tokens" := Number("0"), "completion_tokens" := Number("0"), "total_tokens" := Number("0")])])
  }

  function FirstMessage(response: Json): Option<Json>
  {
    FieldOf(Item(Field(response, "choices"), 0), "message")
  }

  function CallId(response: Json): string
  {
    TextOr(FieldOf(FirstCall(response), "id"), "call_phantom")
  }

  /** The answer given in the model's place, or none. */
  function InterceptPhantomCall(codec: Codec, registry: Registry, text: string): Option<string>
  {
    if !Mentions(text, PHANTOM_TOOL_NAME) then None
    else
      match codec.parse(text)
      case None => None
      case Some(response) =>
        match AskedFor(codec, response)
        case None => None
        case Some(name) =>
          match Lookup(registry, name)
          case None => None
          case Some(d) =>
            var id := Field(response, "id");
            var message := ToolMessage(CallId(response), SchemaContent(codec, d));
            Some(codec.print_(Synthetic(if id.Some? then id.value else Str("phantom-resp"), message)))
  }

  /** A later turn that wants a stripped tool in full gets back the whole tool, but for
      its description, if its parameters were those registered. */
  lemma StrippedToolComesBack(registry: Registry, wanted: set<string>, later: set<string>, tool: Json, d: ToolDescriptor)
    requires FunctionName(tool) == Some(d.name) && Lookup(registry, d.name) == Some(d)
    requires d.name !in wanted && d.name in later
    requires d.schema.Some? && Field(tool.fields["function"], "parameters") == d.schema
    ensures var stripped := RewriteTool(registry, wanted, tool);
      && Field(stripped.fields["function"], "parameters") == None
      && RewriteTool(registry, later, stripped)
           == WithFunction(tool, tool.fields["function"].fields["description" := Summary(d)])
  {
    var stripped := RewriteTool(registry, wanted, tool);
    var restored := RewriteTool(registry, later, stripped);
    RewriteIsFramed(registry, wanted, tool);
    var f := tool.fields["function"].fields;
    assert restored.fields["function"].fields == f["description" := Summary(d)];
    assert restored.fields == tool.fields["function" := Obj(f["description" := Summary(d)])];
  }

  // ---- Both in plain JSON --------------------------------------------------

  /** The i-th descriptor is the registered one of its name: the last. */
  predicate IsRegistered(registry: ToolRegistry, i: nat, name: string)
  {
    && i < |registry.tools| && registry.tools[i].name == name
    && forall j | i < j < |registry.tools| :: registry.tools[j].name != name
  }

  lemma RegisteredIsFound(registry: Registry, i: nat, name: string)
    requires IsRegistered(registry, i, name)
    ensures Lookup(registry, name) == Some(registry.tools[i])
  {
    assert registry.tools[registry.index[name]].name == name;
  }

  /** A registered tool with parameters, or wanted in full going by the body's messages,
      gets its schema if it is wanted and has one, and otherwise loses its parameters to a
      one-line summary. */
  lemma RegisteredToolIsRewritten(
    registry: Registry, detect: Detector, body: map<string, Json>, tools: seq<Json>, k: nat,
    tool: map<string, Json>, f: map<string, Json>, name: string, i: nat)
    requires "tools" in body && body["tools"] == Arr(tools) && k < |tools| && tools[k] == Obj(tool)
    requires "function" in tool && tool["function"] == Obj(f) && "name" in f && f["name"] == Str(name)
    requires IsRegistered(registry, i, name)
    requires "parameters" in f || name in detect(if "messages" in body then Some(body["messages"]) else None)
    ensures var out := Inject(registry, detect, Obj(body));
      var d := registry.tools[i];
      && out.Some? && out.value.Obj? && "tools" in out.value.fields && out.value.fields["tools"].Arr?
      && k < |out.value.fields["tools"].items|
      && out.value.fields["tools"].items[k] == Obj(tool["function" := Obj(
           if name in detect(if "messages" in body then Some(body["messages"]) else None)
           then if d.schema.Some? then f["parameters" := d.schema.value] else f
           else (f - {"parameters"})["description" := Str("Available Tool: " + name + " \U{2014} " + d.summary)])])
  {
    var wanted := Wanted(detect, Obj(body));
    RegisteredIsFound(registry, i, name);
    assert FunctionName(tools[k]) == Some(name) && Concerns(registry, wanted, tools[k]);
    assert AnyConcerned(registry, wanted, tools);
    assert RewriteTools(registry, wanted, tools)[k] == RewriteTool(registry, wanted, tools[k]);
    assert tool["function" := Obj(f)] == tool;
  }

  /** The tool is a function of a registered name with parameters, or wanted in full. */
  ghost predicate IsConcerned(registry: ToolRegistry, wanted: set<string>, tool: Json)
  {
    && tool.Obj? && "function" in tool.fields && tool.fields["function"].Obj?
    && var f := tool.fields["function"].fields;
       && "name" in f && f["name"].Str?
       && (exists i :: 0 <= i < |registry.tools| && registry.tools[i].name == f["name"].s)
       && ("parameters" in f || f["name"].s in wanted)
  }

  lemma ConcernsIff(registry: Registry, wanted: set<string>, tool: Json)
    ensures IsConcerned(registry, wanted, tool) <==> Concerns(registry, wanted, tool)
  {
  }

  lemma AnyConcernedIff(registry: Registry, wanted: set<string>, tools: seq<Json>)
    ensures AnyConcerned(registry, wanted, tools) <==> exists tool :: tool in tools && IsConcerned(registry, wanted, tool)
  {
    forall tool ensures IsConcerned(registry, wanted, tool) <==> Concerns(registry, wanted, tool) {
      ConcernsIff(registry, wanted, tool);
    }
    if AnyConcerned(registry, wanted, tools) {
      var i :| 0 <= i < |tools| && Concerns(registry, wanted, tools[i]);
      assert tools[i] in tools;
    }
  }

  /** A body is rewritten exactly if it has a list of tools with such a tool in it. */
  lemma InjectedIffConcerned(registry: Registry, detect: Detector, body: Json)
    ensures Inject(registry, detect, body).Some? <==>
      && body.Obj? && "tools" in body.fields && body.fields["tools"].Arr?
      && exists tool :: tool in body.fields["tools"].items
           && IsConcerned(registry, detect(if "messages" in body.fields then Some(body.fields["messages"]) else None), tool)
  {
    if body.Obj? && "tools" in body.fields && body.fields["tools"].Arr? {
      AnyConcernedIff(registry, Wanted(detect, body), body.fields["tools"].items);
    }
  }

  /** One part of a JSON pointer. */
  datatype Part = Key(name: string) | At(index: nat)

  /** `value.pointer(path)` */
  function Pointer(v: Json, path: seq<Part>): Option<Json>
  {
    if path == [] then Some(v)
    else
      match path[0]
      case Key(name) => if v.Obj? && name in v.fields then Pointer(v.fields[name], path[1..]) else None
      case At(i) => if v.Arr? && i < |v.items| then Pointer(v.items[i], path[1..]) else None
  }

  lemma {:induction false} PointerAppend(v: Json, p: seq<Part>, q: seq<Part>)
    ensures Pointer(v, p + q) == match Pointer(v, p) case Some(w) => Pointer(w, q) case None => None
  {
    if p == [] {
      assert p + q == q;
    } else {
      assert (p + q)[1..] == p[1..] + q;
      match p[0]
      case Key(name) => if v.Obj? && name in v.fields { PointerAppend(v.fields[name], p[1..], q); }
      case At(i) => if v.Arr? && i < |v.items| { PointerAppend(v.items[i], p[1..], q); }
    }
  }

  /** The tool added to a stripped request: a function of one required text. */
  lemma PhantomInJson()
    ensures Pointer(PHANTOM_TOOL, [Key("type")]) == Some(Str("function"))
    ensures Pointer(PHANTOM_TOOL, [Key("function")]).Some?
    ensures var f := Pointer(PHANTOM_TOOL, [Key("function")]).value;
      && Pointer(f, [Key("name")]) == Some(Str("get_tool_details"))
      && Pointer(f, [Key("parameters")]).Some?
      && var parameters := Pointer(f, [Key("parameters")]).value;
         && Pointer(parameters, [Key("type")]) == Some(Str("object"))
         && Pointer(parameters, [Key("required")]) == Some(Arr([Str("tool_name")]))
         && Pointer(parameters, [Key("properties")]).Some?
         && var properties := Pointer(parameters, [Key("properties")]).value;
            && Pointer(properties, [Key("tool_name")]).Some?
            && Pointer(Pointer(properties, [Key("tool_name")]).value, [Key("type")]) == Some(Str("string"))
  {
  }

  const MESSAGE: seq<Part> := [Key("choices"), At(0), Key("message")]
  const CALL: seq<Part> := MESSAGE + [Key("tool_calls"), At(0)]

  lemma PointerToField(v: Json, path: seq<Part>, key: string)
    ensures Pointer(v, path + [Key(key)]) == FieldOf(Pointer(v, path), key)
  {
    PointerAppend(v, path, [Key(key)]);
  }

  lemma PointerToItem(v: Json, path: seq<Part>, i: nat)
    ensures Pointer(v, path + [At(i)]) == Item(Pointer(v, path), i)
  {
    PointerAppend(v, path, [At(i)]);
  }

  lemma PointerToMessage(v: Json)
    ensures Pointer(v, MESSAGE) == FirstMessage(v)
  {
    PointerToField(v, [], "choices");
    PointerToItem(v, [] + [Key("choices")], 0);
    PointerToField(v, [] + [Key("choices")] + [At(0)], "message");
    assert MESSAGE == [] + [Key("choices")] + [At(0)] + [Key("message")];
  }

  lemma PointerToCall(v: Json)
    ensures Pointer(v, CALL) == FirstCall(v)
  {
    PointerToMessage(v);
    PointerToField(v, MESSAGE, "tool_calls");
    PointerToItem(v, MESSAGE + [Key("tool_calls")], 0);
    assert CALL == MESSAGE + [Key("tool_calls")] + [At(0)];
  }

  lemma PointerToFunction(v: Json, key: string)
    ensures Pointer(v, CALL + [Key("function"), Key(key)]) == FieldOf(FieldOf(FirstCall(v), "function"), key)
  {
    PointerToCall(v);
    PointerToField(v, CALL, "function");
    PointerToField(v, CALL + [Key("function")], key);
    assert CALL + [Key("function")] + [Key(key)] == CALL + [Key("function"), Key(key)];
  }

  /** The response's first call is for the phantom tool and names `name` in arguments that
      can be read; without arguments as text they are those of an empty object. */
  ghost predicate Asks(codec: Codec, response: Json, name: string)
  {
    && Pointer(response, CALL + [Key("function"), Key("name")]) == Some(Str("get_tool_details"))
    && var arguments := Pointer(response, CALL + [Key("function"), Key("arguments")]);
       var read := codec.parse(if arguments.Some? && arguments.value.Str? then arguments.value.s else "{}");
       read.Some? && Pointer(read.value, [Key("tool_name")]) == Some(Str(name))
  }

  lemma AskedForIffAsks(codec: Codec, response: Json, name: string)
    ensures AskedFor(codec, response) == Some(name) <==> Asks(codec, response, name)
  {
    PointerToFunction(response, "name");
    PointerToFunction(response, "arguments");
    forall v: Json ensures Pointer(v, [Key("tool_name")]) == Field(v, "tool_name") {
      PointerToField(v, [], "tool_name");
      assert [] + [Key("tool_name")] == [Key("tool_name")];
    }
  }

  /** An answer is given in the model's place exactly if the text has the phantom's name
      and its JSON asks for a registered tool. */
  lemma AnsweredIffAsked(codec: Codec, registry: Registry, text: string)
    ensures InterceptPhantomCall(codec, registry, text).Some? <==>
      && (exists i, j :: 0 <= i <= j <= |text| && text[i..j] == "get_tool_details")
      && codec.parse(text).Some?
      && exists i: nat :: i < |registry.tools| && Asks(codec, codec.parse(text).value, registry.tools[i].name)
  {
    MentionsIffHolds(text);
    if codec.parse(text).Some? {
      var response := codec.parse(text).value;
      forall i: nat | i < |registry.tools|
        ensures Asks(codec, response, registry.tools[i].name) <==> AskedFor(codec, response) == Some(registry.tools[i].name)
      {
        AskedForIffAsks(codec, response, registry.tools[i].name);
      }
    }
  }

  lemma MentionsIffHolds(text: string)
    ensures Mentions(text, PHANTOM_TOOL_NAME) <==> exists i, j :: 0 <= i <= j <= |text| && text[i..j] == "get_tool_details"
  {
    if Mentions(text, PHANTOM_TOOL_NAME) {
      var i :| 0 <= i <= |text| && StartsAt(text, i, PHANTOM_TOOL_NAME);
      assert text[i..i + 16] == "get_tool_details";
    }
    if i: nat, j :| 0 <= i <= j <= |text| && text[i..j] == "get_tool_details" {
      assert StartsAt(text, i, PHANTOM_TOOL_NAME);
    }
  }

  lemma SyntheticCarries(id: Json, callId: string, content: string)
    ensures var out := Synthetic(id, ToolMessage(callId, content));
      && Pointer(out, [Key("id")]) == Some(id)
      && Pointer(out, MESSAGE) == Some(ToolMessage(callId, content))
      && Pointer(out, MESSAGE + [Key("role")]) == Some(Str("tool"))
      && Pointer(out, MESSAGE + [Key("tool_call_id")]) == Some(Str(callId))
      && Pointer(out, MESSAGE + [Key("content")]) == Some(Str(content))
  {
    var out := Synthetic(id, ToolMessage(callId, content));
    PointerToMessage(out);
    assert Item(Field(out, "choices"), 0).Some?;
    assert FirstMessage(out) == Some(ToolMessage(callId, content));
    PointerToField(out, MESSAGE, "role");
    PointerToField(out, MESSAGE, "tool_call_id");
    PointerToField(out, MESSAGE, "content");
    PointerToField(out, [], "id");
    assert [] + [Key("id")] == [Key("id")];
  }

  /** A call for a registered tool is answered by a tool message under the call's own id,
      with a content that parses to the schema, or that gives the summary if there is none. */
  lemma StrippedSchemaIsServed(codec: Codec, registry: Registry, text: string, i: nat)
    requires RoundTrips(codec) && i < |registry.tools| && IsRegistered(registry, i, registry.tools[i].name)
    requires exists j, k :: 0 <= j <= k <= |text| && text[j..k] == "get_tool_details"
    requires codec.parse(text).Some? && Asks(codec, codec.parse(text).value, registry.tools[i].name)
    ensures var response, d := codec.parse(text).value, registry.tools[i];
      var answer := InterceptPhantomCall(codec, registry, text);
      && answer.Some? && codec.parse(answer.value).Some?
      && var out := codec.parse(answer.value).value;
         var content := Pointer(out, MESSAGE + [Key("content")]);
         && content.Some? && content.value.Str?
         && (if d.schema.Some? then codec.parse(content.value.s) == d.schema
             else content.value.s == "{\"summary\":\"" + d.summary + "\"}")
         && Pointer(out, MESSAGE + [Key("role")]) == Some(Str("tool"))
         && Pointer(out, MESSAGE + [Key("tool_call_id")])
              == Some(Str(TextOr(Pointer(response, CALL + [Key("id")]), "call_phantom")))
         && Pointer(out, [Key("id")])
              == if Pointer(response, [Key("id")]).Some? then Pointer(response, [Key("id")]) else Some(Str("phantom-resp"))
  {
    var response, d := codec.parse(text).value, registry.tools[i];
    MentionsIffHolds(text);
    AskedForIffAsks(codec, response, d.name);
    RegisteredIsFound(registry, i, d.name);
    PointerToCall(response);
    PointerToField(response, CALL, "id");
    PointerToField(response, [], "id");
    assert [] + [Key("id")] == [Key("id")];
    var id := Field(response, "id");
    var shown := if id.Some? then id.value else Str("phantom-resp");
    var answer := Synthetic(shown, ToolMessage(CallId(response), SchemaContent(codec, d)));
    SyntheticCarries(shown, CallId(response), SchemaContent(codec, d));
    assert codec.parse(codec.print_(answer)) == Some(answer);
    if d.schema.Some? { assert codec.parse(codec.print_(d.schema.value)) == d.schema; }
  }
}
