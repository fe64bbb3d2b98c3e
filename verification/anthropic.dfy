/** The Anthropic translator: roles alternate, with placeholders where two messages of
    one role would meet, and tool calls survive the trip to tool-use blocks and back.

    A request is built from typed messages and blocks; what it says is stated of the JSON
    they print as. Outputs remember which messages were made up, so that leaving those
    out gives the conversation again. */
module Anthropic {
  import opened Wrappers
  import opened Json
  import opened Conversation
  import opened SchemaMapper

  datatype Speaker = FromUser | FromAssistant

  datatype Block =
    | TextBlock(text: string)
    | ImageBlock(kind: string, mediaType: string, data: string)
    | ToolUseBlock(id: string, name: string, input: Json)
    | ToolResultBlock(toolUseId: string, content: string)

  datatype AnthropicMessage = AnthropicMessage(speaker: Speaker, content: seq<Block>)

  datatype AnthropicRequest = AnthropicRequest(
    system: Option<string>, messages: seq<AnthropicMessage>, tools: Option<seq<Json>>,
    maxTokens: nat, settings: Settings)

  const DEFAULT_MAX_TOKENS: nat := 4096

  function SpeakerOf(role: Role): Speaker
  {
    if role == Assistant then FromAssistant else FromUser
  }

  function Other(speaker: Speaker): Speaker
  {
    if speaker == FromUser then FromAssistant else FromUser
  }

  function BlockOf(c: Content): Block
  {
    match c
    case Text(text) => TextBlock(text)
    case ImageUrl(url) => ImageBlock("url", "image/jpeg", url)
    case ToolCall(id, name, arguments) => ToolUseBlock(id, name, arguments)
    case ToolResult(toolId, content) => ToolResultBlock(toolId, content)
  }

  function BlocksOf(contents: seq<Content>): seq<Block>
  {
    seq(|contents|, i requires 0 <= i < |contents| => BlockOf(contents[i]))
  }

  function Placeholder(speaker: Speaker): AnthropicMessage
  {
    AnthropicMessage(speaker, [TextBlock("<dummy>")])
  }

  /** An output message, and whether the translator made it up. */
  datatype Output = Output(message: AnthropicMessage, inserted: bool)

  /** The outputs after one more message that is not a system message. */
  function EmitNext(before: seq<Output>, m: AnthropicMessage): seq<Output>
  {
    if before != [] && before[|before| - 1].message.speaker == m.speaker then
      before + [Output(Placeholder(Other(m.speaker)), true)] + [Output(m, false)]
    else before + [Output(m, false)]
  }

  function Mapped(msg: Message): AnthropicMessage
  {
    AnthropicMessage(SpeakerOf(msg.role), BlocksOf(msg.content))
  }

  function Emit(messages: seq<Message>): seq<Output>
  {
    if messages == [] then []
    else
      var before := Emit(messages[..|messages| - 1]);
      var msg := messages[|messages| - 1];
      if msg.role == System then before else EmitNext(before, Mapped(msg))
  }

  function Messages(outputs: seq<Output>): seq<AnthropicMessage>
  {
    seq(|outputs|, i requires 0 <= i < |outputs| => outputs[i].message)
  }

  lemma MessagesAppend(outputs: seq<Output>, o: Output)
    ensures Messages(outputs + [o]) == Messages(outputs) + [o.message]
  {
  }

  function Request(conv: Conversation): AnthropicRequest
  {
    AnthropicRequest(
      conv.systemPrompt, Messages(Emit(conv.messages)),
      if conv.tools.None? || MapEach(conv.tools.value) == [] then None else Some(MapEach(conv.tools.value)),
      if conv.settings.maxTokens.Some? then conv.settings.maxTokens.value else DEFAULT_MAX_TOKENS, conv.settings)
  }

  method FromUniversal(conv: Conversation) returns (req: AnthropicRequest)
    ensures req == Request(conv)
    ensures exists ats :: Conveys(InJson(req.messages), ats, Voiced(conv.messages))
  {
    var out: seq<AnthropicMessage> := [];
    for i := 0 to |conv.messages|
      invariant out == Messages(Emit(conv.messages[..i]))
    {
      var msg := conv.messages[i];
      assert conv.messages[..i + 1][..i] == conv.messages[..i];
      if msg.role == System { continue; }
      ghost var before := Emit(conv.messages[..i]);
      var speaker := if msg.role == User || msg.role == Tool then FromUser else FromAssistant;
      if out != [] && out[|out| - 1].speaker == speaker {
        var filler := if speaker == FromUser then FromAssistant else FromUser;
        out := out + [AnthropicMessage(filler, [TextBlock("<dummy>")])];
      }
      var content: seq<Block> := [];
      for j := 0 to |msg.content|
        invariant content == BlocksOf(msg.content)[..j]
      {
        content := content + [BlockOf(msg.content[j])];
      }
      out := out + [AnthropicMessage(speaker, content)];
      assert content == BlocksOf(msg.content);
      MessagesAppend(before, Output(Placeholder(Other(speaker)), true));
      MessagesAppend(before, Output(Mapped(msg), false));
      MessagesAppend(before + [Output(Placeholder(Other(speaker)), true)], Output(Mapped(msg), false));
    }
    assert conv.messages[..|conv.messages|] == conv.messages;
    var tools := MapOpenAiToolsToAnthropic(conv.tools);
    var maxTokens := if conv.settings.maxTokens.Some? then conv.settings.maxTokens.value else DEFAULT_MAX_TOKENS;
    req := AnthropicRequest(conv.systemPrompt, out, tools, maxTokens, conv.settings);
    ghost var ats := RequestConveys(conv);
  }

  // ---- Alternation without loss --------------------------------------------

  predicate Alternates(messages: seq<AnthropicMessage>)
  {
    forall i, j | 0 <= i < |messages| && 0 <= j < |messages| && j == i + 1 :: messages[i].speaker != messages[j].speaker
  }

  /** The outputs that were not made up. */
  function Genuine(outputs: seq<Output>): seq<AnthropicMessage>
  {
    if outputs == [] then []
    else
      Genuine(outputs[..|outputs| - 1])
      + if outputs[|outputs| - 1].inserted then [] else [outputs[|outputs| - 1].message]
  }

  /** The messages that are not system messages, each mapped on its own. */
  function Spoken(messages: seq<Message>): seq<AnthropicMessage>
  {
    if messages == [] then []
    else
      var msg := messages[|messages| - 1];
      Spoken(messages[..|messages| - 1])
      + if msg.role == System then [] else [Mapped(msg)]
  }

  /** Neighbours with one speaker. */
  function Clashes(messages: seq<AnthropicMessage>): nat
  {
    if |messages| < 2 then 0
    else
      var n := |messages| - 1;
      Clashes(messages[..n]) + if messages[n].speaker == messages[n - 1].speaker then 1 else 0
  }

  lemma GenuineAppend(outputs: seq<Output>, o: Output)
    ensures Genuine(outputs + [o]) == Genuine(outputs) + if o.inserted then [] else [o.message]
  {
    assert (outputs + [o])[..|outputs|] == outputs;
  }

  lemma ClashesAppend(messages: seq<AnthropicMessage>, m: AnthropicMessage)
    ensures Clashes(messages + [m])
         == Clashes(messages) + if messages != [] && messages[|messages| - 1].speaker == m.speaker then 1 else 0
    ensures messages != [] ==> Clashes(messages) < |messages|
  {
    assert (messages + [m])[..|messages|] == messages;
    ClashesBelow(messages);
  }

  lemma {:induction false} ClashesBelow(messages: seq<AnthropicMessage>)
    ensures messages != [] ==> Clashes(messages) < |messages|
  {
    if |messages| >= 2 { ClashesBelow(messages[..|messages| - 1]); }
  }

  /** Whatever was made up is a placeholder. */
  predicate PlaceholdersOnly(outputs: seq<Output>)
  {
    forall i | 0 <= i < |outputs| && outputs[i].inserted ::
      outputs[i].message == Placeholder(outputs[i].message.speaker)
  }

  ghost predicate Faithful(outputs: seq<Output>, spoken: seq<AnthropicMessage>)
  {
    && Alternates(Messages(outputs))
    && Genuine(outputs) == spoken
    && |outputs| == |spoken| + Clashes(spoken)
    && (outputs != [] ==> !outputs[0].inserted && !outputs[|outputs| - 1].inserted)
    && (outputs == [] <==> spoken == [])
    && (outputs != [] ==> outputs[|outputs| - 1].message == spoken[|spoken| - 1])
    && PlaceholdersOnly(outputs)
  }

  lemma AlternatesAppend(messages: seq<AnthropicMessage>, m: AnthropicMessage)
    requires Alternates(messages) && (messages != [] ==> messages[|messages| - 1].speaker != m.speaker)
    ensures Alternates(messages + [m])
  {
  }

  lemma EmitNextAlternates(outputs: seq<Output>, m: AnthropicMessage)
    requires Alternates(Messages(outputs)) && PlaceholdersOnly(outputs)
    ensures Alternates(Messages(EmitNext(outputs, m))) && PlaceholdersOnly(EmitNext(outputs, m))
  {
    var filler := Output(Placeholder(Other(m.speaker)), true);
    MessagesAppend(outputs, filler);
    MessagesAppend(outputs, Output(m, false));
    MessagesAppend(outputs + [filler], Output(m, false));
    if outputs != [] && outputs[|outputs| - 1].message.speaker == m.speaker {
      AlternatesAppend(Messages(outputs), filler.message);
      AlternatesAppend(Messages(outputs) + [filler.message], m);
    } else {
      AlternatesAppend(Messages(outputs), m);
    }
  }

  lemma EmitNextIsGenuine(outputs: seq<Output>, m: AnthropicMessage)
    ensures Genuine(EmitNext(outputs, m)) == Genuine(outputs) + [m]
  {
    var filler := Output(Placeholder(Other(m.speaker)), true);
    GenuineAppend(outputs, filler);
    GenuineAppend(outputs, Output(m, false));
    GenuineAppend(outputs + [filler], Output(m, false));
    assert Genuine(outputs) + [] == Genuine(outputs);
  }

  lemma EmitNextIsFaithful(outputs: seq<Output>, spoken: seq<AnthropicMessage>, m: AnthropicMessage)
    requires Faithful(outputs, spoken)
    ensures Faithful(EmitNext(outputs, m), spoken + [m])
  {
    ClashesAppend(spoken, m);
    EmitNextAlternates(outputs, m);
    EmitNextIsGenuine(outputs, m);
  }

  /** For every conversation the output alternates between user and assistant; deleting
      the placeholders leaves exactly the mapped messages in order; there is one
      placeholder for each pair of neighbours with one speaker, so m messages give at
      most 2m - 1. */
  lemma {:induction false} AlternatesWithoutLoss(messages: seq<Message>)
    ensures Faithful(Emit(messages), Spoken(messages))
    ensures Spoken(messages) != [] ==> |Emit(messages)| <= 2 * |Spoken(messages)| - 1
  {
    if messages != [] {
      var n := |messages| - 1;
      AlternatesWithoutLoss(messages[..n]);
      if messages[n].role != System {
        EmitNextIsFaithful(Emit(messages[..n]), Spoken(messages[..n]), Mapped(messages[n]));
      } else {
        assert Spoken(messages) == Spoken(messages[..n]);
      }
    }
    ClashesBelow(Spoken(messages));
  }

  // ---- The request in JSON -------------------------------------------------

  /** The JSON of one content block. */
  function BlockJson(b: Block): Json
  {
    match b
    case TextBlock(text) => Obj(map["type" := Str("text"), "text" := Str(text)])
    case ImageBlock(kind, mediaType, data) =>
      Obj(map["type" := Str("image"),
              "source" := Obj(map["type" := Str(kind), "media_type" := Str(mediaType), "data" := Str(data)])])
    case ToolUseBlock(id, name, input) =>
      Obj(map["type" := Str("tool_use"), "id" := Str(id), "name" := Str(name), "input" := input])
    case ToolResultBlock(toolUseId, content) =>
      Obj(map["type" := Str("tool_result"), "tool_use_id" := Str(toolUseId), "content" := Str(content)])
  }

  function MessageJson(m: AnthropicMessage): Json
  {
    Obj(map["role" := Str(if m.speaker == FromUser then "user" else "assistant"),
            "content" := Arr(seq(|m.content|, i requires 0 <= i < |m.content| => BlockJson(m.content[i])))])
  }

  /** The block of the Messages API that stands for one piece of content. */
  ghost predicate Renders(block: Json, c: Content)
  {
    match c
    case Text(text) => StrField(block, "type") == Some("text") && StrField(block, "text") == Some(text)
    case ImageUrl(url) =>
      && StrField(block, "type") == Some("image") && Field(block, "source").Some?
      && var source := Field(block, "source").value;
         && StrField(source, "type") == Some("url") && StrField(source, "media_type") == Some("image/jpeg")
         && StrField(source, "data") == Some(url)
    case ToolCall(id, name, arguments) =>
      && StrField(block, "type") == Some("tool_use") && StrField(block, "id") == Some(id)
      && StrField(block, "name") == Some(name) && Field(block, "input") == Some(arguments)
    case ToolResult(toolId, text) =>
      && StrField(block, "type") == Some("tool_result") && StrField(block, "tool_use_id") == Some(toolId)
      && StrField(block, "content") == Some(text)
  }

  /** The message says what `msg` says: assistants as the assistant, users and tools as
      the user, each piece of content in its place. */
  ghost predicate Says(m: Json, msg: Message)
  {
    && StrField(m, "role") == Some(if msg.role == Assistant then "assistant" else "user")
    && Field(m, "content").Some? && Field(m, "content").value.Arr?
    && var blocks := Field(m, "content").value.items;
       |blocks| == |msg.content| && forall k | 0 <= k < |blocks| :: Renders(blocks[k], msg.content[k])
  }

  lemma BlockRenders(c: Content)
    ensures Renders(BlockJson(BlockOf(c)), c)
  {
  }

  lemma MappedSays(msg: Message)
    ensures Says(MessageJson(Mapped(msg)), msg)
  {
    var m := MessageJson(Mapped(msg));
    var blocks := Field(m, "content").value.items;
    forall k | 0 <= k < |blocks| ensures Renders(blocks[k], msg.content[k]) { BlockRenders(msg.content[k]); }
  }

  /** The messages with a speaker. */
  function Voiced(messages: seq<Message>): seq<Message>
  {
    if messages == [] then []
    else
      var msg := messages[|messages| - 1];
      Voiced(messages[..|messages| - 1]) + if msg.role == System then [] else [msg]
  }

  lemma {:induction false} SpokenAreVoiced(messages: seq<Message>)
    ensures |Spoken(messages)| == |Voiced(messages)|
    ensures forall k | 0 <= k < |Voiced(messages)| :: Says(MessageJson(Spoken(messages)[k]), Voiced(messages)[k])
  {
    if messages != [] {
      SpokenAreVoiced(messages[..|messages| - 1]);
      MappedSays(messages[|messages| - 1]);
    }
  }

  predicate IsPlaceholder(m: Json)
  {
    && (StrField(m, "role") == Some("user") || StrField(m, "role") == Some("assistant"))
    && Field(m, "content") == Some(Arr([Obj(map["type" := Str("text"), "text" := Str("<dummy>")])]))
  }

  lemma PlaceholderInJson(speaker: Speaker)
    ensures IsPlaceholder(MessageJson(Placeholder(speaker)))
  {
    var m := Placeholder(speaker);
    assert Field(MessageJson(m), "content").value.items == [BlockJson(TextBlock("<dummy>"))];
  }

  function RoleOf(m: Json): Option<string>
  {
    StrField(m, "role")
  }

  /** `ats` are places of `n`, from the first to the last; one place is left free between
      two messages exactly if both or neither come from an assistant. */
  ghost predicate Spaced(ats: seq<nat>, n: nat, said: seq<Message>)
  {
    && |ats| == |said| && (forall k | 0 <= k < |ats| :: ats[k] < n)
    && (if n == 0 then ats == [] else ats != [] && ats[0] == 0 && ats[|ats| - 1] == n - 1)
    && forall j, k | 0 <= j && k == j + 1 < |ats| ::
         ats[k] == ats[j] + if (said[j].role == Assistant) == (said[k].role == Assistant) then 2 else 1
  }

  /** Roles alternate, the messages at `ats` say what the conversation says, one after the
      other, and all others are placeholders. */
  ghost predicate Conveys(messages: seq<Json>, ats: seq<nat>, said: seq<Message>)
  {
    && (forall i, j | 0 <= i && j == i + 1 < |messages| :: RoleOf(messages[i]) != RoleOf(messages[j]))
    && Spaced(ats, |messages|, said)
    && (forall k | 0 <= k < |ats| :: Says(messages[ats[k]], said[k]))
    && (forall i: nat | i < |messages| && i !in ats :: IsPlaceholder(messages[i]))
  }

  ghost predicate Emitted(outputs: seq<Output>, ats: seq<nat>, said: seq<Message>)
  {
    && Spaced(ats, |outputs|, said)
    && (forall k | 0 <= k < |ats| :: outputs[ats[k]].message == Mapped(said[k]))
    && forall i: nat | i < |outputs| && i !in ats :: outputs[i].message == Placeholder(outputs[i].message.speaker)
  }

  lemma EmittedNext(outputs: seq<Output>, ats: seq<nat>, said: seq<Message>, msg: Message)
    requires Emitted(outputs, ats, said)
    ensures var outputs' := EmitNext(outputs, Mapped(msg));
      Emitted(outputs', ats + [|outputs'| - 1], said + [msg])
  {
    var outputs' := EmitNext(outputs, Mapped(msg));
    var ats' := ats + [|outputs'| - 1];
    assert ats != [] ==> outputs[ats[|ats| - 1]].message == Mapped(said[|said| - 1]);
    forall i: nat | i < |outputs'| && i !in ats' ensures outputs'[i].message == Placeholder(outputs'[i].message.speaker) {
      assert ats'[|ats|] == |outputs'| - 1;
      assert forall k | 0 <= k < |ats| :: ats'[k] == ats[k];
      assert i !in ats;
    }
  }

  lemma EmitLast(messages: seq<Message>)
    requires messages != []
    ensures var n := |messages| - 1;
      var before, said := Emit(messages[..n]), Voiced(messages[..n]);
      if messages[n].role == System then Emit(messages) == before && Voiced(messages) == said
      else Emit(messages) == EmitNext(before, Mapped(messages[n])) && Voiced(messages) == said + [messages[n]]
  {
  }

  lemma EmittedLast(messages: seq<Message>, before: seq<nat>) returns (ats: seq<nat>)
    requires messages != []
    requires var n := |messages| - 1; Emitted(Emit(messages[..n]), before, Voiced(messages[..n]))
    ensures Emitted(Emit(messages), ats, Voiced(messages))
  {
    var n := |messages| - 1;
    EmitLast(messages);
    if messages[n].role == System {
      ats := before;
    } else {
      EmittedNext(Emit(messages[..n]), before, Voiced(messages[..n]), messages[n]);
      ats := before + [|Emit(messages)| - 1];
    }
  }

  lemma {:induction false} EmittedPlaces(messages: seq<Message>) returns (ats: seq<nat>)
    ensures Emitted(Emit(messages), ats, Voiced(messages))
  {
    if messages == [] {
      ats := [];
    } else {
      var before := EmittedPlaces(messages[..|messages| - 1]);
      ats := EmittedLast(messages, before);
    }
  }

  function InJson(messages: seq<AnthropicMessage>): seq<Json>
  {
    seq(|messages|, i requires 0 <= i < |messages| => MessageJson(messages[i]))
  }

  lemma RolesDiffer(m: AnthropicMessage, m': AnthropicMessage)
    requires m.speaker != m'.speaker
    ensures RoleOf(MessageJson(m)) != RoleOf(MessageJson(m'))
  {
    assert |"user"| != |"assistant"|;
  }

  lemma JsonAlternates(messages: seq<AnthropicMessage>)
    requires Alternates(messages)
    ensures var out := InJson(messages);
      forall i, j | 0 <= i && j == i + 1 < |out| :: RoleOf(out[i]) != RoleOf(out[j])
  {
    var out := InJson(messages);
    forall i, j | 0 <= i && j == i + 1 < |out| ensures RoleOf(out[i]) != RoleOf(out[j]) {
      RolesDiffer(messages[i], messages[j]);
    }
  }

  lemma EmittedConveys(outputs: seq<Output>, ats: seq<nat>, said: seq<Message>)
    requires Emitted(outputs, ats, said) && Alternates(Messages(outputs))
    ensures Conveys(InJson(Messages(outputs)), ats, said)
  {
    var messages := InJson(Messages(outputs));
    JsonAlternates(Messages(outputs));
    forall k | 0 <= k < |ats| ensures Says(messages[ats[k]], said[k]) { MappedSays(said[k]); }
    forall i: nat | i < |messages| && i !in ats ensures IsPlaceholder(messages[i]) {
      PlaceholderInJson(outputs[i].message.speaker);
    }
  }

  /** For every conversation the request conveys it: system prompt, settings and limit of
      tokens as given, and every message that is not a system message, in order. */
  lemma RequestConveys(conv: Conversation) returns (ats: seq<nat>)
    ensures var req := Request(conv);
      && Conveys(InJson(req.messages), ats, Voiced(conv.messages))
      && req.system == conv.systemPrompt && req.settings == conv.settings
      && req.maxTokens == match conv.settings.maxTokens case Some(n) => n case None => 4096
  {
    ats := EmittedPlaces(conv.messages);
    AlternatesWithoutLoss(conv.messages);
    EmittedConveys(Emit(conv.messages), ats, Voiced(conv.messages));
  }

  // ---- Tool calls ----------------------------------------------------------

  function BlocksJson(contents: seq<Content>): seq<Json>
  {
    seq(|contents|, i requires 0 <= i < |contents| => BlockJson(BlockOf(contents[i])))
  }

  /** The tool-call part of `unify_response`. */
  function UnifiedToolCalls(codec: Codec, raw: Json): Option<seq<Json>>
  {
    match Field(raw, "content")
    case Some(Arr(blocks)) => if MapBlocks(codec, blocks) == [] then None else Some(MapBlocks(codec, blocks))
    case _ => None
  }

  /** What an OpenAI client reads from one entry of `tool_calls`. */
  function ReadCall(codec: Codec, call: Json): Option<Content>
  {
    match (StrField(call, "id"), Field(call, "function"))
    case (Some(id), Some(f)) =>
      (match (StrField(f, "name"), StrField(f, "arguments"))
       case (Some(name), Some(text)) =>
         (match codec.parse(text) case Some(arguments) => Some(ToolCall(id, name, arguments)) case None => None)
       case _ => None)
    case _ => None
  }

  /** The calls with object arguments. */
  function ObjectCalls(contents: seq<Content>): seq<Content>
  {
    if contents == [] then []
    else
      var last := contents[|contents| - 1];
      ObjectCalls(contents[..|contents| - 1]) + if last.ToolCall? && last.arguments.Obj? then [last] else []
  }

  lemma MapOneBlock(codec: Codec, c: Content)
    requires RoundTrips(codec)
    ensures var mapped := MapBlock(codec, BlockJson(BlockOf(c)));
      if c.ToolCall? && c.arguments.Obj? then mapped.Some? && ReadCall(codec, mapped.value) == Some(c)
      else mapped == None
  {
    var block := BlockJson(BlockOf(c));
    match c
    case ToolCall(id, name, arguments) =>
      assert StrField(block, "type") == Some("tool_use") && Field(block, "input") == Some(arguments);
      if arguments.Obj? {
        var call := MapBlock(codec, block).value;
        assert Field(call, "function").Some? && codec.parse(codec.print_(arguments)) == Some(arguments);
      }
    case _ =>
      assert StrField(block, "type") != Some("tool_use");
  }

  /** Tool calls sent as tool-use blocks and mapped back are exactly the calls with
      object arguments, in order, with the same id, name and arguments. */
  lemma {:induction false} ToolCallsSurvive(codec: Codec, contents: seq<Content>)
    requires RoundTrips(codec)
    ensures var calls := MapBlocks(codec, BlocksJson(contents));
      && |calls| == |ObjectCalls(contents)|
      && forall i | 0 <= i < |calls| :: ReadCall(codec, calls[i]) == Some(ObjectCalls(contents)[i])
  {
    if contents != [] {
      var n := |contents| - 1;
      ToolCallsSurvive(codec, contents[..n]);
      MapOneBlock(codec, contents[n]);
      assert BlocksJson(contents)[..n] == BlocksJson(contents[..n]);
    }
  }

  /** The gateway reports tool calls for an answer exactly if one has object arguments,
      and then all such calls in order. */
  lemma CallsReportedIffAny(codec: Codec, contents: seq<Content>)
    requires RoundTrips(codec)
    ensures var calls := UnifiedToolCalls(codec, Obj(map["content" := Arr(BlocksJson(contents))]));
      && (calls.Some? <==> exists c :: c in contents && c.ToolCall? && c.arguments.Obj?)
      && (calls.Some? ==>
            && |calls.value| == |ObjectCalls(contents)|
            && forall i | 0 <= i < |calls.value| :: ReadCall(codec, calls.value[i]) == Some(ObjectCalls(contents)[i]))
  {
    ToolCallsSurvive(codec, contents);
    ObjectCallsAreThere(contents);
  }

  lemma {:induction false} ObjectCallsAreThere(contents: seq<Content>)
    ensures ObjectCalls(contents) != [] <==> exists c :: c in contents && c.ToolCall? && c.arguments.Obj?
  {
    if contents != [] {
      var n := |contents| - 1;
      ObjectCallsAreThere(contents[..n]);
      assert forall c :: c in contents <==> c in contents[..n] || c == contents[n];
    }
  }
}
