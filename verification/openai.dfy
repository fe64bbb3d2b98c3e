/** The OpenAI translator: chat requests to universal conversations and back. */
module OpenAi {
  import opened Wrappers
  import opened Json
  import opened Conversation

  datatype Error = UnknownRole(role: string) | InvalidArguments

  datatype FunctionCall = FunctionCall(id: string, kind: string, name: string, arguments: string)

  datatype ChatMessage = ChatMessage(
    role: string, content: Option<Json>, toolCalls: Option<seq<FunctionCall>>, toolCallId: Option<string>)

  datatype ChatRequest = ChatRequest(messages: seq<ChatMessage>, tools: Option<seq<Json>>, settings: Settings)

  // ---- to_universal --------------------------------------------------------

  /** The text of the first text part. */
  function FirstText(parts: seq<Json>): Option<string>
  {
    if parts == [] then None
    else if StrField(parts[0], "type") == Some("text") && StrField(parts[0], "text").Some? then
      StrField(parts[0], "text")
    else FirstText(parts[1..])
  }

  function SystemText(content: Option<Json>): Option<string>
  {
    match content
    case Some(Str(s)) => Some(s)
    case Some(Arr(parts)) => FirstText(parts)
    case _ => None
  }

  function PartContent(part: Json): seq<Content>
  {
    if StrField(part, "type") == Some("text") then
      match StrField(part, "text")
      case Some(text) => [Text(text)]
      case None => []
    else if StrField(part, "type") == Some("image_url") then
      match Field(part, "image_url")
      case Some(image) => (match StrField(image, "url") case Some(url) => [ImageUrl(url)] case None => [])
      case None => []
    else []
  }

  function PartsContent(parts: seq<Json>): seq<Content>
  {
    if parts == [] then []
    else PartsContent(parts[..|parts| - 1]) + PartContent(parts[|parts| - 1])
  }

  function BodyContent(content: Option<Json>): seq<Content>
  {
    match content
    case Some(Str(s)) => if s == "" then [] else [Text(s)]
    case Some(Arr(parts)) => PartsContent(parts)
    case _ => []
  }

  function ReadCalls(codec: Codec, calls: seq<FunctionCall>): Result<seq<Content>, Error>
  {
    if calls == [] then Ok([])
    else
      var n := |calls| - 1;
      match ReadCalls(codec, calls[..n])
      case Err(e) => Err(e)
      case Ok(before) =>
        match codec.parse(calls[n].arguments)
        case None => Err(InvalidArguments)
        case Some(arguments) => Ok(before + [ToolCall(calls[n].id, calls[n].name, arguments)])
  }

  /** The texts of `contents`, run together. */
  function TextOf(contents: seq<Content>): string
  {
    if contents == [] then ""
    else
      var last := contents[|contents| - 1];
      TextOf(contents[..|contents| - 1]) + if last.Text? then last.text else ""
  }

  function ReadRole(role: string): Option<Role>
  {
    if role == "user" then Some(User)
    else if role == "assistant" then Some(Assistant)
    else if role == "tool" || role == "function" then Some(Tool)
    else None
  }

  /** The content of one message that is not a system message. */
  function ReadContent(codec: Codec, role: Role, msg: ChatMessage): Result<seq<Content>, Error>
  {
    match ReadCalls(codec, if msg.toolCalls.Some? then msg.toolCalls.value else [])
    case Err(e) => Err(e)
    case Ok(calls) =>
      var contents := BodyContent(msg.content) + calls;
      if role == Tool && msg.toolCallId.Some? then Ok([ToolResult(msg.toolCallId.value, TextOf(contents))])
      else Ok(contents)
  }

  type Reading = (Option<string>, seq<Message>)

  /** One more message: a system message sets the prompt, others are added unless empty. */
  function ReadOne(codec: Codec, before: Reading, msg: ChatMessage): Result<Reading, Error>
  {
    if msg.role == "system" then
      Ok((if SystemText(msg.content).Some? then SystemText(msg.content) else before.0, before.1))
    else
      match ReadRole(msg.role)
      case None => Err(UnknownRole(msg.role))
      case Some(role) =>
        match ReadContent(codec, role, msg)
        case Err(e) => Err(e)
        case Ok(contents) =>
          Ok((before.0, if contents == [] then before.1 else before.1 + [Message(role, contents)]))
  }

  /** System prompt and messages, message by message. */
  function Read(codec: Codec, messages: seq<ChatMessage>): Result<Reading, Error>
  {
    if messages == [] then Ok((None, []))
    else
      match Read(codec, messages[..|messages| - 1])
      case Err(e) => Err(e)
      case Ok(before) => ReadOne(codec, before, messages[|messages| - 1])
  }

  function Universal(codec: Codec, req: ChatRequest): Result<Conversation, Error>
  {
    match Read(codec, req.messages)
    case Err(e) => Err(e)
    case Ok((prompt, messages)) => Ok(Conversation(prompt, messages, req.tools, req.settings))
  }

  method ReadBody(content: Option<Json>) returns (contents: seq<Content>)
    ensures contents == BodyContent(content)
  {
    contents := [];
    if content.Some? {
      if content.value.Str? {
        if content.value.s != "" { contents := contents + [Text(content.value.s)]; }
      } else if content.value.Arr? {
        var parts := content.value.items;
        for i := 0 to |parts|
          invariant contents == PartsContent(parts[..i])
        {
          assert parts[..i + 1][..i] == parts[..i];
          var kind := StrField(parts[i], "type");
          if kind == Some("text") {
            var text := StrField(parts[i], "text");
            if text.Some? { contents := contents + [Text(text.value)]; }
          } else if kind == Some("image_url") {
            var image := Field(parts[i], "image_url");
            if image.Some? {
              var url := StrField(image.value, "url");
              if url.Some? { contents := contents + [ImageUrl(url.value)]; }
            }
          }
        }
        assert parts[..|parts|] == parts;
      }
    }
  }

  method ReadToolCalls(codec: Codec, calls: seq<FunctionCall>) returns (r: Result<seq<Content>, Error>)
    ensures r == ReadCalls(codec, calls)
  {
    var contents: seq<Content> := [];
    for i := 0 to |calls|
      invariant ReadCalls(codec, calls[..i]) == Ok(contents)
    {
      assert calls[..i + 1][..i] == calls[..i];
      var arguments := codec.parse(calls[i].arguments);
      if arguments.None? {
        ReadCallsFails(codec, calls, i + 1);
        return Err(InvalidArguments);
      }
      contents := contents + [ToolCall(calls[i].id, calls[i].name, arguments.value)];
    }
    assert calls[..|calls|] == calls;
    return Ok(contents);
  }

  method ResultText(contents: seq<Content>) returns (text: string)
    ensures text == TextOf(contents)
  {
    text := "";
    for i := 0 to |contents|
      invariant text == TextOf(contents[..i])
    {
      assert contents[..i + 1][..i] == contents[..i];
      if contents[i].Text? { text := text + contents[i].text; }
    }
    assert contents[..|contents|] == contents;
  }

  method ReadMessage(codec: Codec, role: Role, msg: ChatMessage) returns (r: Result<seq<Content>, Error>)
    ensures r == ReadContent(codec, role, msg)
  {
    var contents := ReadBody(msg.content);
    var calls := ReadToolCalls(codec, if msg.toolCalls.Some? then msg.toolCalls.value else []);
    if calls.Err? { return calls; }
    contents := contents + calls.value;
    if role == Tool && msg.toolCallId.Some? {
      var text := ResultText(contents);
      contents := [ToolResult(msg.toolCallId.value, text)];
    }
    return Ok(contents);
  }

  lemma {:induction false} ReadCallsFails(codec: Codec, calls: seq<FunctionCall>, i: nat)
    requires i <= |calls| && ReadCalls(codec, calls[..i]).Err?
    ensures ReadCalls(codec, calls) == ReadCalls(codec, calls[..i])
  {
    if i < |calls| {
      var n := |calls| - 1;
      assert calls[..n][..i] == calls[..i];
      ReadCallsFails(codec, calls[..n], i);
    } else {
      assert calls[..i] == calls;
    }
  }

  lemma {:induction false} ReadFails(codec: Codec, messages: seq<ChatMessage>, i: nat)
    requires i <= |messages| && Read(codec, messages[..i]).Err?
    ensures Read(codec, messages) == Read(codec, messages[..i])
  {
    if i < |messages| {
      var n := |messages| - 1;
      assert messages[..n][..i] == messages[..i];
      ReadFails(codec, messages[..n], i);
    } else {
      assert messages[..i] == messages;
    }
  }

  lemma ReadSnoc(codec: Codec, messages: seq<ChatMessage>, i: nat)
    requires i < |messages| && Read(codec, messages[..i]).Ok?
    ensures Read(codec, messages[..i + 1]) == ReadOne(codec, Read(codec, messages[..i]).value, messages[i])
  {
    assert messages[..i + 1][..i] == messages[..i];
  }

  method ToUniversal(codec: Codec, req: ChatRequest) returns (r: Result<Conversation, Error>)
    ensures r == Universal(codec, req)
  {
    var prompt: Option<string> := None;
    var messages: seq<Message> := [];
    for i := 0 to |req.messages|
      invariant Read(codec, req.messages[..i]) == Ok((prompt, messages))
    {
      var msg := req.messages[i];
      ReadSnoc(codec, req.messages, i);
      if msg.role == "system" {
        var text := SystemText(msg.content);
        if text.Some? { prompt := text; }
      } else {
        var role := ReadRole(msg.role);
        if role.None? {
          ReadFails(codec, req.messages, i + 1);
          return Err(UnknownRole(msg.role));
        }
        var contents := ReadMessage(codec, role.value, msg);
        if contents.Err? {
          ReadFails(codec, req.messages, i + 1);
          return Err(contents.error);
        }
        if contents.value != [] { messages := messages + [Message(role.value, contents.value)]; }
      }
    }
    assert req.messages[..|req.messages|] == req.messages;
    return Ok(Conversation(prompt, messages, req.tools, req.settings));
  }

  // ---- Messages as they are written in JSON --------------------------------

  predicate HasText(v: Json, key: string, text: string)
  {
    v.Obj? && key in v.fields && v.fields[key] == Str(text)
  }

  /** The part is an image with this address. */
  predicate HasImage(part: Json, url: string)
  {
    HasText(part, "type", "image_url") && "image_url" in part.fields && HasText(part.fields["image_url"], "url", url)
  }

  /** What one part of a content array gives: a text, an image, or nothing. */
  ghost predicate Gives(part: Json, given: Option<Content>)
  {
    match given
    case Some(Text(text)) => HasText(part, "type", "text") && HasText(part, "text", text)
    case Some(ImageUrl(url)) => HasImage(part, url)
    case Some(_) => false
    case None =>
      && (HasText(part, "type", "text") ==> forall text :: !HasText(part, "text", text))
      && forall url :: !HasImage(part, url)
  }

  /** The content of a message, part by part; content that is one text is one part. */
  ghost predicate ContentGives(content: Option<Json>, given: seq<Option<Content>>)
  {
    match content
    case Some(Str(s)) => given == if s == "" then [] else [Some(Text(s))]
    case Some(Arr(parts)) => |parts| == |given| && forall i | 0 <= i < |parts| :: Gives(parts[i], given[i])
    case _ => given == []
  }

  function Somes(given: seq<Option<Content>>): seq<Content>
  {
    if given == [] then []
    else Somes(given[..|given| - 1]) + match given[|given| - 1] case Some(c) => [c] case None => []
  }

  /** All texts given, run together. */
  function AllText(given: seq<Option<Content>>): string
  {
    if given == [] then ""
    else (match given[0] case Some(Text(text)) => text case _ => "") + AllText(given[1..])
  }

  lemma OnePart(part: Json, given: Option<Content>)
    requires Gives(part, given)
    ensures PartContent(part) == match given case Some(c) => [c] case None => []
  {
    match given
    case Some(Text(text)) => assert |"text"| != |"image_url"|;
    case Some(ImageUrl(url)) => assert |"text"| != |"image_url"|;
    case Some(_) =>
    case None =>
      if StrField(part, "type") == Some("text") && StrField(part, "text").Some? {
        assert HasText(part, "text", StrField(part, "text").value);
      }
      if StrField(part, "type") == Some("image_url") && Field(part, "image_url").Some? {
        var url := StrField(Field(part, "image_url").value, "url");
        assert url.Some? ==> HasImage(part, url.value);
      }
  }

  lemma {:induction false} PartsAreRead(parts: seq<Json>, given: seq<Option<Content>>)
    requires |parts| == |given| && forall i | 0 <= i < |parts| :: Gives(parts[i], given[i])
    ensures PartsContent(parts) == Somes(given)
  {
    if parts != [] {
      var n := |parts| - 1;
      PartsAreRead(parts[..n], given[..n]);
      OnePart(parts[n], given[n]);
    }
  }

  lemma ContentIsRead(content: Option<Json>, given: seq<Option<Content>>)
    requires ContentGives(content, given)
    ensures BodyContent(content) == Somes(given)
  {
    match content
    case Some(Arr(parts)) => PartsAreRead(parts, given);
    case Some(Str(s)) => assert [Some(Text(s))][..0] == [] && Somes([]) == [];
    case _ =>
  }

  lemma {:induction false} TextOfConcat(a: seq<Content>, b: seq<Content>)
    ensures TextOf(a + b) == TextOf(a) + TextOf(b)
  {
    if b == [] {
      assert a + b == a;
    } else {
      var n := |b| - 1;
      TextOfConcat(a, b[..n]);
      assert (a + b)[..|a + b| - 1] == a + b[..n];
    }
  }

  lemma {:induction false} SomesSplit(given: seq<Option<Content>>)
    requires given != []
    ensures Somes(given) == (match given[0] case Some(c) => [c] case None => []) + Somes(given[1..])
  {
    var n := |given| - 1;
    if n > 0 {
      SomesSplit(given[..n]);
      assert given[..n][1..] == given[1..][..n - 1];
    } else {
      assert given[..n] == [] && given[1..] == [];
    }
  }

  lemma TextOfOne(c: Content, rest: seq<Content>)
    ensures TextOf([c] + rest) == (if c.Text? then c.text else "") + TextOf(rest)
  {
    assert [c][..0] == [] && TextOf([c][..0]) == "";
    TextOfConcat([c], rest);
  }

  lemma {:induction false} TextsRunTogether(given: seq<Option<Content>>)
    ensures TextOf(Somes(given)) == AllText(given)
  {
    if given != [] {
      var rest := Somes(given[1..]);
      SomesSplit(given);
      TextsRunTogether(given[1..]);
      if given[0].Some? {
        TextOfOne(given[0].value, rest);
      } else {
        assert [] + rest == rest;
      }
    }
  }

  /** The calls with their arguments read. */
  function Called(calls: seq<FunctionCall>, arguments: seq<Json>): seq<Content>
    requires |calls| == |arguments|
  {
    seq(|calls|, i requires 0 <= i < |calls| => ToolCall(calls[i].id, calls[i].name, arguments[i]))
  }

  lemma {:induction false} CallsAreRead(codec: Codec, calls: seq<FunctionCall>, arguments: seq<Json>)
    requires |calls| == |arguments| && forall i | 0 <= i < |calls| :: codec.parse(calls[i].arguments) == Some(arguments[i])
    ensures ReadCalls(codec, calls) == Ok(Called(calls, arguments))
    ensures TextOf(Called(calls, arguments)) == ""
  {
    if calls != [] {
      var n := |calls| - 1;
      CallsAreRead(codec, calls[..n], arguments[..n]);
      assert Called(calls, arguments) == Called(calls[..n], arguments[..n]) + [ToolCall(calls[n].id, calls[n].name, arguments[n])];
    }
  }

  lemma {:induction false} BadCallsFail(codec: Codec, calls: seq<FunctionCall>)
    ensures ReadCalls(codec, calls).Err? <==> exists i :: 0 <= i < |calls| && codec.parse(calls[i].arguments).None?
    ensures ReadCalls(codec, calls).Err? ==> ReadCalls(codec, calls).error == InvalidArguments
  {
    if calls != [] {
      var n := |calls| - 1;
      BadCallsFail(codec, calls[..n]);
      if i :| 0 <= i < n && codec.parse(calls[..n][i].arguments).None? { assert calls[i] == calls[..n][i]; }
    }
  }

  /** The first text part, if there is one. */
  lemma {:induction false} FirstTextIsFirst(parts: seq<Json>, given: seq<Option<Content>>)
    requires |parts| == |given| && forall i | 0 <= i < |parts| :: Gives(parts[i], given[i])
    ensures match FirstText(parts)
      case Some(text) =>
        exists i :: 0 <= i < |given| && given[i] == Some(Text(text))
          && forall j | 0 <= j < i :: given[j].None? || given[j].value.ImageUrl?
      case None => forall i | 0 <= i < |given| :: given[i].None? || given[i].value.ImageUrl?
  {
    if parts != [] {
      OnePart(parts[0], given[0]);
      FirstTextIsFirst(parts[1..], given[1..]);
      assert |"text"| != |"image_url"|;
      if given[0].None? || given[0].value.ImageUrl? {
        assert FirstText(parts) == FirstText(parts[1..]);
        if FirstText(parts).Some? {
          var i :| 0 <= i < |given[1..]| && given[1..][i] == Some(Text(FirstText(parts).value))
            && forall j | 0 <= j < i :: given[1..][j].None? || given[1..][j].value.ImageUrl?;
          assert given[i + 1] == given[1..][i];
          assert forall j | 0 < j < i + 1 :: given[j] == given[1..][j - 1];
        } else {
          assert forall j | 0 < j < |given| :: given[j] == given[1..][j - 1];
        }
      } else {
        assert given[0] == Some(Text(FirstText(parts).value));
      }
    }
  }

  function CallsOf(msg: ChatMessage): seq<FunctionCall>
  {
    if msg.toolCalls.Some? then msg.toolCalls.value else []
  }

  /** The request with one more message. */
  function With(req: ChatRequest, msg: ChatMessage): ChatRequest
  {
    req.(messages := req.messages + [msg])
  }

  /** The conversation with one more message, unless it is empty. */
  function Adding(conv: Conversation, role: Role, said: seq<Content>): Conversation
  {
    if said == [] then conv else conv.(messages := conv.messages + [Message(role, said)])
  }

  lemma OneMore(codec: Codec, req: ChatRequest, msg: ChatMessage)
    ensures var before, after := Read(codec, req.messages), Read(codec, With(req, msg).messages);
      if before.Err? then after == before else after == ReadOne(codec, before.value, msg)
  {
    assert (req.messages + [msg])[..|req.messages|] == req.messages;
  }

  lemma ContentOfMessage(codec: Codec, role: Role, msg: ChatMessage, given: seq<Option<Content>>, arguments: seq<Json>)
    requires ContentGives(msg.content, given) && |CallsOf(msg)| == |arguments|
    requires forall i | 0 <= i < |arguments| :: codec.parse(CallsOf(msg)[i].arguments) == Some(arguments[i])
    ensures ReadContent(codec, role, msg)
         == Ok(if role == Tool && msg.toolCallId.Some? then [ToolResult(msg.toolCallId.value, AllText(given))]
               else Somes(given) + Called(CallsOf(msg), arguments))
  {
    ContentIsRead(msg.content, given);
    CallsAreRead(codec, CallsOf(msg), arguments);
    TextOfConcat(Somes(given), Called(CallsOf(msg), arguments));
    TextsRunTogether(given);
    assert AllText(given) + "" == AllText(given);
  }

  /** A request with one more message of a user, an assistant or a tool reads as before
      with that message: its texts and images in order, then its calls; and for a tool
      with a call's id, all its texts run together as that call's result. */
  lemma MessageIsRead(codec: Codec, req: ChatRequest, msg: ChatMessage, given: seq<Option<Content>>, arguments: seq<Json>)
    requires Universal(codec, req).Ok? && ContentGives(msg.content, given)
    requires |CallsOf(msg)| == |arguments|
    requires forall i | 0 <= i < |arguments| :: codec.parse(CallsOf(msg)[i].arguments) == Some(arguments[i])
    ensures var conv, after := Universal(codec, req).value, Universal(codec, With(req, msg));
      var said := Somes(given) + Called(CallsOf(msg), arguments);
      && (msg.role == "user" ==> after == Ok(Adding(conv, User, said)))
      && (msg.role == "assistant" ==> after == Ok(Adding(conv, Assistant, said)))
      && (msg.role == "tool" || msg.role == "function" ==>
            after == Ok(Adding(conv, Tool, if msg.toolCallId.None? then said
                                           else [ToolResult(msg.toolCallId.value, AllText(given))])))
  {
    OneMore(codec, req, msg);
    var role := ReadRole(msg.role);
    if role.Some? { ContentOfMessage(codec, role.value, msg, given, arguments); }
  }

  /** A system message sets the prompt to its text or, of several parts, to the first text;
      without a text it changes nothing. */
  lemma SystemMessageIsRead(codec: Codec, req: ChatRequest, msg: ChatMessage, given: seq<Option<Content>>)
    requires Universal(codec, req).Ok? && ContentGives(msg.content, given) && msg.role == "system"
    ensures var conv, after := Universal(codec, req).value, Universal(codec, With(req, msg));
      && after.Ok? && after.value == conv.(systemPrompt := after.value.systemPrompt)
      && match msg.content
         case Some(Str(s)) => after.value.systemPrompt == Some(s)
         case Some(Arr(_)) =>
           || (after.value.systemPrompt == conv.systemPrompt
               && forall i | 0 <= i < |given| :: given[i].None? || given[i].value.ImageUrl?)
           || (after.value.systemPrompt.Some?
               && exists i :: 0 <= i < |given| && given[i] == Some(Text(after.value.systemPrompt.value))
                    && forall j | 0 <= j < i :: given[j].None? || given[j].value.ImageUrl?)
         case _ => after.value.systemPrompt == conv.systemPrompt
  {
    OneMore(codec, req, msg);
    if msg.content.Some? && msg.content.value.Arr? { FirstTextIsFirst(msg.content.value.items, given); }
  }

  /** Some call of the message has arguments that cannot be read. */
  ghost predicate HasBadCall(codec: Codec, msg: ChatMessage)
  {
    exists i :: 0 <= i < |CallsOf(msg)| && codec.parse(CallsOf(msg)[i].arguments).None?
  }

  lemma BadContentFails(codec: Codec, role: Role, msg: ChatMessage)
    ensures ReadContent(codec, role, msg).Err? <==> HasBadCall(codec, msg)
    ensures ReadContent(codec, role, msg).Err? ==> ReadContent(codec, role, msg).error == InvalidArguments
  {
    BadCallsFail(codec, CallsOf(msg));
  }

  lemma NewReading(codec: Codec, before: Reading, msg: ChatMessage)
    requires msg.role != "system"
    ensures var role := ReadRole(msg.role);
      ReadOne(codec, before, msg).Err? <==> role.None? || HasBadCall(codec, msg)
    ensures var r := ReadOne(codec, before, msg);
      r.Err? ==> r.error == if ReadRole(msg.role).None? then UnknownRole(msg.role) else InvalidArguments
  {
    var role := ReadRole(msg.role);
    if role.Some? { BadContentFails(codec, role.value, msg); }
  }

  lemma KnownRoles(role: string)
    ensures role in {"system", "user", "assistant", "tool", "function"} <==> role == "system" || ReadRole(role).Some?
  {
  }

  /** A request fails exactly at the first message of another role or, in a message that is
      not a system message, with arguments that cannot be read. */
  lemma BadMessageFails(codec: Codec, req: ChatRequest, msg: ChatMessage)
    ensures var before, after := Universal(codec, req), Universal(codec, With(req, msg));
      if before.Err? then after == before
      else if msg.role !in {"system", "user", "assistant", "tool", "function"} then after == Err(UnknownRole(msg.role))
      else if msg.role != "system" && HasBadCall(codec, msg) then after == Err(InvalidArguments)
      else after.Ok?
  {
    OneMore(codec, req, msg);
    KnownRoles(msg.role);
    var before := Read(codec, req.messages);
    if before.Ok? && msg.role != "system" { NewReading(codec, before.value, msg); }
  }

  // ---- from_universal ------------------------------------------------------

  function RoleName(role: Role): string
  {
    match role
    case System => "system"
    case User => "user"
    case Assistant => "assistant"
    case Tool => "tool"
  }

  /** Text and tool-result texts so far, with a newline between once there is text. */
  function Flattened(contents: seq<Content>): string
  {
    if contents == [] then ""
    else
      var n := |contents| - 1;
      var before := Flattened(contents[..n]);
      match contents[n]
      case Text(text) => before + (if before == "" then "" else "\n") + text
      case ToolResult(_, text) => before + (if before == "" then "" else "\n") + text
      case _ => before
  }

  function PrintedCalls(codec: Codec, contents: seq<Content>): seq<FunctionCall>
  {
    if contents == [] then []
    else
      var n := |contents| - 1;
      PrintedCalls(codec, contents[..n])
      + match contents[n]
        case ToolCall(id, name, arguments) => [FunctionCall(id, "function", name, codec.print_(arguments))]
        case _ => []
  }

  function LastResultId(contents: seq<Content>): Option<string>
  {
    if contents == [] then None
    else if contents[|contents| - 1].ToolResult? then Some(contents[|contents| - 1].toolId)
    else LastResultId(contents[..|contents| - 1])
  }

  function PrintMessage(codec: Codec, msg: Message): ChatMessage
  {
    var text := Flattened(msg.content);
    var calls := PrintedCalls(codec, msg.content);
    ChatMessage(RoleName(msg.role),
                if text == "" then None else Some(Str(text)),
                if calls == [] then None else Some(calls),
                LastResultId(msg.content))
  }

  function PrintMessages(codec: Codec, messages: seq<Message>): seq<ChatMessage>
  {
    if messages == [] then []
    else PrintMessages(codec, messages[..|messages| - 1]) + [PrintMessage(codec, messages[|messages| - 1])]
  }

  function Prompt(conv: Conversation): seq<ChatMessage>
  {
    match conv.systemPrompt
    case None => []
    case Some(prompt) => [ChatMessage("system", Some(Str(prompt)), None, None)]
  }

  function Request(codec: Codec, conv: Conversation): ChatRequest
  {
    ChatRequest(Prompt(conv) + PrintMessages(codec, conv.messages), conv.tools, conv.settings)
  }

  method WriteMessage(codec: Codec, msg: Message) returns (out: ChatMessage)
    ensures out == PrintMessage(codec, msg)
  {
    var text, calls, id := "", [], None;
    for j := 0 to |msg.content|
      invariant text == Flattened(msg.content[..j])
      invariant calls == PrintedCalls(codec, msg.content[..j])
      invariant id == LastResultId(msg.content[..j])
    {
      assert msg.content[..j + 1][..j] == msg.content[..j];
      match msg.content[j]
      case Text(t) =>
        if text != "" { text := text + "\n"; }
        text := text + t;
      case ImageUrl(_) =>
      case ToolCall(callId, name, arguments) =>
        calls := calls + [FunctionCall(callId, "function", name, codec.print_(arguments))];
      case ToolResult(toolId, t) =>
        id := Some(toolId);
        if text != "" { text := text + "\n"; }
        text := text + t;
    }
    assert msg.content[..|msg.content|] == msg.content;
    var content := if text != "" then Some(Str(text)) else None;
    return ChatMessage(RoleName(msg.role), content, if calls == [] then None else Some(calls), id);
  }

  method FromUniversal(codec: Codec, conv: Conversation) returns (req: ChatRequest)
    ensures req == Request(codec, conv)
  {
    var messages: seq<ChatMessage> := [];
    if conv.systemPrompt.Some? {
      messages := messages + [ChatMessage("system", Some(Str(conv.systemPrompt.value)), None, None)];
    }
    for i := 0 to |conv.messages|
      invariant messages == Prompt(conv) + PrintMessages(codec, conv.messages[..i])
    {
      var message := WriteMessage(codec, conv.messages[i]);
      messages := messages + [message];
      assert conv.messages[..i + 1][..i] == conv.messages[..i];
    }
    assert conv.messages[..|conv.messages|] == conv.messages;
    return ChatRequest(messages, conv.tools, conv.settings);
  }

  lemma {:induction false} MessagesInOrder(codec: Codec, messages: seq<Message>)
    ensures |PrintMessages(codec, messages)| == |messages|
    ensures forall k | 0 <= k < |messages| :: PrintMessages(codec, messages)[k] == PrintMessage(codec, messages[k])
  {
    if messages != [] { MessagesInOrder(codec, messages[..|messages| - 1]); }
  }

  lemma {:induction false} CallsAreFunctions(codec: Codec, contents: seq<Content>)
    ensures forall i | 0 <= i < |PrintedCalls(codec, contents)| :: PrintedCalls(codec, contents)[i].kind == "function"
  {
    if contents != [] { CallsAreFunctions(codec, contents[..|contents| - 1]); }
  }

  /** The prompt is written as a system message before all others; each message keeps its
      place and gets the name of its role; calls are function calls. */
  lemma MessagesAreWritten(codec: Codec, conv: Conversation, k: nat)
    requires k < |conv.messages|
    ensures var out := Request(codec, conv).messages;
      var first := if conv.systemPrompt.Some? then 1 else 0;
      && |out| == first + |conv.messages|
      && (conv.systemPrompt.Some? ==> out[0] == ChatMessage("system", Some(Str(conv.systemPrompt.value)), None, None))
      && out[first + k].role == (match conv.messages[k].role
                                 case System => "system"
                                 case User => "user"
                                 case Assistant => "assistant"
                                 case Tool => "tool")
      && var calls := CallsOf(out[first + k]); forall i | 0 <= i < |calls| :: calls[i].kind == "function"
  {
    MessagesInOrder(codec, conv.messages);
    CallsAreFunctions(codec, conv.messages[k].content);
  }
}
