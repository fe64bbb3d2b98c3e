/** What survives a trip through the OpenAI format: for every conversation, printing it
    as a request and reading that back gives its normal form. */
module OpenAiNormalForm {
  import opened Wrappers
  import opened Json
  import opened Conversation
  import opened OpenAi

  // ---- The normal form -----------------------------------------------------

  function Texts(contents: seq<Content>): seq<string>
  {
    if contents == [] then []
    else
      Texts(contents[..|contents| - 1])
      + match contents[|contents| - 1]
        case Text(text) => [text]
        case ToolResult(_, text) => [text]
        case _ => []
  }

  function DropEmpty(texts: seq<string>): seq<string>
  {
    if texts != [] && texts[0] == "" then DropEmpty(texts[1..]) else texts
  }

  function JoinLines(texts: seq<string>): string
  {
    if texts == [] then ""
    else if |texts| == 1 then texts[0]
    else texts[0] + "\n" + JoinLines(texts[1..])
  }

  function Calls(contents: seq<Content>): seq<Content>
  {
    if contents == [] then []
    else
      Calls(contents[..|contents| - 1])
      + if contents[|contents| - 1].ToolCall? then [contents[|contents| - 1]] else []
  }

  /** Texts joined by lines from the first non-empty one on. */
  function NormalText(contents: seq<Content>): string
  {
    JoinLines(DropEmpty(Texts(contents)))
  }

  /** One text, then the calls; images are dropped. A tool message with a result keeps
      one result, under the last result's id, with all the text. */
  function NormalContent(role: Role, contents: seq<Content>): seq<Content>
  {
    var text := NormalText(contents);
    if role == Tool && LastResultId(contents).Some? then [ToolResult(LastResultId(contents).value, text)]
    else (if text == "" then [] else [Text(text)]) + Calls(contents)
  }

  /** System messages and messages left empty disappear. */
  function NormalMessages(messages: seq<Message>): seq<Message>
  {
    if messages == [] then []
    else
      var last := messages[|messages| - 1];
      var contents := NormalContent(last.role, last.content);
      NormalMessages(messages[..|messages| - 1])
      + if last.role == System || contents == [] then [] else [Message(last.role, contents)]
  }

  /** The last system message with text overrides the prompt. */
  function NormalPrompt(prompt: Option<string>, messages: seq<Message>): Option<string>
  {
    if messages == [] then prompt
    else
      var last := messages[|messages| - 1];
      if last.role == System && NormalText(last.content) != "" then Some(NormalText(last.content))
      else NormalPrompt(prompt, messages[..|messages| - 1])
  }

  function Normalize(conv: Conversation): Conversation
  {
    conv.(systemPrompt := NormalPrompt(conv.systemPrompt, conv.messages), messages := NormalMessages(conv.messages))
  }

  // ---- Round trip ----------------------------------------------------------

  lemma {:induction false} JoinAppend(texts: seq<string>, t: string)
    ensures JoinLines(DropEmpty(texts)) == "" <==> DropEmpty(texts) == []
    ensures JoinLines(DropEmpty(texts + [t]))
         == JoinLines(DropEmpty(texts)) + (if JoinLines(DropEmpty(texts)) == "" then "" else "\n") + t
  {
    if texts == [] {
      assert texts + [t] == [t];
    } else {
      assert (texts + [t])[1..] == texts[1..] + [t];
      if texts[0] == "" {
        JoinAppend(texts[1..], t);
      } else {
        LinesAppend(texts, t);
      }
    }
  }

  lemma {:induction false} LinesAppend(texts: seq<string>, t: string)
    requires texts != []
    ensures JoinLines(texts + [t]) == JoinLines(texts) + "\n" + t
  {
    assert (texts + [t])[1..] == texts[1..] + [t];
    if |texts| > 1 {
      LinesAppend(texts[1..], t);
      assert texts[0] + "\n" + (JoinLines(texts[1..]) + "\n" + t) == (texts[0] + "\n" + JoinLines(texts[1..])) + "\n" + t;
    } else {
      assert JoinLines([t]) == t;
    }
  }

  lemma {:induction false} FlattenedIsNormalText(contents: seq<Content>)
    ensures Flattened(contents) == NormalText(contents)
  {
    if contents != [] {
      var n := |contents| - 1;
      FlattenedIsNormalText(contents[..n]);
      match contents[n]
      case Text(text) => JoinAppend(Texts(contents[..n]), text);
      case ToolResult(_, text) => JoinAppend(Texts(contents[..n]), text);
      case _ => assert Texts(contents) == Texts(contents[..n]);
    }
  }

  lemma {:induction false} ReadPrintedCalls(codec: Codec, contents: seq<Content>)
    requires RoundTrips(codec)
    ensures ReadCalls(codec, PrintedCalls(codec, contents)) == Ok(Calls(contents))
  {
    if contents != [] {
      var n := |contents| - 1;
      ReadPrintedCalls(codec, contents[..n]);
      var before := PrintedCalls(codec, contents[..n]);
      if contents[n].ToolCall? {
        var call := FunctionCall(contents[n].id, "function", contents[n].name, codec.print_(contents[n].arguments));
        assert (before + [call])[..|before|] == before;
      } else {
        assert PrintedCalls(codec, contents) == before && Calls(contents) == Calls(contents[..n]);
      }
    }
  }

  lemma TextOfAppend(contents: seq<Content>, c: Content)
    ensures TextOf(contents + [c]) == TextOf(contents) + if c.Text? then c.text else ""
  {
    assert (contents + [c])[..|contents|] == contents;
  }

  lemma {:induction false} CallsHaveNoText(contents: seq<Content>, head: seq<Content>)
    ensures TextOf(head + Calls(contents)) == TextOf(head)
  {
    if contents == [] {
      assert head + Calls(contents) == head;
    } else {
      var n := |contents| - 1;
      var before := Calls(contents[..n]);
      CallsHaveNoText(contents[..n], head);
      if contents[n].ToolCall? {
        assert head + (before + [contents[n]]) == (head + before) + [contents[n]];
        TextOfAppend(head + before, contents[n]);
      } else {
        assert before + [] == before;
      }
    }
  }

  lemma {:induction false} CallsAreCalls(contents: seq<Content>)
    ensures forall i | 0 <= i < |Calls(contents)| :: Calls(contents)[i].ToolCall?
  {
    if contents != [] { CallsAreCalls(contents[..|contents| - 1]); }
  }

  lemma TextOfOne(text: string)
    ensures TextOf([Text(text)]) == text
  {
    assert [Text(text)][..0] == [];
  }

  lemma ReadPrintedMessage(codec: Codec, msg: Message)
    requires RoundTrips(codec) && msg.role != System
    ensures ReadContent(codec, msg.role, PrintMessage(codec, msg)) == Ok(NormalContent(msg.role, msg.content))
  {
    var printed := PrintMessage(codec, msg);
    FlattenedIsNormalText(msg.content);
    ReadPrintedCalls(codec, msg.content);
    CallsHaveNoText(msg.content, BodyContent(printed.content));
    var text := NormalText(msg.content);
    TextOfOne(text);
  }

  function NormalizeOne(before: Reading, msg: Message): Reading
  {
    if msg.role == System then
      (if NormalText(msg.content) != "" then Some(NormalText(msg.content)) else before.0, before.1)
    else if NormalContent(msg.role, msg.content) == [] then before
    else (before.0, before.1 + [Message(msg.role, NormalContent(msg.role, msg.content))])
  }

  lemma ReadPrintedOne(codec: Codec, before: Reading, msg: Message)
    requires RoundTrips(codec)
    ensures ReadOne(codec, before, PrintMessage(codec, msg)) == Ok(NormalizeOne(before, msg))
  {
    FlattenedIsNormalText(msg.content);
    if msg.role != System {
      ReadPrintedMessage(codec, msg);
      assert ReadRole(RoleName(msg.role)) == Some(msg.role);
    }
  }

  lemma {:induction false} ReadPrinted(codec: Codec, prompt: seq<ChatMessage>, start: Option<string>, messages: seq<Message>)
    requires RoundTrips(codec) && Read(codec, prompt) == Ok((start, []))
    ensures Read(codec, prompt + PrintMessages(codec, messages))
         == Ok((NormalPrompt(start, messages), NormalMessages(messages)))
  {
    var all := prompt + PrintMessages(codec, messages);
    if messages == [] {
      assert all == prompt;
    } else {
      var n := |messages| - 1;
      ReadPrinted(codec, prompt, start, messages[..n]);
      ReadPrintedOne(codec, (NormalPrompt(start, messages[..n]), NormalMessages(messages[..n])), messages[n]);
      assert all == (prompt + PrintMessages(codec, messages[..n])) + [PrintMessage(codec, messages[n])];
      assert all[..|all| - 1] == prompt + PrintMessages(codec, messages[..n]);
      assert NormalMessages(messages[..n]) + [] == NormalMessages(messages[..n]);
    }
  }

  /** Printing a conversation as an OpenAI request and reading it back always succeeds
      and gives its normal form. */
  lemma RoundTrip(codec: Codec, conv: Conversation)
    requires RoundTrips(codec)
    ensures Universal(codec, Request(codec, conv)) == Ok(Normalize(conv))
  {
    var prompt := Prompt(conv);
    assert conv.systemPrompt.Some? ==> prompt[..0] == [];
    ReadPrinted(codec, prompt, conv.systemPrompt, conv.messages);
  }

  // ---- Normal forms --------------------------------------------------------

  predicate IsNormalContent(role: Role, contents: seq<Content>)
  {
    && contents != []
    && role != System
    && if contents[0].ToolResult? then role == Tool && |contents| == 1
       else
         && !contents[0].ImageUrl?
         && (contents[0].Text? ==> contents[0].text != "")
         && forall i | 1 <= i < |contents| :: contents[i].ToolCall?
  }

  /** No system messages; each message is one text and then calls, or one tool result. */
  predicate IsNormal(conv: Conversation)
  {
    AllNormal(conv.messages)
  }

  lemma {:induction false} OnlyCalls(contents: seq<Content>)
    requires forall i | 0 <= i < |contents| :: contents[i].ToolCall?
    ensures Calls(contents) == contents && Texts(contents) == [] && LastResultId(contents) == None
  {
    if contents != [] { OnlyCalls(contents[..|contents| - 1]); }
  }

  lemma {:induction false} TextThenCalls(head: Content, calls: seq<Content>)
    requires head.Text? && forall i | 0 <= i < |calls| :: calls[i].ToolCall?
    ensures Calls([head] + calls) == calls && Texts([head] + calls) == [head.text]
    ensures LastResultId([head] + calls) == None
  {
    var all := [head] + calls;
    if calls == [] {
      assert all[..0] == [];
    } else {
      var n := |calls| - 1;
      TextThenCalls(head, calls[..n]);
      assert all[..|all| - 1] == [head] + calls[..n];
    }
  }

  lemma OneResult(result: Content)
    requires result.ToolResult?
    ensures NormalContent(Tool, [result]) == [result]
  {
    var t := result.content;
    assert [result][..0] == [] && [t][1..] == [];
    assert Texts([result]) == [t];
    assert LastResultId([result]) == Some(result.toolId);
    assert DropEmpty([t]) == if t == "" then [] else [t];
  }

  lemma NormalContentResult(role: Role, contents: seq<Content>)
    requires role != System && NormalContent(role, contents) != []
    ensures IsNormalContent(role, NormalContent(role, contents))
  {
    var calls, n := Calls(contents), NormalContent(role, contents);
    CallsAreCalls(contents);
    if n[0].Text? {
      assert n == [n[0]] + calls;
    } else if !n[0].ToolResult? {
      assert [] + calls == calls;
      assert n == calls;
    }
  }

  lemma NormalContentFixed(role: Role, contents: seq<Content>)
    requires IsNormalContent(role, contents)
    ensures NormalContent(role, contents) == contents
  {
    if contents[0].ToolResult? {
      OneResult(contents[0]);
      assert contents == [contents[0]];
    } else if contents[0].Text? {
      TextThenCalls(contents[0], contents[1..]);
      assert contents == [contents[0]] + contents[1..];
    } else {
      OnlyCalls(contents);
    }
  }

  /** Exactly the normal contents are left as they are, and every result is normal or empty. */
  lemma NormalContentIsNormal(role: Role, contents: seq<Content>)
    requires role != System
    ensures var n := NormalContent(role, contents); n != [] ==> IsNormalContent(role, n)
    ensures IsNormalContent(role, contents) <==> contents != [] && NormalContent(role, contents) == contents
  {
    if NormalContent(role, contents) != [] { NormalContentResult(role, contents); }
    if IsNormalContent(role, contents) { NormalContentFixed(role, contents); }
  }

  predicate AllNormal(messages: seq<Message>)
  {
    forall i | 0 <= i < |messages| :: IsNormalContent(messages[i].role, messages[i].content)
  }

  lemma NormalMessagesAppend(messages: seq<Message>, m: Message)
    requires IsNormalContent(m.role, m.content)
    ensures NormalMessages(messages + [m]) == NormalMessages(messages) + [m]
  {
    assert (messages + [m])[..|messages|] == messages;
    NormalContentFixed(m.role, m.content);
  }

  lemma {:induction false} NormalMessagesAreNormal(messages: seq<Message>)
    ensures AllNormal(NormalMessages(messages))
    ensures |NormalMessages(messages)| <= |messages|
  {
    if messages != [] {
      var last := messages[|messages| - 1];
      NormalMessagesAreNormal(messages[..|messages| - 1]);
      if last.role != System { NormalContentIsNormal(last.role, last.content); }
    }
  }

  lemma {:induction false} NormalMessagesAreFixed(messages: seq<Message>)
    requires AllNormal(messages)
    ensures NormalMessages(messages) == messages
  {
    if messages != [] {
      var before, last := messages[..|messages| - 1], messages[|messages| - 1];
      assert messages == before + [last];
      NormalMessagesAreFixed(before);
      NormalMessagesAppend(before, last);
    }
  }

  lemma {:induction false} NormalPromptIsPrompt(prompt: Option<string>, messages: seq<Message>)
    requires forall i | 0 <= i < |messages| :: messages[i].role != System
    ensures NormalPrompt(prompt, messages) == prompt
  {
    if messages != [] { NormalPromptIsPrompt(prompt, messages[..|messages| - 1]); }
  }

  lemma NormalIsFixed(conv: Conversation)
    requires IsNormal(conv)
    ensures Normalize(conv) == conv
  {
    NormalMessagesAreFixed(conv.messages);
    forall i | 0 <= i < |conv.messages| ensures conv.messages[i].role != System {
      assert IsNormalContent(conv.messages[i].role, conv.messages[i].content);
    }
    NormalPromptIsPrompt(conv.systemPrompt, conv.messages);
  }

  /** Normalizing twice is normalizing once. */
  lemma NormalizeIsIdempotent(conv: Conversation)
    ensures IsNormal(Normalize(conv)) && Normalize(Normalize(conv)) == Normalize(conv)
  {
    NormalMessagesAreNormal(conv.messages);
    NormalIsFixed(Normalize(conv));
  }

  /** A conversation comes back unchanged exactly if it is in normal form. */
  lemma UnchangedIffNormal(codec: Codec, conv: Conversation)
    requires RoundTrips(codec)
    ensures Universal(codec, Request(codec, conv)) == Ok(conv) <==> IsNormal(conv)
  {
    RoundTrip(codec, conv);
    NormalMessagesAreNormal(conv.messages);
    if IsNormal(conv) { NormalIsFixed(conv); }
  }
}
