/** The universal conversation, between all provider formats. */
module Conversation {
  import opened Wrappers
  import opened Json

  datatype Role = System | User | Assistant | Tool

  datatype Content =
    | Text(text: string)
    | ImageUrl(url: string)
    | ToolCall(id: string, name: string, arguments: Json)
    | ToolResult(toolId: string, content: string)

  datatype Message = Message(role: Role, content: seq<Content>)

  /** What every translator copies unchanged. */
  datatype Settings = Settings(
    temperature: Option<real>, topP: Option<real>, maxTokens: Option<nat>,
    stop: Option<seq<string>>, stream: Option<bool>, model: Option<string>)

  datatype Conversation = Conversation(
    systemPrompt: Option<string>, messages: seq<Message>, tools: Option<seq<Json>>, settings: Settings)
}
