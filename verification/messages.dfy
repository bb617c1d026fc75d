/** The request records and the conversation messages that the backend exchanges
    with its graph: the request's message parts and commands, and the four
    message classes (human, AI, system, tool) it builds or inspects. */
module Messages {
  import opened Wrappers

  /** One part of a user message: its `type` tag, its optional text and its
      optional image (the backend never reads the image). */
  datatype MessagePart = MessagePart(kind: string, text: Option<string>, image: Option<string>)

  /** A user message: a role (ignored by the backend) and its ordered parts. */
  datatype UserMessage = UserMessage(role: string, parts: seq<MessagePart>)

  /** A command of a chat request. The request is parsed by shape, while the
      `type` field is a free string that only defaults to the variant's tag, so
      each variant keeps the `type` it was sent with. The tool result is kept as
      its string rendering. */
  datatype Command =
    | AddMessage(kind: string, message: UserMessage)
    | AddToolResult(kind: string, toolCallId: string, result: string)

  /** A tool call requested by the model: its id, the tool's name and its arguments. */
  datatype ToolCall = ToolCall(id: string, name: string, args: map<string, string>)

  /** A conversation message. Only AI messages carry tool calls; a tool message
      answers the call named by `toolCallId` and may name the tool. */
  datatype Message =
    | Human(content: string)
    | AI(content: string, toolCalls: seq<ToolCall>)
    | System(content: string)
    | Tool(content: string, toolCallId: string, name: Option<string>)

  /** The tool calls of a message: empty for every message that has none. */
  function ToolCallsOf(m: Message): seq<ToolCall> {
    if m.AI? then m.toolCalls else []
  }

  /** Some message of the list is a system message. */
  predicate HasSystem(msgs: seq<Message>) {
    exists i :: 0 <= i < |msgs| && msgs[i].System?
  }
}
