/** The chat messages exchanged with the agent, as a closed datatype. */
module Messages {

  /** One item of list-valued message content: a dict (`{"type": "text",
      "text": ...}` and the like) or a bare string. */
  datatype Part = DictPart(fields: map<string, string>) | StrPart(s: string)

  /** Message content is either a string or a list of items. */
  datatype Content = Text(s: string) | Parts(items: seq<Part>)

  /** One tool call the model asked for. */
  datatype ToolCall = ToolCall(name: string, id: string, args: map<string, string>)

  /** `HumanMessage`, `AIMessage` (with its `tool_calls`) and `ToolMessage`. */
  datatype Message =
    | Human(content: Content)
    | AI(content: Content, toolCalls: seq<ToolCall>)
    | Tool(content: Content, toolCallId: string)

  /** Python truthiness of a content value: a non-empty string or list. */
  predicate Truthy(c: Content)
  {
    match c
    case Text(s) => s != []
    case Parts(items) => items != []
  }
}
