/** Model-visible messages (crates/pacode-types/src/message.rs). */
module Messages {
  import opened Common

  datatype Role = System | User | Assistant | Tool

  datatype Block =
    | Text(text: string)
    | Reasoning(text: string)
    | ToolUse(id: string, name: string, input: string)
    | ToolResult(id: string, content: string, isError: bool)
    | Image(chars: nat)

  datatype MessageKind = Normal | Injected | CompactionSummary | SystemReminder

  datatype Message = Message(role: Role, content: seq<Block>, kind: MessageKind)

  /** The ids of the tool calls in a message, in order. */
  function Uses(content: seq<Block>): seq<string> {
    if content == [] then []
    else (if content[0].ToolUse? then [content[0].id] else []) + Uses(content[1..])
  }

  /** The ids of the tool results in a message, in order. */
  function Results(content: seq<Block>): seq<string> {
    if content == [] then []
    else (if content[0].ToolResult? then [content[0].id] else []) + Results(content[1..])
  }

  function ToolResultMessage(id: string, content: string, isError: bool): Message {
    Message(Tool, [ToolResult(id, content, isError)], Normal)
  }

  function CharLen(content: seq<Block>): nat {
    if content == [] then 0
    else
      (match content[0]
       case Text(text) => |text|
       case Reasoning(text) => |text|
       case ToolUse(_, name, input) => |name| + |input|
       case ToolResult(_, text, _) => |text|
       case Image(chars) => chars) + CharLen(content[1..])
  }

  /** A quarter of the characters, rounded up, cast to 32 bits. */
  function EstimateTokens(m: Message): (tokens: nat)
    ensures tokens <= U32_MAX
  {
    (CharLen(m.content) + 3) / 4 % (U32_MAX + 1)
  }
}
