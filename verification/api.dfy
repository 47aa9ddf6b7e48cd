/** The shapes exchanged with the model-facing messages API: content blocks,
    messages, responses, and the parameters of one `messages.create` call.
    Nothing here talks to the network; a call is only a value. */
module Api {

  datatype Option<+T> = None | Some(value: T) {
    function GetOr(default: T): T {
      match this
      case Some(v) => v
      case None => default
    }
  }

  /** The stop reason with which the model asks for tools to be run. */
  const TOOL_USE: string := "tool_use"

  /** Keyword arguments of a tool call; values are kept in their textual form. */
  type Args = map<string, string>

  /** One element of a response's `content` list. */
  datatype Block =
    | Text(text: string)
    | ToolUse(id: string, name: string, input: Args)

  /** `{"type": "tool_result", "tool_use_id": ..., "content": ...}` */
  datatype ToolResult = ToolResult(toolUseId: string, content: string)

  datatype Role = User | Assistant

  /** What a message carries: the user's query as plain text, an assistant
      response's blocks verbatim, or a bundle of tool results. */
  datatype Content =
    | Plain(text: string)
    | Blocks(blocks: seq<Block>)
    | Results(results: seq<ToolResult>)

  datatype Message = Message(role: Role, content: Content)

  datatype Response = Response(stopReason: string, content: seq<Block>)

  /** What one model call yields: a response, or an exception that propagates. */
  datatype Reply = Delivered(response: Response) | Raised(error: string)

  /** A tool definition as handed to the API; the loop never looks inside it. */
  datatype ToolSchema = ToolSchema(name: string, description: string, inputSchema: string)

  /** `tool_choice`; the generator only ever sends `{"type": "auto"}`. */
  datatype ToolChoice = Auto

  /** The parameters every call shares: model name, temperature, max_tokens. */
  datatype BaseParams = BaseParams(model: string, temperature: int, maxTokens: int)

  /** The keyword arguments of one `messages.create` call, as a snapshot. */
  datatype Request = Request(
    params: BaseParams,
    messages: seq<Message>,
    system: string,
    tools: Option<seq<ToolSchema>>,
    toolChoice: Option<ToolChoice>)

  /** `response.content[0].text`: absent when the content is empty (an index
      error) or when its first block is a tool use (which has no text). */
  function LeadingText(content: seq<Block>): (r: Option<string>)
    ensures r.Some? <==> |content| > 0 && content[0].Text?
    ensures r.Some? ==> content[0] == Text(r.value)
  {
    if |content| > 0 && content[0].Text? then Some(content[0].text) else None
  }
}
