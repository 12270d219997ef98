/**
 * The data the core exchanges: the typed messages and content blocks the
 * external agent SDK streams back, and the records of server/sdk_executor.py
 * (its two modes, the per-call configuration and the processed response).
 */
module SdkTypes {
  import opened Wrappers

  /** A tool result's payload: a string, or anything else, kept as its `str(...)` form. */
  datatype ToolResultContent = TextContent(text: string) | OtherContent(repr: string)

  /** A content block of an assistant or user message. */
  datatype Block =
    | TextBlock(text: string)
    | ThinkingBlock(thinking: string)
    | ToolUseBlock(id: string, name: string, input: string)
    | ToolResultBlock(toolUseId: string, content: ToolResultContent, isError: Option<bool>)
    | OtherBlock

  /** A message of the SDK's response stream. */
  datatype Message =
    | AssistantMessage(content: seq<Block>)
    | UserMessage(content: seq<Block>)
    | SystemMessage(subtype: string, repr: string)
    | ResultMessage(subtype: string, isError: bool, result: Option<string>, durationMs: int,
                    numTurns: int, sessionId: string, totalCostUsd: Option<real>, usage: Option<string>)
    | OtherMessage

  /** A raised Python exception: its class name and `str(e)`. */
  datatype Exception = Exception(typeName: string, message: string)

  /** A value of an options dictionary or of the configuration's metadata. */
  datatype Value = NoneValue | Str(s: string) | Int(i: int) | StrList(items: seq<string>)

  /** How the SDK response is returned. */
  datatype ResponseMode = Stream | BufferText | BufferAll

  /** What happens to thinking blocks. */
  datatype ThinkingMode = Include | Exclude | LogOnly

  /** The configuration of one SDK execution (`ExecutorConfig`). */
  datatype ExecutorConfig = ExecutorConfig(
    userId: Option<string>,
    platform: Option<string>,
    cwd: Option<string>,
    sessionId: Option<string>,
    systemPrompt: Option<string>,
    allowedTools: Option<seq<string>>,
    responseMode: ResponseMode,
    thinkingMode: ThinkingMode,
    includeToolIndicators: bool,
    metadata: map<string, Value>)

  /** The unified response of one execution (`ProcessedResponse`). */
  datatype ProcessedResponse = ProcessedResponse(
    text: string,
    toolUses: seq<string>,
    thinkingBlocks: seq<string>,
    sessionId: Option<string>,
    metrics: map<string, int>,
    rawMessages: seq<Message>)

  /** Python truthiness of an optional string: present and non-empty. */
  predicate Truthy(o: Option<string>) {
    o.Some? && o.value != ""
  }

  /** Python truthiness of an optional list: present and non-empty. */
  predicate TruthyList(o: Option<seq<string>>) {
    o.Some? && o.value != []
  }
}
