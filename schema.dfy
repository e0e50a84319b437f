/**
 * The request and response records of the chat endpoint (api.py:57-111),
 * as values. `created` timestamps are left out: they come from the clock.
 */
module Schema {
  import opened Wrappers

  /** The served chat model identifier (api.py:21). */
  const MODEL: string := "chatglm3-6b-32k"

  /** Object tags of a chat completion response (api.py:107). */
  const COMPLETION_OBJECT: string := "chat.completion"
  const CHUNK_OBJECT: string := "chat.completion.chunk"

  datatype Role = User | Assistant | System | Observation

  /** The literal a role is written as on the wire. */
  function RoleName(role: Role): (name: string)
    ensures (name == "user") == role.User?
    ensures (name == "assistant") == role.Assistant?
    ensures (name == "system") == role.System?
    ensures (name == "observation") == role.Observation?
  {
    match role
    case User => "user"
    case Assistant => "assistant"
    case System => "system"
    case Observation => "observation"
  }

  /** A JSON value: what the tool definitions and the history entries hold. */
  datatype JsonValue =
    | JNull
    | JBool(b: bool)
    | JNumber(n: real)
    | JString(s: string)
    | JArray(items: seq<JsonValue>)
    | JObject(fields: map<string, JsonValue>)

  /** A Python `dict` with string keys. */
  type Dict = map<string, JsonValue>

  /** ChatMessage (api.py:57-61); every field but `role` may be None. */
  datatype ChatMessage = ChatMessage(
    role: Role,
    content: Option<string>,
    metadata: Option<string>,
    tools: Option<seq<Dict>>)

  datatype FinishReason = Stop | Length | FunctionCall

  /** The roles a streamed delta may carry (api.py:65): no `observation`. */
  type DeltaRole = role: Role | role != Observation witness User

  /** The finish reasons of a streamed choice (api.py:96): no `function_call`. */
  type StreamFinishReason = reason: FinishReason | reason != FunctionCall witness Stop

  /** DeltaMessage (api.py:64-66): the payload of one streamed event. */
  datatype DeltaMessage = DeltaMessage(role: Option<DeltaRole>, content: Option<string>)

  /** The three token counters of UsageInfo (api.py:99-102), as a value. */
  datatype Usage = Usage(promptTokens: int, totalTokens: int, completionTokens: int)

  /** ChatCompletionResponseChoice (api.py:86-90) and ChatCompletionResponseStreamChoice (api.py:93-96). */
  datatype Choice =
    | ResponseChoice(index: int, message: ChatMessage, finishReason: FinishReason, history: Option<seq<Dict>>)
    | StreamChoice(index: int, delta: DeltaMessage, streamFinish: Option<StreamFinishReason>)

  /** ChatCompletionResponse (api.py:105-111) without its `created` timestamp. */
  datatype ChatCompletionResponse = ChatCompletionResponse(
    model: string,
    objectType: string,
    choices: seq<Choice>,
    usage: Option<Usage>)

  /**
   * One item of the server-sent event stream: a serialised chunk, or the
   * literal `[DONE]` sentinel (api.py:287).
   */
  datatype StreamItem = Chunk(response: ChatCompletionResponse) | Done

  /** An HTTPException: status code and detail text. */
  datatype HttpError = HttpError(status: int, detail: string)
}
