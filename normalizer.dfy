/**
 * The request side of the chat endpoint: the request schema with its
 * defaults (api.py:69-83), the availability and trailing-assistant guards
 * (api.py:156-160), the derived `with_function_call` flag (api.py:162-163),
 * the `stop` / `stop_token_ids` normalisation (api.py:166-170) and the
 * generation parameters handed to the engine (api.py:172-184).
 */
module RequestNormalizer {
  import opened Wrappers
  import opened Schema

  /** How an optional field of a request body arrived: left out, explicit null, or a value. */
  datatype BodyField<T> = Absent | Null | Given(value: T)

  /** A field's value after schema defaults: `default` when absent, None when null. */
  function WithDefault<T>(f: BodyField<T>, default: Option<T>): (o: Option<T>)
    ensures f.Absent? ==> o == default
    ensures f.Null? ==> o == None
    ensures f.Given? ==> o == Some(f.value)
  {
    match f
    case Absent => default
    case Null => None
    case Given(v) => Some(v)
  }

  /** Schema defaults of ChatCompletionRequest (api.py:71-83). */
  const DEFAULT_TEMPERATURE: real := 0.7
  const DEFAULT_TOP_P: real := 1.0
  const DEFAULT_MAX_TOKENS: int := 4096
  const DEFAULT_STREAM: bool := false
  const DEFAULT_CHUNK: bool := true
  const DEFAULT_REPETITION_PENALTY: real := 1.1
  const DEFAULT_RETURN_FUNCTION_CALL: bool := false

  /** The generation budget used when the request's `max_tokens` is None or 0 (api.py:176). */
  const FALLBACK_MAX_TOKENS: int := 1024

  /** `stop`: a single string or a list of strings (api.py:74). */
  datatype StopSetting = StopString(s: string) | StopList(items: seq<string>)

  /** A request body as parsed, before schema defaults are applied. */
  datatype RequestBody = RequestBody(
    messages: seq<ChatMessage>,
    temperature: BodyField<real>,
    topP: BodyField<real>,
    maxTokens: BodyField<int>,
    stop: BodyField<StopSetting>,
    stream: BodyField<bool>,
    chunk: BodyField<bool>,
    stopTokenIds: BodyField<seq<int>>,
    repetitionPenalty: BodyField<real>,
    returnFunctionCall: BodyField<bool>)

  /** ChatCompletionRequest (api.py:69-83); the handler overwrites `stop` and `stopTokenIds`. */
  class ChatCompletionRequest {
    var messages: seq<ChatMessage>
    var temperature: Option<real>
    var topP: Option<real>
    var maxTokens: Option<int>
    var stop: Option<StopSetting>
    var stream: Option<bool>
    var chunk: Option<bool>
    var stopTokenIds: Option<seq<int>>
    var repetitionPenalty: Option<real>
    var returnFunctionCall: Option<bool>

    /** Builds the request object, filling every absent field with its schema default. */
    constructor FromBody(body: RequestBody)
      ensures messages == body.messages
      ensures temperature == WithDefault(body.temperature, Some(DEFAULT_TEMPERATURE))
      ensures topP == WithDefault(body.topP, Some(DEFAULT_TOP_P))
      ensures maxTokens == WithDefault(body.maxTokens, Some(DEFAULT_MAX_TOKENS))
      ensures stop == WithDefault(body.stop, None)
      ensures stream == WithDefault(body.stream, Some(DEFAULT_STREAM))
      ensures chunk == WithDefault(body.chunk, Some(DEFAULT_CHUNK))
      ensures stopTokenIds == WithDefault(body.stopTokenIds, None)
      ensures repetitionPenalty == WithDefault(body.repetitionPenalty, Some(DEFAULT_REPETITION_PENALTY))
      ensures returnFunctionCall == WithDefault(body.returnFunctionCall, Some(DEFAULT_RETURN_FUNCTION_CALL))
    {
      messages := body.messages;
      temperature := WithDefault(body.temperature, Some(DEFAULT_TEMPERATURE));
      topP := WithDefault(body.topP, Some(DEFAULT_TOP_P));
      maxTokens := WithDefault(body.maxTokens, Some(DEFAULT_MAX_TOKENS));
      stop := WithDefault(body.stop, None);
      stream := WithDefault(body.stream, Some(DEFAULT_STREAM));
      chunk := WithDefault(body.chunk, Some(DEFAULT_CHUNK));
      stopTokenIds := WithDefault(body.stopTokenIds, None);
      repetitionPenalty := WithDefault(body.repetitionPenalty, Some(DEFAULT_REPETITION_PENALTY));
      returnFunctionCall := WithDefault(body.returnFunctionCall, Some(DEFAULT_RETURN_FUNCTION_CALL));
    }
  }

  /** Python truthiness of an `Optional[bool]`: None is false (api.py:186, 194, 263). */
  function Truthy(b: Option<bool>): (truthy: bool)
    ensures b == None ==> !truthy
    ensures b == Some(false) ==> !truthy
    ensures b == Some(true) ==> truthy
  {
    b == Some(true)
  }

  /** The process-wide model and tokenizer handles; either may be missing (None). */
  datatype Server = Server(modelLoaded: bool, tokenizerLoaded: bool)
  {
    /** The negation of `model is None or tokenizer is None` (api.py:156, 247). */
    function Available(): (available: bool)
      ensures !available <==> !modelLoaded || !tokenizerLoaded
    {
      modelLoaded && tokenizerLoaded
    }
  }

  const CHAT_NOT_AVAILABLE: HttpError := HttpError(404, "chat API not available")
  const INVALID_REQUEST: HttpError := HttpError(400, "Invalid request")

  /**
   * The guards of api.py:156-160, in their order. Reading `messages[-1]` of
   * an empty list raises IndexError, so a served request must carry at least
   * one message; an unavailable server answers 404 before looking at them.
   */
  function CheckRequest(server: Server, messages: seq<ChatMessage>): (rejection: Option<HttpError>)
    requires server.Available() ==> |messages| > 0
    ensures !server.Available() ==> rejection == Some(CHAT_NOT_AVAILABLE)
    ensures server.Available() ==>
      (rejection == Some(INVALID_REQUEST) <==> messages[|messages| - 1].role == Assistant)
    ensures rejection.None? <==> server.Available() && messages[|messages| - 1].role != Assistant
  {
    if !server.Available() then Some(CHAT_NOT_AVAILABLE)
    else if messages[|messages| - 1].role == Assistant then Some(INVALID_REQUEST)
    else None
  }

  /** A request ending in a user, system or observation turn is never rejected as invalid. */
  lemma NonAssistantTurnAccepted(server: Server, messages: seq<ChatMessage>)
    requires server.Available() && |messages| > 0
    requires messages[|messages| - 1].role in {User, System, Observation}
    ensures CheckRequest(server, messages) == None
  {
  }

  /**
   * Whether tool-augmented parsing is on: the first message is a system
   * message that carries a tool list (api.py:162-163).
   */
  function WithFunctionCall(messages: seq<ChatMessage>): (on: bool)
    requires |messages| > 0
    ensures on <==> messages[0].role == System && messages[0].tools.Some?
  {
    messages[0].role == System && messages[0].tools != None
  }

  /** Tools on any message after the first never turn the flag on. */
  lemma WithFunctionCallReadsFirstOnly(first: ChatMessage, rest: seq<ChatMessage>, other: seq<ChatMessage>)
    ensures WithFunctionCall([first] + rest) == WithFunctionCall([first] + other)
  {
    assert ([first] + rest)[0] == first == ([first] + other)[0];
  }

  /** Python truthiness of `stop` in `request.stop or []` (api.py:166): None, "" and [] are false. */
  function StopIsSet(stop: Option<StopSetting>): (isSet: bool)
    ensures !isSet <==> stop in {None, Some(StopString("")), Some(StopList([]))}
  {
    match stop
    case None => false
    case Some(StopString(s)) => s != ""
    case Some(StopList(items)) => items != []
  }

  /** `stop` as a list of stop strings (api.py:166-168). */
  function NormalizedStop(stop: Option<StopSetting>): (stops: seq<string>)
    ensures !StopIsSet(stop) ==> stops == []
    ensures stop.Some? && stop.value.StopString? && stop.value.s != "" ==> stops == [stop.value.s]
    ensures stop.Some? && stop.value.StopList? ==> stops == stop.value.items
  {
    match stop
    case None => []
    case Some(StopString(s)) => if s == "" then [] else [s]
    case Some(StopList(items)) => items
  }

  /** Normalising an already normalised `stop` changes nothing. */
  lemma NormalizedStopIdempotent(stop: Option<StopSetting>)
    ensures NormalizedStop(Some(StopList(NormalizedStop(stop)))) == NormalizedStop(stop)
  {
  }

  /** `stop_token_ids or []` (api.py:170). */
  function NormalizedStopTokenIds(ids: Option<seq<int>>): (r: seq<int>)
    ensures ids.None? ==> r == []
    ensures ids.Some? ==> r == ids.value
  {
    if ids.Some? && ids.value != [] then ids.value else []
  }

  /** `max_tokens or 1024` (api.py:176): never 0, and 1024 exactly when the request gave None or 0. */
  function EffectiveMaxTokens(maxTokens: Option<int>): (budget: int)
    ensures budget != 0
    ensures budget == FALLBACK_MAX_TOKENS <==> maxTokens in {None, Some(0), Some(FALLBACK_MAX_TOKENS)}
    ensures maxTokens.Some? && maxTokens.value != 0 ==> budget == maxTokens.value
  {
    if maxTokens.Some? && maxTokens.value != 0 then maxTokens.value else FALLBACK_MAX_TOKENS
  }

  /**
   * A body without `max_tokens` generates with the schema default 4096;
   * an explicit null or 0 falls back to 1024 instead.
   */
  lemma MaxTokensDefaults()
    ensures EffectiveMaxTokens(WithDefault(Absent, Some(DEFAULT_MAX_TOKENS))) == 4096
    ensures EffectiveMaxTokens(WithDefault(Null, Some(DEFAULT_MAX_TOKENS))) == 1024
    ensures EffectiveMaxTokens(WithDefault(Given(0), Some(DEFAULT_MAX_TOKENS))) == 1024
  {
  }

  /** The `gen_params` dictionary of api.py:172-184. */
  datatype GenParams = GenParams(
    messages: seq<ChatMessage>,
    temperature: Option<real>,
    topP: Option<real>,
    maxTokens: int,
    echo: bool,
    stream: Option<bool>,
    chunk: Option<bool>,
    stopTokenIds: seq<int>,
    stop: seq<string>,
    repetitionPenalty: Option<real>,
    withFunctionCall: bool)

  /** The generation parameters a validated request (as received) is turned into. */
  function GenerationParams(
    messages: seq<ChatMessage>, temperature: Option<real>, topP: Option<real>, maxTokens: Option<int>,
    stop: Option<StopSetting>, stream: Option<bool>, chunk: Option<bool>, stopTokenIds: Option<seq<int>>,
    repetitionPenalty: Option<real>): (params: GenParams)
    requires |messages| > 0
    ensures params.messages == messages && !params.echo
    ensures params.maxTokens == EffectiveMaxTokens(maxTokens)
    ensures params.stop == NormalizedStop(stop) && params.stopTokenIds == NormalizedStopTokenIds(stopTokenIds)
    ensures params.withFunctionCall == WithFunctionCall(messages)
    ensures params.temperature == temperature && params.topP == topP
    ensures params.stream == stream && params.chunk == chunk && params.repetitionPenalty == repetitionPenalty
  {
    GenParams(messages, temperature, topP, EffectiveMaxTokens(maxTokens), false, stream, chunk,
              NormalizedStopTokenIds(stopTokenIds), NormalizedStop(stop), repetitionPenalty,
              WithFunctionCall(messages))
  }
}
