/**
 * The `/chat` handler `create_chat_completion` (api.py:152-218), with the
 * generation engine, `process_response` and `json.dumps` as collaborators
 * whose behaviour is given, not modelled.
 */
module ChatEndpoint {
  import opened Wrappers
  import opened Schema
  import opened UsageAccumulator
  import opened RequestNormalizer
  import opened DeltaFramer
  import opened ResultShaping

  /** What the single-shot engine reports: the generated text and its usage. */
  datatype EngineOutput = EngineOutput(text: string, usage: Usage)

  /** The code the handler calls but that is not part of this model. */
  datatype Collaborators = Collaborators(
    generate: GenParams -> EngineOutput,
    generateStream: GenParams -> seq<Snapshot>,
    resolve: (string, seq<Dict>) -> (Content, seq<Dict>),
    dumps: Dict -> string)

  /** A served chat request: one completion, or the event stream of `predict`. */
  datatype Reply = Completion(response: ChatCompletionResponse) | EventStream(items: seq<StreamItem>)

  /** The non-streaming response: the shaped choice and the engine's usage. */
  function CompletionFor(params: GenParams, returnFunctionCall: Option<bool>, env: Collaborators): (response: ChatCompletionResponse)
    ensures response.model == MODEL && response.objectType == COMPLETION_OBJECT
    ensures response.usage == Some(env.generate(params).usage)
    ensures |response.choices| == 1
    ensures response.choices[0] ==
      ShapeChoice(params.withFunctionCall, returnFunctionCall, env.generate(params).text, params.messages, env.resolve, env.dumps)
  {
    var out := env.generate(params);
    ChatCompletionResponse(MODEL, COMPLETION_OBJECT,
      [ShapeChoice(params.withFunctionCall, returnFunctionCall, out.text, params.messages, env.resolve, env.dumps)],
      Some(out.usage))
  }

  /** The reply to an accepted request, from its generation parameters. */
  function ReplyFor(params: GenParams, returnFunctionCall: Option<bool>, env: Collaborators): (reply: Reply)
    ensures reply.EventStream? <==> Truthy(params.stream)
    ensures reply.EventStream? ==>
      reply.items == FramedStream(MODEL, Truthy(params.chunk), Texts(env.generateStream(params)))
    ensures reply.Completion? ==> reply.response == CompletionFor(params, returnFunctionCall, env)
  {
    if Truthy(params.stream) then
      EventStream(FramedStream(MODEL, Truthy(params.chunk), Texts(env.generateStream(params))))
    else
      Completion(CompletionFor(params, returnFunctionCall, env))
  }

  /**
   * `create_chat_completion`: reject, or normalise `stop` and
   * `stop_token_ids` in place, build the generation parameters and reply.
   */
  method CreateChatCompletion(server: Server, request: ChatCompletionRequest, env: Collaborators)
    returns (r: Result<Reply, HttpError>)
    requires server.Available() ==> |request.messages| > 0
    modifies request
    ensures CheckRequest(server, old(request.messages)).Some? ==>
      r == Failure(CheckRequest(server, old(request.messages)).value) && unchanged(request)
    ensures CheckRequest(server, old(request.messages)).None? ==>
      && request.stop == Some(StopList(NormalizedStop(old(request.stop))))
      && request.stopTokenIds == Some(NormalizedStopTokenIds(old(request.stopTokenIds)))
      && request.messages == old(request.messages) && request.temperature == old(request.temperature)
      && request.topP == old(request.topP) && request.maxTokens == old(request.maxTokens)
      && request.stream == old(request.stream) && request.chunk == old(request.chunk)
      && request.repetitionPenalty == old(request.repetitionPenalty)
      && request.returnFunctionCall == old(request.returnFunctionCall)
      && r == Success(ReplyFor(
           GenerationParams(request.messages, request.temperature, request.topP, request.maxTokens,
                            old(request.stop), request.stream, request.chunk, old(request.stopTokenIds),
                            request.repetitionPenalty),
           request.returnFunctionCall, env))
  {
    if !server.Available() {
      return Failure(CHAT_NOT_AVAILABLE);
    }
    if request.messages[|request.messages| - 1].role == Assistant {
      return Failure(INVALID_REQUEST);
    }

    var withFunctionCall := request.messages[0].role == System && request.messages[0].tools != None;
    ghost var spec := GenerationParams(request.messages, request.temperature, request.topP, request.maxTokens,
                                       request.stop, request.stream, request.chunk, request.stopTokenIds,
                                       request.repetitionPenalty);

    NormalizeStops(request);

    var maxTokens := if request.maxTokens.Some? && request.maxTokens.value != 0
                     then request.maxTokens.value else FALLBACK_MAX_TOKENS;
    var params := GenParams(request.messages, request.temperature, request.topP, maxTokens, false,
                            request.stream, request.chunk, request.stopTokenIds.value,
                            request.stop.value.items, request.repetitionPenalty, withFunctionCall);
    assert params == spec;

    if Truthy(request.stream) {
      var framed := Predict(MODEL, server, params, env.generateStream);
      return Success(EventStream(framed.value));
    }

    var response := Complete(params, request.returnFunctionCall, env);
    r := Success(Completion(response));
  }

  /**
   * The stop settings of api.py:166-170: `stop` and `stop_token_ids` are
   * overwritten in place with their normalised lists; nothing else changes.
   */
  method NormalizeStops(request: ChatCompletionRequest)
    modifies request
    ensures request.stop == Some(StopList(NormalizedStop(old(request.stop))))
    ensures request.stopTokenIds == Some(NormalizedStopTokenIds(old(request.stopTokenIds)))
    ensures request.messages == old(request.messages) && request.temperature == old(request.temperature)
    ensures request.topP == old(request.topP) && request.maxTokens == old(request.maxTokens)
    ensures request.stream == old(request.stream) && request.chunk == old(request.chunk)
    ensures request.repetitionPenalty == old(request.repetitionPenalty)
    ensures request.returnFunctionCall == old(request.returnFunctionCall)
  {
    if !StopIsSet(request.stop) {
      request.stop := Some(StopList([]));
    }
    if request.stop.value.StopString? {
      request.stop := Some(StopList([request.stop.value.s]));
    }
    if !(request.stopTokenIds.Some? && request.stopTokenIds.value != []) {
      request.stopTokenIds := Some([]);
    }
  }

  /**
   * The non-streaming tail of the handler (api.py:190-218): generate, shape
   * the choice, merge the engine's usage into a zeroed UsageInfo.
   */
  method Complete(params: GenParams, returnFunctionCall: Option<bool>, env: Collaborators)
    returns (response: ChatCompletionResponse)
    ensures response == CompletionFor(params, returnFunctionCall, env)
  {
    var out := env.generate(params);
    var usage := new UsageInfo();

    var finishReason, history := Stop, None;
    var message;
    if params.withFunctionCall && Truthy(returnFunctionCall) {
      history := Some(MessageDicts(params.messages));
      var resolved := env.resolve(out.text, history.value);
      history := Some(resolved.1);
      match resolved.0 {
        case DictContent(call) =>
          message, finishReason := ChatMessage(Assistant, Some(env.dumps(call)), None, None), FunctionCall;
        case StrContent(s) =>
          message := ChatMessage(Assistant, Some(s), None, None);
      }
    } else {
      message := ChatMessage(Assistant, Some(out.text), None, None);
    }

    var choice := ResponseChoice(0, message, finishReason, history);
    assert choice == ShapeChoice(params.withFunctionCall, returnFunctionCall, out.text, params.messages,
                                 env.resolve, env.dumps);

    usage.Accumulate(out.usage);
    AddZero(out.usage);

    response := ChatCompletionResponse(MODEL, COMPLETION_OBJECT, [choice], Some(usage.Value()));
  }

  /**
   * A plain chat (no tool list in a leading system message) is answered with
   * finish reason `stop`, the engine's text and the engine's usage.
   */
  lemma PlainChatReply(params: GenParams, returnFunctionCall: Option<bool>, env: Collaborators)
    requires !Truthy(params.stream) && !params.withFunctionCall
    ensures var reply := ReplyFor(params, returnFunctionCall, env);
      && reply.Completion?
      && reply.response.choices == [ResponseChoice(0, ChatMessage(Assistant, Some(env.generate(params).text), None, None), Stop, None)]
      && reply.response.usage == Some(env.generate(params).usage)
  {
  }

  /**
   * A request opening with a system message that carries tools, asking for
   * function calls, whose generated text resolves to a structured call, is
   * answered with finish reason `function_call`, the call's JSON text and
   * the resolved history.
   */
  lemma FunctionCallReply(messages: seq<ChatMessage>, params: GenParams, env: Collaborators)
    requires |messages| > 0 && messages[0].role == System && messages[0].tools.Some?
    requires params.messages == messages && params.withFunctionCall == WithFunctionCall(messages)
    requires !Truthy(params.stream)
    requires env.resolve(env.generate(params).text, MessageDicts(messages)).0.DictContent?
    ensures var reply := ReplyFor(params, Some(true), env);
      var resolved := env.resolve(env.generate(params).text, MessageDicts(messages));
      && reply.Completion?
      && |reply.response.choices| == 1
      && reply.response.choices[0].finishReason == FunctionCall
      && reply.response.choices[0].message.content == Some(env.dumps(resolved.0.call))
      && reply.response.choices[0].history == Some(resolved.1)
  {
  }
}
