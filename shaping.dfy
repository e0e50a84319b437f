/**
 * The non-streaming result of the chat endpoint (api.py:193-212): which
 * finish reason and history the choice carries, depending on the
 * `with_function_call` flag, the caller's `return_function_call` and on
 * whether `process_response` gave back a dict or a string.
 */
module ResultShaping {
  import opened Wrappers
  import opened Schema
  import opened RequestNormalizer

  /** What `process_response` returns as content: a structured call, or plain text. */
  datatype Content = DictContent(call: Dict) | StrContent(text: string)

  /** `m.dict(exclude_none=True)`: the message's fields that are not None (api.py:195). */
  function MessageDict(m: ChatMessage): (d: Dict)
    ensures d.Keys == {"role"}
      + (if m.content.Some? then {"content"} else {})
      + (if m.metadata.Some? then {"metadata"} else {})
      + (if m.tools.Some? then {"tools"} else {})
    ensures d["role"] == JString(RoleName(m.role))
    ensures m.content.Some? ==> d["content"] == JString(m.content.value)
    ensures m.metadata.Some? ==> d["metadata"] == JString(m.metadata.value)
    ensures m.tools.Some? ==>
      d["tools"] == JArray(seq(|m.tools.value|, k requires 0 <= k < |m.tools.value| => JObject(m.tools.value[k])))
  {
    var withRole := map["role" := JString(RoleName(m.role))];
    var withContent := if m.content.Some? then withRole["content" := JString(m.content.value)] else withRole;
    var withMetadata := if m.metadata.Some? then withContent["metadata" := JString(m.metadata.value)] else withContent;
    if m.tools.Some? then
      withMetadata["tools" := JArray(seq(|m.tools.value|, k requires 0 <= k < |m.tools.value| => JObject(m.tools.value[k])))]
    else withMetadata
  }

  /** The history handed to `process_response`: one dict per message, in order. */
  function MessageDicts(messages: seq<ChatMessage>): (history: seq<Dict>)
    ensures |history| == |messages|
    ensures forall k :: 0 <= k < |messages| ==> history[k] == MessageDict(messages[k])
  {
    seq(|messages|, k requires 0 <= k < |messages| => MessageDict(messages[k]))
  }

  /** The single choice of a non-streaming response (api.py:193-212). */
  function ShapeChoice(
    withFunctionCall: bool, returnFunctionCall: Option<bool>, text: string, messages: seq<ChatMessage>,
    resolve: (string, seq<Dict>) -> (Content, seq<Dict>), dumps: Dict -> string): (c: Choice)
    ensures c.ResponseChoice? && c.index == 0
    ensures c.message.role == Assistant && c.message.metadata == None && c.message.tools == None
    ensures c.finishReason != Length
    ensures c.history.Some? <==> withFunctionCall && Truthy(returnFunctionCall)
    ensures c.finishReason == FunctionCall <==>
      withFunctionCall && Truthy(returnFunctionCall) && resolve(text, MessageDicts(messages)).0.DictContent?
    ensures !(withFunctionCall && Truthy(returnFunctionCall)) ==> c.message.content == Some(text)
    ensures withFunctionCall && Truthy(returnFunctionCall) ==>
      var resolved := resolve(text, MessageDicts(messages));
      && c.history == Some(resolved.1)
      && c.message.content == Some(match resolved.0
                                   case DictContent(call) => dumps(call)
                                   case StrContent(s) => s)
  {
    if withFunctionCall && Truthy(returnFunctionCall) then
      var resolved := resolve(text, MessageDicts(messages));
      match resolved.0
      case DictContent(call) =>
        ResponseChoice(0, ChatMessage(Assistant, Some(dumps(call)), None, None), FunctionCall, Some(resolved.1))
      case StrContent(s) =>
        ResponseChoice(0, ChatMessage(Assistant, Some(s), None, None), Stop, Some(resolved.1))
    else
      ResponseChoice(0, ChatMessage(Assistant, Some(text), None, None), Stop, None)
  }

  /** A `function_call` finish always comes with the resolved history. */
  lemma FunctionCallCarriesHistory(
    withFunctionCall: bool, returnFunctionCall: Option<bool>, text: string, messages: seq<ChatMessage>,
    resolve: (string, seq<Dict>) -> (Content, seq<Dict>), dumps: Dict -> string)
    requires ShapeChoice(withFunctionCall, returnFunctionCall, text, messages, resolve, dumps).finishReason == FunctionCall
    ensures ShapeChoice(withFunctionCall, returnFunctionCall, text, messages, resolve, dumps).history.Some?
    ensures withFunctionCall && returnFunctionCall == Some(true)
  {
  }
}
