# GLM-API chat endpoint: response shaping, in Dafny

This project models the response-shaping core of the OpenAI-compatible chat
endpoint in `api.py` of GLM-API, and proves properties of that model:

- the **streaming delta framer** `predict`, which turns the generation
  engine's cumulative text snapshots into a role event, one content event per
  non-empty fragment, a `stop` event and the `[DONE]` sentinel;
- the **request guards and normalisation** of `create_chat_completion`: the
  404 for a missing model or tokenizer, the 400 for a trailing assistant turn,
  the derived `with_function_call` flag, `stop` / `stop_token_ids`
  normalisation and the `max_tokens or 1024` budget;
- the **non-streaming result**: the finish reason / history branch on the
  output of `process_response`, and the field-by-field usage merge into a
  zeroed `UsageInfo`.

Files, one module each: `wrappers.dfy` (Option, Result), `schema.dfy` (the
request and response records), `usage.dfy` (UsageAccumulator: the usage
record and the mutable `UsageInfo`), `normalizer.dfy` (RequestNormalizer:
the request class with its schema defaults, guards, normalisation, generation
parameters), `framer.dfy` (DeltaFramer: `predict` and its specification),
`shaping.dfy` (ResultShaping: the choice of a non-streaming reply) and
`endpoint.dfy` (ChatEndpoint: the handler itself).

`predict` and the usage merge change state step by step and are methods with
loops (`DeltaFramer.FrameSnapshots`, the loop of `predict`, and
`UsageAccumulator.UsageInfo.Accumulate`), each
proved equal to a specification function about which the properties are
proved as lemmas. The request is a class because the handler overwrites its
`stop` and `stop_token_ids` in place. The guards, the flag, the budget and
the finish-reason branch are expressions and are modelled as functions.

The collaborators whose code is not part of this model are parameters: the
single-shot engine `generate_chatglm3`, the streaming engine
`generate_stream_chatglm3` (a finite sequence of snapshots), `process_response`
(returning a tagged union of a dict or a string) and `json.dumps` (an
uninterpreted function from a dict to a string). The presence of the global
model and tokenizer handles is the `Server` value.

Behaviour of the code that the model keeps:

- an empty `messages` list is not answered with 400: `messages[-1]` raises
  IndexError. A request reaching that line must have a message, so the
  handler requires `Available() ==> |messages| > 0` (an unavailable server
  answers 404 before the messages are read);
- a `stop` of `""` becomes `[]`, not `[""]`, because `request.stop or []`
  treats the empty string as false;
- empty fragments are suppressed in non-chunk mode too (a snapshot with empty
  text emits nothing);
- the non-streaming path never produces the finish reason `length`.

## Model

| member | source | states |
|---|---|---|
| Schema.RoleName | api.py:58 | each role is written as its own literal (`user`, `assistant`, `system`, `observation`), and no two roles share a name |
| UsageAccumulator.Zero | api.py:99-102 | a fresh UsageInfo has every counter at 0 |
| UsageAccumulator.Add | api.py:215-216 | the merge adds each field of the engine's usage to the same field of the total, for all three fields |
| UsageAccumulator.AddZero | api.py:191-216 | merging the engine's usage into a zeroed UsageInfo reports exactly the engine's usage |
| UsageAccumulator.AddAssociative | api.py:215-216 | merging is associative, so successive merges accumulate totals |
| UsageAccumulator.TwoMergesExample | api.py:215-216 | merging {5,10,15} and then {2,3,5} (prompt, completion, total) into zeros gives {7,13,20} |
| UsageAccumulator.UsageInfo.constructor | api.py:191 | `UsageInfo()` starts at all zeros |
| UsageAccumulator.UsageInfo.Get | api.py:216 | `getattr` reads the named field |
| UsageAccumulator.UsageInfo.Set | api.py:216 | `setattr` changes the named field only |
| UsageAccumulator.UsageInfo.Accumulate | api.py:214-216 | after the loop over the three fields the object holds the old total plus the engine's usage, field by field |
| RequestNormalizer.WithDefault | api.py:69-83 | a field left out takes its schema default, an explicit null stays None, a given value is kept |
| RequestNormalizer.ChatCompletionRequest.FromBody | api.py:69-83 | the request object holds each given field, and the schema default (0.7, 1.0, 4096, None, false, true, None, 1.1, false) for each absent one |
| RequestNormalizer.Truthy | api.py:186 | Python truthiness of an optional flag: None and false are false, only true is true, so an explicit null `stream` gets a single completion and an explicit null `chunk` streams whole snapshots |
| RequestNormalizer.Server.Available | api.py:156 | the server is unavailable exactly when the model or the tokenizer is missing (`model is None or tokenizer is None`) |
| RequestNormalizer.CheckRequest | api.py:156-160 | an unavailable model or tokenizer gives 404 whatever the messages; otherwise 400 exactly when the last message has role assistant, and no rejection exactly when it does not |
| RequestNormalizer.NonAssistantTurnAccepted | api.py:159-160 | a last message with role user, system or observation is never rejected |
| RequestNormalizer.WithFunctionCall | api.py:162-163 | the flag is true exactly when the first message has role system and a tool list |
| RequestNormalizer.WithFunctionCallReadsFirstOnly | api.py:162-163 | messages after the first never change the flag |
| RequestNormalizer.StopIsSet | api.py:166 | the falsy `stop` values that `or []` replaces are exactly None, `""` and `[]` |
| RequestNormalizer.NormalizedStop | api.py:166-168 | None, `""` and `[]` become `[]`; a non-empty string s becomes `[s]`; a list is kept as it is |
| RequestNormalizer.NormalizedStopIdempotent | api.py:166-168 | normalising an already normalised `stop` changes nothing |
| RequestNormalizer.NormalizedStopTokenIds | api.py:170 | None becomes `[]`, a list is kept |
| RequestNormalizer.EffectiveMaxTokens | api.py:176 | the budget is never 0; it is the request's value unless that is None or 0, and then 1024 |
| RequestNormalizer.GenerationParams | api.py:172-184 | the engine receives the request's messages and sampling values, `echo` false, the effective token budget, the normalised `stop` and `stop_token_ids`, and the derived `with_function_call` flag |
| RequestNormalizer.MaxTokensDefaults | api.py:73 | a body without `max_tokens` generates with the schema default 4096, while an explicit null or 0 generates with 1024 |
| DeltaFramer.Texts | api.py:261-262 | the snapshot texts, one per snapshot, in order |
| DeltaFramer.DropPrefix | api.py:264 | Python's `s[n:]`: the rest of s after n characters, empty when n is past the end |
| DeltaFramer.PreviousText | api.py:260-265 | `previous_text` is "" before any snapshot and stays "" in non-chunk mode; in chunk mode it is the last snapshot seen |
| DeltaFramer.Delta | api.py:263-267 | non-chunk: the snapshot text itself; chunk: `text[len(previous_text):]`, that is the snapshot from position `len(previous_text)` on whenever the snapshot is at least that long (so `previous_text` + fragment rebuilds a snapshot that extends it), and "" when the snapshot is no longer than `previous_text` |
| DeltaFramer.Deltas | api.py:261-267 | one `delta_text` per snapshot |
| DeltaFramer.Emitted | api.py:263-269 | the fragments that become content events: at most one per snapshot, none of them empty |
| DeltaFramer.NonEmpty | api.py:269 | the kept fragments are non-empty and no more than the candidates |
| DeltaFramer.NonEmptyPositions | api.py:269 | one position per kept fragment |
| DeltaFramer.OpeningChunk | api.py:251-258 | the first chunk has one choice with index 0, role assistant, no content and no finish reason |
| DeltaFramer.ContentChunk | api.py:270-277 | a content event has one choice with index 0, no role, the fragment as content, no finish reason, the model id, the `chat.completion.chunk` object and no usage |
| DeltaFramer.ContentChunks | api.py:270-277 | one content event per fragment |
| DeltaFramer.ClosingChunk | api.py:279-286 | the closing chunk has one choice with index 0, an empty delta and finish reason stop |
| DeltaFramer.FramedStream | api.py:251-287 | the stream opens with the role chunk, ends with the stop chunk and then `[DONE]`, and has at most one content event per snapshot between them |
| DeltaFramer.DeltasAt | api.py:260-267 | the fragment of snapshot i is computed from `previous_text` as left by snapshots 0..i-1: the previous snapshot in chunk mode, "" otherwise |
| DeltaFramer.ChunkDeltaIsSuffix | api.py:264 | in chunk mode each fragment is a suffix of its own snapshot, even for snapshots that do not grow by extension |
| DeltaFramer.ConcatNonEmpty | api.py:269-277 | suppressing empty fragments does not change their concatenation |
| DeltaFramer.ChunkDeltasConcat | api.py:260-265 | for prefix-growing snapshots the chunk-mode fragments concatenate to the last snapshot |
| DeltaFramer.ChunkFragmentsReassemble | api.py:260-277 | chunk mode: for prefix-growing snapshots the emitted fragments concatenate to the last snapshot's text, and to "" when there is none |
| DeltaFramer.NonChunkVerbatim | api.py:263-267 | non-chunk mode: each fragment is its snapshot's text verbatim and the emitted ones are the non-empty snapshots |
| DeltaFramer.NonEmptyPositionsAscending | api.py:269 | the kept positions are snapshot indices, strictly increasing |
| DeltaFramer.NonEmptyAtPositions | api.py:269 | the k-th kept fragment is the non-empty candidate at the k-th kept position |
| DeltaFramer.NonEmptyPositionsComplete | api.py:269 | every non-empty candidate is kept |
| DeltaFramer.NonEmptyKeepsOrder | api.py:269-277 | the emitted fragments are exactly the non-empty fragments, at strictly increasing snapshot positions, none lost |
| DeltaFramer.EmptyNotKept | api.py:269 | an empty fragment is never at a kept position |
| DeltaFramer.PreviousTextAt | api.py:260-265 | chunk mode: after snapshots 0..i-1, `previous_text` is snapshot i-1 |
| DeltaFramer.ChunkDeltasAt | api.py:260-265 | chunk mode: from the second snapshot on, each fragment is cut against the snapshot before it |
| DeltaFramer.IdenticalTextSilent | api.py:264 | chunk mode: a snapshot equal to `previous_text` gives the empty fragment |
| DeltaFramer.RepeatedSnapshotSilent | api.py:263-277 | chunk mode: a snapshot identical to the previous one yields an empty fragment and no event |
| DeltaFramer.FramedStreamShape | api.py:251-287 | the stream is the role event (assistant, no content, no finish reason), one content event per fragment with no role and no finish reason (at most one per snapshot), the event with an empty delta and finish reason stop, and `[DONE]` last and nowhere else |
| DeltaFramer.HelloExample | api.py:260-277 | the snapshots "H", "He", "Hello" in chunk mode give the fragments "H", "e", "llo" |
| DeltaFramer.EmittedStep | api.py:261-277 | one more snapshot appends its fragment to the emitted ones when it is non-empty and nothing otherwise, and moves `previous_text` to that snapshot in chunk mode |
| DeltaFramer.ContentChunksAppend | api.py:270-277 | one more fragment adds one content event at the end of the content events |
| DeltaFramer.FramedStep | api.py:261-277 | one pass of the loop body extends the events yielded so far to the events of one more snapshot |
| DeltaFramer.NextDelta | api.py:262-267 | the loop body's `delta_text` is the specified fragment, and `previous_text` moves to the snapshot in chunk mode only |
| DeltaFramer.FrameSnapshots | api.py:251-277 | after the loop the events yielded are the role event and one content event per emitted fragment, in snapshot order |
| DeltaFramer.Predict | api.py:244-287 | without model or tokenizer the generator raises 404; otherwise it yields exactly the framed stream of the engine's snapshots |
| ResultShaping.MessageDict | api.py:195 | `m.dict(exclude_none=True)`: the role always, and content, metadata and tools exactly when they are not None, each holding the message's own value (the tool list as a JSON array of its dicts) |
| ResultShaping.MessageDicts | api.py:195 | the history is one such dict per message, in order |
| ResultShaping.ShapeChoice | api.py:193-212 | finish reason `function_call` exactly when both flags hold and the resolver returned a dict, `stop` otherwise; history present exactly when both flags hold; the content is the engine's text, the resolver's string or the JSON text of its dict |
| ResultShaping.FunctionCallCarriesHistory | api.py:194-201 | a `function_call` finish comes only with both flags set and with a history |
| ChatEndpoint.CompletionFor | api.py:205-218 | a `chat.completion` for the served model with a single choice shaped from the engine's text, and usage equal to the engine's usage |
| ChatEndpoint.ReplyFor | api.py:186-188 | a streaming request gets the framed event stream of the engine's snapshots, any other the single completion |
| ChatEndpoint.Complete | api.py:190-218 | the non-streaming response carries the shaped choice and a usage equal to the engine's usage |
| ChatEndpoint.NormalizeStops | api.py:166-170 | the request's `stop` and `stop_token_ids` become their normalised lists and no other field changes |
| ChatEndpoint.CreateChatCompletion | api.py:152-218 | rejected requests are left untouched and answered with the guard's error; accepted ones get `stop` and `stop_token_ids` overwritten with their normalised lists, nothing else changed, and the reply built from the normalised generation parameters |
| ChatEndpoint.PlainChatReply | api.py:190-218 | without function calls the reply has finish reason stop, the engine's text and the engine's usage |
| ChatEndpoint.FunctionCallReply | api.py:194-201 | a tool-carrying system message, `return_function_call` and a dict from the resolver give finish reason `function_call`, the dict's JSON text and the resolved history |

## Left out

- Model loading, GPU enumeration and cleanup (`lifespan`, both `list_cuda`, the `__main__` block): device and process I/O.
- `/models`, `/embedding` and `/tokenize`: listings and pass-throughs to the embedding model and tokenizer, outside the chat core; embeddings are floating-point vectors.
- `generate_chatglm3`, `generate_stream_chatglm3`, `process_response` and `load_model_on_gpus` from `utils`: `utils` is not part of this model; the first three are function-valued parameters, so their results are arbitrary.
- JSON serialisation (`chunk.json(exclude_unset=True)`, `json.dumps`): stream items are the structured chunk records and the `Done` sentinel, which is sent as the literal `[DONE]`; `json.dumps` is an uninterpreted function.
- Pydantic validation and coercion (role literals, `Union[str, List[str]]` coercion, `UsageInfo.parse_obj`): values are taken as already typed. The narrower literal sets of a streamed delta's role and finish reason are kept as the subset types `DeltaRole` and `StreamFinishReason`.
- `created` timestamps from `time.time()`, the SSE transport (`EventSourceResponse`) and CORS.
- Sampling parameters (`temperature`, `top_p`, `repetition_penalty`) are carried untouched as `real` values; floating-point behaviour is not modelled.
- Async scheduling, client disconnects and cancellation: `predict` is modelled as run to completion over a finite snapshot sequence, and an engine that raises mid-stream is not modelled.
- Exceptions raised by the single-shot engine `generate_chatglm3` or by `process_response` on the non-streaming path: the source lets them propagate uncaught, but in the model `generate` and `resolve` are total functions, so that failure path has no counterpart.
- UsageAccumulator.UsageInfo.Accumulate: counters are integers; an engine usage whose `completion_tokens` is None (allowed by the schema) makes the source's addition raise TypeError, which is not modelled.
- ChatEndpoint.CreateChatCompletion: requires a non-empty message list on an available server, because the source raises IndexError there rather than answering 400.
