/**
 * The streaming delta framer `predict` (api.py:244-287): it turns the
 * engine's cumulative text snapshots into one role event, one content event
 * per non-empty fragment, one `stop` event and the `[DONE]` sentinel.
 */
module DeltaFramer {
  import opened Wrappers
  import opened Schema
  import opened RequestNormalizer

  /** One item the streaming engine yields: the whole text decoded so far, and its usage. */
  datatype Snapshot = Snapshot(text: string, usage: Usage)

  const STREAM_NOT_AVAILABLE: HttpError := HttpError(404, "model and tokenizer not available")

  function Last<T>(s: seq<T>): T
    requires |s| > 0
  {
    s[|s| - 1]
  }

  /** The texts of a snapshot sequence, in order. */
  function Texts(snapshots: seq<Snapshot>): (texts: seq<string>)
    ensures |texts| == |snapshots|
    ensures forall k :: 0 <= k < |snapshots| ==> texts[k] == snapshots[k].text
  {
    seq(|snapshots|, k requires 0 <= k < |snapshots| => snapshots[k].text)
  }

  /** Python's `s[n:]` for a non-negative n: empty once n reaches past the end. */
  function DropPrefix(s: string, n: nat): (rest: string)
    ensures |rest| == if n <= |s| then |s| - n else 0
    ensures n <= |s| ==> s == s[..n] + rest
  {
    if n <= |s| then s[n..] else ""
  }

  /** `a` is a prefix of `b`. */
  predicate IsPrefix(a: string, b: string)
  {
    |a| <= |b| && b[..|a|] == a
  }

  /** Every snapshot extends the one before it. */
  predicate PrefixGrowing(texts: seq<string>)
  {
    forall i :: 0 < i < |texts| ==> IsPrefix(texts[i - 1], texts[i])
  }

  /**
   * The value of `previous_text` once the snapshots `seen` are processed:
   * the last one in chunk mode, "" otherwise (api.py:260, 265).
   */
  function PreviousText(chunk: bool, seen: seq<string>): (previous: string)
    ensures !chunk || seen == [] ==> previous == ""
    ensures chunk && |seen| > 0 ==> previous == seen[|seen| - 1]
  {
    if chunk && |seen| > 0 then Last(seen) else ""
  }

  /** `delta_text` for one snapshot (api.py:263-267). */
  function Delta(chunk: bool, previous: string, text: string): (delta: string)
    ensures !chunk ==> delta == text
    ensures chunk && |previous| <= |text| ==> delta == text[|previous|..]
    ensures chunk && IsPrefix(previous, text) ==> previous + delta == text
    ensures chunk && |text| <= |previous| ==> delta == ""
  {
    if chunk then DropPrefix(text, |previous|) else text
  }

  /** The `delta_text` computed for every snapshot, empty ones included. */
  function Deltas(chunk: bool, texts: seq<string>): (deltas: seq<string>)
    ensures |deltas| == |texts|
  {
    if texts == [] then []
    else
      var seen := texts[..|texts| - 1];
      Deltas(chunk, seen) + [Delta(chunk, PreviousText(chunk, seen), Last(texts))]
  }

  /** The strings of `s` that are not empty, in their order (api.py:269). */
  function NonEmpty(s: seq<string>): (kept: seq<string>)
    ensures |kept| <= |s|
    ensures forall k :: 0 <= k < |kept| ==> kept[k] != ""
  {
    if s == [] then []
    else NonEmpty(s[..|s| - 1]) + if Last(s) != "" then [Last(s)] else []
  }

  /** The fragments that become content events (api.py:263-269): at most one per snapshot, none empty. */
  function Emitted(chunk: bool, texts: seq<string>): (emitted: seq<string>)
    ensures |emitted| <= |texts|
    ensures forall k :: 0 <= k < |emitted| ==> emitted[k] != ""
  {
    NonEmpty(Deltas(chunk, texts))
  }

  /** String concatenation of a list of fragments. */
  function Concat(s: seq<string>): string
  {
    if s == [] then "" else Concat(s[..|s| - 1]) + Last(s)
  }

  /** The first event: role `assistant`, no content, no finish reason (api.py:251-258). */
  function OpeningChunk(modelId: string): (opening: ChatCompletionResponse)
    ensures opening.model == modelId && opening.objectType == CHUNK_OBJECT && opening.usage == None
    ensures |opening.choices| == 1 && opening.choices[0].StreamChoice? && opening.choices[0].index == 0
    ensures opening.choices[0].delta == DeltaMessage(Some(Assistant), None)
    ensures opening.choices[0].streamFinish == None
  {
    ChatCompletionResponse(modelId, CHUNK_OBJECT,
      [StreamChoice(0, DeltaMessage(Some(Assistant), None), None)], None)
  }

  /** A content event carrying one fragment (api.py:270-277). */
  function ContentChunk(modelId: string, fragment: string): (content: ChatCompletionResponse)
    ensures content.model == modelId && content.objectType == CHUNK_OBJECT && content.usage == None
    ensures |content.choices| == 1 && content.choices[0].StreamChoice? && content.choices[0].index == 0
    ensures content.choices[0].delta == DeltaMessage(None, Some(fragment))
    ensures content.choices[0].streamFinish == None
  {
    ChatCompletionResponse(modelId, CHUNK_OBJECT,
      [StreamChoice(0, DeltaMessage(None, Some(fragment)), None)], None)
  }

  /** The closing event: an empty delta and finish reason `stop` (api.py:279-286). */
  function ClosingChunk(modelId: string): (closing: ChatCompletionResponse)
    ensures closing.model == modelId && closing.objectType == CHUNK_OBJECT && closing.usage == None
    ensures |closing.choices| == 1 && closing.choices[0].StreamChoice? && closing.choices[0].index == 0
    ensures closing.choices[0].delta == DeltaMessage(None, None)
    ensures closing.choices[0].streamFinish == Some(Stop)
  {
    ChatCompletionResponse(modelId, CHUNK_OBJECT,
      [StreamChoice(0, DeltaMessage(None, None), Some(Stop))], None)
  }

  function ContentChunks(modelId: string, fragments: seq<string>): (items: seq<StreamItem>)
    ensures |items| == |fragments|
  {
    seq(|fragments|, k requires 0 <= k < |fragments| => Chunk(ContentChunk(modelId, fragments[k])))
  }

  /** The whole event stream `predict` yields for a snapshot sequence. */
  function FramedStream(modelId: string, chunk: bool, texts: seq<string>): (items: seq<StreamItem>)
    ensures 3 <= |items| <= |texts| + 3
    ensures items[0] == Chunk(OpeningChunk(modelId))
    ensures items[|items| - 2] == Chunk(ClosingChunk(modelId)) && items[|items| - 1] == Done
  {
    [Chunk(OpeningChunk(modelId))] + ContentChunks(modelId, Emitted(chunk, texts))
      + [Chunk(ClosingChunk(modelId)), Done]
  }

  /** The fragment computed for snapshot i, given the snapshots before it. */
  lemma {:induction false} DeltasAt(chunk: bool, texts: seq<string>, i: nat)
    requires i < |texts|
    ensures Deltas(chunk, texts)[i] == Delta(chunk, PreviousText(chunk, texts[..i]), texts[i])
  {
    var seen := texts[..|texts| - 1];
    if i < |texts| - 1 {
      DeltasAt(chunk, seen, i);
      assert seen[..i] == texts[..i];
    }
  }

  /** In chunk mode every fragment is a suffix of its own snapshot, whatever came before. */
  lemma ChunkDeltaIsSuffix(previous: string, text: string)
    ensures var d := Delta(true, previous, text); |d| <= |text| && text[|text| - |d|..] == d
  {
  }

  /** Empty fragments contribute nothing to the concatenation. */
  lemma {:induction false} ConcatNonEmpty(s: seq<string>)
    ensures Concat(NonEmpty(s)) == Concat(s)
  {
    if s != [] {
      var init := s[..|s| - 1];
      ConcatNonEmpty(init);
      if Last(s) != "" {
        assert NonEmpty(s) == NonEmpty(init) + [Last(s)];
        assert NonEmpty(s)[..|NonEmpty(s)| - 1] == NonEmpty(init);
      } else {
        assert NonEmpty(s) == NonEmpty(init);
      }
    }
  }

  /** In chunk mode the per-snapshot fragments of prefix-growing snapshots rebuild the last one. */
  lemma {:induction false} ChunkDeltasConcat(texts: seq<string>)
    requires |texts| > 0 && PrefixGrowing(texts)
    ensures Concat(Deltas(true, texts)) == Last(texts)
  {
    var seen := texts[..|texts| - 1];
    var ds := Deltas(true, texts);
    assert ds[..|ds| - 1] == Deltas(true, seen);
    if seen == [] {
      assert Concat(Deltas(true, seen)) == "";
    } else {
      assert PrefixGrowing(seen) by {
        forall i | 0 < i < |seen| ensures IsPrefix(seen[i - 1], seen[i]) {
          assert seen[i - 1] == texts[i - 1] && seen[i] == texts[i];
        }
      }
      ChunkDeltasConcat(seen);
      assert IsPrefix(texts[|texts| - 2], texts[|texts| - 1]);
    }
  }

  /**
   * Chunk mode: for prefix-growing snapshots the emitted fragments
   * concatenate back to the last snapshot's text ("" for no snapshots).
   */
  lemma ChunkFragmentsReassemble(texts: seq<string>)
    requires PrefixGrowing(texts)
    ensures Concat(Emitted(true, texts)) == if texts == [] then "" else Last(texts)
  {
    ConcatNonEmpty(Deltas(true, texts));
    if texts != [] {
      ChunkDeltasConcat(texts);
    }
  }

  /** Non-chunk mode: each fragment is its snapshot's text verbatim; `previous_text` plays no role. */
  lemma {:induction false} NonChunkVerbatim(texts: seq<string>)
    ensures Deltas(false, texts) == texts
    ensures Emitted(false, texts) == NonEmpty(texts)
  {
    if texts != [] {
      NonChunkVerbatim(texts[..|texts| - 1]);
      assert texts == texts[..|texts| - 1] + [Last(texts)];
    }
  }

  /** The indices of the non-empty strings of `s`, ascending. */
  function NonEmptyPositions(s: seq<string>): (ps: seq<nat>)
    ensures |ps| == |NonEmpty(s)|
  {
    if s == [] then []
    else NonEmptyPositions(s[..|s| - 1]) + if Last(s) != "" then [|s| - 1] else []
  }

  /** The kept positions are in range and strictly increasing. */
  lemma {:induction false} NonEmptyPositionsAscending(s: seq<string>)
    ensures forall k :: 0 <= k < |NonEmptyPositions(s)| ==> NonEmptyPositions(s)[k] < |s|
    ensures forall k, l :: 0 <= k < l < |NonEmptyPositions(s)| ==> NonEmptyPositions(s)[k] < NonEmptyPositions(s)[l]
  {
    if s != [] {
      var init := s[..|s| - 1];
      NonEmptyPositionsAscending(init);
      var ps, pi := NonEmptyPositions(s), NonEmptyPositions(init);
      if Last(s) != "" {
        assert ps == pi + [|s| - 1];
        forall k, l | 0 <= k < l < |ps|
          ensures ps[k] < ps[l]
        {
          if l < |pi| {
            assert ps[k] == pi[k] && ps[l] == pi[l];
          } else {
            assert ps[k] == pi[k] < |init|;
          }
        }
      } else {
        assert ps == pi;
      }
    }
  }

  /** The k-th kept string is the entry of `s` at the k-th kept position, and it is not empty. */
  lemma {:induction false} NonEmptyAtPositions(s: seq<string>)
    ensures var ps := NonEmptyPositions(s);
      forall k :: 0 <= k < |ps| ==> ps[k] < |s| && s[ps[k]] != "" && NonEmpty(s)[k] == s[ps[k]]
  {
    if s != [] {
      var init := s[..|s| - 1];
      NonEmptyAtPositions(init);
      var ps, pi := NonEmptyPositions(s), NonEmptyPositions(init);
      var kept, keptInit := NonEmpty(s), NonEmpty(init);
      forall k | 0 <= k < |ps|
        ensures ps[k] < |s| && s[ps[k]] != "" && kept[k] == s[ps[k]]
      {
        if k < |pi| {
          assert ps[k] == pi[k] && kept[k] == keptInit[k] && init[pi[k]] == s[pi[k]];
        }
      }
    }
  }

  /** Every non-empty entry of `s` is kept. */
  lemma {:induction false} NonEmptyPositionsComplete(s: seq<string>)
    ensures forall j :: 0 <= j < |s| && s[j] != "" ==> j in NonEmptyPositions(s)
  {
    if s != [] {
      var init := s[..|s| - 1];
      NonEmptyPositionsComplete(init);
      forall j | 0 <= j < |s| && s[j] != ""
        ensures j in NonEmptyPositions(s)
      {
        if j < |init| {
          assert init[j] == s[j];
        }
      }
    }
  }

  /**
   * Suppression keeps order and loses nothing else: the kept strings are
   * exactly the non-empty entries of `s`, at strictly increasing positions.
   */
  lemma {:induction false} NonEmptyKeepsOrder(s: seq<string>)
    ensures var ps := NonEmptyPositions(s);
      && (forall k :: 0 <= k < |ps| ==> ps[k] < |s| && s[ps[k]] != "" && NonEmpty(s)[k] == s[ps[k]])
      && (forall k, l :: 0 <= k < l < |ps| ==> ps[k] < ps[l])
      && (forall j :: 0 <= j < |s| && s[j] != "" ==> j in ps)
  {
    NonEmptyPositionsAscending(s);
    NonEmptyAtPositions(s);
    NonEmptyPositionsComplete(s);
  }

  /** An empty entry of `s` is never among the kept positions. */
  lemma EmptyNotKept(s: seq<string>, j: nat)
    requires j < |s| && s[j] == ""
    ensures j !in NonEmptyPositions(s)
  {
    NonEmptyKeepsOrder(s);
  }

  /** Chunk mode: once snapshots 0..i-1 are seen, `previous_text` is snapshot i-1. */
  lemma PreviousTextAt(texts: seq<string>, i: nat)
    requires 0 < i <= |texts|
    ensures PreviousText(true, texts[..i]) == texts[i - 1]
  {
    var seen := texts[..i];
    assert seen[i - 1] == texts[i - 1];
  }

  /** Chunk mode: after the first snapshot, each fragment is computed against the snapshot before it. */
  lemma ChunkDeltasAt(texts: seq<string>, i: nat)
    requires 0 < i < |texts|
    ensures Deltas(true, texts)[i] == Delta(true, texts[i - 1], texts[i])
  {
    PreviousTextAt(texts, i);
    DeltasAt(true, texts, i);
  }

  /** Chunk mode: a snapshot equal to `previous_text` has an empty fragment. */
  lemma IdenticalTextSilent(text: string)
    ensures Delta(true, text, text) == ""
  {
    assert |DropPrefix(text, |text|)| == 0;
  }

  /** Chunk mode: a snapshot identical to the one before it emits no event. */
  lemma RepeatedSnapshotSilent(texts: seq<string>, i: nat)
    requires 0 < i < |texts| && texts[i] == texts[i - 1]
    ensures Deltas(true, texts)[i] == ""
    ensures i !in NonEmptyPositions(Deltas(true, texts))
  {
    ChunkDeltasAt(texts, i);
    IdenticalTextSilent(texts[i]);
    EmptyNotKept(Deltas(true, texts), i);
  }

  /**
   * The bracketing of the stream: the role event first, then one content
   * event per emitted fragment (never more than there are snapshots), then
   * the `stop` event, and `[DONE]` last and nowhere else.
   */
  lemma FramedStreamShape(modelId: string, chunk: bool, texts: seq<string>)
    ensures var items := FramedStream(modelId, chunk, texts);
      var fragments := Emitted(chunk, texts);
      && |fragments| <= |texts|
      && |items| == |fragments| + 3
      && items[0] == Chunk(ChatCompletionResponse(modelId, CHUNK_OBJECT,
           [StreamChoice(0, DeltaMessage(Some(Assistant), None), None)], None))
      && (forall k :: 1 <= k <= |fragments| ==>
           items[k].Chunk? && fragments[k - 1] != ""
           && items[k].response.choices == [StreamChoice(0, DeltaMessage(None, Some(fragments[k - 1])), None)])
      && items[|items| - 2] == Chunk(ChatCompletionResponse(modelId, CHUNK_OBJECT,
           [StreamChoice(0, DeltaMessage(None, None), Some(Stop))], None))
      && items[|items| - 1] == Done
      && (forall k :: 0 <= k < |items| - 1 ==>
           items[k].Chunk? && items[k].response.model == modelId
           && items[k].response.objectType == CHUNK_OBJECT && items[k].response.usage == None)
  {
  }

  /** The snapshots "H", "He", "Hello" in chunk mode stream "H", "e", "llo". */
  lemma HelloExample()
    ensures Emitted(true, ["H", "He", "Hello"]) == ["H", "e", "llo"]
  {
    var texts := ["H", "He", "Hello"];
    assert texts[..2] == ["H", "He"] && texts[..2][..1] == ["H"] && texts[..2][..1][..0] == [];
    assert Deltas(true, texts) == ["H", "e", "llo"];
    assert ["H", "e", "llo"][..2] == ["H", "e"] && ["H", "e"][..1] == ["H"] && ["H"][..0] == [];
  }

  /** Processing snapshot i appends its fragment, if non-empty, and moves `previous_text` on. */
  lemma EmittedStep(chunk: bool, texts: seq<string>, i: nat)
    requires i < |texts|
    ensures var d := Delta(chunk, PreviousText(chunk, texts[..i]), texts[i]);
      && Emitted(chunk, texts[..i + 1]) == Emitted(chunk, texts[..i]) + (if d != "" then [d] else [])
      && PreviousText(chunk, texts[..i + 1]) == if chunk then texts[i] else ""
  {
    var next := texts[..i + 1];
    assert next[..i] == texts[..i];
    assert next[i] == texts[i];
  }

  /** One more fragment adds one more content event at the end. */
  lemma ContentChunksAppend(modelId: string, fragments: seq<string>, fragment: string)
    ensures ContentChunks(modelId, fragments + [fragment])
         == ContentChunks(modelId, fragments) + [Chunk(ContentChunk(modelId, fragment))]
  {
  }

  /** One pass of the loop body: the events so far grow by this snapshot's event, if any. */
  lemma FramedStep(modelId: string, chunk: bool, texts: seq<string>, i: nat, items: seq<StreamItem>)
    requires i < |texts|
    requires items == [Chunk(OpeningChunk(modelId))] + ContentChunks(modelId, Emitted(chunk, texts[..i]))
    ensures var d := Delta(chunk, PreviousText(chunk, texts[..i]), texts[i]);
      (if d != "" then items + [Chunk(ContentChunk(modelId, d))] else items)
      == [Chunk(OpeningChunk(modelId))] + ContentChunks(modelId, Emitted(chunk, texts[..i + 1]))
  {
    var d := Delta(chunk, PreviousText(chunk, texts[..i]), texts[i]);
    EmittedStep(chunk, texts, i);
    if d != "" {
      ContentChunksAppend(modelId, Emitted(chunk, texts[..i]), d);
    }
  }

  /** The `delta_text` of one decoded snapshot, and the `previous_text` that follows it. */
  method NextDelta(chunk: bool, previousText: string, decoded: string)
    returns (deltaText: string, nextPrevious: string)
    ensures deltaText == Delta(chunk, previousText, decoded)
    ensures nextPrevious == if chunk then decoded else previousText
  {
    if chunk {
      deltaText := DropPrefix(decoded, |previousText|);
      nextPrevious := decoded;
    } else {
      deltaText := decoded;
      nextPrevious := previousText;
    }
  }

  /**
   * The `for` loop of `predict` (api.py:260-277): the role event followed by
   * one content event per non-empty fragment of the snapshots.
   */
  method FrameSnapshots(modelId: string, chunk: bool, snapshots: seq<Snapshot>)
    returns (items: seq<StreamItem>)
    ensures items == [Chunk(OpeningChunk(modelId))] + ContentChunks(modelId, Emitted(chunk, Texts(snapshots)))
  {
    items := [Chunk(OpeningChunk(modelId))];
    var previousText := "";
    ghost var texts := Texts(snapshots);
    for i := 0 to |snapshots|
      invariant previousText == PreviousText(chunk, texts[..i])
      invariant items == [Chunk(OpeningChunk(modelId))] + ContentChunks(modelId, Emitted(chunk, texts[..i]))
    {
      FramedStep(modelId, chunk, texts, i, items);
      EmittedStep(chunk, texts, i);
      var deltaText;
      deltaText, previousText := NextDelta(chunk, previousText, snapshots[i].text);
      if |deltaText| > 0 {
        items := items + [Chunk(ContentChunk(modelId, deltaText))];
      }
    }
    assert texts[..|snapshots|] == texts;
  }

  /**
   * `predict(model_id, params)`: the generator run to completion over the
   * snapshots the streaming engine yields for `params`.
   */
  method Predict(modelId: string, server: Server, params: GenParams,
                 generateStream: GenParams -> seq<Snapshot>)
    returns (r: Result<seq<StreamItem>, HttpError>)
    ensures !server.Available() ==> r == Failure(STREAM_NOT_AVAILABLE)
    ensures server.Available() ==>
      r == Success(FramedStream(modelId, Truthy(params.chunk), Texts(generateStream(params))))
  {
    if !server.Available() {
      return Failure(STREAM_NOT_AVAILABLE);
    }
    var items := FrameSnapshots(modelId, Truthy(params.chunk), generateStream(params));
    items := items + [Chunk(ClosingChunk(modelId)), Done];
    r := Success(items);
  }
}
