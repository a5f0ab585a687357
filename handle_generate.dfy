/**
 * src/handle_generate.ts: `HandleGenerateRequest`, the checks a generate message goes through
 * and the replies it produces: one acknowledgement, then either a binary frame per streamed
 * chunk followed by `generate_stream_done`, or a single `generate_done`.
 *
 * What the active provider does while it is awaited is an input (`ProviderRun`): the chunks it
 * hands the streaming callback and the error it resolves with, or its synchronous result.
 */
module HandleGenerate {
  import opened Wrappers
  import opened Utf8
  import opened JsValues
  import opened Types
  import opened TtsInterface
  import opened Effects
  import opened GlobalState
  import opened TypedSend
  import Seqs

  /** The top-level fields a generate message must carry, in the order they are checked. */
  const GenerateFields: seq<string> := ["unique_request_id", "input", "params", "stream"]

  /** The fields `params` must carry, in the order they are checked. */
  const ParamFields: seq<string> := ["model_id", "voice_id", "timeout_ms"]

  /** The text that ends the id header of a binary frame. */
  const IdTerminator: string := "<|end_of_id|>"

  /**
   * What the active provider does while the handler awaits it: the chunks it hands the streaming
   * callback, how the awaited `GenerateStream` or `Generate` promise settles, and what it
   * resolves to.
   */
  datatype ProviderRun = ProviderRun(chunks: seq<StreamChunk>, ending: Settling, streamResult: GenErr,
                                     syncResult: SyncResult)

  datatype GenRun = GenRun(outcome: Outcome, events: seq<Event>)

  /** The header of a binary frame: `Buffer.from("$" + id + "<|end_of_id|>")`. */
  function FrameHeader(id: JsValue): seq<byte> {
    Encode("$" + ToJsString(id) + IdTerminator)
  }

  /** A binary frame: the header, then the chunk's PCM bytes unchanged. */
  function FrameBytes(id: JsValue, pcm: seq<byte>): seq<byte> {
    FrameHeader(id) + pcm
  }

  function FrameEvent(id: JsValue, pcm: seq<byte>): Event {
    Send(Binary(FrameBytes(id, pcm)))
  }

  /** What the streaming callback sends for each chunk it receives: nothing for a done chunk. */
  function Frames(id: JsValue, chunks: seq<StreamChunk>): seq<Event>
    decreases |chunks|
  {
    if chunks == [] then []
    else
      var last := chunks[|chunks| - 1];
      Frames(id, chunks[..|chunks| - 1]) + (if last.done then [] else [FrameEvent(id, last.chunk)])
  }

  /** No required top-level field is strictly `undefined` (absent: JSON has no `undefined`). */
  predicate FieldsPresent(m: map<string, JsValue>) {
    forall j :: 0 <= j < |GenerateFields| ==> !Field(m, GenerateFields[j]).JUndefined?
  }

  /** No required parameter reads as `undefined` on the (non-nullish) `params` value. */
  predicate ParamsPresent(params: JsValue) {
    forall j :: 0 <= j < |ParamFields| ==> Member(params, ParamFields[j]) != Some(JUndefined)
  }

  /**
   * The loose comparison `x == 0` for the `length` read off the input. A string compares as the
   * number it spells; only "" and "0" are recognised here. Arrays compare through their string
   * form; objects, `null` and `undefined` never equal 0.
   */
  predicate LooseEqualsZero(x: JsValue) {
    match x
    case JNum(v, _) => v == 0.0
    case JBool(b) => !b
    case JStr(s) => s == "" || s == "0"
    case JArr(_) => var t := ToJsString(x); t == "" || t == "0"
    case _ => false
  }

  /** Every check before the acknowledgement passes. */
  predicate Validated(active: Option<ProviderObject>, m: map<string, JsValue>) {
    active.Some? && FieldsPresent(m) &&
    !IsNullish(Field(m, "params")) && ParamsPresent(Field(m, "params")) &&
    !IsNullish(Field(m, "input")) && !LooseEqualsZero(Member(Field(m, "input"), "length").value)
  }

  function AckRecord(id: JsValue): OutRecord {
    OutRecord(GenerateAck, id, GenerateAckBody)
  }

  function StreamDoneRecord(id: JsValue, err: GenErr): OutRecord {
    OutRecord(GenerateStreamDone, id, StreamDoneBody(err != SUCCESS, err))
  }

  function GenerateDoneRecord(id: JsValue, r: SyncResult): OutRecord {
    OutRecord(GenerateDone, id, GenerateDoneBody(r.error != SUCCESS, r.error, r.maybeValue))
  }

  /**
   * How the checks before the acknowledgement end a request that fails one of them: the missing
   * provider, a missing field or parameter and a zero length return early; reading a member of a
   * nullish `params` or `input` throws.
   */
  function Rejection(active: Option<ProviderObject>, m: map<string, JsValue>): (r: Option<Outcome>)
    ensures r.None? <==> Validated(active, m)
    ensures r.Some? ==> r.value != Finished
  {
    var params := Field(m, "params");
    var input := Field(m, "input");
    if active.None? || !FieldsPresent(m) then Some(Dropped)
    else if IsNullish(params) then Some(Raised)
    else if !ParamsPresent(params) then Some(Dropped)
    else if IsNullish(input) then Some(Raised)
    else if LooseEqualsZero(Member(input, "length").value) then Some(Dropped)
    else None
  }

  /** The effect of one `HandleGenerateRequest` call, given the active provider. */
  function Generate(active: Option<ProviderObject>, m: map<string, JsValue>, run: ProviderRun): GenRun {
    var params := Field(m, "params");
    var input := Field(m, "input");
    var id := Field(m, "unique_request_id");
    match Rejection(active, m)
    case Some(outcome) => GenRun(outcome, [])
    case None =>
      var ack := Emitted(GenerateAck, AckRecord(id));
      if Truthy(Field(m, "stream")) then
        GenRun(AwaitOutcome(run.ending), ack + [Call(active.value, GenerateStreamCall(input, params))] +
                                         Frames(id, run.chunks) + StreamAnswer(id, run))
      else
        GenRun(AwaitOutcome(run.ending), ack + [Call(active.value, GenerateCall(input, params))] +
                                         SyncAnswer(id, run))
  }

  /** The final answer of a streamed generation: sent only once the provider's promise resolves. */
  function StreamAnswer(id: JsValue, run: ProviderRun): seq<Event> {
    if run.ending == Resolves then Emitted(GenerateStreamDone, StreamDoneRecord(id, run.streamResult)) else []
  }

  /** The final answer of a synchronous generation: sent only once the provider's promise resolves. */
  function SyncAnswer(id: JsValue, run: ProviderRun): seq<Event> {
    if run.ending == Resolves then Emitted(GenerateDone, GenerateDoneRecord(id, run.syncResult)) else []
  }

  /** The checks at the top of `HandleGenerateRequest`, with their two field loops. */
  method CheckRequest(state: State, message: map<string, JsValue>) returns (r: Option<Outcome>)
    ensures r == Rejection(state.textToSpeech, message)
  {
    if state.textToSpeech.None? {
      return Some(Dropped);
    }
    var i := 0;
    while i < |GenerateFields|
      invariant 0 <= i <= |GenerateFields|
      invariant forall j :: 0 <= j < i ==> !Field(message, GenerateFields[j]).JUndefined?
    {
      if Field(message, GenerateFields[i]).JUndefined? {
        return Some(Dropped);
      }
      i := i + 1;
    }
    var paramsObj := Field(message, "params");
    i := 0;
    while i < |ParamFields|
      invariant 0 <= i <= |ParamFields|
      invariant i > 0 ==> !IsNullish(paramsObj)
      invariant forall j :: 0 <= j < i ==> Member(paramsObj, ParamFields[j]) != Some(JUndefined)
    {
      var v := Member(paramsObj, ParamFields[i]);
      if v.None? {
        return Some(Raised);
      }
      if v.value.JUndefined? {
        return Some(Dropped);
      }
      i := i + 1;
    }
    var length := Member(Field(message, "input"), "length");
    if length.None? {
      return Some(Raised);
    }
    if LooseEqualsZero(length.value) {
      return Some(Dropped);
    }
    return None;
  }

  method HandleGenerateRequest(state: State, host: Host, message: map<string, JsValue>, run: ProviderRun)
    returns (outcome: Outcome)
    modifies host
    ensures var g := Generate(state.textToSpeech, message, run);
            outcome == g.outcome && host.events == old(host.events) + g.events
  {
    var rejected := CheckRequest(state, message);
    if rejected.Some? {
      return rejected.value;
    }
    var input := Field(message, "input");
    var paramsObj := Field(message, "params");
    var id := Field(message, "unique_request_id");
    ghost var start := host.events;
    var sent := SendToClient(host, GenerateAck, AckRecord(id));
    ghost var ack := Emitted(GenerateAck, AckRecord(id));
    var tts := state.textToSpeech.value;
    if Truthy(Field(message, "stream")) {
      outcome := GenerateStreamed(host, tts, id, input, paramsObj, run);
      assert host.events == start + (ack + [Call(tts, GenerateStreamCall(input, paramsObj))] +
                                     Frames(id, run.chunks) + StreamAnswer(id, run));
    } else {
      var call := [Call(tts, GenerateCall(input, paramsObj))];
      host.events := host.events + call;
      if run.ending != Resolves {
        assert host.events == start + (ack + call + SyncAnswer(id, run));
        return AwaitOutcome(run.ending);
      }
      sent := SendToClient(host, GenerateDone, GenerateDoneRecord(id, run.syncResult));
      assert host.events == start + (ack + call + SyncAnswer(id, run));
      outcome := Finished;
    }
  }

  /**
   * The streaming branch: the provider's call, one frame per chunk, then the final answer once
   * the provider's promise resolves.
   */
  method GenerateStreamed(host: Host, tts: ProviderObject, id: JsValue, input: JsValue, params: JsValue,
                          run: ProviderRun)
    returns (outcome: Outcome)
    modifies host
    ensures outcome == AwaitOutcome(run.ending)
    ensures host.events == old(host.events) + [Call(tts, GenerateStreamCall(input, params))] +
                           Frames(id, run.chunks) + StreamAnswer(id, run)
  {
    host.events := host.events + [Call(tts, GenerateStreamCall(input, params))];
    ForwardChunks(host, id, run.chunks);
    if run.ending != Resolves {
      return AwaitOutcome(run.ending);
    }
    var sent := SendToClient(host, GenerateStreamDone, StreamDoneRecord(id, run.streamResult));
    outcome := Finished;
  }

  /**
   * The streaming callback, applied to each chunk the provider hands it in turn: a chunk flagged
   * done is ignored, any other is sent as one binary frame.
   */
  method ForwardChunks(host: Host, id: JsValue, chunks: seq<StreamChunk>)
    modifies host
    ensures host.events == old(host.events) + Frames(id, chunks)
  {
    var k := 0;
    while k < |chunks|
      invariant 0 <= k <= |chunks|
      invariant host.events == old(host.events) + Frames(id, chunks[..k])
    {
      var chunk := chunks[k];
      assert chunks[..k + 1][..k] == chunks[..k];
      if !chunk.done {
        host.events := host.events + [FrameEvent(id, chunk.chunk)];
      }
      k := k + 1;
    }
    assert chunks[..k] == chunks;
  }

  predicate IsAck(e: Event) {
    IsTextOf(e, GenerateAck)
  }

  predicate IsStreamDone(e: Event) {
    IsTextOf(e, GenerateStreamDone)
  }

  predicate IsGenerateDone(e: Event) {
    IsTextOf(e, GenerateDone)
  }

  predicate IsFrame(e: Event) {
    e.Send? && e.wire.Binary?
  }

  predicate IsProviderCall(e: Event) {
    e.Call?
  }

  predicate IsData(c: StreamChunk) {
    !c.done
  }

  /**
   * The handler replies exactly when every check passes; it then returns exactly when the
   * provider's promise resolves, and stays suspended exactly when that promise never settles.
   * It rejects exactly when `params`, or else `input`, is null, or the provider's promise rejects.
   */
  lemma OutcomeClassified(active: Option<ProviderObject>, m: map<string, JsValue>, run: ProviderRun)
    ensures var g := Generate(active, m, run);
            (g.events != [] <==> Validated(active, m)) &&
            (g.outcome == Finished <==> Validated(active, m) && run.ending == Resolves) &&
            (g.outcome == Pending <==> Validated(active, m) && run.ending == NeverSettles) &&
            (g.outcome == Raised <==>
               (active.Some? && FieldsPresent(m) &&
                (IsNullish(Field(m, "params")) ||
                 (ParamsPresent(Field(m, "params")) && IsNullish(Field(m, "input"))))) ||
               (Validated(active, m) && run.ending == Rejects))
  {
    var g := Generate(active, m, run);
    if Validated(active, m) {
      var id := Field(m, "unique_request_id");
      assert Emitted(GenerateAck, AckRecord(id)) == [Send(Text(AckRecord(id)))];
    }
  }

  /** `unique_request_id` is checked like every other field: a message without it is dropped. */
  lemma MissingFieldDrops(active: Option<ProviderObject>, m: map<string, JsValue>, run: ProviderRun, j: nat)
    requires j < |GenerateFields| && GenerateFields[j] !in m
    ensures Generate(active, m, run) == GenRun(Dropped, [])
  {
  }

  /** Frames are sent one per chunk not flagged done, each carrying that chunk's bytes. */
  lemma {:induction false} FramesCount(id: JsValue, chunks: seq<StreamChunk>)
    ensures Seqs.CountWhere(Frames(id, chunks), IsFrame) == Seqs.CountWhere(chunks, IsData)
    ensures |Frames(id, chunks)| == Seqs.CountWhere(chunks, IsData)
    ensures forall e :: e in Frames(id, chunks) ==> IsFrame(e)
    decreases |chunks|
  {
    if chunks != [] {
      var init := chunks[..|chunks| - 1];
      var last := chunks[|chunks| - 1];
      var tail := if last.done then [] else [FrameEvent(id, last.chunk)];
      FramesCount(id, init);
      assert chunks == init + [last];
      Seqs.CountWhereAppend(init, [last], IsData);
      Seqs.CountWhereAppend(Frames(id, init), tail, IsFrame);
      assert Seqs.CountWhere([last], IsData) == (if last.done then 0 else 1);
    }
  }

  /** The bytes of the chunks not flagged done, in the order the provider handed them over. */
  function DataPcm(chunks: seq<StreamChunk>): seq<seq<byte>>
    decreases |chunks|
  {
    if chunks == [] then []
    else
      var last := chunks[|chunks| - 1];
      DataPcm(chunks[..|chunks| - 1]) + (if last.done then [] else [last.chunk])
  }

  /**
   * For any mix of data and done chunks, frame `i` carries the bytes of the `i`-th data chunk:
   * the callback drops done chunks and keeps the others in order.
   */
  lemma {:induction false} FramesAreDataInOrder(id: JsValue, chunks: seq<StreamChunk>)
    ensures |Frames(id, chunks)| == |DataPcm(chunks)|
    ensures forall i :: 0 <= i < |DataPcm(chunks)| ==> Frames(id, chunks)[i] == FrameEvent(id, DataPcm(chunks)[i])
    decreases |chunks|
  {
    if chunks != [] {
      FramesAreDataInOrder(id, chunks[..|chunks| - 1]);
    }
  }

  /** When no chunk is flagged done, frame `i` carries chunk `i`. */
  lemma {:induction false} FramesOfData(id: JsValue, chunks: seq<StreamChunk>)
    requires forall i :: 0 <= i < |chunks| ==> !chunks[i].done
    ensures |Frames(id, chunks)| == |chunks|
    ensures forall i :: 0 <= i < |chunks| ==> Frames(id, chunks)[i] == FrameEvent(id, chunks[i].chunk)
    decreases |chunks|
  {
    if chunks != [] {
      FramesOfData(id, chunks[..|chunks| - 1]);
    }
  }

  lemma {:induction false} FramesNoReply(id: JsValue, chunks: seq<StreamChunk>)
    ensures Seqs.CountWhere(Frames(id, chunks), IsAck) == 0
    ensures Seqs.CountWhere(Frames(id, chunks), IsStreamDone) == 0
    ensures Seqs.CountWhere(Frames(id, chunks), IsProviderCall) == 0
  {
    FramesCount(id, chunks);
    var f := Frames(id, chunks);
    assert forall i :: 0 <= i < |f| ==> IsFrame(f[i]);
    Seqs.CountWhereNone(f, IsAck);
    Seqs.CountWhereNone(f, IsStreamDone);
    Seqs.CountWhereNone(f, IsProviderCall);
  }

  /**
   * A streamed generation sends the acknowledgement first, calls `GenerateStream` once, then
   * sends frame `i` with the bytes of the `i`-th data chunk. Exactly when the provider's promise
   * resolves does it end with one `generate_stream_done`, whose `is_error` holds exactly when the
   * provider's error is not SUCCESS; a promise that rejects or never settles gets no done record.
   */
  lemma {:induction false} StreamedReplies(active: Option<ProviderObject>, m: map<string, JsValue>, run: ProviderRun)
    requires Validated(active, m) && Truthy(Field(m, "stream"))
    ensures var g := Generate(active, m, run);
            var id := Field(m, "unique_request_id");
            var data := DataPcm(run.chunks);
            g.outcome == AwaitOutcome(run.ending) &&
            |g.events| >= 2 + |data| &&
            g.events[0] == Send(Text(AckRecord(id))) &&
            g.events[1] == Call(active.value, GenerateStreamCall(Field(m, "input"), Field(m, "params"))) &&
            (forall i :: 0 <= i < |data| ==> g.events[2 + i] == FrameEvent(id, data[i])) &&
            (run.ending == Resolves ==>
               |g.events| == 3 + |data| &&
               g.events[|g.events| - 1] == Send(Text(StreamDoneRecord(id, run.streamResult)))) &&
            (run.ending != Resolves ==> |g.events| == 2 + |data|) &&
            (StreamDoneRecord(id, run.streamResult).body.isError <==> run.streamResult != SUCCESS) &&
            Seqs.CountWhere(g.events, IsAck) == 1 &&
            Seqs.CountWhere(g.events, IsProviderCall) == 1 &&
            Seqs.CountWhere(g.events, IsStreamDone) == (if run.ending == Resolves then 1 else 0) &&
            Seqs.CountWhere(g.events, IsFrame) == Seqs.CountWhere(run.chunks, IsData)
  {
    var id := Field(m, "unique_request_id");
    var head := [Send(Text(AckRecord(id))), Call(active.value, GenerateStreamCall(Field(m, "input"), Field(m, "params")))];
    var frames := Frames(id, run.chunks);
    var done := StreamAnswer(id, run);
    var g := Generate(active, m, run);
    assert g.events == head + frames + done;
    FramesAreDataInOrder(id, run.chunks);
    FramesCount(id, run.chunks);
    FramesNoReply(id, run.chunks);
    CountsOfAppend(head + frames, done);
    CountsOfAppend(head, frames);
    assert head == [head[0]] + [head[1]];
    CountsOfAppend([head[0]], [head[1]]);
  }

  /** The four reply counts of a concatenation are the sums of the parts' counts. */
  lemma CountsOfAppend(a: seq<Event>, b: seq<Event>)
    ensures Seqs.CountWhere(a + b, IsAck) == Seqs.CountWhere(a, IsAck) + Seqs.CountWhere(b, IsAck)
    ensures Seqs.CountWhere(a + b, IsProviderCall) == Seqs.CountWhere(a, IsProviderCall) + Seqs.CountWhere(b, IsProviderCall)
    ensures Seqs.CountWhere(a + b, IsStreamDone) == Seqs.CountWhere(a, IsStreamDone) + Seqs.CountWhere(b, IsStreamDone)
    ensures Seqs.CountWhere(a + b, IsFrame) == Seqs.CountWhere(a, IsFrame) + Seqs.CountWhere(b, IsFrame)
  {
    Seqs.CountWhereAppend(a, b, IsAck);
    Seqs.CountWhereAppend(a, b, IsProviderCall);
    Seqs.CountWhereAppend(a, b, IsStreamDone);
    Seqs.CountWhereAppend(a, b, IsFrame);
  }

  /**
   * With a provider that keeps the `GenerateStream` contract (data chunks, then one done chunk),
   * the client receives the acknowledgement, one frame per data chunk in order, then the done
   * record once the provider's promise resolves.
   */
  lemma {:induction false} StreamContractReplies(active: Option<ProviderObject>, m: map<string, JsValue>, run: ProviderRun)
    requires Validated(active, m) && Truthy(Field(m, "stream")) && StreamContract(run.chunks)
    ensures var g := Generate(active, m, run);
            var id := Field(m, "unique_request_id");
            var n := |run.chunks| - 1;
            |g.events| == n + 2 + (if run.ending == Resolves then 1 else 0) &&
            (forall i :: 0 <= i < n ==> g.events[2 + i] == FrameEvent(id, run.chunks[i].chunk)) &&
            (run.ending == Resolves ==> g.events[n + 2] == Send(Text(StreamDoneRecord(id, run.streamResult))))
  {
    var id := Field(m, "unique_request_id");
    var n := |run.chunks| - 1;
    var data := run.chunks[..n];
    assert run.chunks == data + [run.chunks[n]];
    assert Frames(id, run.chunks) == Frames(id, data);
    FramesOfData(id, data);
  }

  /**
   * A synchronous generation sends the acknowledgement and calls `Generate` once; exactly when
   * the provider's promise resolves it then sends one `generate_done` carrying the provider's
   * error and value. For a provider that keeps the `Generate` contract, a response is present
   * exactly when `is_error` is false.
   */
  lemma SyncReplies(active: Option<ProviderObject>, m: map<string, JsValue>, run: ProviderRun)
    requires Validated(active, m) && !Truthy(Field(m, "stream"))
    ensures var g := Generate(active, m, run);
            var id := Field(m, "unique_request_id");
            var done := GenerateDoneRecord(id, run.syncResult);
            var head := [Send(Text(AckRecord(id))),
                         Call(active.value, GenerateCall(Field(m, "input"), Field(m, "params")))];
            g.outcome == AwaitOutcome(run.ending) &&
            (run.ending == Resolves ==> g.events == head + [Send(Text(done))]) &&
            (run.ending != Resolves ==> g.events == head) &&
            (done.body.isError <==> run.syncResult.error != SUCCESS) &&
            (SyncContract(run.syncResult) ==> (done.body.response.Some? <==> !done.body.isError))
  {
  }

  /** `IdTerminator` is ASCII, so its UTF-8 bytes are its character codes, one per character. */
  lemma TerminatorEncoding()
    ensures |Encode(IdTerminator)| == |IdTerminator| == 13
    ensures forall i :: 0 <= i < 13 ==> Encode(IdTerminator)[i] == IdTerminator[i] as int
  {
    TerminatorIsAscii();
    EncodeAscii(IdTerminator);
  }

  lemma TerminatorIsAscii()
    ensures forall i :: 0 <= i < |IdTerminator| ==> IdTerminator[i] as int < 0x80
  {
  }

  /** The terminator starts with '<', which occurs nowhere else in it. */
  lemma TerminatorShape()
    ensures |Encode(IdTerminator)| == 13 && Encode(IdTerminator)[0] == 60
    ensures forall l :: 1 <= l < 13 ==> Encode(IdTerminator)[l] != 60
  {
    TerminatorEncoding();
    TerminatorChars();
  }

  /** '<' opens the terminator and does not occur again in it. */
  lemma TerminatorChars()
    ensures IdTerminator[0] == '<'
    ensures forall l :: 1 <= l < 13 ==> IdTerminator[l] != '<'
  {
  }

  /** Every frame is '$', the UTF-8 bytes of the id's string form, the terminator, then the PCM. */
  lemma HeaderLayout(id: JsValue)
    ensures FrameHeader(id) == [36] + Encode(ToJsString(id)) + Encode(IdTerminator)
  {
    var s := ToJsString(id);
    EncodeAppend("$" + s, IdTerminator);
    EncodeAppend("$", s);
    assert Encode("$") == [36];
  }
}
