/**
 * providers/fishaudio/index.ts: the one bundled provider, `TextToSpeechFishAudio`. The object
 * holds the API key, a counter of running generations and the shared `interruptNext` flag. Each
 * call to `Generate` or `GenerateStream` starts a session that then advances one event at a
 * time (the timeout timer firing, the HTTP request settling, a read from the response body
 * returning), as the event loop would run the source's `async` executor between its `await`s.
 *
 * The HTTP service, the clock and `crypto.randomUUID` are inputs; what the event methods are
 * called with, and in which order, is the environment's choice.
 */
module FishAudio {
  import opened Wrappers
  import opened Utf8
  import opened JsValues
  import opened Types
  import opened TtsInterface
  import opened Effects
  import Seqs

  /** `CHUNK_SIZE`: the most bytes one streamed chunk carries. */
  const ChunkSize: nat := 2048

  /** The format of both the wav file and the streamed PCM: 16-bit, 44100 Hz, mono. */
  const AudioFormat: StreamFormat := StreamFormat(16, 44100, 1)

  /** How an HTTP request settles: `fetch` rejects, or a response arrives with a status. */
  datatype FetchOutcome = FetchRejected | Responded(status: int)

  /** The timeout timer of one session. */
  datatype TimerState = Unarmed | Armed | Fired | Cleared

  /**
   * Where the session's executor is: awaiting `fetch`, looping over `reader.read()`, returned, or
   * rejected because a read threw (nothing catches that rejection).
   */
  datatype Phase = Fetching | Reading | Ended | Rejected

  /** `n -= 1; if (n < 0) n = 0`. */
  function Decrement(n: int): int {
    if n - 1 < 0 then 0 else n - 1
  }

  /** Splitting one read value into the chunks the inner loop hands the callback. */
  function Rechunk(v: seq<byte>): seq<seq<byte>>
    decreases |v|
  {
    if |v| == 0 then []
    else
      var n := if ChunkSize < |v| then ChunkSize else |v|;
      [v[..n]] + Rechunk(v[n..])
  }

  /** The chunks flagged not done, with the given bytes. */
  function DataChunks(cs: seq<seq<byte>>): (r: seq<StreamChunk>)
    ensures |r| == |cs| && forall i :: 0 <= i < |cs| ==> r[i] == StreamChunk(false, cs[i])
  {
    seq(|cs|, i requires 0 <= i < |cs| => StreamChunk(false, cs[i]))
  }

  /** The bytes of each chunk, in order. */
  function Payloads(cs: seq<StreamChunk>): (r: seq<seq<byte>>)
    ensures |r| == |cs| && forall i :: 0 <= i < |cs| ==> r[i] == cs[i].chunk
  {
    seq(|cs|, i requires 0 <= i < |cs| => cs[i].chunk)
  }

  /** Rechunking loses, duplicates and reorders nothing. */
  lemma {:induction false} RechunkFlatten(v: seq<byte>)
    ensures Seqs.Flatten(Rechunk(v)) == v
    decreases |v|
  {
    if |v| > 0 {
      var n := if ChunkSize < |v| then ChunkSize else |v|;
      RechunkFlatten(v[n..]);
      assert Rechunk(v)[1..] == Rechunk(v[n..]);
      assert v == v[..n] + v[n..];
    }
  }

  /** Every chunk holds between 1 and `ChunkSize` bytes, and all but the last hold exactly `ChunkSize`. */
  lemma {:induction false} RechunkSizes(v: seq<byte>)
    ensures forall i :: 0 <= i < |Rechunk(v)| ==> 1 <= |Rechunk(v)[i]| <= ChunkSize
    ensures forall i :: 0 <= i < |Rechunk(v)| - 1 ==> |Rechunk(v)[i]| == ChunkSize
    ensures |Rechunk(v)| == (|v| + ChunkSize - 1) / ChunkSize
    decreases |v|
  {
    if |v| > 0 {
      var n := if ChunkSize < |v| then ChunkSize else |v|;
      RechunkSizes(v[n..]);
      assert Rechunk(v) == [v[..n]] + Rechunk(v[n..]);
    }
  }

  lemma PayloadsAppend(a: seq<StreamChunk>, b: seq<StreamChunk>)
    ensures Payloads(a + b) == Payloads(a) + Payloads(b)
  {
  }

  lemma PayloadsOfData(cs: seq<seq<byte>>)
    ensures Payloads(DataChunks(cs)) == cs
  {
  }

  /** The delivered chunks end with the done chunk. */
  predicate Closed(d: seq<StreamChunk>) {
    |d| > 0 && d[|d| - 1].done
  }

  /**
   * Only the last chunk may be flagged done, and it is then empty; every data chunk holds 1 to
   * `ChunkSize` bytes.
   */
  predicate Shaped(d: seq<StreamChunk>) {
    (forall i :: 0 <= i < |d| - 1 ==> !d[i].done) &&
    (forall i :: 0 <= i < |d| && !d[i].done ==> 1 <= |d[i].chunk| <= ChunkSize) &&
    (Closed(d) ==> d[|d| - 1].chunk == [])
  }

  /** Every chunk from index `k` on is a done chunk. */
  predicate OnlyDoneFrom(d: seq<StreamChunk>, k: nat) {
    k <= |d| && forall i :: k <= i < |d| ==> d[i].done
  }

  /** Appending the done chunk to an open, shaped sequence closes it and keeps the stream contract. */
  lemma CloseKeepsShape(d: seq<StreamChunk>)
    requires Shaped(d) && !Closed(d)
    ensures Shaped(d + [StreamChunk(true, [])]) && Closed(d + [StreamChunk(true, [])])
    ensures StreamContract(d + [StreamChunk(true, [])])
  {
  }

  /** The done chunk carries no bytes. */
  lemma DoneAddsNoBytes(d: seq<StreamChunk>)
    ensures Seqs.Flatten(Payloads(d + [StreamChunk(true, [])])) == Seqs.Flatten(Payloads(d))
  {
    PayloadsAppend(d, [StreamChunk(true, [])]);
    assert Payloads([StreamChunk(true, [])]) == [[]];
    Seqs.FlattenAppend(Payloads(d), []);
    assert Seqs.Flatten(Payloads(d)) + [] == Seqs.Flatten(Payloads(d));
  }

  /** Appending a done chunk keeps the chunks after a resolution done. */
  lemma DoneKeepsDoneTail(d: seq<StreamChunk>, k: nat)
    requires OnlyDoneFrom(d, k)
    ensures OnlyDoneFrom(d + [StreamChunk(true, [])], k)
  {
  }

  /** Appending the rechunked bytes of a read value to an open, shaped sequence keeps it shaped and open. */
  lemma {:induction false} DataKeepsShape(d: seq<StreamChunk>, v: seq<byte>)
    requires Shaped(d) && !Closed(d)
    ensures Shaped(d + DataChunks(Rechunk(v))) && !Closed(d + DataChunks(Rechunk(v)))
  {
    RechunkSizes(v);
    var e := d + DataChunks(Rechunk(v));
    assert forall i :: |d| <= i < |e| ==> e[i] == StreamChunk(false, Rechunk(v)[i - |d|]);
  }

  class TextToSpeechFishAudio {
    /** `#apiKey`: `undefined` until a load request carries one. */
    var apiKey: JsValue
    /** `#concurrentGenerations`. */
    var concurrentGenerations: int
    var interruptNext: bool

    predicate Valid()
      reads this
    {
      concurrentGenerations >= 0
    }

    /** `exports.Model = new TextToSpeechFishAudio()`. */
    constructor ()
      ensures apiKey == JUndefined && concurrentGenerations == 0 && !interruptNext && Valid()
    {
      apiKey := JUndefined;
      concurrentGenerations := 0;
      interruptNext := false;
    }

    /**
     * Keep the request's `api_key` and check it with a test request: AUTHORIZATION when the key
     * is missing, the request fails, or the status is above 399. Above 399 the response body is
     * read for the log first; `errorText` says how that read settles, and a read that rejects or
     * never settles leaves `Init` rejecting or suspended with the key already kept. The two awaits
     * are taken as parameters, so `Init` runs as one step, with no generation or interrupt between
     * them.
     */
    method Init(loadRequest: map<string, JsValue>, probe: FetchOutcome, errorText: Settling)
      returns (outcome: Outcome, r: GenErr)
      modifies this
      ensures var key := Field(loadRequest, "api_key");
              apiKey == (if IsNullish(key) then old(apiKey) else key) &&
              concurrentGenerations == old(concurrentGenerations) && interruptNext == old(interruptNext) &&
              (outcome == Finished <==>
                 IsNullish(key) || probe.FetchRejected? || probe.status <= 399 || errorText == Resolves) &&
              (outcome != Finished ==> outcome == AwaitOutcome(errorText)) &&
              (outcome == Finished ==>
                 (r == SUCCESS <==> !IsNullish(key) && probe.Responded? && probe.status <= 399) &&
                 (r != SUCCESS ==> r == AUTHORIZATION))
    {
      var key := Field(loadRequest, "api_key");
      if IsNullish(key) {
        return Finished, AUTHORIZATION;
      }
      apiKey := key;
      if probe.FetchRejected? {
        return Finished, AUTHORIZATION;
      }
      if probe.status > 399 {
        if errorText != Resolves {
          return AwaitOutcome(errorText), AUTHORIZATION;
        }
        return Finished, AUTHORIZATION;
      }
      return Finished, SUCCESS;
    }

    /** Nothing to release: the provider's state is left as it is. */
    method Free()
    {
    }

    method GetModels() returns (models: seq<string>)
      ensures models == []
    {
      models := [];
    }

    method GetStreamFormat() returns (format: StreamFormat)
      ensures format == AudioFormat
    {
      format := StreamFormat(16, 44100, 1);
    }

    /** Flag the running generation, whichever it is, to stop at its next check. */
    method Interrupt()
      modifies this
      ensures interruptNext && apiKey == old(apiKey) && concurrentGenerations == old(concurrentGenerations)
    {
      interruptNext := true;
    }

    /**
     * Start a wav file generation: clear the interrupt flag, arm the timeout timer when
     * `params.timeout_ms` is truthy (the timer is not kept), count the generation, and await the
     * request. Reading `timeout_ms` off a nullish `params` throws inside the executor.
     */
    method Generate(input: JsValue, params: JsValue) returns (s: GenerateSession)
      requires Valid()
      modifies this
      ensures fresh(s) && s.provider == this && s.Valid() && Valid()
      ensures !interruptNext && apiKey == old(apiKey)
      ensures !s.finished && s.resolved.None? && s.file == []
      ensures IsNullish(params) ==>
                s.phase == Rejected && s.timer == Unarmed && concurrentGenerations == old(concurrentGenerations)
      ensures !IsNullish(params) ==>
                s.phase == Fetching && concurrentGenerations == old(concurrentGenerations) + 1 &&
                s.timer == (if Truthy(Member(params, "timeout_ms").value) then Armed else Unarmed)
    {
      interruptNext := false;
      if IsNullish(params) {
        s := new GenerateSession(this, Unarmed, Rejected);
        return;
      }
      var timer := if Truthy(Member(params, "timeout_ms").value) then Armed else Unarmed;
      concurrentGenerations := concurrentGenerations + 1;
      s := new GenerateSession(this, timer, Fetching);
    }

    /**
     * Start a streamed generation: clear the interrupt flag, arm and keep the timeout timer when
     * `params.timeout_ms` is truthy, and await the request. The counter is not incremented.
     */
    method GenerateStream(input: JsValue, params: JsValue) returns (s: StreamSession)
      requires Valid()
      modifies this
      ensures fresh(s) && s.provider == this && s.Valid() && Valid()
      ensures !interruptNext && apiKey == old(apiKey) && concurrentGenerations == old(concurrentGenerations)
      ensures !s.finished && s.resolved.None? && s.delivered == [] && s.accepted == []
      ensures IsNullish(params) ==> s.phase == Rejected && s.timer == Unarmed
      ensures !IsNullish(params) ==>
                s.phase == Fetching && s.timer == (if Truthy(Member(params, "timeout_ms").value) then Armed else Unarmed)
    {
      interruptNext := false;
      if IsNullish(params) {
        s := new StreamSession(this, Unarmed, Rejected);
        return;
      }
      var timer := if Truthy(Member(params, "timeout_ms").value) then Armed else Unarmed;
      s := new StreamSession(this, timer, Fetching);
    }
  }

  /** One `Generate` call: its executor's locals and the promise it resolves once. */
  class GenerateSession {
    const provider: TextToSpeechFishAudio
    var finished: bool
    var timer: TimerState
    var phase: Phase
    var audioPath: string
    /** The bytes written to the wav file so far. */
    var file: seq<byte>
    var resolved: Option<SyncResult>

    /**
     * The promise is resolved exactly when `finished` is set, with a value exactly on SUCCESS,
     * and that value names the session's file in the wav format.
     */
    predicate Valid()
      reads this
    {
      (finished <==> resolved.Some?) &&
      (resolved.Some? ==> SyncContract(resolved.value) &&
                          resolved.value.error in {SUCCESS, TIMEOUT, UNEXPECTED, INTERRUPT}) &&
      (resolved.Some? && resolved.value.error == SUCCESS ==>
         phase == Ended && resolved.value.maybeValue == Some(SyncResultVal(audioPath, AudioFormat)))
    }

    constructor (provider: TextToSpeechFishAudio, timer: TimerState, phase: Phase)
      ensures this.provider == provider && this.timer == timer && this.phase == phase
      ensures !finished && resolved.None? && file == [] && audioPath == "" && Valid()
    {
      this.provider := provider;
      this.timer := timer;
      this.phase := phase;
      finished := false;
      audioPath := "";
      file := [];
      resolved := None;
    }

    /** The timeout callback: unless already finished, resolve TIMEOUT and uncount the generation. */
    method TimerFires()
      requires Valid() && timer == Armed && provider.Valid()
      modifies this, provider
      ensures Valid() && provider.Valid()
      ensures timer == Fired && phase == old(phase) && file == old(file) && audioPath == old(audioPath)
      ensures provider.apiKey == old(provider.apiKey) && provider.interruptNext == old(provider.interruptNext)
      ensures old(finished) ==> resolved == old(resolved) && provider.concurrentGenerations == old(provider.concurrentGenerations)
      ensures !old(finished) ==> finished && resolved == Some(SyncResult(TIMEOUT, None)) &&
                                 provider.concurrentGenerations == Decrement(old(provider.concurrentGenerations))
    {
      timer := Fired;
      if finished {
        return;
      }
      finished := true;
      provider.concurrentGenerations := Decrement(provider.concurrentGenerations);
      resolved := Some(SyncResult(TIMEOUT, None));
    }

    /**
     * The request settles. A rejection resolves UNEXPECTED unless already finished; a response,
     * whatever its status, opens the file `audioPath` and starts reading.
     */
    method FetchSettles(outcome: FetchOutcome, path: string)
      requires Valid() && phase == Fetching && provider.Valid()
      modifies this, provider
      ensures Valid() && provider.Valid()
      ensures timer == old(timer) && file == old(file)
      ensures provider.apiKey == old(provider.apiKey) && provider.interruptNext == old(provider.interruptNext)
      ensures outcome.Responded? ==>
                phase == Reading && audioPath == path && finished == old(finished) && resolved == old(resolved) &&
                provider.concurrentGenerations == old(provider.concurrentGenerations)
      ensures outcome.FetchRejected? ==> phase == Ended && audioPath == old(audioPath)
      ensures outcome.FetchRejected? && old(finished) ==>
                resolved == old(resolved) && provider.concurrentGenerations == old(provider.concurrentGenerations)
      ensures outcome.FetchRejected? && !old(finished) ==>
                finished && resolved == Some(SyncResult(UNEXPECTED, None)) &&
                provider.concurrentGenerations == Decrement(old(provider.concurrentGenerations))
    {
      if outcome.FetchRejected? {
        phase := Ended;
        if finished {
          return;
        }
        finished := true;
        provider.concurrentGenerations := Decrement(provider.concurrentGenerations);
        resolved := Some(SyncResult(UNEXPECTED, None));
        return;
      }
      audioPath := path;
      phase := Reading;
    }

    /**
     * `reader.read()` returns. Data read while no stop condition holds is appended to the file;
     * otherwise the loop ends: the generation is uncounted (again, if the timer already did) and,
     * unless finished, the promise resolves INTERRUPT or SUCCESS with the file's path.
     */
    method ReadReturns(done: bool, value: seq<byte>)
      requires Valid() && phase == Reading && provider.Valid()
      modifies this, provider
      ensures Valid() && provider.Valid()
      ensures timer == old(timer) && audioPath == old(audioPath)
      ensures provider.apiKey == old(provider.apiKey) && provider.interruptNext == old(provider.interruptNext)
      ensures !(done || provider.interruptNext || old(finished)) ==>
                phase == Reading && file == old(file) + value && resolved == old(resolved) &&
                finished == old(finished) && provider.concurrentGenerations == old(provider.concurrentGenerations)
      ensures done || provider.interruptNext || old(finished) ==>
                phase == Ended && file == old(file) && finished &&
                provider.concurrentGenerations == Decrement(old(provider.concurrentGenerations)) &&
                resolved == (if old(finished) then old(resolved)
                             else if provider.interruptNext then Some(SyncResult(INTERRUPT, None))
                             else Some(SyncResult(SUCCESS, Some(SyncResultVal(audioPath, AudioFormat)))))
    {
      if done || provider.interruptNext || finished {
        phase := Ended;
        provider.concurrentGenerations := Decrement(provider.concurrentGenerations);
        if finished {
          return;
        }
        finished := true;
        if provider.interruptNext {
          resolved := Some(SyncResult(INTERRUPT, None));
          return;
        }
        resolved := Some(SyncResult(SUCCESS, Some(SyncResultVal(audioPath, AudioFormat))));
        return;
      }
      file := file + value;
    }

    /** `reader.read()` rejects: the executor throws, leaving the promise as it was. */
    method ReadRejects()
      requires Valid() && phase == Reading
      modifies this
      ensures Valid() && phase == Rejected
      ensures finished == old(finished) && resolved == old(resolved) && file == old(file) && timer == old(timer) &&
              audioPath == old(audioPath)
    {
      phase := Rejected;
    }
  }

  /** One `GenerateStream` call: its executor's locals, the chunks handed to the callback and the promise. */
  class StreamSession {
    const provider: TextToSpeechFishAudio
    var finished: bool
    var timer: TimerState
    var phase: Phase
    /** The chunks handed to the callback, in order. */
    var delivered: seq<StreamChunk>
    /** The read values taken into the buffer, in order. */
    var accepted: seq<seq<byte>>
    var resolved: Option<GenErr>
    /** How many chunks had been delivered when the promise resolved. */
    ghost var resolvedAt: nat

    /**
     * The promise resolves exactly once `finished` is set; the callback receives every accepted
     * byte, in order, in chunks of 1 to `ChunkSize` bytes, and at most one done chunk, last and
     * empty, after which the executor is over; no data chunk follows the resolution; and a
     * stream that resolved SUCCESS or INTERRUPT has kept the `GenerateStream` contract.
     */
    ghost predicate Valid()
      reads this
    {
      (finished <==> resolved.Some?) &&
      (resolved.Some? ==> resolved.value in {SUCCESS, TIMEOUT, UNEXPECTED, INTERRUPT}) &&
      Shaped(delivered) &&
      (Closed(delivered) ==> phase == Ended) &&
      Seqs.Flatten(Payloads(delivered)) == Seqs.Flatten(accepted) &&
      (finished ==> OnlyDoneFrom(delivered, resolvedAt)) &&
      (resolved.Some? && resolved.value in {SUCCESS, INTERRUPT} ==> StreamContract(delivered))
    }

    constructor (provider: TextToSpeechFishAudio, timer: TimerState, phase: Phase)
      ensures this.provider == provider && this.timer == timer && this.phase == phase
      ensures !finished && resolved.None? && delivered == [] && accepted == [] && Valid()
    {
      this.provider := provider;
      this.timer := timer;
      this.phase := phase;
      finished := false;
      delivered := [];
      accepted := [];
      resolved := None;
      resolvedAt := 0;
    }

    /** The timeout callback: unless already finished, resolve TIMEOUT and uncount the generation. */
    method TimerFires()
      requires Valid() && timer == Armed && provider.Valid()
      modifies this, provider
      ensures Valid() && provider.Valid()
      ensures timer == Fired && phase == old(phase) && delivered == old(delivered) && accepted == old(accepted)
      ensures provider.apiKey == old(provider.apiKey) && provider.interruptNext == old(provider.interruptNext)
      ensures old(finished) ==> resolved == old(resolved) && provider.concurrentGenerations == old(provider.concurrentGenerations)
      ensures !old(finished) ==> finished && resolved == Some(TIMEOUT) &&
                                 provider.concurrentGenerations == Decrement(old(provider.concurrentGenerations))
    {
      timer := Fired;
      if finished {
        return;
      }
      finished := true;
      resolvedAt := |delivered|;
      provider.concurrentGenerations := Decrement(provider.concurrentGenerations);
      resolved := Some(TIMEOUT);
    }

    /**
     * The request settles. A rejection resolves UNEXPECTED unless already finished, and never
     * hands the callback a done chunk; a response, whatever its status, starts reading.
     */
    method FetchSettles(outcome: FetchOutcome)
      requires Valid() && phase == Fetching && provider.Valid()
      modifies this, provider
      ensures Valid() && provider.Valid()
      ensures timer == old(timer) && delivered == old(delivered) && accepted == old(accepted)
      ensures provider.apiKey == old(provider.apiKey) && provider.interruptNext == old(provider.interruptNext)
      ensures outcome.Responded? ==>
                phase == Reading && finished == old(finished) && resolved == old(resolved) &&
                provider.concurrentGenerations == old(provider.concurrentGenerations)
      ensures outcome.FetchRejected? ==> phase == Ended
      ensures outcome.FetchRejected? && old(finished) ==>
                resolved == old(resolved) && provider.concurrentGenerations == old(provider.concurrentGenerations)
      ensures outcome.FetchRejected? && !old(finished) ==>
                finished && resolved == Some(UNEXPECTED) &&
                provider.concurrentGenerations == Decrement(old(provider.concurrentGenerations))
    {
      if outcome.FetchRejected? {
        phase := Ended;
        if finished {
          return;
        }
        finished := true;
        resolvedAt := |delivered|;
        provider.concurrentGenerations := Decrement(provider.concurrentGenerations);
        resolved := Some(UNEXPECTED);
        return;
      }
      phase := Reading;
    }

    /**
     * The inner loop over one read value: while bytes remain, hand the callback the next
     * `min(ChunkSize, remaining)` of them. The stop conditions it rechecks cannot change while
     * it runs: the daemon's callback is synchronous, so only microtasks run between its steps.
     */
    method Drain(value: seq<byte>)
      requires !finished && !provider.interruptNext
      modifies this
      ensures delivered == old(delivered) + DataChunks(Rechunk(value))
      ensures finished == old(finished) && timer == old(timer) && phase == old(phase) &&
              accepted == old(accepted) && resolved == old(resolved) && resolvedAt == old(resolvedAt)
    {
      var buff := value;
      while |buff| > 0
        invariant delivered + DataChunks(Rechunk(buff)) == old(delivered) + DataChunks(Rechunk(value))
        invariant finished == old(finished) && timer == old(timer) && phase == old(phase) &&
                  accepted == old(accepted) && resolved == old(resolved) && resolvedAt == old(resolvedAt)
        decreases |buff|
      {
        if finished || provider.interruptNext {
          break;
        }
        var chunkSize := if ChunkSize < |buff| then ChunkSize else |buff|;
        var chunk := buff[..chunkSize];
        assert Rechunk(buff) == [chunk] + Rechunk(buff[chunkSize..]);
        assert DataChunks(Rechunk(buff)) == [StreamChunk(false, chunk)] + DataChunks(Rechunk(buff[chunkSize..]));
        buff := buff[chunkSize..];
        delivered := delivered + [StreamChunk(false, chunk)];
      }
      assert Rechunk(buff) == [];
    }

    /**
     * `reader.read()` returns. While no stop condition holds, the value is rechunked to the
     * callback; otherwise the request is aborted, the generation uncounted (again, if the timer
     * already did), the callback handed the done chunk, and, unless finished, the promise
     * resolves INTERRUPT or SUCCESS.
     */
    method ReadReturns(done: bool, value: seq<byte>)
      requires Valid() && phase == Reading && provider.Valid()
      modifies this, provider
      ensures Valid() && provider.Valid()
      ensures provider.apiKey == old(provider.apiKey) && provider.interruptNext == old(provider.interruptNext)
      ensures !(done || provider.interruptNext || old(finished)) ==>
                phase == Reading && timer == old(timer) &&
                delivered == old(delivered) + DataChunks(Rechunk(value)) && accepted == old(accepted) + [value] &&
                resolved == old(resolved) && finished == old(finished) &&
                provider.concurrentGenerations == old(provider.concurrentGenerations)
      ensures done || provider.interruptNext || old(finished) ==>
                phase == Ended && finished && accepted == old(accepted) &&
                delivered == old(delivered) + [StreamChunk(true, [])] &&
                provider.concurrentGenerations == Decrement(old(provider.concurrentGenerations)) &&
                timer == (if old(finished) || old(timer) == Unarmed then old(timer) else Cleared) &&
                resolved == (if old(finished) then old(resolved)
                             else if provider.interruptNext then Some(INTERRUPT)
                             else Some(SUCCESS))
    {
      if done || provider.interruptNext || finished {
        EndStream();
      } else {
        Accept(value);
      }
    }

    /** The loop has ended: abort, uncount, hand over the done chunk, and resolve unless finished. */
    method EndStream()
      requires Valid() && phase == Reading && provider.Valid()
      modifies this, provider
      ensures Valid() && provider.Valid()
      ensures provider.apiKey == old(provider.apiKey) && provider.interruptNext == old(provider.interruptNext)
      ensures phase == Ended && finished && accepted == old(accepted) &&
              delivered == old(delivered) + [StreamChunk(true, [])] &&
              provider.concurrentGenerations == Decrement(old(provider.concurrentGenerations)) &&
              timer == (if old(finished) || old(timer) == Unarmed then old(timer) else Cleared) &&
              resolved == (if old(finished) then old(resolved)
                           else if provider.interruptNext then Some(INTERRUPT)
                           else Some(SUCCESS))
    {
      phase := Ended;
      provider.concurrentGenerations := Decrement(provider.concurrentGenerations);
      delivered := delivered + [StreamChunk(true, [])];
      CloseKeepsShape(old(delivered));
      DoneAddsNoBytes(old(delivered));
      if finished {
        DoneKeepsDoneTail(old(delivered), resolvedAt);
        return;
      }
      finished := true;
      resolvedAt := |delivered|;
      if timer != Unarmed {
        timer := Cleared;
      }
      if provider.interruptNext {
        resolved := Some(INTERRUPT);
        return;
      }
      resolved := Some(SUCCESS);
    }

    /** No stop condition holds: take the value into the buffer and drain it to the callback. */
    method Accept(value: seq<byte>)
      requires Valid() && phase == Reading && !finished && !provider.interruptNext
      modifies this
      ensures Valid()
      ensures phase == Reading && timer == old(timer) &&
              delivered == old(delivered) + DataChunks(Rechunk(value)) && accepted == old(accepted) + [value] &&
              resolved == old(resolved) && finished == old(finished)
    {
      accepted := accepted + [value];
      Drain(value);
      RechunkFlatten(value);
      DataKeepsShape(old(delivered), value);
      PayloadsAppend(old(delivered), DataChunks(Rechunk(value)));
      PayloadsOfData(Rechunk(value));
      Seqs.FlattenConcat(Payloads(old(delivered)), Rechunk(value));
      Seqs.FlattenAppend(old(accepted), value);
    }

    /** `reader.read()` rejects: the executor throws, leaving the promise as it was. */
    method ReadRejects()
      requires Valid() && phase == Reading
      modifies this
      ensures Valid() && phase == Rejected
      ensures finished == old(finished) && resolved == old(resolved) && delivered == old(delivered) &&
              accepted == old(accepted) && timer == old(timer)
    {
      phase := Rejected;
    }
  }
}
