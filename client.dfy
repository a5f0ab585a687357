/**
 * example_client.ts: `wAIfuTtsClient`, the client side of the protocol. It correlates replies
 * with requests through one listener table per reply kind (keyed by request id) and a table of
 * stream callbacks, parses binary frames, and races each request's first reply against a
 * one-second timer.
 *
 * Promises are identified by the entry they wait at and a serial number, stream callbacks by an
 * identity the caller supplies. The client records every promise it settles and every chunk it
 * hands a callback, in order. The socket, `JSON.parse` and the timers are inputs.
 */
module Client {
  import opened Wrappers
  import opened Utf8
  import opened JsValues
  import opened Types
  import opened Effects
  import opened Seqs
  import HandleGenerate

  /** A binary frame's id and payload, as the client reads them. */
  datatype Frame = Frame(id: string, pcm: seq<byte>)

  /** `TypedArray.prototype.subarray`'s reading of an index: negative counts from the end; clamped. */
  function RelativeIndex(x: int, len: nat): (r: nat)
    ensures r <= len
  {
    if x < 0 then (if len + x < 0 then 0 else len + x) else if x > len then len else x
  }

  /** `b.subarray(start, end)`. */
  function Subarray(b: seq<byte>, start: int, end: int): seq<byte> {
    var s := RelativeIndex(start, |b|);
    var e := RelativeIndex(end, |b|);
    if e <= s then [] else b[s..e]
  }

  /**
   * The binary branch of `incomingHandler`: drop a message whose first byte does not decode to
   * "$"; otherwise the id lies between byte 1 and the first terminator, and the payload follows
   * the terminator. When no terminator occurs, `indexOf` gives -1, which `subarray` reads as
   * "one before the end".
   */
  function ParseFrame(b: seq<byte>): Option<Frame> {
    if Decode(Subarray(b, 0, 1)) != "$" then None
    else
      var terminator := Encode(HandleGenerate.IdTerminator);
      HandleGenerate.TerminatorShape();
      var termIdx := IndexOf(b, terminator);
      Some(Frame(Decode(Subarray(b, 1, termIdx)), Subarray(b, termIdx + |terminator|, |b|)))
  }

  lemma DecodeOneByte(x: byte)
    ensures Decode([x]) == "$" <==> x == 36
  {
    assert [x][1..] == [];
    if x < 0x80 {
      assert SequenceLength([x]) == 1;
      assert CodePoint([x], 1) == x;
      assert Decode([x]) == [x as char];
    } else {
      assert SequenceLength([x]) == 0;
      assert Decode([x]) == ['\U{FFFD}'];
    }
  }

  /** A binary message is dropped exactly when it is empty or its first byte is not '$'. */
  lemma DropsUnlessDollar(b: seq<byte>)
    ensures ParseFrame(b).None? <==> |b| == 0 || b[0] != 36
  {
    if |b| == 0 {
      assert Subarray(b, 0, 1) == [];
    } else {
      assert Subarray(b, 0, 1) == [b[0]];
      DecodeOneByte(b[0]);
    }
  }

  /**
   * A pattern whose first element occurs nowhere else in it, and which does not start with `x`,
   * first occurs in `[x] + e + t + rest` right after `e` when it does not occur in `e`.
   */
  lemma {:induction false} FirstOccurrenceAfter<T>(x: T, e: seq<T>, t: seq<T>, rest: seq<T>)
    requires |t| >= 1 && t[0] != x
    requires forall l :: 1 <= l < |t| ==> t[l] != t[0]
    requires !Contains(e, t)
    ensures IndexOf([x] + e + t + rest, t) == 1 + |e|
  {
    var b := [x] + e + t + rest;
    var q := 1 + |e|;
    assert b[q..q + |t|] == t;
    assert OccursAt(b, t, q);
    forall j | 0 <= j < q
      ensures !OccursAt(b, t, j)
    {
      if j == 0 {
        assert b[0] == x;
      } else if j + |t| <= q {
        assert b[j..j + |t|] == e[j - 1..j - 1 + |t|];
        assert !OccursAt(e, t, j - 1);
      } else {
        assert b[q] == t[0];
        assert 1 <= q - j < |t|;
      }
    }
  }

  /** The slices `subarray` takes out of a laid-out frame. */
  lemma {:induction false} LayoutSlices(e: seq<byte>, t: seq<byte>, pcm: seq<byte>)
    ensures Subarray([36] + e + t + pcm, 1, 1 + |e|) == e
    ensures Subarray([36] + e + t + pcm, 1 + |e| + |t|, |[36] + e + t + pcm|) == pcm
  {
    var b := [36] + e + t + pcm;
    assert b[1..1 + |e|] == e;
    assert b[1 + |e| + |t|..] == pcm;
  }

  /** A '$', an id's bytes free of the terminator, the terminator and a payload parse back. */
  lemma {:induction false} ParseLaidOut(e: seq<byte>, pcm: seq<byte>)
    requires !Contains(e, Encode(HandleGenerate.IdTerminator))
    ensures ParseFrame([36] + e + Encode(HandleGenerate.IdTerminator) + pcm) == Some(Frame(Decode(e), pcm))
  {
    var t := Encode(HandleGenerate.IdTerminator);
    var b := [36] + e + t + pcm;
    HandleGenerate.TerminatorShape();
    DropsUnlessDollar(b);
    FirstOccurrenceAfter(36, e, t, pcm);
    var f := ParseFrame(b).value;
    assert f.id == Decode(Subarray(b, 1, 1 + |e|));
    assert f.pcm == Subarray(b, 1 + |e| + |t|, |b|);
    LayoutSlices(e, t, pcm);
  }

  /**
   * Parsing inverts the server's framing: a frame built for an id whose UTF-8 bytes do not
   * contain the terminator gives back that id's string form and the chunk's bytes unchanged.
   */
  lemma {:induction false} FrameRoundTrip(id: JsValue, pcm: seq<byte>)
    requires !Contains(Encode(ToJsString(id)), Encode(HandleGenerate.IdTerminator))
    ensures ParseFrame(HandleGenerate.FrameBytes(id, pcm)) == Some(Frame(ToJsString(id), pcm))
  {
    var e := Encode(ToJsString(id));
    HandleGenerate.HeaderLayout(id);
    assert HandleGenerate.FrameBytes(id, pcm) == [36] + e + Encode(HandleGenerate.IdTerminator) + pcm;
    ParseLaidOut(e, pcm);
    DecodeEncode(ToJsString(id));
  }

  /**
   * A '$' message with no terminator is not dropped: the id is read from byte 1 to one before
   * the end, and the payload from byte 12 on.
   */
  lemma MissingTerminator(b: seq<byte>)
    requires |b| >= 1 && b[0] == 36 && !Contains(b, Encode(HandleGenerate.IdTerminator))
    ensures ParseFrame(b) == Some(Frame(if |b| > 1 then Decode(b[1..|b| - 1]) else "",
                                        if |b| > 12 then b[12..] else []))
  {
    DropsUnlessDollar(b);
    HandleGenerate.TerminatorShape();
    var f := ParseFrame(b).value;
    assert f.id == Decode(Subarray(b, 1, -1));
    assert f.pcm == Subarray(b, 12, |b|);
    SubarrayEnds(b);
  }

  /** What `subarray(1, -1)` and `subarray(12)` select. */
  lemma SubarrayEnds(b: seq<byte>)
    requires |b| >= 1
    ensures Subarray(b, 1, -1) == if |b| > 1 then b[1..|b| - 1] else []
    ensures Subarray(b, 12, |b|) == if |b| > 12 then b[12..] else []
  {
  }

  /** One listener table: request id to the serial number of the promise waiting there. */
  type Table = map<string, int>

  /** `listeners`: one table per outbound message kind. */
  type Tables = map<OutType, Table>

  /** A promise made by `listenTo`: the table entry it was made for, and a serial number. */
  datatype Promise = Promise(kind: OutType, id: string, serial: int)

  /** A promise the client settled, and the message it settled it with. */
  datatype Resolution = Resolution(promise: Promise, data: JsValue)

  /** A chunk handed to a caller's stream callback. */
  datatype Delivery = Delivery(callback: nat, pcm: seq<byte>)

  /** What the socket delivers to `incomingHandler`. */
  datatype Incoming = BinaryMessage(bytes: seq<byte>) | TextMessage(text: Parsed)

  predicate AllKinds(ts: Tables) {
    forall k: OutType :: k in ts
  }

  /** The promise waiting at (k, id). */
  function WaitingPromise(ts: Tables, k: OutType, id: string): Promise
    requires k in ts && id in ts[k]
  {
    Promise(k, id, ts[k][id])
  }

  /** Every table of `a` is a part of the same table of `b`. */
  predicate Within(a: Tables, b: Tables) {
    forall k, id :: k in a && id in a[k] ==> k in b && id in b[k] && b[k][id] == a[k][id]
  }

  /** Waiting promises have serial numbers below `next`. */
  predicate SerialsBelow(ts: Tables, next: int) {
    forall k, id :: k in ts && id in ts[k] ==> ts[k][id] < next
  }

  /** Settled promises have serial numbers below `next`. */
  predicate SettledBelow(rs: seq<Resolution>, next: int) {
    forall i :: 0 <= i < |rs| ==> rs[i].promise.serial < next
  }

  /** No waiting promise has been settled. */
  predicate Unsettled(ts: Tables, rs: seq<Resolution>) {
    forall k, id, i :: k in ts && id in ts[k] && 0 <= i < |rs| ==> rs[i].promise != WaitingPromise(ts, k, id)
  }

  /** No promise was settled twice. */
  predicate SettledOnce(rs: seq<Resolution>) {
    forall i, j :: 0 <= i < j < |rs| ==> rs[i].promise != rs[j].promise
  }

  /** The bookkeeping behind "a promise is settled at most once". */
  predicate Good(ts: Tables, rs: seq<Resolution>, next: int) {
    AllKinds(ts) && SerialsBelow(ts, next) && SettledBelow(rs, next) && Unsettled(ts, rs) &&
    SettledOnce(rs)
  }

  /** Waiting on a fresh promise keeps the bookkeeping, whatever entry it replaces. */
  lemma {:induction false} ListenKeepsGood(ts: Tables, rs: seq<Resolution>, next: int, k: OutType, id: string)
    requires Good(ts, rs, next)
    ensures Good(ts[k := ts[k][id := next]], rs, next + 1)
  {
    var ts' := ts[k := ts[k][id := next]];
    forall k2, id2 | k2 in ts' && id2 in ts'[k2]
      ensures ts'[k2][id2] < next + 1
    {
      if !(k2 == k && id2 == id) {
        assert ts'[k2][id2] == ts[k2][id2];
      }
    }
    forall k2, id2, i | k2 in ts' && id2 in ts'[k2] && 0 <= i < |rs|
      ensures rs[i].promise != WaitingPromise(ts', k2, id2)
    {
      if !(k2 == k && id2 == id) {
        assert ts'[k2][id2] == ts[k2][id2];
      }
    }
  }

  /** Settling the promise an entry waits on and dropping the entry keeps the bookkeeping. */
  lemma {:induction false} ResolveKeepsGood(ts: Tables, rs: seq<Resolution>, next: int, k: OutType, id: string, data: JsValue)
    requires Good(ts, rs, next) && id in ts[k]
    ensures Good(ts[k := ts[k] - {id}], rs + [Resolution(WaitingPromise(ts, k, id), data)], next)
  {
    var ts' := ts[k := ts[k] - {id}];
    var rs' := rs + [Resolution(WaitingPromise(ts, k, id), data)];
    NarrowKeepsGood(ts', ts, rs, next);
    forall i | 0 <= i < |rs'|
      ensures rs'[i].promise.serial < next
    {
      if i < |rs| {
        assert rs'[i] == rs[i];
      }
    }
    forall k2, id2, i | k2 in ts' && id2 in ts'[k2] && 0 <= i < |rs'|
      ensures rs'[i].promise != WaitingPromise(ts', k2, id2)
    {
      assert ts'[k2][id2] == ts[k2][id2];
      if i < |rs| {
        assert rs'[i] == rs[i];
      }
    }
    forall i, j | 0 <= i < j < |rs'|
      ensures rs'[i].promise != rs'[j].promise
    {
      assert rs'[i] == rs[i];
      if j < |rs| {
        assert rs'[j] == rs[j];
      }
    }
  }

  /** Dropping entries keeps the bookkeeping. */
  lemma {:induction false} NarrowKeepsGood(a: Tables, ts: Tables, rs: seq<Resolution>, next: int)
    requires Good(ts, rs, next) && Within(a, ts) && AllKinds(a)
    ensures Good(a, rs, next)
  {
    forall k2, id2, i | k2 in a && id2 in a[k2] && 0 <= i < |rs|
      ensures rs[i].promise != WaitingPromise(a, k2, id2)
    {
      assert a[k2][id2] == ts[k2][id2];
    }
  }

  /** `ts` with `id` removed from the tables of the kinds in `ks`. */
  function RemoveIdFrom(ts: Tables, id: string, ks: seq<OutType>): (r: Tables)
    ensures Within(r, ts) && r.Keys == ts.Keys
    ensures forall k :: k in ts && k in ks ==> id !in r[k]
    ensures forall k :: k in ts && k !in ks ==> r[k] == ts[k]
  {
    map k | k in ts :: if k in ks then ts[k] - {id} else ts[k]
  }

  /** Removing from one more kind's table is one more map update, or none when the id is absent. */
  lemma {:induction false} RemoveIdFromStep(ts: Tables, id: string, i: nat)
    requires AllKinds(ts) && i < |AllOutTypes|
    ensures var r, k := RemoveIdFrom(ts, id, AllOutTypes[..i]), AllOutTypes[i];
            RemoveIdFrom(ts, id, AllOutTypes[..i + 1]) == if id in r[k] then r[k := r[k] - {id}] else r
  {
    var k := AllOutTypes[i];
    var ks := AllOutTypes[..i];
    assert AllOutTypes[..i + 1] == ks + [k];
    var r, r' := RemoveIdFrom(ts, id, ks), RemoveIdFrom(ts, id, ks + [k]);
    assert r[k] - {id} == r'[k];
    forall k2 | k2 in r'
      ensures r'[k2] == r[k := r[k] - {id}][k2]
    {
      if k2 != k {
        assert (k2 in ks + [k]) == (k2 in ks);
      }
    }
    if id !in r[k] {
      assert r[k] - {id} == r[k];
    }
  }

  /** Removing from the tables of all twelve kinds is removing from every table. */
  lemma RemoveIdFromAll(ts: Tables, id: string)
    ensures RemoveIdFrom(ts, id, AllOutTypes) == RemoveId(ts, id)
  {
    AllKindsAreListed();
  }

  /**
   * `id` removed from every table: no table holds it any more, and every other entry is kept
   * with the promise it waits on.
   */
  function RemoveId(ts: Tables, id: string): (r: Tables)
    ensures r.Keys == ts.Keys
    ensures forall k :: k in ts ==> id !in r[k]
    ensures forall k, other :: k in ts && other != id ==>
              (other in r[k] <==> other in ts[k]) && (other in r[k] ==> r[k][other] == ts[k][other])
  {
    map k | k in ts :: ts[k] - {id}
  }

  /** Removing an id twice is removing it once. */
  lemma RemoveIdIdempotent(ts: Tables, id: string)
    ensures RemoveId(RemoveId(ts, id), id) == RemoveId(ts, id)
  {
    var once := RemoveId(ts, id);
    var twice := RemoveId(once, id);
    forall k | k in once
      ensures twice[k] == once[k]
    {
      assert twice[k] == once[k] - {id};
    }
  }

  /** Whether an id is waited on, in a table the client keeps. */
  predicate Waiting(ts: Tables, k: OutType, id: string) {
    k in ts && id in ts[k]
  }

  /** After `removeAllListeners(id)`, no reply for that id is awaited, whatever its kind. */
  lemma RemovedIdAwaitsNothing(ts: Tables, id: string)
    ensures forall k :: !Waiting(RemoveId(ts, id), k, id)
  {
  }

  /** `ts` without the entry (k, id): every other entry is kept with the promise it waits on. */
  function RemoveEntry(ts: Tables, k: OutType, id: string): (r: Tables)
    requires k in ts
    ensures r.Keys == ts.Keys && !Waiting(r, k, id)
    ensures forall j, other :: j in ts && (j != k || other != id) ==>
              (Waiting(r, j, other) <==> Waiting(ts, j, other)) &&
              (Waiting(r, j, other) ==> r[j][other] == ts[j][other])
  {
    ts[k := ts[k] - {id}]
  }

  /** Removing an entry twice is removing it once; removing an absent entry changes nothing. */
  lemma RemoveEntryIdempotent(ts: Tables, k: OutType, id: string)
    requires k in ts
    ensures RemoveEntry(RemoveEntry(ts, k, id), k, id) == RemoveEntry(ts, k, id)
    ensures !Waiting(ts, k, id) ==> RemoveEntry(ts, k, id) == ts
  {
    var once := RemoveEntry(ts, k, id);
    assert once[k] - {id} == once[k];
    if !Waiting(ts, k, id) {
      assert ts[k] - {id} == ts[k];
    }
  }

  /** The same for the stream callbacks. */
  lemma RemoveStreamIdempotent(callbacks: map<string, nat>, id: string)
    ensures (callbacks - {id}) - {id} == callbacks - {id}
    ensures id !in callbacks ==> callbacks - {id} == callbacks
  {
  }

  lemma AllKindsAreListed()
    ensures forall k: OutType :: k in AllOutTypes
  {
    forall k: OutType
      ensures k in AllOutTypes
    {
      OutTypesClosed(k);
    }
  }

  /** The requests a caller can make; a streamed generation carries the caller's callback. */
  datatype Request =
    | LoadRequest | GenerateRequest | GenerateStreamRequest(callback: nat) | InterruptRequest
    | CloseRequest | GetProvidersRequest | GetModelsRequest | GetStreamFormatRequest
    | ClearTempFilesRequest

  /** The reply each request races against the one-second timer. */
  function AckKind(r: Request): OutType {
    match r
    case LoadRequest => LoadAck
    case GenerateRequest => GenerateAck
    case GenerateStreamRequest(_) => GenerateAck
    case InterruptRequest => InterruptAck
    case CloseRequest => CloseAck
    case GetProvidersRequest => GetProvidersDone
    case GetModelsRequest => GetModelsDone
    case GetStreamFormatRequest => GetStreamFormatDone
    case ClearTempFilesRequest => ClearTempFilesAck
  }

  /** The reply a request awaits after its acknowledgement, for the three that have one. */
  function DoneKind(r: Request): Option<OutType> {
    match r
    case LoadRequest => Some(LoadDone)
    case GenerateRequest => Some(GenerateDone)
    case GenerateStreamRequest(_) => Some(GenerateStreamDone)
    case _ => None
  }

  /** Which promise of `Promise.race([timeoutPromise, acknowledgementPromise])` settled first. */
  datatype Race = TimerFirst | AckFirst(reply: JsValue)

  /** Where a request method stands after a step. */
  datatype Step =
    | TimedOut                // removed its listeners and threw
    | AwaitingDone            // waits for its done message
    | Returned(value: JsValue)
    | Failed(error: JsValue)  // threw because the done message has `is_error` set
    | TypeError               // threw reading a property of a null or undefined value

  /**
   * After the race: the timer's `undefined` (or a null or undefined reply, which `==` treats
   * alike) times the request out, except `close`, which returns either way. Otherwise the three
   * queries return a field of their reply, load and both generations go on to their done
   * message, and the rest return.
   */
  function RaceStep(r: Request, race: Race): Step {
    if race.TimerFirst? || IsNullish(race.reply) then
      if r.CloseRequest? then Returned(JUndefined) else TimedOut
    else
      match r
      case GetProvidersRequest => Returned(Member(race.reply, "providers").value)
      case GetModelsRequest => Returned(Member(race.reply, "models").value)
      case GetStreamFormatRequest => Returned(Member(race.reply, "format").value)
      case LoadRequest => AwaitingDone
      case GenerateRequest => AwaitingDone
      case GenerateStreamRequest(_) => AwaitingDone
      case _ => Returned(JUndefined)
  }

  /** After the done message: a set `is_error` throws with its `error`; `generate` returns `response`. */
  function DoneStep(r: Request, done: JsValue): Step {
    if IsNullish(done) then TypeError
    else if Truthy(Member(done, "is_error").value) then Failed(Member(done, "error").value)
    else if r.GenerateRequest? then Returned(Member(done, "response").value)
    else Returned(JUndefined)
  }

  /**
   * A request times out exactly when the timer wins (or the reply is null or undefined) and it
   * is not `close`; it waits for a done message exactly when it has one and its acknowledgement
   * won; `close` always returns.
   */
  lemma RaceOutcomes(r: Request, race: Race)
    ensures RaceStep(r, race) == TimedOut <==>
              !r.CloseRequest? && (race.TimerFirst? || IsNullish(race.reply))
    ensures RaceStep(r, race) == AwaitingDone <==>
              DoneKind(r).Some? && race.AckFirst? && !IsNullish(race.reply)
    ensures r.CloseRequest? ==> RaceStep(r, race) == Returned(JUndefined)
    ensures !RaceStep(r, race).Failed? && !RaceStep(r, race).TypeError?
  {
  }

  /** A done message fails the request exactly when its `is_error` is truthy. */
  lemma DoneOutcomes(r: Request, done: JsValue)
    ensures DoneStep(r, done).Failed? <==> !IsNullish(done) && Truthy(Member(done, "is_error").value)
    ensures DoneStep(r, done).Returned? ==>
              DoneStep(r, done).value == if r.GenerateRequest? then Member(done, "response").value else JUndefined
    ensures DoneStep(r, done) != TimedOut && DoneStep(r, done) != AwaitingDone
  {
  }

  /** `wAIfuTtsClient`'s correlation state. */
  class TtsClient {
    /** `listeners`, with serial numbers in place of promises. */
    var listeners: Tables
    /** `streamListeners`, with the caller's callback identities. */
    var streamListeners: map<string, nat>
    /** Every promise settled by `emit`, in order. */
    var resolutions: seq<Resolution>
    /** Every chunk handed to a stream callback, in order. */
    var deliveries: seq<Delivery>
    /** The serial number the next `listenTo` promise gets. */
    var nextSerial: int

    ghost predicate Valid()
      reads this
    {
      Good(listeners, resolutions, nextSerial)
    }

    /** All twelve tables start empty, with no stream callback. */
    constructor ()
      ensures Valid()
      ensures forall k :: k in listeners && listeners[k] == map[]
      ensures streamListeners == map[] && resolutions == [] && deliveries == []
    {
      AllKindsAreListed();
      listeners := map k: OutType | k in AllOutTypes :: map[];
      streamListeners := map[];
      resolutions := [];
      deliveries := [];
      nextSerial := 0;
    }

    /**
     * `emit`: an unknown message type reads a table that does not exist and throws. Otherwise
     * the promise waiting at (type, id), if any, is settled with the message and only that entry
     * is removed; with none, nothing changes.
     */
    method Emit(messageType: string, id: string, data: JsValue) returns (outcome: Outcome)
      requires Valid()
      modifies this
      ensures Valid()
      ensures streamListeners == old(streamListeners) && deliveries == old(deliveries)
      ensures nextSerial == old(nextSerial)
      ensures OutTypeFromName(messageType).None? ==>
                outcome == Raised && listeners == old(listeners) && resolutions == old(resolutions)
      ensures OutTypeFromName(messageType).Some? ==>
                var k := OutTypeFromName(messageType).value;
                if Waiting(old(listeners), k, id) then
                  && outcome == Finished
                  && resolutions == old(resolutions) + [Resolution(WaitingPromise(old(listeners), k, id), data)]
                  && listeners == RemoveEntry(old(listeners), k, id)
                else
                  outcome == Dropped && listeners == old(listeners) && resolutions == old(resolutions)
    {
      var kind := OutTypeFromName(messageType);
      if kind.None? {
        return Raised;
      }
      var k := kind.value;
      if id in listeners[k] {
        ResolveKeepsGood(listeners, resolutions, nextSerial, k, id, data);
        resolutions := resolutions + [Resolution(WaitingPromise(listeners, k, id), data)];
        listeners := listeners[k := listeners[k] - {id}];
        outcome := Finished;
      } else {
        outcome := Dropped;
      }
    }

    /** `emitChunk`: the callback for the id, if one is registered, receives the payload. */
    method EmitChunk(id: string, pcm: seq<byte>)
      modifies this
      ensures deliveries == old(deliveries) +
                (if id in old(streamListeners) then [Delivery(old(streamListeners)[id], pcm)] else [])
      ensures listeners == old(listeners) && streamListeners == old(streamListeners)
      ensures resolutions == old(resolutions) && nextSerial == old(nextSerial)
    {
      if id in streamListeners {
        deliveries := deliveries + [Delivery(streamListeners[id], pcm)];
      }
    }

    /**
     * `incomingHandler`: a binary message is a frame for a stream callback; a text message is
     * parsed as JSON and handed to `emit` under its `type` and `unique_request_id`, read as
     * property keys. Unparsable text, and a `null` message, throw.
     */
    method IncomingHandler(message: Incoming) returns (outcome: Outcome)
      requires Valid()
      modifies this
      ensures Valid()
      ensures message.BinaryMessage? ==>
                && listeners == old(listeners) && resolutions == old(resolutions)
                && (ParseFrame(message.bytes).None? <==> outcome == Dropped)
                && deliveries == old(deliveries) +
                     match ParseFrame(message.bytes)
                     case None => []
                     case Some(f) =>
                       if f.id in old(streamListeners) then [Delivery(old(streamListeners)[f.id], f.pcm)] else []
      ensures message.TextMessage? ==> deliveries == old(deliveries)
      ensures message.TextMessage? && (message.text.Unparsable? || IsNullish(message.text.value)) ==>
                outcome == Raised && listeners == old(listeners) && resolutions == old(resolutions)
      ensures message.TextMessage? && message.text.Parsed? && !IsNullish(message.text.value) ==>
                var v := message.text.value;
                var k := OutTypeFromName(ToJsString(Member(v, "type").value));
                var id := ToJsString(Member(v, "unique_request_id").value);
                if k.None? then
                  outcome == Raised && listeners == old(listeners) && resolutions == old(resolutions)
                else if Waiting(old(listeners), k.value, id) then
                  && outcome == Finished
                  && resolutions == old(resolutions) + [Resolution(WaitingPromise(old(listeners), k.value, id), v)]
                  && listeners == RemoveEntry(old(listeners), k.value, id)
                else
                  outcome == Dropped && listeners == old(listeners) && resolutions == old(resolutions)
      ensures listeners != old(listeners) ==> outcome == Finished
      ensures streamListeners == old(streamListeners) && nextSerial == old(nextSerial)
    {
      match message
      case BinaryMessage(bytes) =>
        var frame := ParseFrame(bytes);
        if frame.None? {
          return Dropped;
        }
        EmitChunk(frame.value.id, frame.value.pcm);
        outcome := Finished;
      case TextMessage(text) =>
        if text.Unparsable? {
          return Raised;
        }
        var v := text.value;
        var id := Member(v, "unique_request_id");
        if id.None? {
          return Raised;
        }
        outcome := Emit(ToJsString(Member(v, "type").value), ToJsString(id.value), v);
    }

    /** `listenTo`: a fresh promise now waits at (kind, id), replacing any promise waiting there. */
    method ListenTo(k: OutType, id: string) returns (promise: Promise)
      requires Valid()
      modifies this
      ensures Valid()
      ensures promise == Promise(k, id, old(nextSerial)) && nextSerial == old(nextSerial) + 1
      ensures listeners == old(listeners)[k := old(listeners)[k][id := promise.serial]]
      ensures streamListeners == old(streamListeners)
      ensures resolutions == old(resolutions) && deliveries == old(deliveries)
    {
      ListenKeepsGood(listeners, resolutions, nextSerial, k, id);
      promise := Promise(k, id, nextSerial);
      listeners := listeners[k := listeners[k][id := nextSerial]];
      nextSerial := nextSerial + 1;
    }

    /** `removeListener`: an unknown message type throws; otherwise only (type, id) goes. */
    method RemoveListener(messageType: string, id: string) returns (outcome: Outcome)
      requires Valid()
      modifies this
      ensures Valid()
      ensures OutTypeFromName(messageType).None? <==> outcome == Raised
      ensures listeners ==
                if outcome == Raised then old(listeners)
                else RemoveEntry(old(listeners), OutTypeFromName(messageType).value, id)
      ensures streamListeners == old(streamListeners) && nextSerial == old(nextSerial)
      ensures resolutions == old(resolutions) && deliveries == old(deliveries)
    {
      var kind := OutTypeFromName(messageType);
      if kind.None? {
        return Raised;
      }
      var k := kind.value;
      if id in listeners[k] {
        var narrowed := RemoveEntry(listeners, k, id);
        NarrowKeepsGood(narrowed, listeners, resolutions, nextSerial);
        listeners := narrowed;
      } else {
        RemoveEntryIdempotent(listeners, k, id);
      }
      outcome := Finished;
    }

    /** `removeAllListeners`: the id leaves all twelve tables and the stream callbacks. */
    method RemoveAllListeners(id: string)
      requires Valid()
      modifies this
      ensures Valid()
      ensures listeners == RemoveId(old(listeners), id)
      ensures streamListeners == old(streamListeners) - {id}
      ensures nextSerial == old(nextSerial)
      ensures resolutions == old(resolutions) && deliveries == old(deliveries)
    {
      ghost var start := listeners;
      for i := 0 to |AllOutTypes|
        invariant listeners == RemoveIdFrom(start, id, AllOutTypes[..i])
        invariant streamListeners == old(streamListeners) && nextSerial == old(nextSerial)
        invariant resolutions == old(resolutions) && deliveries == old(deliveries)
      {
        var k := AllOutTypes[i];
        RemoveIdFromStep(start, id, i);
        if id in listeners[k] {
          listeners := listeners[k := listeners[k] - {id}];
        }
      }
      assert AllOutTypes[..|AllOutTypes|] == AllOutTypes;
      RemoveIdFromAll(start, id);
      NarrowKeepsGood(listeners, start, resolutions, nextSerial);
      if id in streamListeners {
        streamListeners := streamListeners - {id};
      }
    }

    /** `listenToStream`: the callback now receives the id's chunks, replacing any previous one. */
    method ListenToStream(id: string, callback: nat)
      modifies this
      ensures streamListeners == old(streamListeners)[id := callback]
      ensures listeners == old(listeners) && nextSerial == old(nextSerial)
      ensures resolutions == old(resolutions) && deliveries == old(deliveries)
    {
      streamListeners := streamListeners[id := callback];
    }

    /** `removeStreamListener`: only the id's callback goes. */
    method RemoveStreamListener(id: string)
      modifies this
      ensures streamListeners == old(streamListeners) - {id}
      ensures listeners == old(listeners) && nextSerial == old(nextSerial)
      ensures resolutions == old(resolutions) && deliveries == old(deliveries)
    {
      if id in streamListeners {
        streamListeners := streamListeners - {id};
      }
    }

    /**
     * The start of each request method: a promise for its acknowledgement, one for its done
     * message when it has one, then the stream callback for `generateStream`.
     */
    method BeginRequest(r: Request, id: string) returns (ack: Promise, done: Option<Promise>)
      requires Valid()
      modifies this
      ensures Valid()
      ensures ack == Promise(AckKind(r), id, old(nextSerial))
      ensures done.Some? <==> DoneKind(r).Some?
      ensures done.Some? ==> done.value == Promise(DoneKind(r).value, id, old(nextSerial) + 1)
      ensures nextSerial == old(nextSerial) + (if done.Some? then 2 else 1)
      ensures var afterAck := old(listeners)[ack.kind := old(listeners)[ack.kind][id := ack.serial]];
              listeners == if done.None? then afterAck
                           else afterAck[done.value.kind := afterAck[done.value.kind][id := done.value.serial]]
      ensures streamListeners ==
                if r.GenerateStreamRequest? then old(streamListeners)[id := r.callback] else old(streamListeners)
      ensures resolutions == old(resolutions) && deliveries == old(deliveries)
    {
      ack := ListenTo(AckKind(r), id);
      done := None;
      if DoneKind(r).Some? {
        var p := ListenTo(DoneKind(r).value, id);
        done := Some(p);
      }
      if r.GenerateStreamRequest? {
        ListenToStream(id, r.callback);
      }
    }

    /** The race against the timer; a timed-out request removes every listener for its id. */
    method SettleRace(r: Request, id: string, race: Race) returns (step: Step)
      requires Valid()
      modifies this
      ensures Valid()
      ensures step == RaceStep(r, race)
      ensures listeners == if step == TimedOut then RemoveId(old(listeners), id) else old(listeners)
      ensures streamListeners ==
                if step == TimedOut then old(streamListeners) - {id} else old(streamListeners)
      ensures nextSerial == old(nextSerial)
      ensures resolutions == old(resolutions) && deliveries == old(deliveries)
    {
      step := RaceStep(r, race);
      if step == TimedOut {
        RemoveAllListeners(id);
      }
    }

    /** After the done message; `generateStream` first drops its stream callback. */
    method AwaitDone(r: Request, id: string, done: JsValue) returns (step: Step)
      requires DoneKind(r).Some?
      modifies this
      ensures step == DoneStep(r, done)
      ensures streamListeners ==
                if r.GenerateStreamRequest? then old(streamListeners) - {id} else old(streamListeners)
      ensures listeners == old(listeners) && nextSerial == old(nextSerial)
      ensures resolutions == old(resolutions) && deliveries == old(deliveries)
    {
      if r.GenerateStreamRequest? {
        RemoveStreamListener(id);
      }
      step := DoneStep(r, done);
    }
  }
}
