# w-AI-fu SDK TTS, modelled in Dafny

The w-AI-fu SDK TTS module is a small daemon. It loads one text-to-speech provider at a time and
serves requests over a WebSocket connection.

- Requests arrive as JSON text frames. They are validated and dispatched on their `type` to one
  of eight handlers: load, close, interrupt, generate, get_providers, get_models,
  get_stream_format and clear_temp_files.
- Replies are JSON records tagged with one of twelve outbound message types.
- Streamed audio goes back as binary frames: `"$" + id + "<|end_of_id|>"`, followed by the PCM
  bytes.
- A provider is a script exporting a `Model` object that must pass an interface check. The one
  shipped provider, `fishaudio`, talks to the Fish Audio HTTP API.
- The repository also ships an example client, which matches replies to pending promises by
  message type and request id, and an installer for a provider's npm requirements.

The model follows the program's files, one module each.

| module | models | flavour |
|---|---|---|
| `Types` | `src/types.ts`: error codes, message kinds, reply records, `StrictMessageData` | pure |
| `JsValues`, `Utf8` | the JavaScript semantics the code relies on: property reads, `== undefined`, truthiness, `String(v)`, `Buffer` UTF-8 | pure |
| `TtsInterface` | `src/TtsInterface.ts`: the interface check and the provider contracts | pure |
| `Effects` | the daemon's observable effects, as one ordered log: socket sends, provider calls, `require.cache` drops, file removals, exit | class |
| `GlobalState` | `src/global_state.ts`: the active-provider slot | class |
| `TypedSend` | `src/typed_send.ts` | imperative |
| `LoadProvider` | `src/load_provider.ts` | imperative |
| `HandleGenerate` | `src/handle_generate.ts` | imperative |
| `ReceiveHandler` | `src/receive_handler.ts` | imperative |
| `FishAudio` | `providers/fishaudio/index.ts`, as a class plus one session class per generation | imperative |
| `Client` | `example_client.ts`: framing, listener tables, the request flow | class |
| `NpmRequirements` | `src/install_npm_req.ts` | mixed |

Each imperative handler has two parts:

- a method that changes the slot and appends to the log;
- a function that states the same effect on values, with `Routed`, `Loaded` or `GenRun` results.

The method's `ensures` ties the two together. The lemmas then state the protocol properties
about the function.

Code outside this model is taken as input:

- what a provider does when called (the chunks it hands its callback, its results);
- the outcome of loading a script;
- directory listings;
- the `fetch` responses and `reader.read()` values seen by the Fish Audio provider;
- the `npm` results.

Timers, promise settlements and socket messages are modelled as separate method calls. Each call
takes the state from one event to the next.

## Model

| member | source | states |
|---|---|---|
| Types.ErrFromName | src/types.ts:1-9 | a name read back is the name of the error it returns |
| Types.ErrorsClosed | src/types.ts:1-9 | `TTS_GEN_ERR` has seven distinct values; each name reads back to its own value |
| Types.OutTypesClosed | src/types.ts:54-65 | there are twelve distinct outbound kinds, every kind is listed, and every kind's name reads back to that kind |
| Types.OutTypesDistinct | src/types.ts:54-65 | the twelve listed kinds are pairwise distinct |
| Types.OutTypeNameRoundTrip | src/types.ts:131-144 | the lookup by message-type string inverts the naming of every kind |
| Types.OutTypeFromName | src/types.ts:131-144 | a kind found for a string is named by that string |
| Types.UnknownNameNamesNothing | src/types.ts:131-144 | a string the lookup rejects names no kind, so an unknown type reads a table the client does not have |
| Types.StrictPinsTag | src/types.ts:146 | a `StrictMessageData<K>` record is tagged `K`; no record is strict for `generate_streamed`, whose map entry is tagged `generate_done`; any well-typed record tagged `K` is strict for every other `K` |
| Types.StrictInhabited | src/types.ts:131-146 | every kind except `generate_streamed` has a strict record for any request id |
| JsValues.Member | src/handle_generate.ts:65-80 | reading a property throws exactly on `null` and `undefined`; on an object it gives the field, or `undefined` when the field is absent |
| JsValues.StringIdsPrintAsThemselves | src/handle_generate.ts:106 | a string id is written into the frame header unchanged |
| JsValues.IsNullish | src/receive_handler.ts:72-87 | `v == undefined`: true exactly for `null` and `undefined` |
| JsValues.Truthy | src/receive_handler.ts:47-52 | JavaScript truthiness: false exactly for `undefined`, `null`, `false`, the number zero and the empty string; every object and array is truthy |
| JsValues.ToJsString | src/handle_generate.ts:106 | `String(v)` for the values an id can hold; `StringIdsPrintAsThemselves` states that a string is printed unchanged |
| Utf8.Encode | src/handle_generate.ts:106 | `Buffer.from(s)`: the UTF-8 bytes of a string; `EncodeChar`, `EncodeAppend` and `EncodeAscii` state its shape |
| Utf8.Decode | example_client.ts:267 | `buffer.toString("utf8")`; `DecodeEncode` states that it inverts `Encode` |
| Utf8.EncodeChar | src/handle_generate.ts:106 | each character is 1 to 4 bytes, one byte exactly for ASCII, and the bytes of a longer sequence are all non-ASCII |
| Utf8.SequenceLength | example_client.ts:267 | a well-formed sequence found at the start of the input lies within it and has at most four bytes |
| Utf8.CodePoint | example_client.ts:267 | a decoded sequence is a Unicode scalar value, never a surrogate |
| Utf8.DecodeEncodedChar | example_client.ts:267 | one character's encoding decodes back to that character, whatever bytes follow it |
| Utf8.EncodeAppend | src/handle_generate.ts:106 | encoding maps concatenation to concatenation |
| Utf8.DecodeEncode | example_client.ts:267 | decoding the UTF-8 bytes of any string gives the string back |
| Utf8.EncodeAscii | src/handle_generate.ts:106 | an ASCII string's bytes are its character codes, one per character |
| TtsInterface.VerifyInterfaceAdherence | src/TtsInterface.ts:81-132 | the check: each required member, in the source's order, is present (not nullish); `AdherenceIff` and `FirstMissingDecides` state what it accepts |
| TtsInterface.FirstMissing | src/TtsInterface.ts:81-132 | it returns None exactly when every name is present, and otherwise the first name that is missing |
| TtsInterface.AdherenceIff | src/TtsInterface.ts:81-132 | the check passes exactly when `interruptNext`, `Init`, `Free`, `Generate`, `GenerateStream`, `Interrupt` and `GetStreamFormat` are all present |
| TtsInterface.GetModelsUnchecked | src/TtsInterface.ts:73-132 | the check's verdict does not depend on `GetModels`, although the interface declares it |
| TtsInterface.InterruptNextFalseIsPresent | src/TtsInterface.ts:83-88 | `interruptNext` fails the check only when it is null or undefined; `false` passes |
| TtsInterface.FirstMissingDecides | src/TtsInterface.ts:81-132 | the checks run in order and the first missing field decides the failure |
| TtsInterface.NonStreamingIsStream | src/TtsInterface.ts:41-58 | the two-call fallback of a provider that cannot stream (all audio, then done) meets the streaming contract |
| Effects.AwaitOutcome | src/receive_handler.ts:120 | an awaited promise that resolves lets the handler go on, one that rejects makes it reject, and one that never settles leaves it suspended; the three cases are distinct |
| GlobalState.State.constructor | src/global_state.ts:9-13 | the daemon starts with no provider, no provider name and no script path |
| TypedSend.Emitted | src/typed_send.ts:4-10 | at most one record goes out, exactly when its tag is the requested kind, and it is that record sent as text |
| TypedSend.StrictAlwaysSent | src/typed_send.ts:4-10 | a record typed `StrictMessageData<K>` always passes the guard and is sent |
| TypedSend.SendToClient | src/typed_send.ts:4-10 | it succeeds exactly when the tag matches; the log grows by what `Emitted` sends and nothing else |
| LoadProvider.Load | src/load_provider.ts:11-54 | the checks in the source's order (directory, the installer of `src/load_script.ts:20-33`, `index.ts`, `require`, `Model`, adherence), then the `Free` of the old provider and the `Init` of the new one; each awaited step that rejects or never settles ends the load there; the lemmas below state its cases |
| LoadProvider.LoadProvider | src/load_provider.ts:11-54 | how the call ends, the result, the new slot and the appended effects are those of `Load` |
| LoadProvider.MissingDirectoryTouchesNothing | src/load_provider.ts:14-24 | a missing provider directory gives INVALID_PROVIDER with no effect and the slot unchanged |
| LoadProvider.InstallerFailureEndsLoad | src/load_script.ts:30-33 | an installer that exits ends the load with that exit and nothing else; one that throws makes the load reject with no effect; the slot is unchanged either way |
| LoadProvider.RejectedScriptInstallsNothing | src/load_provider.ts:26-44 | a script that is missing, whose `require` throws, that has no `Model` or fails the interface check gives UNEXPECTED; no provider is called and the active one stays installed; the load rejects exactly when `require` threw (`src/load_script.ts:59-60`), and returns otherwise |
| LoadProvider.AcceptedSwapsSlot | src/load_provider.ts:46-53 | after all checks pass, the old provider is freed first (exactly once, if there is one); a `Free` that rejects or never settles ends the load there with the old provider installed; otherwise the new one is installed whatever `Init` does, `Init` is called once and last, the load settles as `Init` does, and a resolved `Init`'s result is the load's |
| LoadProvider.DroppedCacheKeyIsNewPath | src/load_provider.ts:46-50 | on a swap the dropped `require.cache` entry is keyed by the new index path, which the script loader has already stored |
| LoadProvider.LoadReturnsIff | src/load_provider.ts:11-54 | the load returns exactly when the directory is missing, or the installer returned, `require` did not throw, and either a check failed or (the old `Free`, if any, and) the new `Init` resolved |
| HandleGenerate.LooseEqualsZero | src/handle_generate.ts:84 | `input.length == 0` for the value `length` reads: true for the number 0, `false`, the strings "" and "0", and an array whose string form is "" or "0"; never for objects, `null` or `undefined`; see "Left out" for the strings it does not cover |
| HandleGenerate.Generate | src/handle_generate.ts:41-148 | the checks, then the ack, the provider call, the frames and, only once the provider's promise resolves, the final record; the handler settles as the provider's promise does; the lemmas below state its cases |
| HandleGenerate.Rejection | src/handle_generate.ts:43-90 | it returns None exactly when every check before the acknowledgement passes; a failed check never counts as finished |
| HandleGenerate.CheckRequest | src/handle_generate.ts:43-90 | the two loops over required fields and parameters give the rejection that `Rejection` defines |
| HandleGenerate.HandleGenerateRequest | src/handle_generate.ts:41-148 | the outcome and the appended effects are those of `Generate` for the active provider |
| HandleGenerate.GenerateStreamed | src/handle_generate.ts:98-125 | the branch calls `GenerateStream` once, sends one frame per data chunk, then sends the final record exactly when the provider's promise resolves, and settles as that promise does |
| HandleGenerate.ForwardChunks | src/handle_generate.ts:103-109 | the callback sends exactly the frames of the chunks it receives, in order |
| HandleGenerate.OutcomeClassified | src/handle_generate.ts:43-147 | the handler sends something exactly when every check passes; it returns exactly when, in addition, the provider's promise resolves, and stays suspended exactly when that promise never settles; it rejects exactly when `params`, or failing that `input`, is nullish, or the provider's promise rejects |
| HandleGenerate.MissingFieldDrops | src/handle_generate.ts:49-63 | a message lacking any required field, `unique_request_id` included, is dropped with nothing sent |
| HandleGenerate.Frames | src/handle_generate.ts:103-109 | what the streaming callback sends for a sequence of chunks: a frame for each chunk not flagged done; `FramesCount` and `FramesAreDataInOrder` state its contents |
| HandleGenerate.FrameBytes | src/handle_generate.ts:106-108 | one frame's bytes; `HeaderLayout` states its layout |
| HandleGenerate.FramesCount | src/handle_generate.ts:103-109 | there is one binary frame per chunk not flagged done, and nothing else |
| HandleGenerate.FramesAreDataInOrder | src/handle_generate.ts:103-109 | for any mix of data and done chunks, there is one frame per data chunk, and frame i carries the bytes of the i-th data chunk |
| HandleGenerate.FramesOfData | src/handle_generate.ts:103-109 | with no done chunk, frame i carries chunk i's bytes |
| HandleGenerate.FramesNoReply | src/handle_generate.ts:103-109 | frames are never acknowledgements, final records or provider calls |
| HandleGenerate.StreamedReplies | src/handle_generate.ts:92-125 | a streamed generation sends the ack first, calls the provider once, then sends frame i with the bytes of the i-th data chunk; exactly when the provider's promise resolves it ends with one `generate_stream_done`, whose `is_error` holds exactly when the error is not SUCCESS; a promise that rejects or never settles gets no final record, and the handler settles as the promise does |
| HandleGenerate.StreamContractReplies | src/handle_generate.ts:98-125 | for a provider that keeps the streaming contract, the client receives the ack, the data chunks in order as frames, then, exactly when the provider's promise resolves, the final record, and nothing else |
| HandleGenerate.SyncReplies | src/handle_generate.ts:126-147 | a synchronous generation sends the ack and calls `Generate` once; it sends one `generate_done` exactly when the provider's promise resolves, and nothing more otherwise, settling as that promise does; a provider that keeps its contract sends a response exactly when `is_error` is false |
| HandleGenerate.TerminatorEncoding | src/handle_generate.ts:106 | the id terminator is 13 ASCII bytes |
| HandleGenerate.TerminatorShape | src/handle_generate.ts:106 | the terminator's first byte, '<', does not occur again in it, so it cannot overlap itself |
| HandleGenerate.HeaderLayout | src/handle_generate.ts:106-108 | a frame is '$', the UTF-8 bytes of `String(id)`, the terminator, then the PCM bytes |
| ReceiveHandler.Validate | src/receive_handler.ts:37-87 | the checks before the switch, in order: parse, truthy, `typeof` "object", `type` and `unique_request_id` not nullish; `ValidateIff` states what passes |
| ReceiveHandler.Route | src/receive_handler.ts:35-258 | validation, the kind lookup, then `Dispatch`; `IgnoredMessages`, `RoutePreservesConsistency` and `OnlyLoadChangesSlot` state its properties |
| ReceiveHandler.Dispatch | src/receive_handler.ts:91-256 | the effect of each request kind, awaiting the provider where the source does; the lemmas below state each case |
| ReceiveHandler.LoadCase | src/receive_handler.ts:93-142 | the provider checks, the ack, the load, then, only if the load returns, the slot update and the answer; `LoadReplies` states its cases |
| ReceiveHandler.LoadAnswered | src/receive_handler.ts:112-141 | the part of the `load` case after the provider checks: the ack, the load's own effects, then, only if the load returns, the slot update and the answer |
| ReceiveHandler.AfterLoad | src/receive_handler.ts:122-132 | a failed load empties the slot, a successful one records the provider's name and keeps the loaded object |
| ReceiveHandler.ClearEvents | src/receive_handler.ts:229-250 | the removals of the listed files, then the ack; `ClearRemovesThenAcks` states its order |
| ReceiveHandler.KindOf | src/receive_handler.ts:91-256 | a kind is found exactly when `type` is strictly equal to that kind's name |
| ReceiveHandler.Removals | src/receive_handler.ts:229-250 | one removal per listed file, in listing order |
| ReceiveHandler.HandleReceivedMessage | src/receive_handler.ts:35-258 | the outcome, the new slot and the appended effects are those of `Route` |
| ReceiveHandler.DispatchRequest | src/receive_handler.ts:91-256 | each request kind has the effect that `Dispatch` gives it |
| ReceiveHandler.HandleLoad | src/receive_handler.ts:93-142 | a load has the effect that `LoadCase` gives it |
| ReceiveHandler.LoadListed | src/receive_handler.ts:112-141 | a load of a listed provider has the effect that `LoadAnswered` gives it |
| ReceiveHandler.ClearTempFiles | src/receive_handler.ts:229-250 | a failed listing rejects with no effect; otherwise every listed file is removed, then the ack is sent |
| ReceiveHandler.ValidateIff | src/receive_handler.ts:37-87 | a message gets through exactly when it parses to an object whose `type` and `unique_request_id` are not nullish |
| ReceiveHandler.IgnoredMessages | src/receive_handler.ts:37-87 | a message that fails validation, or whose `type` names no request, changes nothing and sends nothing |
| ReceiveHandler.RoutePreservesConsistency | src/receive_handler.ts:120-132 | every request keeps the slot consistent (a listed provider's name is recorded exactly when a provider is installed), except an accepted load whose `Init` rejects or never settles: it leaves the new object installed and the old name recorded |
| ReceiveHandler.StalledInitLeavesProviderUnnamed | src/receive_handler.ts:120-132 | with no provider loaded, such a load does not return and leaves an object installed with no name recorded, which is inconsistent when no name was recorded |
| ReceiveHandler.OnlyLoadChangesSlot | src/receive_handler.ts:93-142 | only a valid load request changes the slot |
| ReceiveHandler.GenerateDelegates | src/receive_handler.ts:171-175 | a generate request is `HandleGenerateRequest` against the active provider, with the slot unchanged |
| ReceiveHandler.LoadSendsNothing | src/load_provider.ts:11-54 | a load only calls providers, drops cache entries and may exit the process; it sends nothing |
| ReceiveHandler.LoadReplies | src/receive_handler.ts:112-141 | a load of a listed provider sends one ack first and settles as the load does; exactly when the load returns it sends one answer last, whose `is_error` holds exactly when the load failed, and success installs the loaded object under the provider's name while failure empties the slot; otherwise no answer is sent and the slot is as the load left it |
| ReceiveHandler.FailedCheckDropsWithoutFree | src/receive_handler.ts:120-132 | a load that fails before the swap never calls `Free`; when it returns it empties the slot, so the previous provider is dropped unfreed; when it does not, the previous provider stays installed |
| ReceiveHandler.CloseAcksThenExits | src/receive_handler.ts:143-153 | a close request sends the ack, then the process exits with code 0, and the handler ends there |
| ReceiveHandler.InterruptAcksFirst | src/receive_handler.ts:154-170 | an interrupt is always acked first; the provider's `Interrupt` is then called exactly when a provider is active, and the handler settles as that call does |
| ReceiveHandler.QueriesNeedProvider | src/receive_handler.ts:187-228 | `get_models` and `get_stream_format` with no provider send nothing; with one, they ask it, settle as its promise does, and reply with its answer exactly when that promise resolves |
| ReceiveHandler.ClearRemovesThenAcks | src/receive_handler.ts:229-250 | every listed entry is removed, in order, before the ack; a failed listing rejects with nothing sent |
| FishAudio.DataChunks | providers/fishaudio/index.ts:278-283 | each chunk the loop makes becomes a data chunk with those bytes |
| FishAudio.Payloads | providers/fishaudio/index.ts:278-283 | the bytes of each delivered chunk, in order |
| FishAudio.RechunkFlatten | providers/fishaudio/index.ts:268-286 | the chunks of one read value, joined, are that value: nothing is lost, duplicated or reordered |
| FishAudio.RechunkSizes | providers/fishaudio/index.ts:255-286 | every chunk holds 1 to 2048 bytes, all but the last hold exactly 2048, and there are ceil(n/2048) of them |
| FishAudio.PayloadsOfData | providers/fishaudio/index.ts:278-283 | the bytes of the data chunks made from some pieces are those pieces |
| FishAudio.CloseKeepsShape | providers/fishaudio/index.ts:292-295 | appending the empty done chunk to an open stream closes it and meets the streaming contract |
| FishAudio.DataKeepsShape | providers/fishaudio/index.ts:268-286 | appending a read value's chunks keeps the stream open and well shaped |
| FishAudio.TextToSpeechFishAudio.constructor | providers/fishaudio/index.ts:9-14 | no key, no generation counted, no interrupt requested |
| FishAudio.TextToSpeechFishAudio.Init | providers/fishaudio/index.ts:16-62 | a non-nullish key is kept; `Init` returns unless the status is above 399 and reading the body for the log rejects or never settles, in which case it settles as that read does; when it returns, the result is SUCCESS exactly when a key is given, the probe responds and its status is at most 399, and AUTHORIZATION otherwise |
| FishAudio.TextToSpeechFishAudio.GetModels | providers/fishaudio/index.ts:66-69 | the model list is empty |
| FishAudio.TextToSpeechFishAudio.GetStreamFormat | providers/fishaudio/index.ts:71-78 | the format is mono, 16-bit, 44100 Hz PCM |
| FishAudio.TextToSpeechFishAudio.Interrupt | providers/fishaudio/index.ts:316-319 | the interrupt flag is set and nothing else changes |
| FishAudio.TextToSpeechFishAudio.Generate | providers/fishaudio/index.ts:80-108 | the flag is cleared; with nullish `params` the executor throws before counting; otherwise the generation is counted, the timer is armed exactly when `timeout_ms` is truthy, and the request is pending |
| FishAudio.TextToSpeechFishAudio.GenerateStream | providers/fishaudio/index.ts:195-220 | the same start without the count, so the counter does not change |
| FishAudio.GenerateSession.TimerFires | providers/fishaudio/index.ts:89-105 | unless already finished, the session resolves TIMEOUT and is uncounted; a finished session is left as it is |
| FishAudio.GenerateSession.FetchSettles | providers/fishaudio/index.ts:109-150 | a rejected request resolves UNEXPECTED unless already finished; a response of any status opens the file and starts reading |
| FishAudio.GenerateSession.ReadReturns | providers/fishaudio/index.ts:152-191 | with no stop condition the value is appended to the file; otherwise the session is uncounted (again, after a timeout) and, unless already finished, resolves INTERRUPT or SUCCESS with the file's path |
| FishAudio.GenerateSession.ReadRejects | providers/fishaudio/index.ts:152-156 | a failed read throws inside the executor and leaves the promise pending as it was |
| FishAudio.StreamSession.TimerFires | providers/fishaudio/index.ts:206-219 | unless already finished, the session resolves TIMEOUT and is uncounted; a finished session is left as it is |
| FishAudio.StreamSession.FetchSettles | providers/fishaudio/index.ts:221-254 | a rejected request resolves UNEXPECTED unless already finished and hands the callback no done chunk; a response starts reading |
| FishAudio.StreamSession.Drain | providers/fishaudio/index.ts:268-286 | the inner loop hands the callback exactly the chunks of the value, in order |
| FishAudio.StreamSession.Accept | providers/fishaudio/index.ts:257-286 | a value read with no stop condition is recorded and drained to the callback |
| FishAudio.StreamSession.ReadReturns | providers/fishaudio/index.ts:257-312 | with no stop condition the value is rechunked to the callback; otherwise the stream ends as in `EndStream` |
| FishAudio.StreamSession.EndStream | providers/fishaudio/index.ts:288-312 | the session is uncounted, the timer cleared if armed, one empty done chunk is delivered and, unless already finished, it resolves INTERRUPT or SUCCESS; its invariant keeps every delivered byte in order and the streaming contract whenever it resolves SUCCESS or INTERRUPT |
| FishAudio.StreamSession.ReadRejects | providers/fishaudio/index.ts:257-260 | a failed read throws inside the executor and changes nothing that was delivered or resolved |
| Client.Subarray | example_client.ts:254-266 | `Buffer.subarray(start, end)` with relative and clamped indices; `RelativeIndex` states the index rule |
| Client.ParseFrame | example_client.ts:252-268 | the binary branch: drop unless the first byte decodes to "$", then split at the first terminator; `FrameRoundTrip`, `DropsUnlessDollar` and `MissingTerminator` state what it returns |
| Client.RelativeIndex | example_client.ts:263-267 | `subarray` reads an index relative to the end when it is negative and clamps it into the buffer |
| Client.DecodeOneByte | example_client.ts:252-257 | the first byte decodes to "$" exactly when it is 36 |
| Client.DropsUnlessDollar | example_client.ts:252-261 | a binary message is dropped exactly when it is empty or does not start with '$' |
| Client.FirstOccurrenceAfter | example_client.ts:263-264 | a self-non-overlapping terminator is first found right after an id that does not contain it |
| Client.ParseLaidOut | example_client.ts:263-268 | '$', an id free of the terminator, the terminator and a payload parse back to that id and payload |
| Client.FrameRoundTrip | example_client.ts:249-268 | parsing inverts the daemon's framing: an id whose bytes do not contain the terminator comes back as its string form, and the PCM bytes come back unchanged |
| Client.MissingTerminator | example_client.ts:263-268 | with no terminator the message is not dropped: the id is read from byte 1 to one before the end, and the payload from byte 12 |
| Client.ListenKeepsGood | example_client.ts:276-293 | waiting on a fresh promise keeps the bookkeeping behind "each promise settles at most once", even when it replaces an entry |
| Client.ResolveKeepsGood | example_client.ts:226-241 | settling the promise an entry waits on, and dropping the entry, keeps that bookkeeping |
| Client.NarrowKeepsGood | example_client.ts:295-317 | dropping entries keeps that bookkeeping |
| Client.RemoveIdFrom | example_client.ts:305-316 | the loop's partial result: the id is gone from the tables visited so far, the others are untouched |
| Client.RemoveIdFromAll | example_client.ts:305-316 | visiting all twelve kinds removes the id from every table |
| Client.RemoveId | example_client.ts:303-317 | the id is in no table any more, and every other entry keeps the promise it waits on |
| Client.RemoveIdIdempotent | example_client.ts:303-317 | removing an id twice is removing it once |
| Client.RemovedIdAwaitsNothing | example_client.ts:303-317 | after removal no reply for the id is awaited, whatever its kind |
| Client.RemoveEntry | example_client.ts:295-301 | only the entry (kind, id) goes; every other entry keeps its promise |
| Client.RemoveEntryIdempotent | example_client.ts:295-301 | removing an entry twice is removing it once; removing an absent entry changes nothing |
| Client.RemoveStreamIdempotent | example_client.ts:324-330 | removing a stream callback twice is removing it once; removing an absent one changes nothing |
| Client.AllKindsAreListed | example_client.ts:175-190 | the client keeps a table for every outbound kind |
| Client.RaceOutcomes | example_client.ts:351-359 | a request times out exactly when the timer wins or the reply is nullish and it is not `close`; it waits for its done message exactly when it has one and its ack won; `close` returns either way |
| Client.DoneOutcomes | example_client.ts:361-369 | a done message fails the request exactly when `is_error` is truthy; otherwise `generate` returns `response` and the rest return nothing |
| Client.TtsClient.constructor | example_client.ts:175-200 | all twelve tables start empty, with no stream callback |
| Client.TtsClient.Emit | example_client.ts:226-241 | an unknown type throws; otherwise the promise waiting at (type, id), if any, is settled with the message and only that entry goes; with none, nothing changes |
| Client.TtsClient.EmitChunk | example_client.ts:243-247 | the id's callback, if any, receives the payload, and nothing else changes |
| Client.TtsClient.IncomingHandler | example_client.ts:249-274 | a binary frame goes to its stream callback and is dropped exactly when unparsable; for a text message, an unknown type throws, a promise waiting at (type, id) is settled with the message and only that entry goes, and with none nothing changes; unparsable text and `null` throw with nothing changed |
| Client.TtsClient.ListenTo | example_client.ts:276-293 | a fresh promise waits at (kind, id), replacing any previous one |
| Client.TtsClient.RemoveListener | example_client.ts:295-301 | an unknown type throws; otherwise only (type, id) goes |
| Client.TtsClient.RemoveAllListeners | example_client.ts:303-317 | the id leaves all twelve tables and the stream callbacks, and nothing else changes |
| Client.TtsClient.ListenToStream | example_client.ts:319-322 | the callback now receives the id's chunks, replacing any previous one |
| Client.TtsClient.RemoveStreamListener | example_client.ts:324-330 | only the id's callback goes |
| Client.TtsClient.BeginRequest | example_client.ts:424-428 | a request waits on its ack and, when it has one, on its done message (with consecutive serials), and a streamed generation registers its callback |
| Client.TtsClient.SettleRace | example_client.ts:351-359 | the step after the race is `RaceStep`; a timed-out request removes every listener for its id |
| Client.TtsClient.AwaitDone | example_client.ts:448-458 | the step after the done message is `DoneStep`; `generateStream` first drops its stream callback |
| NpmRequirements.LineEnd | src/install_npm_req.ts:57 | the first '\n', or the end of the text |
| NpmRequirements.SplitLines | src/install_npm_req.ts:57 | the split gives at least one line, and no line holds a '\n' |
| NpmRequirements.LineCount | src/install_npm_req.ts:57 | there is one more line than there are '\n' characters |
| NpmRequirements.SplitJoin | src/install_npm_req.ts:57 | without '\r', joining the lines with '\n' gives the text back |
| NpmRequirements.Blank | src/install_npm_req.ts:61 | `line.trim() == ""`: every character is ECMAScript white space or a line terminator |
| NpmRequirements.LastAt | src/install_npm_req.ts:63-71 | it is -1 exactly when there is no '@'; otherwise it is the position of the last '@' |
| NpmRequirements.Sanitize | src/install_npm_req.ts:76-77 | the result is no longer than the input and holds no forbidden character |
| NpmRequirements.SanitizeAppend | src/install_npm_req.ts:76-77 | sanitising works character by character, mapping concatenation to concatenation |
| NpmRequirements.SanitizeChar | src/install_npm_req.ts:76-77 | a forbidden character is removed and any other is kept |
| NpmRequirements.SanitizeClean | src/install_npm_req.ts:76-77 | a string free of forbidden characters is left unchanged |
| NpmRequirements.SanitizeIdempotent | src/install_npm_req.ts:76-77 | sanitising twice is sanitising once |
| NpmRequirements.ParseLine | src/install_npm_req.ts:63-77 | a line is rejected exactly when it has no '@' |
| NpmRequirements.SplitAtLastAt | src/install_npm_req.ts:63-77 | the version part holds no '@', and for a clean line the name, '@' and the version rebuild the line |
| NpmRequirements.NameAtVersion | src/install_npm_req.ts:63-77 | any clean name, scoped `@scope/pkg` names included, and any clean version without '@' read back from `name@version` |
| NpmRequirements.CommandIsClean | src/install_npm_req.ts:76-87 | the install command built from a line holds none of the characters the source strips; spaces, quotes and backslashes are not among them, so the command can still carry extra flags |
| NpmRequirements.HandleLine | src/install_npm_req.ts:59-105 | one iteration: a blank line is skipped, a line without '@' exits with code 1, an installed name is skipped, a failing install exits with code 1 after that install, and a good one is installed before the rest of the run |
| NpmRequirements.ProcessLines | src/install_npm_req.ts:59-105 | the loop either completes or exits with code 1 |
| NpmRequirements.ProcessConcat | src/install_npm_req.ts:59-105 | lines are handled in order, and the first failure ends the run without looking at later lines |
| NpmRequirements.InstallsAreNewAndClean | src/install_npm_req.ts:79-87 | every install is of a name not already installed, with name and version free of forbidden characters |
| NpmRequirements.ExitsIffSomeLineFails | src/install_npm_req.ts:59-105 | the run exits with code 1 exactly when some line has no '@' or its install fails |
| NpmRequirements.InstallLines | src/install_npm_req.ts:59-105 | the loop computes `ProcessLines` over the installed names |
| NpmRequirements.DependencyKeys | src/install_npm_req.ts:50-55 | enumerating the dependencies throws exactly when the listing or its `dependencies` is nullish |
| NpmRequirements.ObjectKeys | src/install_npm_req.ts:50-55 | exactly the object's own keys, each once |
| NpmRequirements.IndexKeys | src/install_npm_req.ts:50-55 | the indices 0 to n-1 as decimal strings, in order |
| NpmRequirements.InstalledDeps | src/install_npm_req.ts:50-55 | it fails exactly when enumeration throws; otherwise it holds exactly the dependency keys |
| NpmRequirements.Run | src/install_npm_req.ts:9-48 | a failed listing, an unparsable listing or an unreadable requirements file exits with code 1 before any install |
| NpmRequirements.InstallNpmRequirements | src/install_npm_req.ts:4-107 | the installer does what `Run` defines |

## Left out

- Logging (`console.log`, `console.error`) has no effect in the model.
- The WebSocket server, its connection handling (`index.ts`) and `start_module.js` are not part of this model. Text frames arrive as `Parsed` values, either a JSON value or unparsable.
- The file-system checks and the `require` of `src/load_script.ts` are inputs of `Load`: whether `index.ts` exists, whether `require` throws, and the exports and index path it gives. How the npm installer ended is an input too; the installer itself is modelled separately in `NpmRequirements`, and the two are not linked by a lemma. The pip requirements check has no effect in the source.
- Every awaited provider call, and a provider's `Free` and `Init` during a load, settles as an input says (`Effects.Settling`): it resolves, rejects or never settles. A handler that rejects is not caught by the WebSocket listener, which does not await it (`index.ts:50-52`); the model records the outcome `Raised` and does not model what Node does with an unhandled rejection.
- A provider that hands the streaming callback chunks after its promise has settled is not expressible: `ProviderRun` lists the chunks before the settlement. The Fish Audio provider's `ReadRejects` leaves its promise pending; on the daemon side that is a `ProviderRun` whose ending is `NeverSettles`, and the two are not linked by a lemma.
- ReceiveHandler.RoutePreservesConsistency: the slot stays consistent except after an accepted load whose `Init` rejects or never settles. The source installs the new object (`src/load_provider.ts:52`) before awaiting `Init`, so such a load leaves that object installed under the old name, or under no name (`ReceiveHandler.StalledInitLeavesProviderUnnamed`).
- `get_providers` lists the `providers` directory. The listing is an input to the router, and the handler's reply is taken from it.
- Calls into a provider are events in the log. What the provider does when called (the chunks, the results, the model list, the format) is an input. The Fish Audio provider is modelled separately in `FishAudio`.
- `fetch`, `msgpack`, `AbortController` and the HTTP status are leaves of the Fish Audio model. A request either responds or rejects, and the values `reader.read()` returns are parameters.
- The file the synchronous generation writes through `createWriteStream` is a byte sequence in the session. Write errors and the stream's own buffering are left out.
- The `crypto.randomUUID()` file names and request ids are parameters.
- Timers are not clocks. Each timer is a state (unarmed, armed, fired, cleared), and its callback is a method that may be called while it is armed.
- In `FishAudio` and `Client`, each await point is a separate method, each running atomically. The model allows calls in an order the event loop would not produce, for example a read after an abort, so the properties proved about those classes hold for the real orders too. There are two exceptions. `FishAudio.TextToSpeechFishAudio.Init` takes the results of its two awaits (the `fetch` at `providers/fishaudio/index.ts:33` and `response.text()` at line 58) as parameters and runs as one method; in the program, `src/load_provider.ts:52-53` installs the object before awaiting `Init`, so a generate or interrupt request arriving during that `fetch` reaches it, and what `Init` states about `concurrentGenerations` and `interruptNext` holds only under the no-concurrency assumption below. `FishAudio.StreamSession.EndStream` spans `await callback(...)` at line 292; it is atomic by the same argument as the inner streaming loop, since the daemon's callback is synchronous and only microtasks run across that await. The daemon modules (`HandleGenerate`, `LoadProvider`, `ReceiveHandler`) instead run one whole request per method, across its provider awaits (`src/handle_generate.ts:100`, `:128`; `src/receive_handler.ts:120`, `:168`, `:198`, `:219`); their properties hold per request, under the assumption of the next line that no other request runs while one is suspended.
- The Fish Audio inner streaming loop runs as one step, because the daemon's callback is synchronous and only microtasks run between its iterations.
- Concurrent requests are not modelled. Each router call runs to completion, so a load that swaps the provider while a generation is in flight is not expressible. The code does not serialise these either.
- HandleGenerate.LooseEqualsZero, and with it HandleGenerate.Rejection: a `length` string counts as loosely equal to 0 only when it is "" or "0". JavaScript also gives `true` for " 0", "0.0" and "0x0".
- Utf8.Decode replaces each byte that starts no well-formed sequence with U+FFFD. Node replaces a maximal ill-formed subpart as a whole, so the two differ on ill-formed input. What `Client.MissingTerminator` states about the id holds only up to that difference. On the bytes the daemon itself writes, `Utf8.DecodeEncode` rules the difference out.
- Property keys are Dafny strings of code points, not UTF-16 code units. Reads of names inherited from `Object.prototype` (`toString`, `__proto__`) are not modelled.
- Strings, request ids included, are sequences of Unicode scalar values. `JSON.parse` also accepts ids holding lone surrogates, which `Buffer.from` at `src/handle_generate.ts:106` writes as EF BF BD; such an id does not come back from the frame, so `Client.FrameRoundTrip` covers only ids made of scalar values.
- The client's `main`, `readline` prompts, `sendToModule` and `waitForConnected` are left out: they are console and connection plumbing.
- The output of `npm list` enters the installer already parsed. The checks `!installedDepsResp` and `!installResp` are not modelled: both read a `Buffer`, which is always truthy, so they never fire.

The model follows the code in these places, where the code does not do what its own comments, types or names declare:

- `GenerateStream` is documented to end every stream with an empty chunk flagged done (`src/TtsInterface.ts:44-49`). The Fish Audio provider breaks this when its `fetch` rejects: it resolves UNEXPECTED and never hands the callback a done chunk (`providers/fishaudio/index.ts:239-251`). It breaks it too when a `reader.read()` rejects (line 259, `FishAudio.StreamSession.ReadRejects`): the executor throws and the chunks delivered so far stay the last ones. Every read after the timer's abort (line 211) can end this way, so a stream that times out may never see its done chunk.
- The Fish Audio counter of concurrent generations is decremented by the synchronous generation's timer (`providers/fishaudio/index.ts:96`) and again when its read loop ends (line 159). A read that returns after the timer has fired therefore uncounts one generation twice. A read that rejects after the abort ends the session before line 159, so the second decrement needs a read that returns.
- The streamed generation never increments the counter (there is no increment between lines 195 and 312), but decrements it when the request fails (line 245) or ends (line 289). The floor at zero keeps the counter non-negative in both cases.
- The synchronous generation declares `timeout` (`providers/fishaudio/index.ts:85`) but never assigns the handle `setTimeout` returns (line 91), so `clearTimeout(timeout)` at line 168 clears nothing and the timer stays armed.
- `src/load_provider.ts:49` deletes `require.cache[state.requirePath]`, but `src/load_script.ts:59` has already set `requirePath` to the new provider's index path. The entry dropped is the new provider's, not the old one's (`LoadProvider.DroppedCacheKeyIsNewPath`).
- `StrictMessageData<"generate_streamed">` has no values, because the map entry for `generate_streamed` is tagged `generate_done` (`src/types.ts:131-146`, `Types.StrictPinsTag`).
- The installer fills `installedDeps` once, from `npm list` (`src/install_npm_req.ts:50-55`), and never adds the names it installs, so a package listed twice is installed twice.
