/**
 * The declarations of src/types.ts: the generation error enumeration, the closed set of
 * outbound message kinds, the reply records and the typing rule `StrictMessageData<K>`.
 */
module Types {
  import opened Wrappers
  import opened Utf8
  import opened JsValues

  /** `TTS_GEN_ERR`, whose values travel on the wire as their own names. */
  datatype GenErr = SUCCESS | UNEXPECTED | AUTHORIZATION | INVALID_PROVIDER | INVALID_MODEL | TIMEOUT | INTERRUPT

  const AllErrors: seq<GenErr> :=
    [SUCCESS, UNEXPECTED, AUTHORIZATION, INVALID_PROVIDER, INVALID_MODEL, TIMEOUT, INTERRUPT]

  function ErrName(e: GenErr): string {
    match e
    case SUCCESS => "SUCCESS"
    case UNEXPECTED => "UNEXPECTED"
    case AUTHORIZATION => "AUTHORIZATION"
    case INVALID_PROVIDER => "INVALID_PROVIDER"
    case INVALID_MODEL => "INVALID_MODEL"
    case TIMEOUT => "TIMEOUT"
    case INTERRUPT => "INTERRUPT"
  }

  /** Reading an error name back, as a client of the wire protocol does. */
  function ErrFromName(s: string): (r: Option<GenErr>)
    ensures r.Some? ==> ErrName(r.value) == s
  {
    if s == "SUCCESS" then Some(SUCCESS)
    else if s == "UNEXPECTED" then Some(UNEXPECTED)
    else if s == "AUTHORIZATION" then Some(AUTHORIZATION)
    else if s == "INVALID_PROVIDER" then Some(INVALID_PROVIDER)
    else if s == "INVALID_MODEL" then Some(INVALID_MODEL)
    else if s == "TIMEOUT" then Some(TIMEOUT)
    else if s == "INTERRUPT" then Some(INTERRUPT)
    else None
  }

  /** The enumeration is closed: seven distinct values, each named by a distinct string. */
  lemma ErrorsClosed(e: GenErr)
    ensures e in AllErrors && |AllErrors| == 7
    ensures ErrFromName(ErrName(e)) == Some(e)
    ensures forall i, j :: 0 <= i < j < |AllErrors| ==> AllErrors[i] != AllErrors[j]
  {
  }

  /** `MessageOutType`, which is exactly the key set of `MessageTypeMap`. */
  datatype OutType =
    | LoadAck | GenerateAck | InterruptAck | CloseAck | LoadDone | GenerateDone
    | GenerateStreamed | GenerateStreamDone | GetProvidersDone | GetModelsDone
    | GetStreamFormatDone | ClearTempFilesAck

  const AllOutTypes: seq<OutType> :=
    [LoadAck, GenerateAck, InterruptAck, CloseAck, LoadDone, GenerateDone,
     GenerateStreamed, GenerateStreamDone, GetProvidersDone, GetModelsDone,
     GetStreamFormatDone, ClearTempFilesAck]

  function OutTypeName(k: OutType): string {
    match k
    case LoadAck => "load_ack"
    case GenerateAck => "generate_ack"
    case InterruptAck => "interrupt_ack"
    case CloseAck => "close_ack"
    case LoadDone => "load_done"
    case GenerateDone => "generate_done"
    case GenerateStreamed => "generate_streamed"
    case GenerateStreamDone => "generate_stream_done"
    case GetProvidersDone => "get_providers_done"
    case GetModelsDone => "get_models_done"
    case GetStreamFormatDone => "get_stream_format_done"
    case ClearTempFilesAck => "clear_temp_files_ack"
  }

  /** The kind a message-type string names, if any. */
  function OutTypeFromName(s: string): (r: Option<OutType>)
    ensures r.Some? ==> OutTypeName(r.value) == s
  {
    if s == "load_ack" then Some(LoadAck)
    else if s == "generate_ack" then Some(GenerateAck)
    else if s == "interrupt_ack" then Some(InterruptAck)
    else if s == "close_ack" then Some(CloseAck)
    else if s == "load_done" then Some(LoadDone)
    else if s == "generate_done" then Some(GenerateDone)
    else if s == "generate_streamed" then Some(GenerateStreamed)
    else if s == "generate_stream_done" then Some(GenerateStreamDone)
    else if s == "get_providers_done" then Some(GetProvidersDone)
    else if s == "get_models_done" then Some(GetModelsDone)
    else if s == "get_stream_format_done" then Some(GetStreamFormatDone)
    else if s == "clear_temp_files_ack" then Some(ClearTempFilesAck)
    else None
  }

  /** The outbound kinds form a closed set of twelve, each with its own name. */
  lemma OutTypesClosed(k: OutType)
    ensures k in AllOutTypes && |AllOutTypes| == 12
    ensures OutTypeFromName(OutTypeName(k)) == Some(k)
    ensures forall i, j :: 0 <= i < j < |AllOutTypes| ==> AllOutTypes[i] != AllOutTypes[j]
  {
    OutTypesDistinct();
    OutTypeNameRoundTrip(k);
  }

  lemma OutTypesDistinct()
    ensures |AllOutTypes| == 12
    ensures forall i, j :: 0 <= i < j < |AllOutTypes| ==> AllOutTypes[i] != AllOutTypes[j]
  {
  }

  lemma OutTypeNameRoundTrip(k: OutType)
    ensures OutTypeFromName(OutTypeName(k)) == Some(k)
  {
    match k
    case LoadAck =>
    case GenerateAck =>
    case InterruptAck =>
    case CloseAck =>
    case LoadDone =>
    case GenerateDone =>
    case GenerateStreamed =>
    case GenerateStreamDone =>
    case GetProvidersDone =>
    case GetModelsDone =>
    case GetStreamFormatDone =>
    case ClearTempFilesAck =>
  }

  /** A string the lookup rejects is the name of no kind at all. */
  lemma UnknownNameNamesNothing(s: string)
    requires OutTypeFromName(s).None?
    ensures forall k :: OutTypeName(k) != s
  {
    forall k: OutType
      ensures OutTypeName(k) != s
    {
      OutTypeNameRoundTrip(k);
    }
  }

  /** `TtsProviderList`: the names a load request may ask for. */
  const ProviderList: seq<string> := ["fishaudio"]

  datatype StreamFormat = StreamFormat(bitDepth: int, frequency: int, channelsNb: int)

  /** `TtsSyncResultVal`; its `audio_format.format` is the literal "wav" and is left implicit. */
  datatype SyncResultVal = SyncResultVal(path: string, audioFormat: StreamFormat)

  /** `TtsSyncResult`: an error paired with a nullable value. */
  datatype SyncResult = SyncResult(error: GenErr, maybeValue: Option<SyncResultVal>)

  /** `TtsStreamChunk`. */
  datatype StreamChunk = StreamChunk(done: bool, chunk: seq<byte>)

  /** The payload of each reply record, after the `type` and `unique_request_id` they all carry. */
  datatype OutBody =
    | LoadAckBody(provider: string)
    | GenerateAckBody
    | InterruptAckBody
    | CloseAckBody
    | LoadDoneBody(provider: string, isError: bool, error: GenErr)
    | GenerateDoneBody(isError: bool, error: GenErr, response: Option<SyncResultVal>)
    | StreamDoneBody(isError: bool, error: GenErr)
    | GetProvidersDoneBody(providers: seq<string>)
    | GetModelsDoneBody(models: seq<string>)
    | GetStreamFormatDoneBody(format: StreamFormat)
    | ClearTempFilesAckBody

  /**
   * An outbound record (`OutDataBase` and its extensions): the `type` tag, the request id
   * echoed as the client sent it, and the payload.
   */
  datatype OutRecord = OutRecord(tag: OutType, uniqueRequestId: JsValue, body: OutBody)

  /** The literal `type` each reply record type declares. */
  function DeclaredTag(body: OutBody): OutType {
    match body
    case LoadAckBody(_) => LoadAck
    case GenerateAckBody => GenerateAck
    case InterruptAckBody => InterruptAck
    case CloseAckBody => CloseAck
    case LoadDoneBody(_, _, _) => LoadDone
    case GenerateDoneBody(_, _, _) => GenerateDone
    case StreamDoneBody(_, _) => GenerateStreamDone
    case GetProvidersDoneBody(_) => GetProvidersDone
    case GetModelsDoneBody(_) => GetModelsDone
    case GetStreamFormatDoneBody(_) => GetStreamFormatDone
    case ClearTempFilesAckBody => ClearTempFilesAck
  }

  /**
   * The declared tag of the record type `MessageTypeMap[k]`: `k` itself, except that
   * `generate_streamed` is mapped to `GenerateDoneResponse`, whose tag is "generate_done".
   */
  function MapEntryTag(k: OutType): OutType {
    if k == GenerateStreamed then GenerateDone else k
  }

  /**
   * `StrictMessageData<K> = MessageTypeMap[K] & { type: K }`: a well-typed record of the map's
   * entry for `k`, whose tag is also `k`.
   */
  predicate Strict(k: OutType, r: OutRecord) {
    DeclaredTag(r.body) == MapEntryTag(k) && r.tag == DeclaredTag(r.body) && r.tag == k
  }

  /** `StrictMessageData<K>` pins the tag to K, and is empty for K = generate_streamed. */
  lemma StrictPinsTag(k: OutType, r: OutRecord)
    ensures Strict(k, r) ==> r.tag == k && k != GenerateStreamed
    ensures k != GenerateStreamed && r.tag == k && DeclaredTag(r.body) == k ==> Strict(k, r)
  {
  }

  /** Every kind except generate_streamed has a record that may be sent under it. */
  lemma StrictInhabited(k: OutType, id: JsValue)
    requires k != GenerateStreamed
    ensures exists r :: Strict(k, r) && r.uniqueRequestId == id
  {
    var body := match k
      case LoadAck => LoadAckBody("fishaudio")
      case GenerateAck => GenerateAckBody
      case InterruptAck => InterruptAckBody
      case CloseAck => CloseAckBody
      case LoadDone => LoadDoneBody("fishaudio", false, SUCCESS)
      case GenerateDone => GenerateDoneBody(false, SUCCESS, None)
      case GenerateStreamDone => StreamDoneBody(false, SUCCESS)
      case GetProvidersDone => GetProvidersDoneBody([])
      case GetModelsDone => GetModelsDoneBody([])
      case GetStreamFormatDone => GetStreamFormatDoneBody(StreamFormat(16, 44100, 1))
      case ClearTempFilesAck => ClearTempFilesAckBody;
    assert Strict(k, OutRecord(k, id, body));
  }
}
