/**
 * What the daemon does to the world outside it, as one ordered log: messages sent on the
 * client's socket, calls into the active provider, entries dropped from the module cache, files
 * removed from the audio directory, and the process exiting. Keeping them in one log is what
 * lets the model say that an acknowledgement is sent before the provider is called.
 */
module Effects {
  import opened Utf8
  import opened JsValues
  import opened Types
  import opened TtsInterface

  /** A socket message: a JSON record (as `JSON.stringify` would serialise it) or raw bytes. */
  datatype Wire = Text(record: OutRecord) | Binary(bytes: seq<byte>)

  /** The provider capabilities the daemon invokes, with the arguments it passes. */
  datatype ProviderCall =
    | InitCall(request: JsValue)
    | FreeCall
    | GenerateCall(input: JsValue, params: JsValue)
    | GenerateStreamCall(input: JsValue, params: JsValue)
    | InterruptCall
    | GetModelsCall
    | GetStreamFormatCall

  datatype Event =
    | Send(wire: Wire)
    | Call(target: ProviderObject, call: ProviderCall)
    | DropCache(key: string)
    | RemoveFile(name: string)
    | Exit(code: int)

  /**
   * How a handler ends: it ran to the end, it returned early after a failed check (logging
   * only), it rejected with an error nothing catches, it is stuck awaiting a promise that never
   * settles, or it called `process.exit`, after which nothing of it runs.
   */
  datatype Outcome = Finished | Dropped | Raised | Pending | Terminated

  /** How a promise the daemon awaits settles: it resolves, it rejects, or it never settles. */
  datatype Settling = Resolves | Rejects | NeverSettles

  /** The handler's outcome when an awaited promise settles as `s` and nothing catches a rejection. */
  function AwaitOutcome(s: Settling): (r: Outcome)
    ensures r == Finished <==> s == Resolves
    ensures r == Raised <==> s == Rejects
    ensures r == Pending <==> s == NeverSettles
  {
    match s
    case Resolves => Finished
    case Rejects => Raised
    case NeverSettles => Pending
  }

  /** The log the daemon appends to. */
  class Host {
    var events: seq<Event>

    constructor ()
      ensures events == []
    {
      events := [];
    }
  }

  predicate IsSend(e: Event) {
    e.Send?
  }

  predicate IsTextOf(e: Event, k: OutType) {
    e.Send? && e.wire.Text? && e.wire.record.tag == k
  }

  predicate IsCallTo(e: Event, c: ProviderCall -> bool) {
    e.Call? && c(e.call)
  }
}
