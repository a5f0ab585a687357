/** src/typed_send.ts: `sendToClient`, a type-tag guard before a single socket send. */
module TypedSend {
  import opened Types
  import opened Effects

  /**
   * What one call emits: nothing when the record's tag differs from the requested kind (the
   * source throws), else the record itself, once.
   */
  function Emitted(messageType: OutType, data: OutRecord): (r: seq<Event>)
    ensures |r| <= 1
    ensures |r| == 1 <==> data.tag == messageType
    ensures forall i :: 0 <= i < |r| ==> r[i] == Send(Text(data)) && IsTextOf(r[i], messageType)
  {
    if data.tag != messageType then [] else [Send(Text(data))]
  }

  /** A record typed `StrictMessageData<K>` always passes the guard. */
  lemma StrictAlwaysSent(k: OutType, data: OutRecord)
    requires Strict(k, data)
    ensures Emitted(k, data) == [Send(Text(data))]
  {
  }

  /** `sendToClient`; `ok` is false where the source throws before sending. */
  method SendToClient(host: Host, messageType: OutType, data: OutRecord) returns (ok: bool)
    modifies host
    ensures ok <==> data.tag == messageType
    ensures host.events == old(host.events) + Emitted(messageType, data)
  {
    if data.tag != messageType {
      return false;
    }
    host.events := host.events + [Send(Text(data))];
    return true;
  }
}
