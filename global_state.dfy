/**
 * src/global_state.ts: the one process-wide slot that holds the active provider. Being one
 * field, `textToSpeech` can hold at most one provider object at a time.
 */
module GlobalState {
  import opened Wrappers
  import opened TtsInterface

  /** The slot's three fields as a value. */
  datatype Slot = Slot(
    requirePath: Option<string>,
    loadedProviderName: Option<string>,
    textToSpeech: Option<ProviderObject>)

  /** All three fields start undefined. */
  const Initial: Slot := Slot(None, None, None)

  class State {
    var requirePath: Option<string>
    var loadedProviderName: Option<string>
    var textToSpeech: Option<ProviderObject>

    constructor ()
      ensures Snapshot() == Initial
    {
      requirePath, loadedProviderName, textToSpeech := None, None, None;
    }

    function Snapshot(): Slot
      reads this
    {
      Slot(requirePath, loadedProviderName, textToSpeech)
    }
  }
}
