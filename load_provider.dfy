/**
 * src/load_provider.ts: `LoadProvider`, an ordered sequence of checks over the provider's
 * directory and script, then the swap of the single slot: free the old object, install the new
 * one, and return what its `Init` returns.
 *
 * The file-system probe and the `require` of the script (src/load_script.ts is not part of this
 * model) are oracle inputs; so is the result of `Init`.
 */
module LoadProvider {
  import opened Wrappers
  import opened JsValues
  import opened Types
  import opened TtsInterface
  import opened Effects
  import opened GlobalState
  import opened NpmRequirements
  import Seqs

  /** The exports of a provider's index file; a `Model` that is undefined or null is `None`. */
  datatype Exports = Exports(model: Option<ProviderObject>)

  /**
   * How `LoadTtsScript` ends once its requirements installer has returned: the index file is
   * missing and it returns undefined, or it records the file's path in `state.requirePath` and
   * `require` then throws, or `require` returns the file's exports.
   */
  datatype ScriptOutcome =
    | ScriptMissing
    | RequireThrew(indexPath: string)
    | ScriptLoaded(indexPath: string, exports: Exports)

  /**
   * The outside answers a load depends on: whether the directory exists; how the npm
   * requirements installer ended, when the directory has a requirements file; how the script
   * loads; and how the awaited `Free` of the previous provider and `Init` of the new one settle,
   * with the error `Init` resolves to.
   */
  datatype LoadOracle = LoadOracle(
    dirExists: bool,
    installer: Option<Ending>,
    script: ScriptOutcome,
    free: Settling,
    init: Settling,
    initResult: GenErr)

  /**
   * The effect of one `LoadProvider` call. `error` is the value it returns; it is read only when
   * `outcome` is `Finished`, and is UNEXPECTED otherwise.
   */
  datatype Loaded = Loaded(outcome: Outcome, error: GenErr, slot: Slot, events: seq<Event>)

  /** The installer, if it ran, returned normally. */
  predicate InstallerReturned(o: LoadOracle) {
    o.installer.None? || o.installer.value == Completed
  }

  /** All checks pass: the script loaded and exports an object that adheres to the interface. */
  predicate Accepted(o: LoadOracle) {
    o.dirExists && InstallerReturned(o) && o.script.ScriptLoaded? && o.script.exports.model.Some? &&
    VerifyInterfaceAdherence(o.script.exports.model.value)
  }

  /** The effect of one `LoadProvider` call on the slot and the log, and how it ends. */
  function Load(slot: Slot, request: JsValue, o: LoadOracle): Loaded {
    if !o.dirExists then Loaded(Finished, INVALID_PROVIDER, slot, [])
    else if o.installer == Some(Threw) then Loaded(Raised, UNEXPECTED, slot, [])
    else if o.installer.Some? && o.installer.value.Exited? then
      Loaded(Terminated, UNEXPECTED, slot, [Exit(o.installer.value.code)])
    else match o.script
      case ScriptMissing => Loaded(Finished, UNEXPECTED, slot, [])
      case RequireThrew(path) => Loaded(Raised, UNEXPECTED, slot.(requirePath := Some(path)), [])
      case ScriptLoaded(path, exports) =>
        var recorded := slot.(requirePath := Some(path));
        if exports.model.None? then Loaded(Finished, UNEXPECTED, recorded, [])
        else if !VerifyInterfaceAdherence(exports.model.value) then Loaded(Finished, UNEXPECTED, recorded, [])
        else
          var model := exports.model.value;
          if slot.textToSpeech.Some? && o.free != Resolves then
            Loaded(AwaitOutcome(o.free), UNEXPECTED, recorded, [Call(slot.textToSpeech.value, FreeCall)])
          else
            var freeing := match slot.textToSpeech
              case Some(previous) => [Call(previous, FreeCall), DropCache(path)]
              case None => [];
            Loaded(AwaitOutcome(o.init), if o.init == Resolves then o.initResult else UNEXPECTED,
                   recorded.(textToSpeech := Some(model)), freeing + [Call(model, InitCall(request))])
  }

  /**
   * `LoadProvider`; `outcome` says whether it returned `error`, rejected, is still awaiting, or
   * ended the process.
   */
  method LoadProvider(state: State, host: Host, modelProvider: string, loadRequest: JsValue, o: LoadOracle)
    returns (outcome: Outcome, error: GenErr)
    modifies state, host
    ensures var r := Load(old(state.Snapshot()), loadRequest, o);
            outcome == r.outcome && error == r.error && state.Snapshot() == r.slot &&
            host.events == old(host.events) + r.events
  {
    outcome, error := Finished, UNEXPECTED;
    if !o.dirExists {
      return Finished, INVALID_PROVIDER;
    }
    // LoadTtsScript: the requirements installer, then the index file.
    match o.installer {
      case Some(Threw) =>
        return Raised, UNEXPECTED;
      case Some(Exited(code)) =>
        host.events := host.events + [Exit(code)];
        return Terminated, UNEXPECTED;
      case _ =>
    }
    match o.script {
      case ScriptMissing =>
        return Finished, UNEXPECTED;
      case RequireThrew(path) =>
        state.requirePath := Some(path);
        return Raised, UNEXPECTED;
      case ScriptLoaded(path, _) =>
        state.requirePath := Some(path);
    }
    var tempModel := o.script.exports;
    if tempModel.model.None? {
      return Finished, UNEXPECTED;
    }
    if !VerifyInterfaceAdherence(tempModel.model.value) {
      return Finished, UNEXPECTED;
    }
    if state.textToSpeech.Some? {
      host.events := host.events + [Call(state.textToSpeech.value, FreeCall)];
      if o.free != Resolves {
        return AwaitOutcome(o.free), UNEXPECTED;
      }
      host.events := host.events + [DropCache(state.requirePath.GetOr(""))];
    }
    state.textToSpeech := tempModel.model;
    host.events := host.events + [Call(tempModel.model.value, InitCall(loadRequest))];
    if o.init != Resolves {
      return AwaitOutcome(o.init), UNEXPECTED;
    }
    return Finished, o.initResult;
  }

  predicate IsFree(e: Event) {
    e.Call? && e.call.FreeCall?
  }

  predicate IsInit(e: Event) {
    e.Call? && e.call.InitCall?
  }

  /** A missing provider directory gives INVALID_PROVIDER and touches nothing. */
  lemma MissingDirectoryTouchesNothing(slot: Slot, request: JsValue, o: LoadOracle)
    requires !o.dirExists
    ensures Load(slot, request, o) == Loaded(Finished, INVALID_PROVIDER, slot, [])
  {
  }

  /**
   * An installer that exits ends the process with its code and nothing else; one that throws
   * rejects the load. Either way no provider is called and the slot is left as it was.
   */
  lemma InstallerFailureEndsLoad(slot: Slot, request: JsValue, o: LoadOracle)
    requires o.dirExists && !InstallerReturned(o)
    ensures var r := Load(slot, request, o);
            r.slot == slot &&
            (o.installer.value.Exited? ==> r.outcome == Terminated && r.events == [Exit(o.installer.value.code)]) &&
            (o.installer.value == Threw ==> r.outcome == Raised && r.events == [])
  {
  }

  /**
   * Once the installer has returned, a missing index file, a missing `Model` export or a failed
   * adherence check gives UNEXPECTED, and a throwing `require` rejects the load; no provider is
   * called and the active provider is left in place.
   */
  lemma RejectedScriptInstallsNothing(slot: Slot, request: JsValue, o: LoadOracle)
    requires o.dirExists && InstallerReturned(o) && !Accepted(o)
    ensures var r := Load(slot, request, o);
            r.outcome == (if o.script.RequireThrew? then Raised else Finished) &&
            r.error == UNEXPECTED && r.events == [] &&
            r.slot.textToSpeech == slot.textToSpeech && r.slot.loadedProviderName == slot.loadedProviderName
  {
  }

  /**
   * Once all checks pass, the previous object, if any, is freed first. When that `Free` does not
   * resolve, the load stops there with the previous object still installed. Otherwise the new
   * object is installed whatever `Init` does, the previous object has been freed exactly once,
   * `Init` is called exactly once, last, and the load ends as `Init` settles, returning its result
   * when it resolves.
   */
  lemma {:induction false} AcceptedSwapsSlot(slot: Slot, request: JsValue, o: LoadOracle)
    requires Accepted(o)
    ensures var r := Load(slot, request, o);
            var model := o.script.exports.model.value;
            (slot.textToSpeech.Some? && o.free != Resolves ==>
               r.outcome == AwaitOutcome(o.free) &&
               r.events == [Call(slot.textToSpeech.value, FreeCall)] &&
               r.slot.textToSpeech == slot.textToSpeech) &&
            (slot.textToSpeech.None? || o.free == Resolves ==>
               r.outcome == AwaitOutcome(o.init) &&
               (o.init == Resolves ==> r.error == o.initResult) &&
               r.slot.textToSpeech == Some(model) &&
               r.slot.loadedProviderName == slot.loadedProviderName &&
               Seqs.CountWhere(r.events, IsFree) == (if slot.textToSpeech.Some? then 1 else 0) &&
               (slot.textToSpeech.Some? ==> r.events[0] == Call(slot.textToSpeech.value, FreeCall)) &&
               Seqs.CountWhere(r.events, IsInit) == 1 &&
               r.events[|r.events| - 1] == Call(model, InitCall(request)))
  {
    var r := Load(slot, request, o);
    var model := o.script.exports.model.value;
    var last := [Call(model, InitCall(request))];
    if slot.textToSpeech.Some? && o.free != Resolves {
    } else if slot.textToSpeech.Some? {
      var freeing := [Call(slot.textToSpeech.value, FreeCall), DropCache(o.script.indexPath)];
      assert r.events == freeing + last;
      Seqs.CountWhereAppend(freeing, last, IsFree);
      Seqs.CountWhereAppend(freeing, last, IsInit);
      assert freeing == [freeing[0]] + [freeing[1]];
      Seqs.CountWhereAppend([freeing[0]], [freeing[1]], IsFree);
      Seqs.CountWhereAppend([freeing[0]], [freeing[1]], IsInit);
    } else {
      assert r.events == last;
    }
  }

  /**
   * The cache entry dropped on a swap is keyed by `requirePath`, which the script loader has
   * already overwritten with the NEW index path: the previous provider's entry stays cached.
   */
  lemma DroppedCacheKeyIsNewPath(slot: Slot, request: JsValue, o: LoadOracle)
    requires Accepted(o) && slot.textToSpeech.Some? && o.free == Resolves
    ensures Load(slot, request, o).events[1] == DropCache(o.script.indexPath)
    ensures Load(slot, request, o).slot.requirePath == Some(o.script.indexPath)
  {
  }

  /**
   * A load returns exactly when the directory is missing, or when the installer and `require`
   * return and either a check fails or the awaited `Free` and `Init` both resolve.
   */
  lemma LoadReturnsIff(slot: Slot, request: JsValue, o: LoadOracle)
    ensures Load(slot, request, o).outcome == Finished <==>
              !o.dirExists ||
              (InstallerReturned(o) && !o.script.RequireThrew? &&
               (!Accepted(o) || ((slot.textToSpeech.None? || o.free == Resolves) && o.init == Resolves)))
  {
  }
}
