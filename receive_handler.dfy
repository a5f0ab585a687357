/**
 * src/receive_handler.ts: `HandleReceivedMessage`, the router every text frame from the client
 * goes through. It validates the parsed message, dispatches on its `type`, and for each of the
 * eight request kinds sends its replies and updates the provider slot.
 *
 * `JSON.parse`, the two directory listings and the provider's answers are inputs
 * (`Parsed`, `RouterOracle`).
 */
module ReceiveHandler {
  import opened Wrappers
  import opened JsValues
  import opened Types
  import opened TtsInterface
  import opened Effects
  import opened GlobalState
  import opened TypedSend
  import opened LoadProvider
  import opened HandleGenerate
  import Seqs

  /** `ReceiveTypeEnum`. */
  datatype Kind =
    | LoadKind | GenerateKind | InterruptKind | CloseKind
    | GetProvidersKind | GetModelsKind | GetStreamFormatKind | ClearTempFilesKind

  function KindName(k: Kind): string {
    match k
    case LoadKind => "load"
    case GenerateKind => "generate"
    case InterruptKind => "interrupt"
    case CloseKind => "close"
    case GetProvidersKind => "get_providers"
    case GetModelsKind => "get_models"
    case GetStreamFormatKind => "get_stream_format"
    case ClearTempFilesKind => "clear_temp_files"
  }

  /** The `switch` on `type`: strict equality with one of the eight names, else the default. */
  function KindOf(v: JsValue): (r: Option<Kind>)
    ensures r.Some? ==> v == JStr(KindName(r.value))
    ensures forall k :: v == JStr(KindName(k)) ==> r == Some(k)
  {
    if !v.JStr? then None
    else if v.s == "load" then Some(LoadKind)
    else if v.s == "generate" then Some(GenerateKind)
    else if v.s == "interrupt" then Some(InterruptKind)
    else if v.s == "close" then Some(CloseKind)
    else if v.s == "get_providers" then Some(GetProvidersKind)
    else if v.s == "get_models" then Some(GetModelsKind)
    else if v.s == "get_stream_format" then Some(GetStreamFormatKind)
    else if v.s == "clear_temp_files" then Some(ClearTempFilesKind)
    else None
  }

  /**
   * The outside answers one message depends on: the load's, the provider's while generating,
   * how the provider's awaited `Interrupt`, `GetModels` or `GetStreamFormat` settles, the
   * provider's models and stream format, and the listings of `providers` and `audio` (`None`
   * when `fs.readdir` rejects).
   */
  datatype RouterOracle = RouterOracle(
    load: LoadOracle,
    run: ProviderRun,
    query: Settling,
    models: seq<string>,
    format: StreamFormat,
    providersDir: Option<seq<string>>,
    audioDir: Option<seq<string>>)

  datatype Routed = Routed(outcome: Outcome, slot: Slot, events: seq<Event>)

  /**
   * The checks before the dispatch: the text parses, the value is truthy and of type "object",
   * and its `type` and `unique_request_id` are not nullish. An array passes the first checks and
   * fails at `type`, which reads `undefined` on it.
   */
  function Validate(p: Parsed): Option<map<string, JsValue>> {
    if p.Unparsable? then None
    else if !Truthy(p.value) then None
    else if !(p.value.JObj? || p.value.JArr?) then None
    else if IsNullish(Member(p.value, "type").value) then None
    else if IsNullish(Member(p.value, "unique_request_id").value) then None
    else if p.value.JObj? then Some(p.value.fields)
    else None
  }

  /** The slot after a load: cleared when the load failed, else named after the provider. */
  function AfterLoad(s: Slot, provider: string, err: GenErr): Slot {
    if err != SUCCESS then s.(loadedProviderName := None, textToSpeech := None)
    else s.(loadedProviderName := Some(provider))
  }

  /** The names `fs.rm` is applied to, in listing order; its failures are swallowed. */
  function Removals(files: seq<string>): (r: seq<Event>)
    ensures |r| == |files| && forall i :: 0 <= i < |files| ==> r[i] == RemoveFile(files[i])
  {
    seq(|files|, i requires 0 <= i < |files| => RemoveFile(files[i]))
  }

  /** The effect of one request that passed validation, by kind. */
  function Dispatch(slot: Slot, k: Kind, m: map<string, JsValue>, o: RouterOracle): Routed {
    var id := Field(m, "unique_request_id");
    match k
    case LoadKind => LoadCase(slot, m, o.load)
    case CloseKind =>
      Routed(Terminated, slot, Emitted(CloseAck, OutRecord(CloseAck, id, CloseAckBody)) + [Exit(0)])
    case InterruptKind =>
      var ack := Emitted(InterruptAck, OutRecord(InterruptAck, id, InterruptAckBody));
      if slot.textToSpeech.None? then Routed(Dropped, slot, ack)
      else Routed(AwaitOutcome(o.query), slot, ack + [Call(slot.textToSpeech.value, InterruptCall)])
    case GenerateKind =>
      var g := Generate(slot.textToSpeech, m, o.run);
      Routed(g.outcome, slot, g.events)
    case GetProvidersKind =>
      if o.providersDir.None? then Routed(Raised, slot, [])
      else Routed(Finished, slot,
                  Emitted(GetProvidersDone, OutRecord(GetProvidersDone, id, GetProvidersDoneBody(o.providersDir.value))))
    case GetModelsKind =>
      if slot.textToSpeech.None? then Routed(Dropped, slot, [])
      else Routed(AwaitOutcome(o.query), slot, [Call(slot.textToSpeech.value, GetModelsCall)] +
                  QueryAnswer(o.query, GetModelsDone, OutRecord(GetModelsDone, id, GetModelsDoneBody(o.models))))
    case GetStreamFormatKind =>
      if slot.textToSpeech.None? then Routed(Dropped, slot, [])
      else Routed(AwaitOutcome(o.query), slot, [Call(slot.textToSpeech.value, GetStreamFormatCall)] +
                  QueryAnswer(o.query, GetStreamFormatDone,
                              OutRecord(GetStreamFormatDone, id, GetStreamFormatDoneBody(o.format))))
    case ClearTempFilesKind =>
      if o.audioDir.None? then Routed(Raised, slot, [])
      else Routed(Finished, slot, ClearEvents(id, o.audioDir.value))
  }

  /** A query's answer: sent only once the provider's promise resolves. */
  function QueryAnswer(query: Settling, t: OutType, r: OutRecord): seq<Event> {
    if query == Resolves then Emitted(t, r) else []
  }

  /**
   * The `load` case: provider checks, acknowledgement, the load itself, the slot update. A load
   * that does not return (it rejects, stays suspended or exits the process) leaves the slot as
   * the load left it and sends no answer.
   */
  function LoadCase(slot: Slot, m: map<string, JsValue>, o: LoadOracle): Routed {
    var id := Field(m, "unique_request_id");
    var provider := Field(m, "provider");
    if IsNullish(provider) then Routed(Dropped, slot, [])
    else if !(provider.JStr? && provider.s in ProviderList) then Routed(Dropped, slot, [])
    else LoadAnswered(id, provider.s, Load(slot, JObj(m), o))
  }

  /** The `load` case around the load `l` of the listed provider `provider`. */
  function LoadAnswered(id: JsValue, provider: string, l: Loaded): Routed {
    var ack := Emitted(LoadAck, OutRecord(LoadAck, id, LoadAckBody(provider)));
    if l.outcome != Finished then Routed(l.outcome, l.slot, ack + l.events)
    else
      var isError := l.error != SUCCESS;
      Routed(Finished, AfterLoad(l.slot, provider, l.error),
             ack + l.events + Emitted(LoadDone, OutRecord(LoadDone, id, LoadDoneBody(provider, isError, l.error))))
  }

  /** The `clear_temp_files` case once `audio` has been listed: the removals, then the ack. */
  function ClearEvents(id: JsValue, files: seq<string>): seq<Event> {
    Removals(files) + Emitted(ClearTempFilesAck, OutRecord(ClearTempFilesAck, id, ClearTempFilesAckBody))
  }

  /** The effect of one text frame on the slot and the log. */
  function Route(slot: Slot, p: Parsed, o: RouterOracle): Routed {
    match Validate(p)
    case None => Routed(Dropped, slot, [])
    case Some(m) =>
      match KindOf(Field(m, "type"))
      case None => Routed(Dropped, slot, [])
      case Some(k) => Dispatch(slot, k, m, o)
  }

  method HandleReceivedMessage(state: State, host: Host, p: Parsed, o: RouterOracle) returns (outcome: Outcome)
    modifies state, host
    ensures var r := Route(old(state.Snapshot()), p, o);
            outcome == r.outcome && state.Snapshot() == r.slot && host.events == old(host.events) + r.events
  {
    if p.Unparsable? {
      return Dropped;
    }
    var message := p.value;
    if !Truthy(message) {
      return Dropped;
    }
    if !(message.JObj? || message.JArr?) {
      return Dropped;
    }
    if IsNullish(Member(message, "type").value) {
      return Dropped;
    }
    if IsNullish(Member(message, "unique_request_id").value) {
      return Dropped;
    }
    if !message.JObj? {
      return Dropped;
    }
    var m := message.fields;
    var kind := KindOf(Field(m, "type"));
    if kind.None? {
      return Dropped;
    }
    outcome := DispatchRequest(state, host, kind.value, m, o);
  }

  /** The `switch` on the request's kind. */
  method DispatchRequest(state: State, host: Host, k: Kind, m: map<string, JsValue>, o: RouterOracle)
    returns (outcome: Outcome)
    modifies state, host
    ensures var r := Dispatch(old(state.Snapshot()), k, m, o);
            outcome == r.outcome && state.Snapshot() == r.slot && host.events == old(host.events) + r.events
  {
    var id := Field(m, "unique_request_id");
    var sent;
    match k
    case LoadKind =>
      outcome := HandleLoad(state, host, m, o.load);
      return outcome;
    case CloseKind =>
      sent := SendToClient(host, CloseAck, OutRecord(CloseAck, id, CloseAckBody));
      host.events := host.events + [Exit(0)];
      return Terminated;
    case InterruptKind =>
      sent := SendToClient(host, InterruptAck, OutRecord(InterruptAck, id, InterruptAckBody));
      if state.textToSpeech.None? {
        return Dropped;
      }
      host.events := host.events + [Call(state.textToSpeech.value, InterruptCall)];
      return AwaitOutcome(o.query);
    case GenerateKind =>
      outcome := HandleGenerateRequest(state, host, m, o.run);
      return outcome;
    case GetProvidersKind =>
      if o.providersDir.None? {
        return Raised;
      }
      sent := SendToClient(host, GetProvidersDone,
                           OutRecord(GetProvidersDone, id, GetProvidersDoneBody(o.providersDir.value)));
      return Finished;
    case GetModelsKind =>
      if state.textToSpeech.None? {
        return Dropped;
      }
      host.events := host.events + [Call(state.textToSpeech.value, GetModelsCall)];
      if o.query != Resolves {
        return AwaitOutcome(o.query);
      }
      sent := SendToClient(host, GetModelsDone, OutRecord(GetModelsDone, id, GetModelsDoneBody(o.models)));
      return Finished;
    case GetStreamFormatKind =>
      if state.textToSpeech.None? {
        return Dropped;
      }
      host.events := host.events + [Call(state.textToSpeech.value, GetStreamFormatCall)];
      if o.query != Resolves {
        return AwaitOutcome(o.query);
      }
      sent := SendToClient(host, GetStreamFormatDone,
                           OutRecord(GetStreamFormatDone, id, GetStreamFormatDoneBody(o.format)));
      return Finished;
    case ClearTempFilesKind =>
      outcome := ClearTempFiles(host, id, o.audioDir);
      return outcome;
  }

  /** The `load` case: provider checks, acknowledgement, the load itself, and the slot update. */
  method HandleLoad(state: State, host: Host, m: map<string, JsValue>, o: LoadOracle) returns (outcome: Outcome)
    modifies state, host
    ensures var r := LoadCase(old(state.Snapshot()), m, o);
            outcome == r.outcome && state.Snapshot() == r.slot && host.events == old(host.events) + r.events
  {
    var provider := Field(m, "provider");
    if IsNullish(provider) {
      return Dropped;
    }
    if !(provider.JStr? && provider.s in ProviderList) {
      return Dropped;
    }
    outcome := LoadListed(state, host, Field(m, "unique_request_id"), provider.s, m, o);
  }

  /** A load of the listed provider `name`: the ack, the load, then the answer if it returns. */
  method LoadListed(state: State, host: Host, id: JsValue, name: string, m: map<string, JsValue>, o: LoadOracle)
    returns (outcome: Outcome)
    modifies state, host
    ensures var r := LoadAnswered(id, name, Load(old(state.Snapshot()), JObj(m), o));
            outcome == r.outcome && state.Snapshot() == r.slot && host.events == old(host.events) + r.events
  {
    ghost var l := Load(state.Snapshot(), JObj(m), o);
    ghost var start := host.events;
    var sent := SendToClient(host, LoadAck, OutRecord(LoadAck, id, LoadAckBody(name)));
    ghost var ack := Emitted(LoadAck, OutRecord(LoadAck, id, LoadAckBody(name)));
    assert host.events == start + ack;
    var loaded, error := LoadProvider.LoadProvider(state, host, name, JObj(m), o);
    assert loaded == l.outcome && error == l.error && state.Snapshot() == l.slot && host.events == start + ack + l.events;
    if loaded != Finished {
      assert LoadAnswered(id, name, l) == Routed(l.outcome, l.slot, ack + l.events);
      return loaded;
    }
    var isError := error != SUCCESS;
    if isError {
      state.loadedProviderName := None;
      state.textToSpeech := None;
    } else {
      state.loadedProviderName := Some(name);
    }
    assert state.Snapshot() == AfterLoad(l.slot, name, error);
    sent := SendToClient(host, LoadDone, OutRecord(LoadDone, id, LoadDoneBody(name, isError, error)));
    ghost var done := Emitted(LoadDone, OutRecord(LoadDone, id, LoadDoneBody(name, isError, error)));
    assert LoadAnswered(id, name, l).events == ack + l.events + done;
    return Finished;
  }

  /** The `clear_temp_files` case: list `audio`, remove each entry, acknowledge. */
  method ClearTempFiles(host: Host, id: JsValue, audioDir: Option<seq<string>>) returns (outcome: Outcome)
    modifies host
    ensures audioDir.None? ==> outcome == Raised && host.events == old(host.events)
    ensures audioDir.Some? ==> outcome == Finished && host.events == old(host.events) + ClearEvents(id, audioDir.value)
  {
    if audioDir.None? {
      return Raised;
    }
    var files := audioDir.value;
    for i := 0 to |files|
      invariant host.events == old(host.events) + Removals(files[..i])
    {
      host.events := host.events + [RemoveFile(files[i])];
    }
    assert files[..|files|] == files;
    var sent := SendToClient(host, ClearTempFilesAck, OutRecord(ClearTempFilesAck, id, ClearTempFilesAckBody));
    return Finished;
  }

  /**
   * The slot is consistent when a provider name is recorded exactly when a provider object is
   * installed, and that name is one of `ProviderList`.
   */
  predicate Consistent(s: Slot) {
    (s.loadedProviderName.Some? <==> s.textToSpeech.Some?) &&
    (s.loadedProviderName.Some? ==> s.loadedProviderName.value in ProviderList)
  }

  predicate IsLoadAck(e: Event) {
    IsTextOf(e, LoadAck)
  }

  predicate IsLoadDone(e: Event) {
    IsTextOf(e, LoadDone)
  }

  /** Exactly the parsed objects whose `type` and `unique_request_id` are not nullish get through. */
  lemma ValidateIff(p: Parsed)
    ensures Validate(p).Some? <==>
              p.Parsed? && p.value.JObj? &&
              !IsNullish(Field(p.value.fields, "type")) && !IsNullish(Field(p.value.fields, "unique_request_id"))
    ensures Validate(p).Some? ==> Validate(p).value == p.value.fields
  {
  }

  /** A message that fails validation, or whose `type` names no request kind, has no effect. */
  lemma IgnoredMessages(slot: Slot, p: Parsed, o: RouterOracle)
    requires Validate(p).None? || KindOf(Field(Validate(p).value, "type")).None?
    ensures Route(slot, p, o) == Routed(Dropped, slot, [])
  {
  }

  /**
   * Every request keeps the slot consistent, except a load whose checks pass and whose new
   * provider's `Init` rejects or never settles: that load has already installed the new object,
   * and the recorded name is still the old one.
   */
  lemma RoutePreservesConsistency(slot: Slot, p: Parsed, o: RouterOracle)
    requires Consistent(slot)
    ensures var r := Route(slot, p, o);
            Consistent(r.slot) ||
            (Validate(p).Some? && KindOf(Field(Validate(p).value, "type")) == Some(LoadKind) &&
             Accepted(o.load) && o.load.init != Resolves && r.outcome == AwaitOutcome(o.load.init) &&
             r.slot.textToSpeech == o.load.script.exports.model &&
             r.slot.loadedProviderName == slot.loadedProviderName)
  {
  }

  /**
   * With no provider loaded, a load whose new provider's `Init` rejects or never settles leaves
   * an object installed with no name recorded.
   */
  lemma StalledInitLeavesProviderUnnamed(slot: Slot, m: map<string, JsValue>, o: LoadOracle)
    requires Field(m, "provider").JStr? && Field(m, "provider").s in ProviderList
    requires slot.textToSpeech.None? && Accepted(o) && o.init != Resolves
    ensures var r := LoadCase(slot, m, o);
            r.outcome != Finished && r.slot.textToSpeech.Some? && r.slot.loadedProviderName == slot.loadedProviderName &&
            (slot.loadedProviderName.None? ==> !Consistent(r.slot))
  {
  }

  /** Only a load request changes the slot. */
  lemma OnlyLoadChangesSlot(slot: Slot, p: Parsed, o: RouterOracle)
    requires Route(slot, p, o).slot != slot
    ensures Validate(p).Some? && KindOf(Field(Validate(p).value, "type")) == Some(LoadKind)
  {
  }

  /** A generate request is exactly `HandleGenerateRequest` against the active provider. */
  lemma GenerateDelegates(slot: Slot, m: map<string, JsValue>, o: RouterOracle)
    ensures Dispatch(slot, GenerateKind, m, o) ==
            Routed(Generate(slot.textToSpeech, m, o.run).outcome, slot, Generate(slot.textToSpeech, m, o.run).events)
  {
  }

  /**
   * The log of a load, which only calls providers, drops cache entries and may exit the process,
   * sends nothing.
   */
  lemma LoadSendsNothing(slot: Slot, request: JsValue, o: LoadOracle)
    ensures forall e :: e in Load(slot, request, o).events ==> e.Call? || e.DropCache? || e.Exit?
  {
  }

  /**
   * A load of a listed provider is acknowledged first, once. It is answered last, once, exactly
   * when the load returns; the `is_error` of the answer holds exactly when the load's error is not
   * SUCCESS. A successful load leaves the loaded object installed under the provider's name; a
   * failed one empties the slot. A load that rejects, stays suspended or exits the process sends no
   * answer and leaves the slot as the load left it.
   */
  lemma {:induction false} LoadReplies(slot: Slot, m: map<string, JsValue>, o: LoadOracle)
    requires Field(m, "provider").JStr? && Field(m, "provider").s in ProviderList
    ensures var r := LoadCase(slot, m, o);
            var id := Field(m, "unique_request_id");
            var name := Field(m, "provider").s;
            var l := Load(slot, JObj(m), o);
            var err := l.error;
            r.outcome == l.outcome &&
            r.events[0] == Send(Text(OutRecord(LoadAck, id, LoadAckBody(name)))) &&
            Seqs.CountWhere(r.events, IsLoadAck) == 1 &&
            (l.outcome == Finished ==>
               r.events[|r.events| - 1] == Send(Text(OutRecord(LoadDone, id, LoadDoneBody(name, err != SUCCESS, err)))) &&
               Seqs.CountWhere(r.events, IsLoadDone) == 1 &&
               (err == SUCCESS ==> Accepted(o) && r.slot.textToSpeech == o.script.exports.model &&
                                   r.slot.loadedProviderName == Some(name)) &&
               (err != SUCCESS ==> r.slot.textToSpeech.None? && r.slot.loadedProviderName.None?)) &&
            (l.outcome != Finished ==> Seqs.CountWhere(r.events, IsLoadDone) == 0 && r.slot == l.slot)
  {
    var id := Field(m, "unique_request_id");
    var name := Field(m, "provider").s;
    var l := Load(slot, JObj(m), o);
    var ack := [Send(Text(OutRecord(LoadAck, id, LoadAckBody(name))))];
    var done := if l.outcome == Finished
                then [Send(Text(OutRecord(LoadDone, id, LoadDoneBody(name, l.error != SUCCESS, l.error))))]
                else [];
    var r := LoadCase(slot, m, o);
    assert r.events == ack + l.events + done;
    LoadSendsNothing(slot, JObj(m), o);
    OneAckAtMostOneDone(ack[0], l.events, done);
  }

  /** A load acknowledgement, then events that send nothing, then at most one answer. */
  lemma OneAckAtMostOneDone(a: Event, mid: seq<Event>, done: seq<Event>)
    requires IsLoadAck(a) && !IsLoadDone(a)
    requires |done| <= 1 && forall d :: d in done ==> IsLoadDone(d) && !IsLoadAck(d)
    requires forall e :: e in mid ==> e.Call? || e.DropCache? || e.Exit?
    ensures Seqs.CountWhere([a] + mid + done, IsLoadAck) == 1
    ensures Seqs.CountWhere([a] + mid + done, IsLoadDone) == |done|
  {
    assert forall i :: 0 <= i < |mid| ==> mid[i] in mid;
    Seqs.CountWhereNone(mid, IsLoadAck);
    Seqs.CountWhereNone(mid, IsLoadDone);
    Seqs.CountWhereAppend([a] + mid, done, IsLoadAck);
    Seqs.CountWhereAppend([a], mid, IsLoadAck);
    Seqs.CountWhereAppend([a] + mid, done, IsLoadDone);
    Seqs.CountWhereAppend([a], mid, IsLoadDone);
    if done != [] {
      assert done == [done[0]] && done[0] in done;
    }
  }

  /**
   * A load that fails before the swap (no directory, installer failure, no script, `require`
   * throwing, no `Model`, no adherence) never calls `Free`. When it returns, it empties the slot,
   * so the provider that was active is dropped without being freed; when it does not, the active
   * provider stays installed.
   */
  lemma {:induction false} FailedCheckDropsWithoutFree(slot: Slot, m: map<string, JsValue>, o: LoadOracle)
    requires Field(m, "provider").JStr? && Field(m, "provider").s in ProviderList && !Accepted(o)
    ensures var r := LoadCase(slot, m, o);
            Seqs.CountWhere(r.events, IsFree) == 0 &&
            (r.outcome == Finished ==> r.slot.textToSpeech.None?) &&
            (r.outcome != Finished ==> r.slot.textToSpeech == slot.textToSpeech)
  {
    var id := Field(m, "unique_request_id");
    var name := Field(m, "provider").s;
    var l := Load(slot, JObj(m), o);
    if !o.dirExists {
      MissingDirectoryTouchesNothing(slot, JObj(m), o);
    } else if !InstallerReturned(o) {
      InstallerFailureEndsLoad(slot, JObj(m), o);
    } else {
      RejectedScriptInstallsNothing(slot, JObj(m), o);
    }
    assert forall e :: e in l.events ==> e.Exit?;
    var ack := [Send(Text(OutRecord(LoadAck, id, LoadAckBody(name))))];
    var done := if l.outcome == Finished
                then [Send(Text(OutRecord(LoadDone, id, LoadDoneBody(name, l.error != SUCCESS, l.error))))]
                else [];
    var r := LoadCase(slot, m, o);
    assert r.events == ack + l.events + done;
    assert forall i :: 0 <= i < |r.events| ==> r.events[i] in ack || r.events[i] in l.events || r.events[i] in done;
    Seqs.CountWhereNone(r.events, IsFree);
  }

  /** A close request is acknowledged, then the process exits with code 0. */
  lemma CloseAcksThenExits(slot: Slot, m: map<string, JsValue>, o: RouterOracle)
    ensures Dispatch(slot, CloseKind, m, o) ==
            Routed(Terminated, slot, [Send(Text(OutRecord(CloseAck, Field(m, "unique_request_id"), CloseAckBody))), Exit(0)])
  {
  }

  /**
   * An interrupt request is always acknowledged first; the provider's `Interrupt` is called,
   * after the ack, exactly when a provider is active, and the handler then settles as that call
   * does.
   */
  lemma InterruptAcksFirst(slot: Slot, m: map<string, JsValue>, o: RouterOracle)
    ensures var r := Dispatch(slot, InterruptKind, m, o);
            (slot.textToSpeech.None? ==> r.outcome == Dropped) &&
            (slot.textToSpeech.Some? ==> r.outcome == AwaitOutcome(o.query)) &&
            r.events[0] == Send(Text(OutRecord(InterruptAck, Field(m, "unique_request_id"), InterruptAckBody))) &&
            (slot.textToSpeech.Some? <==> |r.events| == 2) &&
            (slot.textToSpeech.Some? ==> r.events[1] == Call(slot.textToSpeech.value, InterruptCall)) &&
            (slot.textToSpeech.None? ==> |r.events| == 1)
  {
  }

  /**
   * `get_models` and `get_stream_format` reply only when a provider is active, and then after
   * asking it and only once its answer resolves; with no provider nothing is sent, and when the
   * provider's promise rejects or never settles only the call is made.
   */
  lemma QueriesNeedProvider(slot: Slot, m: map<string, JsValue>, o: RouterOracle)
    ensures var id := Field(m, "unique_request_id");
            (slot.textToSpeech.None? ==> Dispatch(slot, GetModelsKind, m, o).events == [] &&
                                         Dispatch(slot, GetStreamFormatKind, m, o).events == []) &&
            (slot.textToSpeech.Some? ==>
               Dispatch(slot, GetModelsKind, m, o).outcome == AwaitOutcome(o.query) &&
               Dispatch(slot, GetStreamFormatKind, m, o).outcome == AwaitOutcome(o.query)) &&
            (slot.textToSpeech.Some? && o.query != Resolves ==>
               Dispatch(slot, GetModelsKind, m, o).events == [Call(slot.textToSpeech.value, GetModelsCall)] &&
               Dispatch(slot, GetStreamFormatKind, m, o).events == [Call(slot.textToSpeech.value, GetStreamFormatCall)]) &&
            (slot.textToSpeech.Some? && o.query == Resolves ==>
               Dispatch(slot, GetModelsKind, m, o).events ==
                 [Call(slot.textToSpeech.value, GetModelsCall),
                  Send(Text(OutRecord(GetModelsDone, id, GetModelsDoneBody(o.models))))] &&
               Dispatch(slot, GetStreamFormatKind, m, o).events ==
                 [Call(slot.textToSpeech.value, GetStreamFormatCall),
                  Send(Text(OutRecord(GetStreamFormatDone, id, GetStreamFormatDoneBody(o.format))))])
  {
  }

  /**
   * `clear_temp_files` removes every listed entry, in order, before it acknowledges; when the
   * listing fails the request rejects with nothing sent.
   */
  lemma ClearRemovesThenAcks(slot: Slot, m: map<string, JsValue>, o: RouterOracle)
    ensures var r := Dispatch(slot, ClearTempFilesKind, m, o);
            (o.audioDir.None? ==> r == Routed(Raised, slot, [])) &&
            (o.audioDir.Some? ==>
               var files := o.audioDir.value;
               |r.events| == |files| + 1 &&
               (forall i :: 0 <= i < |files| ==> r.events[i] == RemoveFile(files[i])) &&
               r.events[|files|] == Send(Text(OutRecord(ClearTempFilesAck, Field(m, "unique_request_id"), ClearTempFilesAckBody))))
  {
  }
}
