/**
 * The provider contract of src/TtsInterface.ts: the shape checked by
 * `VerifyInterfaceAdherence` before a loaded provider is installed, and the behavioural
 * promises of the interface's doc comments, stated as predicates over what a provider does.
 */
module TtsInterface {
  import opened Wrappers
  import opened Types

  /** What a field of a loaded object holds, as far as the adherence check can tell. */
  datatype FieldValue = UndefinedValue | NullValue | BoolValue(b: bool) | FunctionValue | OtherValue

  /**
   * A provider object handed over by a provider's script: an identity and its fields. `require`
   * caches the module, so loading the same script again can hand over the same object.
   */
  datatype ProviderObject = ProviderObject(identity: nat, fields: map<string, FieldValue>)

  /** `o[name] == undefined` is false: the field exists and holds neither undefined nor null. */
  predicate Present(o: ProviderObject, name: string) {
    name in o.fields && !o.fields[name].UndefinedValue? && !o.fields[name].NullValue?
  }

  /** The fields checked, in the order the checks run; `GetModels` is not among them. */
  const RequiredFields: seq<string> :=
    ["interruptNext", "Init", "Free", "Generate", "GenerateStream", "Interrupt", "GetStreamFormat"]

  /** The first of `names` that `o` lacks: the check that fails and returns false. */
  function FirstMissing(o: ProviderObject, names: seq<string>): (r: Option<string>)
    ensures r.None? <==> forall i :: 0 <= i < |names| ==> Present(o, names[i])
    ensures r.Some? ==> exists i :: 0 <= i < |names| && names[i] == r.value && !Present(o, names[i])
                                      && forall j :: 0 <= j < i ==> Present(o, names[j])
  {
    if names == [] then None
    else if !Present(o, names[0]) then Some(names[0])
    else
      var r := FirstMissing(o, names[1..]);
      if r.Some? then
        var i :| 0 <= i < |names| - 1 && names[1..][i] == r.value && !Present(o, names[1..][i])
                 && forall j :: 0 <= j < i ==> Present(o, names[1..][j]);
        assert names[i + 1] == r.value;
        r
      else r
  }

  /** `VerifyInterfaceAdherence`: true exactly when no check fails. */
  predicate VerifyInterfaceAdherence(o: ProviderObject) {
    FirstMissing(o, RequiredFields).None?
  }

  /** Adherence holds iff all seven required fields are present. */
  lemma AdherenceIff(o: ProviderObject)
    ensures VerifyInterfaceAdherence(o) <==>
      (Present(o, "interruptNext") && Present(o, "Init") && Present(o, "Free") &&
       Present(o, "Generate") && Present(o, "GenerateStream") && Present(o, "Interrupt") &&
       Present(o, "GetStreamFormat"))
  {
    var r := RequiredFields;
    assert r[0] == "interruptNext" && r[1] == "Init" && r[2] == "Free" && r[3] == "Generate";
    assert r[4] == "GenerateStream" && r[5] == "Interrupt" && r[6] == "GetStreamFormat";
  }

  /** `GetModels` is not checked: adherence ignores whatever that field holds. */
  lemma GetModelsUnchecked(o: ProviderObject, v: FieldValue)
    ensures VerifyInterfaceAdherence(o) <==>
            VerifyInterfaceAdherence(o.(fields := o.fields["GetModels" := v]))
  {
    AdherenceIff(o);
    AdherenceIff(o.(fields := o.fields["GetModels" := v]));
  }

  /** `interruptNext == false` passes its check; only undefined and null fail it. */
  lemma InterruptNextFalseIsPresent(o: ProviderObject)
    requires "interruptNext" in o.fields
    ensures Present(o, "interruptNext") <==>
            !(o.fields["interruptNext"].UndefinedValue? || o.fields["interruptNext"].NullValue?)
    ensures o.fields["interruptNext"] == BoolValue(false) ==> Present(o, "interruptNext")
  {
  }

  /** The checks short-circuit in order: a failure names the earliest missing field only. */
  lemma FirstMissingDecides(o: ProviderObject, k: nat)
    requires k < |RequiredFields| && !Present(o, RequiredFields[k])
    requires forall j :: 0 <= j < k ==> Present(o, RequiredFields[j])
    ensures FirstMissing(o, RequiredFields) == Some(RequiredFields[k])
  {
    var r := FirstMissing(o, RequiredFields);
    var i :| 0 <= i < |RequiredFields| && RequiredFields[i] == r.value && !Present(o, RequiredFields[i])
             && forall j :: 0 <= j < i ==> Present(o, RequiredFields[j]);
    assert i == k;
  }

  /**
   * The `GenerateStream` contract on the chunks a provider hands its callback: data chunks,
   * then exactly one empty chunk flagged done, last.
   */
  predicate StreamContract(chunks: seq<StreamChunk>) {
    |chunks| >= 1 && chunks[|chunks| - 1] == StreamChunk(true, []) &&
    forall i :: 0 <= i < |chunks| - 1 ==> !chunks[i].done
  }

  /** A provider that cannot stream calls the callback twice: the whole audio, then done. */
  predicate NonStreamingContract(chunks: seq<StreamChunk>) {
    |chunks| == 2 && !chunks[0].done && chunks[1] == StreamChunk(true, [])
  }

  lemma NonStreamingIsStream(chunks: seq<StreamChunk>)
    requires NonStreamingContract(chunks)
    ensures StreamContract(chunks)
  {
  }

  /** The `Generate` contract: a value comes with, and only with, SUCCESS. */
  predicate SyncContract(r: SyncResult) {
    r.maybeValue.Some? <==> r.error == SUCCESS
  }
}
