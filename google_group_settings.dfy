// The dynamic provider for Google Groups settings: the settings a resource
// asks for are pushed with one update call, and only those keys are kept
// from the API's reply, which lists every setting of the group.
module GoogleGroupSettings {
  import opened Wrappers
  import opened Strings
  import opened Dynamic

  /** The resource's inputs: the group's email and the settings it asks for. */
  datatype SettingsInputs = SettingsInputs(groupEmail: string, settings: map<string, string>)

  /** The outputs of create: the requested keys with the values the API reports. */
  datatype SettingsOutputs = SettingsOutputs(groupEmail: string, settings: map<string, string>)

  /** The outputs of read: a requested key the group lacks reads as `None`. */
  datatype ReadOutputs = ReadOutputs(groupEmail: string, settings: map<string, Option<string>>)

  /** The `KeyError` of a reply that lacks a requested key. */
  datatype SettingsError = MissingSetting

  datatype CreateResult = CreateResult(id: string, outs: SettingsOutputs)

  const IdPrefix := "google_group_settings::"

  function SettingsId(groupEmail: string): (r: string)
    ensures StartsWith(r, IdPrefix) && r[|IdPrefix|..] == groupEmail
  {
    IdPrefix + groupEmail
  }

  /** One resource per group: the id determines the email. */
  lemma SettingsIdInjective(a: string, b: string)
    requires SettingsId(a) == SettingsId(b)
    ensures a == b
  {
    assert a == SettingsId(a)[|IdPrefix|..];
  }

  /**
   * `GoogleGroupSettingsProvider.create`, given the full settings the update
   * call returned: every requested key must be in the reply, and only the
   * requested keys are output.
   */
  function Create(props: SettingsInputs, updated: map<string, string>): (r: Result<CreateResult, SettingsError>)
    ensures r.Ok? <==> props.settings.Keys <= updated.Keys
    ensures r.Ok? ==> r.value.id == SettingsId(props.groupEmail) && r.value.outs.groupEmail == props.groupEmail
    ensures r.Ok? ==> r.value.outs.settings.Keys == props.settings.Keys
    ensures r.Ok? ==> forall k :: k in r.value.outs.settings ==> r.value.outs.settings[k] == updated[k]
  {
    if props.settings.Keys <= updated.Keys then
      Ok(CreateResult(SettingsId(props.groupEmail),
        SettingsOutputs(props.groupEmail, map k | k in props.settings :: updated[k])))
    else Err(MissingSetting)
  }

  /** When the API applied what was asked, create outputs exactly the requested settings. */
  lemma CreateOutputsRequested(props: SettingsInputs, updated: map<string, string>)
    requires forall k :: k in props.settings ==> k in updated && updated[k] == props.settings[k]
    ensures Create(props, updated) == Ok(CreateResult(SettingsId(props.groupEmail), SettingsOutputs(props.groupEmail, props.settings)))
  {
    var outs := Create(props, updated).value.outs.settings;
    assert outs == props.settings;
  }

  /** `GoogleGroupSettingsProvider.read`, given the group's current settings. */
  function Read(id: string, props: SettingsInputs, current: map<string, string>): (r: ReadResult<ReadOutputs>)
    ensures r.Present? && r.id == id && r.outs.groupEmail == props.groupEmail
    ensures r.outs.settings.Keys == props.settings.Keys
    ensures forall k :: k in props.settings ==> r.outs.settings[k] == (if k in current then Some(current[k]) else None)
  {
    Present(id, ReadOutputs(props.groupEmail, map k | k in props.settings :: if k in current then Some(current[k]) else None))
  }

  /**
   * Reading back what create left reproduces create's outputs: every
   * requested key is present, with the value create reported.
   */
  lemma ReadAgreesWithCreate(props: SettingsInputs, updated: map<string, string>)
    requires Create(props, updated).Ok?
    ensures forall k :: k in props.settings ==>
      Read(Create(props, updated).value.id, props, updated).outs.settings[k] == Some(Create(props, updated).value.outs.settings[k])
  {
  }

  /** `GoogleGroupSettingsProvider.diff`: the inputs that differ, in the order group_email, settings. */
  function Diff(olds: SettingsInputs, news: SettingsInputs): (r: DiffResult)
    ensures "group_email" in r.replaceKeys <==> olds.groupEmail != news.groupEmail
    ensures "settings" in r.replaceKeys <==> olds.settings != news.settings
    ensures forall k :: k in r.replaceKeys ==> k == "group_email" || k == "settings"
    ensures r.changes <==> |r.replaceKeys| > 0
    ensures !r.deleteBeforeReplace
  {
    var replacing := (if olds.groupEmail != news.groupEmail then ["group_email"] else [])
      + (if olds.settings != news.settings then ["settings"] else []);
    if |replacing| > 0 then DiffResult(true, replacing, false) else NoChanges
  }

  /** Equal inputs never change; inputs that differ always replace. */
  lemma DiffReflexive(props: SettingsInputs, other: SettingsInputs)
    ensures !Diff(props, props).changes
    ensures props != other ==> Diff(props, other).changes
  {
  }
}
