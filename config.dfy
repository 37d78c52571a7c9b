// Model of cpg_infra/config/config.py: the deployment configuration schema
// (frozen dataclasses parsed by ConfigParser), the component enum with its
// per-cloud defaults, `CPGInfrastructureConfig.from_dict` and the
// CPGDatasetConfig overrides of `instantiate`/`__post_init__`.
module Config {
  import opened Wrappers
  import opened Strings
  import opened ConfigParser

  // ---------------------------------------------------------------------
  // CPGDatasetComponents (config.py:250-278)

  datatype Component =
    | Storage | Spark | Cromwell | Notebooks | HailAccounts | SampleMetadata | ContainerRegistry | AnalysisRunner

  function ComponentValue(c: Component): string
  {
    match c
    case Storage => "storage"
    case Spark => "spark"
    case Cromwell => "cromwell"
    case Notebooks => "notebooks"
    case HailAccounts => "hail-accounts"
    case SampleMetadata => "sample_metadata"
    case ContainerRegistry => "container-registry"
    case AnalysisRunner => "analysis-runner"
  }

  /** `list(CPGDatasetComponents)`: every member, in declaration order. */
  const AllComponents: seq<Component> :=
    [Storage, Spark, Cromwell, Notebooks, HailAccounts, SampleMetadata, ContainerRegistry, AnalysisRunner]

  /** The members' values, in declaration order. */
  const ComponentValues: seq<string> :=
    ["storage", "spark", "cromwell", "notebooks", "hail-accounts", "sample_metadata", "container-registry", "analysis-runner"]

  const ComponentsEnumName: string := "CPGDatasetComponents"

  /** `CPGDatasetComponents(s)`: the member whose value is `s`. */
  function ComponentFromValue(s: string): (r: Option<Component>)
    ensures r.Some? ==> ComponentValue(r.value) == s
    ensures r.None? ==> s !in ComponentValues
  {
    if s == "storage" then Some(Storage)
    else if s == "spark" then Some(Spark)
    else if s == "cromwell" then Some(Cromwell)
    else if s == "notebooks" then Some(Notebooks)
    else if s == "hail-accounts" then Some(HailAccounts)
    else if s == "sample_metadata" then Some(SampleMetadata)
    else if s == "container-registry" then Some(ContainerRegistry)
    else if s == "analysis-runner" then Some(AnalysisRunner)
    else None
  }

  /** Looking a member up by its own value gives the member back. */
  lemma ComponentValueRoundTrip(c: Component)
    ensures ComponentFromValue(ComponentValue(c)) == Some(c)
    ensures ComponentValue(c) in ComponentValues
  {
  }

  /** The value list is the members' values in declaration order, one per member. */
  lemma ComponentValuesInOrder()
    ensures |ComponentValues| == |AllComponents|
    ensures forall i :: 0 <= i < |AllComponents| ==> ComponentValues[i] == ComponentValue(AllComponents[i])
  {
  }

  /** `default_component_for_infrastructure()` (config.py:264-278). */
  function DefaultComponentForInfrastructure(): map<string, seq<Component>>
  {
    map[
      "dry-run" := AllComponents,
      "gcp" := AllComponents,
      "azure" := [Storage, HailAccounts, AnalysisRunner, ContainerRegistry]
    ]
  }

  /**
   * 'gcp' and 'dry-run' default to all eight components; 'azure' to exactly
   * storage, hail accounts, analysis runner and container registry.
   */
  lemma DefaultComponents()
    ensures DefaultComponentForInfrastructure().Keys == {"dry-run", "gcp", "azure"}
    ensures DefaultComponentForInfrastructure()["gcp"] == DefaultComponentForInfrastructure()["dry-run"] == AllComponents
    ensures |AllComponents| == 8 && forall c: Component :: c in AllComponents
    ensures forall c: Component :: c in DefaultComponentForInfrastructure()["azure"] <==> c in {Storage, HailAccounts, AnalysisRunner, ContainerRegistry}
    ensures |DefaultComponentForInfrastructure()["azure"]| == 4
  {
    var d := DefaultComponentForInfrastructure();
    forall c: Component ensures c in d["gcp"] {
      match c
      case Storage => assert d["gcp"][0] == c;
      case Spark => assert d["gcp"][1] == c;
      case Cromwell => assert d["gcp"][2] == c;
      case Notebooks => assert d["gcp"][3] == c;
      case HailAccounts => assert d["gcp"][4] == c;
      case SampleMetadata => assert d["gcp"][5] == c;
      case ContainerRegistry => assert d["gcp"][6] == c;
      case AnalysisRunner => assert d["gcp"][7] == c;
    }
  }

  // ---------------------------------------------------------------------
  // Type shorthands

  const StrT: PyType := TPrim(PStr)
  const IntT: PyType := TPrim(PInt)
  const BoolT: PyType := TPrim(PBool)

  /** `T | None`. */
  function Opt(t: PyType): PyType
  {
    TUnion([t, TNoneType])
  }

  function Required(name: string, t: PyType): FieldDef
  {
    FieldDef(name, t, None)
  }

  function Defaulted(name: string, t: PyType, d: Value): FieldDef
  {
    FieldDef(name, t, Some(d))
  }

  function Plain(name: string, fields: seq<FieldDef>): PyType
  {
    TClass(ClassDef(name, fields, NoHook))
  }

  /** `CloudName = Literal['gcp', 'azure']` (config.py:17). */
  const CloudNameT: PyType := TLiteral([VStr("gcp"), VStr("azure")])

  /** `GroupName` (config.py:18-25). */
  const GroupNameT: PyType :=
    TLiteral([VStr("data-manager"), VStr("analysis"), VStr("metadata-access"),
              VStr("web-access"), VStr("release-access"), VStr("upload")])

  const ComponentT: PyType := TEnum(ComponentsEnumName, ComponentValues)

  // ---------------------------------------------------------------------
  // CPGInfrastructureUser (config.py:28-38)

  const UserCloudT: PyType := Plain("Cloud", [Required("id", StrT), Defaulted("hail_batch_username", Opt(StrT), VNone)])

  const UserT: PyType := Plain("CPGInfrastructureUser", [
    Required("id", StrT),
    Required("clouds", TDict([CloudNameT, UserCloudT])),
    Required("projects", TList([StrT])),
    Defaulted("add_to_internal_hail_batch_projects", BoolT, VBool(false))
  ])

  // ---------------------------------------------------------------------
  // CPGInfrastructureConfig (config.py:41-247)

  const InfraGcpT: PyType := Plain("GCP", [
    Required("customer_id", StrT), Required("region", StrT), Required("groups_domain", StrT),
    Required("budget_notification_pubsub", Opt(StrT)), Required("config_bucket_name", StrT),
    Required("dataset_storage_prefix", StrT)
  ])

  const InfraAzureT: PyType := Plain("Azure", [
    Required("region", StrT), Required("subscription", StrT), Required("tenant", StrT),
    Required("dataset_storage_prefix", StrT), Required("config_bucket_name", StrT)
  ])

  const HailT: PyType := Plain("Hail", [
    Required("gcp", Plain("GCP", [
      Required("wheel_bucket_name", StrT), Required("hail_batch_url", StrT),
      Required("git_credentials_secret_name", StrT), Required("git_credentials_secret_project", StrT)])),
    Defaulted("azure", Opt(Plain("Azure", [Required("hail_batch_url", StrT)])), VNone)
  ])

  const AnalysisRunnerT: PyType := Plain("AnalysisRunner", [
    Required("gcp", Plain("GCP", [
      Required("project", StrT), Required("cloud_run_instance_name", StrT),
      Required("server_machine_account", StrT), Required("logger_machine_account", StrT),
      Required("container_registry_name", StrT)]))
  ])

  const WebServiceT: PyType := Plain("WebService", [
    Required("gcp", Plain("GCP", [Required("server_machine_account", StrT)])),
    Defaulted("web_url_template", Opt(StrT), VNone)
  ])

  const NotebooksT: PyType := Plain("Notebooks", [Required("gcp", Plain("GCP", [Required("project", StrT)]))])

  const CromwellT: PyType := Plain("Cromwell", [
    Required("gcp", Plain("GCP", [Required("access_group_id", StrT), Required("runner_machine_account", StrT)]))
  ])

  const EtlParserT: PyType := Plain("ETLParserConfiguration", [
    Required("name", StrT), Required("type_override", Opt(StrT)),
    Defaulted("default_parameters", Opt(TDict([StrT, TAny])), VNone)
  ])

  const EtlT: PyType := Plain("ETLConfiguration", [
    Required("accessors", Opt(TDict([StrT, Plain("ETLAccessorConfiguration", [Required("parsers", TList([EtlParserT]))])]))),
    Defaulted("environment", Opt(StrT), VStr("PRODUCTION")),
    Defaulted("private_repo_packages", Opt(TList([StrT])), VNone)
  ])

  const MetamistT: PyType := Plain("Metamist", [
    Required("gcp", Plain("GCP", [Required("project", StrT), Required("service_name", StrT), Required("machine_account", StrT)])),
    Defaulted("etl", Opt(EtlT), VNone),
    Defaulted("slack_channel", Opt(StrT), VNone)
  ])

  const BillingT: PyType := Plain("Billing", [
    Required("coordinator_machine_account", StrT),
    Required("gcp", Plain("GCP", [Required("project_id", StrT), Required("account_id", StrT)])),
    Defaulted("aggregator", Opt(Plain("GCPAggregator", [
      Required("source_bq_table", StrT), Required("destination_bq_table", StrT),
      Required("slack_channel", StrT), Required("slack_token_secret_name", StrT),
      Required("functions", TList([StrT])),
      Defaulted("billing_sheet_id", Opt(StrT), VNone),
      Defaulted("monthly_summary_table", Opt(StrT), VNone),
      Defaulted("interval_hours", IntT, VInt(4))])), VNone),
    Defaulted("hail_aggregator_username", Opt(StrT), VNone)
  ])

  const InfraConfigT: PyType := Plain("CPGInfrastructureConfig", [
    Required("domain", StrT),
    Required("budget_currency", StrT),
    Required("common_dataset", StrT),
    Required("config_destination", StrT),
    Required("users", TDict([StrT, UserT])),
    Defaulted("gcp", Opt(InfraGcpT), VNone),
    Defaulted("azure", Opt(InfraAzureT), VNone),
    Defaulted("hail", Opt(HailT), VNone),
    Defaulted("analysis_runner", Opt(AnalysisRunnerT), VNone),
    Defaulted("web_service", Opt(WebServiceT), VNone),
    Defaulted("notebooks", Opt(NotebooksT), VNone),
    Defaulted("cromwell", Opt(CromwellT), VNone),
    Defaulted("metamist", Opt(MetamistT), VNone),
    Defaulted("billing", Opt(BillingT), VNone),
    Defaulted("disable_group_memberships", BoolT, VBool(false)),
    Defaulted("group_prefix", Opt(StrT), VNone)
  ])

  /**
   * `CPGInfrastructureConfig.from_dict(d)` (config.py:243-247): unwrap a top-level
   * 'infrastructure' entry, then call the constructor with the entries as keyword
   * arguments (a non-mapping there raises TypeError).
   */
  function FromDict(d: seq<(string, Value)>, m: Mode): Outcome
  {
    match Lookup(d, "infrastructure")
    case None => Instantiate(InfraConfigT, d, m)
    case Some(inner) =>
      if inner.VDict? then Instantiate(InfraConfigT, inner.entries, m)
      else Err(TypeError("CPGInfrastructureConfig() argument after ** must be a mapping, not " + TypeName(inner)))
  }

  /** `from_dict` parses exactly the 'infrastructure' entry when there is one, and the dict itself otherwise. */
  lemma FromDictUnwraps(d: seq<(string, Value)>, inner: seq<(string, Value)>, m: Mode)
    ensures Lookup(d, "infrastructure") == Some(VDict(inner)) && Lookup(inner, "infrastructure").None? ==> FromDict(d, m) == FromDict(inner, m)
    ensures Lookup(d, "infrastructure") == Some(VDict(inner)) ==> FromDict(d, m) == Instantiate(InfraConfigT, inner, m)
    ensures Lookup(d, "infrastructure").None? ==> FromDict(d, m) == Instantiate(InfraConfigT, d, m)
  {
  }

  // ---------------------------------------------------------------------
  // CPGDatasetConfig (config.py:281-402)

  const HailAccountT: PyType := Plain("HailAccount", [Required("username", StrT), Required("cloud_id", StrT)])

  const DatasetGcpT: PyType := Plain("Gcp", [
    Required("project", StrT),
    Defaulted("region", Opt(StrT), VNone),
    Defaulted("hail_service_account_test", Opt(HailAccountT), VNone),
    Defaulted("hail_service_account_standard", Opt(HailAccountT), VNone),
    Defaulted("hail_service_account_full", Opt(HailAccountT), VNone)
  ])

  const DatasetAzureT: PyType := Plain("Azure", [
    Defaulted("region", Opt(StrT), VNone),
    Defaulted("hail_service_account_test", Opt(HailAccountT), VNone),
    Defaulted("hail_service_account_standard", Opt(HailAccountT), VNone),
    Defaulted("hail_service_account_full", Opt(HailAccountT), VNone)
  ])

  const BudgetT: PyType := Plain("Budget", [
    Required("monthly_budget", IntT),
    Defaulted("shared_total_budget", Opt(IntT), VNone),
    Defaulted("currency", Opt(StrT), VNone)
  ])

  const DatasetFields: seq<FieldDef> := [
    Required("dataset", StrT),
    Required("budgets", TDict([CloudNameT, BudgetT])),
    Required("gcp", DatasetGcpT),
    Defaulted("azure", Opt(DatasetAzureT), VNone),
    Defaulted("setup_test", BoolT, VBool(true)),
    Defaulted("deployment_service_account_test", Opt(StrT), VNone),
    Defaulted("deployment_service_account_standard", Opt(StrT), VNone),
    Defaulted("deployment_service_account_full", Opt(StrT), VNone),
    Defaulted("create_container_registry", BoolT, VBool(false)),
    Defaulted("deploy_locations", TList([CloudNameT]), VList([VStr("gcp")])),
    Defaulted("is_internal_dataset", BoolT, VBool(false)),
    Defaulted("enable_release", BoolT, VBool(false)),
    Defaulted("enable_shared_project", BoolT, VBool(false)),
    Defaulted("enable_metamist_project", BoolT, VBool(true)),
    Defaulted("depends_on", TList([StrT]), VList([])),
    Defaulted("depends_on_readonly", TList([StrT]), VList([])),
    Defaulted("additional_upload_buckets", TList([StrT]), VList([])),
    Defaulted("sm_read_only_sas", TList([StrT]), VList([])),
    Defaulted("sm_read_write_sas", TList([StrT]), VList([])),
    Defaulted("archive_age", IntT, VInt(0)),
    Defaulted("autoclass", BoolT, VBool(true)),
    Defaulted("components", TDict([CloudNameT, TList([ComponentT])]), VDict([])),
    Defaulted("members", TDict([GroupNameT, TList([StrT])]), VDict([]))
  ]

  const DatasetConfigDef: ClassDef :=
    ClassDef("CPGDatasetConfig", DatasetFields, DatasetConfigHook(ComponentsEnumName, ComponentValues))

  const DatasetConfigT: PyType := TClass(DatasetConfigDef)

  /** The default of the field called `name` in the dataset schema. */
  function DatasetDefault(name: string): Option<Value>
  {
    match FieldIndex(DatasetFields, name)
    case Some(j) => DatasetFields[j].default
    case None => None
  }

  /** `deploy_locations` defaults to `['gcp']` (config.py:355). */
  lemma DeployLocationsDefault()
    ensures DatasetDefault("deploy_locations") == Some(VList([VStr("gcp")]))
  {
    FieldIndexOf(DatasetFields, "deploy_locations", 9);
  }

  /** The dependency lists default to empty lists (config.py:368-371). */
  lemma DependsOnDefaults()
    ensures DatasetDefault("depends_on") == Some(VList([]))
    ensures DatasetDefault("depends_on_readonly") == Some(VList([]))
  {
    DependsOnDefault();
    DependsOnReadonlyDefault();
  }

  lemma DependsOnDefault()
    ensures DatasetDefault("depends_on") == Some(VList([]))
  {
    FieldIndexOf(DatasetFields, "depends_on", 14);
  }

  lemma DependsOnReadonlyDefault()
    ensures DatasetDefault("depends_on_readonly") == Some(VList([]))
  {
    FieldIndexOf(DatasetFields, "depends_on_readonly", 15);
  }

  lemma SetupTestDefault()
    ensures DatasetDefault("setup_test") == Some(VBool(true))
  {
    FieldIndexOf(DatasetFields, "setup_test", 4);
  }

  lemma EnableReleaseDefault()
    ensures DatasetDefault("enable_release") == Some(VBool(false))
  {
    FieldIndexOf(DatasetFields, "enable_release", 11);
  }

  lemma ArchiveAgeDefault()
    ensures DatasetDefault("archive_age") == Some(VInt(0))
  {
    FieldIndexOf(DatasetFields, "archive_age", 19);
  }

  lemma AutoclassDefault()
    ensures DatasetDefault("autoclass") == Some(VBool(true))
  {
    FieldIndexOf(DatasetFields, "autoclass", 20);
  }

  /**
   * A test project is set up by default, release is off, archiving starts at
   * age 0 and autoclass is on (config.py:343-386).
   */
  lemma FlagDefaults()
    ensures DatasetDefault("setup_test") == Some(VBool(true))
    ensures DatasetDefault("enable_release") == Some(VBool(false))
    ensures DatasetDefault("archive_age") == Some(VInt(0))
    ensures DatasetDefault("autoclass") == Some(VBool(true))
  {
    SetupTestDefault();
    EnableReleaseDefault();
    ArchiveAgeDefault();
    AutoclassDefault();
  }

  /** `dataset`, `budgets` and `gcp` have no default and are required. */
  lemma RequiredDatasetFields()
    ensures DatasetDefault("dataset").None? && DatasetDefault("budgets").None? && DatasetDefault("gcp").None?
  {
    RequiredAt("dataset", 0);
    RequiredAt("budgets", 1);
    RequiredAt("gcp", 2);
  }

  lemma RequiredAt(name: string, j: nat)
    requires j < 3 && DatasetFields[j].name == name
    ensures DatasetDefault(name).None?
  {
    FieldIndexOf(DatasetFields, name, j);
  }

  /**
   * A field the keyword arguments leave out takes the schema default
   * (the dataclass `__init__`).
   */
  lemma OmittedFieldsDefault(kw: seq<(string, Value)>, j: nat)
    requires !MissingRequired(kw, DatasetFields) && j < |DatasetFields|
    requires Lookup(kw, DatasetFields[j].name).None?
    ensures DatasetFields[j].default.Some?
    ensures InitialValues(kw, DatasetFields)[j] == DatasetFields[j].default.value
  {
  }

  /**
   * Every default but `deploy_locations` parses to itself under its field's
   * type, so `__post_init__` keeps the default of an omitted field.
   */
  lemma DefaultKept(j: nat, m: Mode)
    requires 3 <= j < |DatasetFields| && j != 9
    ensures DatasetFields[j].default.Some?
    ensures Parse(DatasetFields[j].default.value, DatasetFields[j].ftype, m) == Ok(DatasetFields[j].default.value)
  {
    if j < 9 {
      EarlyDefaultKept(j, m);
    } else {
      LateDefaultKept(j, m);
    }
  }

  lemma EarlyDefaultKept(j: nat, m: Mode)
    requires 3 <= j < 9
    ensures DatasetFields[j].default.Some?
    ensures Parse(DatasetFields[j].default.value, DatasetFields[j].ftype, m) == Ok(DatasetFields[j].default.value)
  {
    if j == 3 {
      NoneKept(DatasetAzureT, m);
    } else if 5 <= j <= 7 {
      NoneKept(StrT, m);
    }
  }

  lemma LateDefaultKept(j: nat, m: Mode)
    requires 9 < j < |DatasetFields|
    ensures DatasetFields[j].default.Some?
    ensures Parse(DatasetFields[j].default.value, DatasetFields[j].ftype, m) == Ok(DatasetFields[j].default.value)
  {
    if 14 <= j <= 18 {
      EmptyListKept(StrT, m);
    } else if j == 21 {
      EmptyDictKept(CloudNameT, TList([ComponentT]), m);
    } else if j == 22 {
      EmptyDictKept(GroupNameT, TList([StrT]), m);
    }
  }

  /** `None` parses to itself under `T | None`. */
  lemma NoneKept(t: PyType, m: Mode)
    ensures Parse(VNone, Opt(t), m) == Ok(VNone)
  {
    assert Opt(t).members[1] == TNoneType;
  }

  /** An empty list parses to itself under `list[T]`. */
  lemma EmptyListKept(t: PyType, m: Mode)
    ensures Parse(VList([]), TList([t]), m) == Ok(VList([]))
  {
    var rs: seq<Outcome> := [];
    assert seq(0, i requires 0 <= i < 0 => Parse(VNone, t, m)) == rs;
    assert Collect(rs) == Ok([]);
  }

  /** An empty dict parses to itself under `dict[K, V]`. */
  lemma EmptyDictKept(k: PyType, t: PyType, m: Mode)
    ensures Parse(VDict([]), TDict([k, t]), m) == Ok(VDict([]))
  {
  }

  /** `CPGDatasetComponents(c) for c in comps`: a list of valid strings maps, in order, to enum members. */
  lemma ComponentsConverted(strs: seq<string>)
    requires forall i :: 0 <= i < |strs| ==> strs[i] in ComponentValues
    ensures ConvertComponentList(ComponentsEnumName, ComponentValues, VList(seq(|strs|, i requires 0 <= i < |strs| => VStr(strs[i])))) ==
            Ok(VList(seq(|strs|, i requires 0 <= i < |strs| => VEnum(ComponentsEnumName, strs[i]))))
  {
    var vs := seq(|strs|, i requires 0 <= i < |strs| => VStr(strs[i]));
    var rs := seq(|vs|, i requires 0 <= i < |vs| => EnumMember(ComponentsEnumName, ComponentValues, vs[i]));
    assert forall i :: 0 <= i < |vs| ==> rs[i] == Ok(VEnum(ComponentsEnumName, strs[i]));
    var r := Collect(rs);
    assert r.Ok?;
    assert r.value == seq(|strs|, i requires 0 <= i < |strs| => VEnum(ComponentsEnumName, strs[i]));
  }

  /** An unknown component string makes the conversion raise ValueError. */
  lemma UnknownComponentRejected(strs: seq<string>, k: nat)
    requires k < |strs| && strs[k] !in ComponentValues
    requires forall i :: 0 <= i < k ==> strs[i] in ComponentValues
    ensures var r := ConvertComponentList(ComponentsEnumName, ComponentValues, VList(seq(|strs|, i requires 0 <= i < |strs| => VStr(strs[i]))));
            r.Err? && r.error.ValueError?
  {
    var vs := seq(|strs|, i requires 0 <= i < |strs| => VStr(strs[i]));
    var rs := seq(|vs|, i requires 0 <= i < |vs| => EnumMember(ComponentsEnumName, ComponentValues, vs[i]));
    assert forall i :: 0 <= i < k ==> rs[i].Ok?;
    assert rs[k].Err? && rs[k].error.ValueError?;
    var r := Collect(rs);
    assert r.Err?;
  }

  /**
   * CPGDatasetConfig takes the component hook and has a `dataset` field, so
   * ConfigParser.PostInitTypeErrorsNamed applies to it: every TypeError its
   * `__post_init__` raises names the class and the dataset (config.py:296-302).
   */
  lemma DatasetConfigHooked()
    ensures DatasetConfigDef.hook == DatasetConfigHook(ComponentsEnumName, ComponentValues)
    ensures FieldIndex(DatasetConfigDef.fields, "dataset") == Some(0)
  {
  }

  /**
   * As written, `__post_init__` cannot get past `deploy_locations` while it
   * holds its default `['gcp']`: its element type is a `Literal`, and the
   * `isinstance` check on it raises TypeError (deserializabledataclass.py:171),
   * so no CPGDatasetConfig that leaves the field out can be built.
   */
  lemma {:induction false} DefaultDeployLocationsAsWritten(vals: seq<Value>, i: nat)
    requires |vals| == |DatasetFields| && i <= 9 && vals[9] == VList([VStr("gcp")])
    ensures PostInitFrom(DatasetConfigT, vals, i, AsWritten).Err?
    decreases 9 - i
  {
    if i < 9 {
      match Parse(vals[i], DatasetFields[i].ftype, AsWritten)
      case Ok(x) => DefaultDeployLocationsAsWritten(vals[i := x], i + 1);
      case Err(_) =>
    } else {
      assert Parse(VStr("gcp"), CloudNameT, AsWritten).Err?;
      assert Parse(vals[9], DatasetFields[9].ftype, AsWritten).Err?;
    }
  }

  /** With `Literal` handled, the default `['gcp']` parses to itself. */
  lemma DefaultDeployLocationsIntended()
    ensures Parse(VList([VStr("gcp")]), DatasetFields[9].ftype, Intended) == Ok(VList([VStr("gcp")]))
  {
    var es := [VStr("gcp")];
    var rs := seq(|es|, i requires 0 <= i < |es| => Parse(es[i], CloudNameT, Intended));
    var ok: seq<Outcome> := [Ok(VStr("gcp"))];
    assert rs == ok;
    assert Collect(ok).Ok? && Collect(ok).value[0] == VStr("gcp");
    assert Collect(ok).value == es;
    assert DatasetFields[9].ftype == TList([CloudNameT]);
  }
}
