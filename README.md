# cpg-infrastructure, modelled in Dafny

This project models the deterministic core of the CPG infrastructure code base and proves properties of that model. The code base uses Pulumi to deploy the buckets, service accounts, groups, registries and billing pipelines of many independent genomics datasets, on GCP, Azure and AWS, from one declarative configuration.

Each Dafny module models one source file:

- **Configuration.** `ConfigParser` models the type-directed parser `try_parse_value_as_type`, the keyword constructor, and the `__post_init__` loop of the deserialisable dataclasses. `Config` models the deployment schema, the component defaults for each cloud and `from_dict`. It states which raw values parse, and to what.
- **Providers.** `Base` models the permission enums, the component lookup and the `DevInfra` recording double. `Gcp`, `Azure` and `Aws` model member and group keys, role maps and bucket naming. They also model the state the Azure and AWS providers accumulate and then finalise: lifecycle rules, group memberships and bucket policies. Both providers are classes whose methods update that state.
- **The per-dataset resource graph.** `Driver.CPGInfrastructure` is a class over the call-recording infrastructure `Infra.RecordingInfra`. Its memo map stands for the `lru_cache` properties, so each property creates its resource once. `DriverCache` lists, for every setup step, the cached properties it reads in order; each step is proved to leave the created resources and the memo exactly as those reads do. So a run of `main` creates the resources of the properties it reads that were not cached before, in first-read order, each property once. The uniqueness is per property, not per call: two additional upload buckets with the same name are two identical creation calls of one property. Its `setup_*` methods are proved to issue exactly the calls that the pure plan in `DriverPlan` lists. `DriverProps` proves what those calls grant: access levels, bucket and registry permissions, the sample-metadata permission table and dependency memberships.
- **Dynamic providers.** `GoogleGroupMembership`, `GoogleGroupSettings`, `HailBatch` and `Metamist` model the create, read, delete and diff decisions, paged listings and `::`-joined ids. Each API reply they receive is a parameter.
- **Billing aggregators.** `BillingUtils`, `BillingHail`, `BillingSeqr`, `BillingIca`, `MonthlyAggregate`, `UpdateBudget` and `BillingDriver` model the row transforms:
  - chunking, date windows and invoice months, built on `Calendar`;
  - credits, topics and entry keys;
  - label reshaping, ratio lookup and budget updates;
  - the aggregator deployment checks.
- **GitHub workload identity** (`GithubWif`): the configuration check, service-account name sanitising and the resources set up for each repository and environment.
- **Stack and state tooling:**
  - `NewStack`: new-stack validation and the seqr and token edits;
  - `StateMigrator` and `LegacyStateMigrator`: URN-to-name and id rewriting;
  - `CombineConfigs`: flattening stack configurations;
  - `ReorderState`: the dependency-order check and rewrite;
  - `RepairState` and `PrepareImports`: generating `pulumi import` commands, with `PulumiPlan` and `PyRepr` as helpers;
  - `FixAutoclass`: the autoclass state patch.
- **Storage visualisation.** `DiskUsage` models the per-folder counters and `Treemap` the treemap rows.

`Strings` gives the CPython `str` operations that the code relies on: split, join, find, replace, strip, lower and int conversion. `Wrappers` holds the `Option` and `Result` types.

Loops in the source are modelled as methods with loops. Each such method is proved equal to a recursive reference function, and the properties are proved about that function. Within the modelled operations, the errors the source raises are `Err` values: KeyError, ValueError, TypeError, AttributeError, AssertionError, ZeroDivisionError, NotImplementedError and `sys.exit`. Preconditions only state what the callers in the source already guarantee. The exceptions are listed under "Left out": the float-typed configuration field, and the version skews in `cpg_infra/driver.py` that would raise AttributeError.

## Model

| member | source | states |
|---|---|---|
| ConfigParser.Lookup | cpg_infra/config/deserializabledataclass.py:33 | a keyword lookup finds a value iff some entry has the key |
| ConfigParser.LookupFirst | cpg_infra/config/deserializabledataclass.py:33 | the value found is the one held by the first entry with the key |
| ConfigParser.Assign | cpg_infra/config/deserializabledataclass.py:35 | writing a parsed field back keeps the number of fields and every field name in its position |
| ConfigParser.AssignAt | cpg_infra/config/deserializabledataclass.py:35 | after the write the field holds the new value and every other field keeps its old value |
| ConfigParser.Collect | cpg_infra/config/deserializabledataclass.py:136 | an element-wise comprehension succeeds iff every element parses, keeping length and order; otherwise the first failure propagates |
| ConfigParser.FirstUnknownKey | cpg_infra/config/deserializabledataclass.py:23-24 | `cls(**kwargs)` rejects a keyword naming no field, and finds none iff every keyword names a field |
| ConfigParser.InitialValues | cpg_infra/config/deserializabledataclass.py:23-24 | the generated `__init__` stores one value per declared field: the keyword argument naming it when there is one, else the field default, which every omitted field has |
| ConfigParser.InitialValueOf | cpg_infra/config/deserializabledataclass.py:23-24 | when no required field is missing, each field starts as its keyword argument if one is given and as its default otherwise |
| ConfigParser.FieldIndex | cpg_infra/config/deserializabledataclass.py:30 | a field found by name is at an index holding that name |
| ConfigParser.DataclassInstance.PostInit | cpg_infra/config/deserializabledataclass.py:26-39 | the loop writes each parsed field back into the instance and stops at the first failure, with the resulting fields and error those of the reference parse |
| ConfigParser.UnionOutcomeFirst | cpg_infra/config/deserializabledataclass.py:98-107 | the union yields the outcome of the first member that does not raise ValueError |
| ConfigParser.UnionOutcomeOk | cpg_infra/config/deserializabledataclass.py:98-107 | a successful union result comes from some member, every earlier member having raised ValueError |
| ConfigParser.UnionOutcomeValueError | cpg_infra/config/deserializabledataclass.py:108-123 | the union raises ValueError iff every member raises ValueError |
| ConfigParser.AddAllMembers | cpg_infra/config/deserializabledataclass.py:156 | every element of a parsed set is a hashable element parse |
| ConfigParser.AddAllOfSet | cpg_infra/config/deserializabledataclass.py:155-156 | building a set from distinct hashable values yields exactly those values in order |
| ConfigParser.PostInitShape | cpg_infra/config/deserializabledataclass.py:26-39 | a successful `__post_init__` gives an instance of the class with one value per field |
| ConfigParser.NoneTarget | cpg_infra/config/deserializabledataclass.py:73-76 | a None target accepts exactly None and raises ValueError otherwise |
| ConfigParser.UnionOfNone | cpg_infra/config/deserializabledataclass.py:88-96 | a union accepts None iff one member is NoneType, else it raises ValueError |
| ConfigParser.UnionFirstMember | cpg_infra/config/deserializabledataclass.py:98-107 | the union parse equals the parse under the first member, in declaration order, that does not raise ValueError |
| ConfigParser.UnionResultFromMember | cpg_infra/config/deserializabledataclass.py:98-107 | every successful union parse is the parse under some member, all earlier members having raised ValueError |
| ConfigParser.UnionAllFail | cpg_infra/config/deserializabledataclass.py:108-123 | a union raises ValueError iff every member raises ValueError |
| ConfigParser.ListTarget | cpg_infra/config/deserializabledataclass.py:128-136 | for a list value, `list[T]` parses iff every element parses, keeping length and order, and the first failing element's error propagates |
| ConfigParser.DictTarget | cpg_infra/config/deserializabledataclass.py:137-146 | for a dict value, `dict[K, V]` keeps the keys in order and parses every value as V |
| ConfigParser.ContainerKindMismatch | cpg_infra/config/deserializabledataclass.py:128-146 | `list[T]` raises ValueError for a value that is not a list, and `dict[K, V]` for one that is not a dict |
| ConfigParser.TupleTarget | cpg_infra/config/deserializabledataclass.py:157-169 | `tuple[T1..Tn]` accepts a tuple or list of exactly n items parsed positionally; any other length or kind raises ValueError |
| ConfigParser.Parse | cpg_infra/config/deserializabledataclass.py:68-182 | the reference definition of `try_parse_value_as_type`, one case per target form; what it accepts and returns is stated by the target lemmas around it and by ParseConforms |
| ConfigParser.BareContainers | cpg_infra/config/deserializabledataclass.py:133-164 | bare `list` and `dict` return the value unchanged; bare `tuple` returns `tuple(value)`; bare `set` of a set returns that set |
| ConfigParser.InstanceUnchanged | cpg_infra/config/deserializabledataclass.py:171-172 | a value already of the target class is returned unchanged |
| ConfigParser.ClassNeedsDict | cpg_infra/config/deserializabledataclass.py:174-177 | a dataclass target needs a dict and otherwise raises ValueError |
| ConfigParser.IntOfPrintedInt | cpg_infra/config/deserializabledataclass.py:179-180 | `int(str(n))` gives back n |
| ConfigParser.ParseConforms | cpg_infra/config/deserializabledataclass.py:68-182 | every successful parse conforms to its target type |
| ConfigParser.UnionConforms | cpg_infra/config/deserializabledataclass.py:98-107 | a successful union parse conforms to some member |
| ConfigParser.ListConforms | cpg_infra/config/deserializabledataclass.py:136 | a parsed `list[T]` holds only T values |
| ConfigParser.DictConforms | cpg_infra/config/deserializabledataclass.py:146 | a parsed `dict[K, V]` holds only V values |
| ConfigParser.SetConforms | cpg_infra/config/deserializabledataclass.py:156 | a parsed `set[T]` holds only T values |
| ConfigParser.TupleConforms | cpg_infra/config/deserializabledataclass.py:169 | a parsed tuple's items conform positionally |
| ConfigParser.PostInitConforms | cpg_infra/config/deserializabledataclass.py:26-39 | after `__post_init__` every field, in declaration order, conforms to its declared type |
| ConfigParser.FieldIndexOf | cpg_infra/config/deserializabledataclass.py:30 | the field lookup finds the first field with the name |
| ConfigParser.PostInitValueErrorsNamed | cpg_infra/config/deserializabledataclass.py:36-39 | every ValueError escaping `__post_init__` names the class and the failing field |
| ConfigParser.PostInitTypeErrorsNamed | cpg_infra/config/config.py:296-302 | for the dataset config, a TypeError escaping `__post_init__` comes from a field whose parse raised TypeError, and its message names the class, the `repr` of the `dataset` field as it stood then, and that parse error |
| ConfigParser.IntOrStrExamples | test/test_parse_values.py:32-36 | `int \| str` turns '1' into 1 and keeps 'hello' |
| ConfigParser.IntFailureExample | test/test_parse_values.py:38-42 | parsing 'hello' as int raises ValueError |
| ConfigParser.ContainerFailureExamples | test/test_parse_values.py:54-58 | a list, dict or tuple holding a bad element, or of the wrong length, raises ValueError |
| ConfigParser.SpecialFormsIntended | test/test_parse_values.py:172-191 | the intended `Any` accepts everything and `Literal` accepts exactly its options |
| ConfigParser.SpecialFormsAsWritten | cpg_infra/config/deserializabledataclass.py:171 | as written, the isinstance check raises TypeError for `Any` and `Literal[...]`, so the parse differs from the intended one |
| Config.ComponentFromValue | cpg_infra/config/config.py:250-262 | `CPGDatasetComponents(s)` returns the member whose value is `s`, and nothing when `s` is no member's value |
| Config.ComponentValueRoundTrip | cpg_infra/config/config.py:250-262 | looking a member up by its own value gives back that member |
| Config.ComponentValuesInOrder | cpg_infra/config/config.py:255-262 | the enum has eight members, and its value list holds their values in declaration order |
| Config.DefaultComponents | cpg_infra/config/config.py:264-278 | 'gcp' and 'dry-run' default to all eight components; 'azure' defaults to exactly storage, hail accounts, analysis runner and container registry |
| Config.FromDict | cpg_infra/config/config.py:243-247 | the reference definition of `from_dict`: the nested 'infrastructure' dict when present, a TypeError when that entry is not a mapping; stated by FromDictUnwraps |
| Config.FromDictUnwraps | cpg_infra/config/config.py:243-247 | `from_dict` builds the config from the 'infrastructure' entry when there is one, and from the dict itself otherwise |
| Config.DeployLocationsDefault | cpg_infra/config/config.py:355-357 | `deploy_locations` defaults to `['gcp']` |
| Config.DependsOnDefaults | cpg_infra/config/config.py:368-371 | both dependency lists default to empty |
| Config.FlagDefaults | cpg_infra/config/config.py:343-385 | a test namespace is set up by default, release is off, archiving starts at age 0 and autoclass is on |
| Config.RequiredDatasetFields | cpg_infra/config/config.py:330-337 | `dataset`, `budgets` and `gcp` have no default, so they are required |
| Config.OmittedFieldsDefault | cpg_infra/config/config.py:339-393 | a dataset field left out of the keyword arguments takes its schema default |
| Config.DefaultKept | cpg_infra/config/config.py:339-393 | every dataset default except `deploy_locations` parses to itself under its declared type, so an omitted field keeps its default through `__post_init__` |
| Config.ComponentsConverted | cpg_infra/config/config.py:395-402 | a list of valid component strings converts, in order, to the matching enum members |
| Config.UnknownComponentRejected | cpg_infra/config/config.py:399 | an unknown component string makes `instantiate` raise ValueError |
| Config.DatasetConfigHooked | cpg_infra/config/config.py:296-302 | the dataset config carries the TypeError hook and its first field is `dataset`, so the hook's message names the dataset |
| Config.DefaultDeployLocationsAsWritten | cpg_infra/config/config.py:355-357 | as written, no dataset config that keeps the default `deploy_locations` can be built, since the `Literal` element type makes `isinstance` raise TypeError |
| Config.DefaultDeployLocationsIntended | cpg_infra/config/config.py:355-357 | with `Literal` handled as intended, the default `['gcp']` parses to itself |
| Base.SecretMembershipFromValue | cpg_infra/abstraction/base.py:28-30 | `SecretMembership(v)` returns the member with value `v`, and nothing for any other string |
| Base.BucketPermissionFromValue | cpg_infra/abstraction/base.py:33-37 | `BucketPermission(v)` returns the member with value `v`, and nothing for any other string |
| Base.EnumValuesRoundTrip | cpg_infra/abstraction/base.py:28-37 | both enums' values round-trip; there are exactly four bucket permissions and two secret memberships |
| Base.InfraComponents | cpg_infra/abstraction/base.py:44-47 | a configured list is returned as configured; otherwise the defaults row; the only error is KeyError on the provider name, raised only when it has no defaults row |
| Base.InfraComponentsIntended | cpg_infra/abstraction/base.py:44-47 | the intended lookup gives the configured components when there are any, else the defaults row, and fails only when neither exists |
| Base.InfraComponentsAgree | cpg_infra/abstraction/base.py:44-47 | for a provider with a defaults row, the eager lookup as written agrees with the intended one |
| Base.DevComponentsAsWritten | cpg_infra/abstraction/base.py:44-47 | as written, the 'dev' provider raises KeyError even when its components are configured; the intended lookup returns them |
| Base.DefaultRules | cpg_infra/abstraction/base.py:23-24 | the dev rules default to "RULE:undelete=30d" and "RULE:tmp=8d" (also lines 160-164) |
| Base.HandlesCarryName | cpg_infra/abstraction/base.py:175-198 | each dev handle format carries the resource name back out |
| Base.HandlesInjective | cpg_infra/abstraction/base.py:175-198 | distinct names give distinct bucket, account, group and secret handles |
| Infra.KindFromName | cpg_infra/driver.py:91-95 | the provider registry maps "dev", "gcp" and "azure" to their providers, and raises KeyError for any other name |
| Infra.KindNameRoundTrip | cpg_infra/driver.py:91-95 | looking a provider up by its own name gives it back |
| Infra.RuleText | cpg_infra/abstraction/base.py:160-164 | every printed rule starts with "RULE:" |
| Infra.RuleTextInjective | cpg_infra/abstraction/base.py:160-164 | different rules print differently, so the text identifies the rule and its period |
| Infra.RecordingInfra.CreateGroup | cpg_infra/abstraction/base.py:189-191 | creating a group appends one creation to the resource log and returns the group's address |
| Infra.RecordingInfra.CreateBucket | cpg_infra/abstraction/base.py:166-175 | creating a bucket appends one creation to the resource log and returns a handle that depends on the name only |
| Infra.RecordingInfra.CreateMachineAccount | cpg_infra/abstraction/base.py:180-182 | creating an account appends one creation to the resource log and returns the account's address |
| Infra.RecordingInfra.CreateSecret | cpg_infra/abstraction/base.py:196-198 | creating a secret appends one call to the call log and returns its handle |
| Infra.RecordingInfra.Record | cpg_infra/abstraction/base.py:177-206 | any other call is appended to the call log, and the resource log is unchanged |
| Gcp.MemberKey | cpg_infra/abstraction/gcp.py:39-65 | an account becomes `serviceAccount:` plus its e-mail, an identity group `group:` plus its key, a bucket its name; a string ending in the service-account domain and not already prefixed becomes `serviceAccount:` plus the string, and every other string is returned unchanged; anything else raises NotImplementedError |
| Gcp.MemberKeyIdempotent | cpg_infra/abstraction/gcp.py:39-65 | normalising a string member a second time changes nothing |
| Gcp.AccountAsText | cpg_infra/abstraction/gcp.py:39-65 | an account and its bare e-mail address name the same IAM member |
| Gcp.PreferredGroupMembershipKey | cpg_infra/abstraction/gcp.py:68-86 | a group membership names accounts by e-mail, groups by key id and strings as given, and rejects buckets and other objects |
| Gcp.GroupKey | cpg_infra/abstraction/gcp.py:415-435 | accounts and buckets raise ValueError, other objects NotImplementedError; a group gives its id; a string ending in '@' and the groups domain and not already prefixed becomes `group:` plus the string, and every other string is returned unchanged |
| Gcp.GroupKeyIdempotent | cpg_infra/abstraction/gcp.py:415-435 | a string group key normalised twice is what it was after once |
| Gcp.BucketMembershipToRoleList | cpg_infra/abstraction/gcp.py:450-486 | each known permission maps to exactly one organisation storage role, the mutate grant under its own resource key; an unknown permission raises ValueError |
| Gcp.BucketRolesRoundTrip | cpg_infra/abstraction/gcp.py:450-486 | the role name identifies the permission it was made for |
| Gcp.MachineAccountRoleName | cpg_infra/abstraction/gcp.py:560-567 | each known role maps to a `roles/iam.serviceAccount*` role, and an unknown one raises ValueError |
| Gcp.MachineAccountRolesRoundTrip | cpg_infra/abstraction/gcp.py:560-567 | the role map is one-to-one in both directions |
| Gcp.SecretRoleName | cpg_infra/abstraction/gcp.py:668-673 | each known membership maps to a `roles/secretmanager.secret*` role, and an unknown one raises ValueError |
| Gcp.SecretRolesRoundTrip | cpg_infra/abstraction/gcp.py:668-673 | administrators and accessors get different roles, and each role names its membership |
| Gcp.RegistryRoleName | cpg_infra/abstraction/gcp.py:730-735 | reader and writer map to artifact-registry roles, and an unknown membership raises ValueError |
| Gcp.RegistryRolesRoundTrip | cpg_infra/abstraction/gcp.py:730-735 | the registry role map is one-to-one in both directions |
| Gcp.SecretId | cpg_infra/abstraction/gcp.py:675-689 | a secret resource gives its id; a string with exactly three '/' is kept as the id; any other string becomes exactly `projects/{project}/secrets/{name}`, with the given project or else the provider's; an unexpected object raises ValueError |
| Gcp.SecretIdExpandsOnce | cpg_infra/abstraction/gcp.py:675-689 | an expanded id is a full path, and expanding it again leaves it unchanged |
| Gcp.DataprocRoleName | cpg_infra/abstraction/gcp.py:760-761 | 'worker' and 'admin' become `roles/dataproc.` roles, and every other role is kept |
| Gcp.DataprocRoleIdempotent | cpg_infra/abstraction/gcp.py:760-761 | qualifying a role twice changes nothing more |
| Gcp.GcpBucketName | cpg_infra/abstraction/gcp.py:388-392 | a unique bucket keeps its name exactly; any other bucket is named exactly the storage prefix, the dataset, '-', then the name |
| Gcp.GcpBucketNameInjective | cpg_infra/abstraction/gcp.py:388-392 | distinct names give distinct bucket names, prefixed or not |
| Gcp.BucketResource | cpg_infra/abstraction/gcp.py:378-413 | the declared bucket has the computed name and label, the caller's rules in order followed by the abort-incomplete-upload rule, and the caller's flags and project |
| Gcp.BucketBindings | cpg_infra/abstraction/gcp.py:500-506 | one bucket IAM binding per role, in role-list order |
| Gcp.GcpInfra.CreateBucket | cpg_infra/abstraction/gcp.py:378-413 | creating a bucket declares exactly `BucketResource` and nothing else |
| Gcp.GcpInfra.AddMemberToBucket | cpg_infra/abstraction/gcp.py:488-506 | an unknown permission, bucket or member raises before anything is declared; otherwise one binding per role of the permission is declared |
| Gcp.GcpInfra.AddGroupMember | cpg_infra/abstraction/gcp.py:616-636 | nothing is declared when group memberships are disabled; otherwise one membership, under a prefixed key unless a unique key is asked for, and a bad group or member raises first |
| Gcp.GcpInfra.AddMemberToMachineAccountRole | cpg_infra/abstraction/gcp.py:550-577 | the role is checked first, then the member; on success exactly one service-account binding is declared |
| Gcp.GcpInfra.AddSecretMember | cpg_infra/abstraction/gcp.py:660-697 | the membership is checked first, then the secret, then the member; on success exactly one secret binding is declared |
| Gcp.GcpInfra.AddMemberToContainerRegistry | cpg_infra/abstraction/gcp.py:722-748 | the membership is checked, then the member; on success exactly one registry binding is declared |
| Gcp.GcpInfra.AddMemberToDataprocApi | cpg_infra/abstraction/gcp.py:759-769 | a bad account raises; otherwise one project binding for the qualified dataproc role is declared |
| Azure.FixAzureAlphanumNames | cpg_infra/abstraction/azure.py:69-71 | the fixed name is no longer than the input and holds only lower-case letters a-z |
| Azure.FixAzureAppend | cpg_infra/abstraction/azure.py:69-71 | fixing distributes over concatenation |
| Azure.FixAzureOfFixed | cpg_infra/abstraction/azure.py:69-71 | a name already made of lower-case letters is left unchanged |
| Azure.FixAzureIdempotent | cpg_infra/abstraction/azure.py:69-71 | fixing a fixed name changes nothing |
| Azure.StorageAccountName | cpg_infra/abstraction/azure.py:42-45 | the storage account name holds only lower-case letters |
| Azure.StorageAccountNameStable | cpg_infra/abstraction/azure.py:42-45 | the account name is the fixed prefix followed by the fixed dataset, and is a fixed point of the fixing |
| Azure.RegistryName | cpg_infra/abstraction/azure.py:522-534 | the registry name is the storage account name followed by the fixed registry name, letters only |
| Azure.BucketMembershipToRole | cpg_infra/abstraction/azure.py:317-332 | append and mutate give the blob contributor role; list and read give the blob reader role; an unknown permission raises ValueError |
| Azure.BucketRoleClasses | cpg_infra/abstraction/azure.py:317-332 | two permissions get the same role exactly when both write or neither does |
| Azure.ContainerMembershipToRoles | cpg_infra/abstraction/azure.py:479-491 | a reader gets only the pull role; a writer gets three roles, starting with pull; an unknown membership raises ValueError |
| Azure.ReaderRolesInWriterRoles | cpg_infra/abstraction/azure.py:479-491 | every reader role is a writer role; only writers may push and delete; the role keys within a membership are distinct |
| Azure.ObjectId | cpg_infra/abstraction/azure.py:390-414 | a string is its own id, a managed identity gives its principal id, and an unrecognised object raises ValueError |
| Azure.PrincipalType | cpg_infra/abstraction/azure.py:345-360 | groups are group principals; identities and strings are service principals; other objects raise ValueError |
| Azure.PrincipalHasObjectId | cpg_infra/abstraction/azure.py:345-360 | anything with a principal type also has an object id (also lines 390-414) |
| Azure.BucketRuleArchive | cpg_infra/abstraction/azure.py:236-249 | the archive rule moves blobs to the archive tier after the given number of days, with no filter yet |
| Azure.BucketRuleTemporary | cpg_infra/abstraction/azure.py:251-264 | the temporary rule deletes blobs after the given number of days, with no filter yet |
| Azure.PresentRules | cpg_infra/abstraction/azure.py:292 | filtering keeps exactly the rules that are present |
| Azure.ApplyFilter | cpg_infra/abstraction/azure.py:287-290 | a filtered rule keeps its action, is limited to the bucket's prefix, and is renamed to the bucket name, '-', then the rule's own name |
| Azure.BucketRules | cpg_infra/abstraction/azure.py:292-293 | the rules a bucket adds are the present rules, in order, each filtered to that bucket |
| Azure.BucketRulesScoped | cpg_infra/abstraction/azure.py:287-295 | every rule a bucket adds is scoped to that bucket; every present rule is added; a lone `None` (the undelete rule) adds nothing |
| Azure.BucketRulesDisjoint | cpg_infra/abstraction/azure.py:287-295 | different buckets never add the same rule |
| Azure.StorageAccountCreations | cpg_infra/abstraction/azure.py:76-94 | the cached storage account is declared once, after the resource group when that is new, and never again |
| Azure.ResourceGroupCreations | cpg_infra/abstraction/azure.py:76-83 | the cached resource group is declared on first use only |
| Azure.PolicyCreations | cpg_infra/abstraction/azure.py:101-114 | a single management policy holds every rule, and none is declared when there are no rules |
| Azure.UndeleteCreations | cpg_infra/abstraction/azure.py:59-60 | blob-service properties with the recorded retention are declared exactly when a truthy undelete period was recorded (also lines 212-223) |
| Azure.BucketAssignment | cpg_infra/abstraction/azure.py:334-343 | the bucket role assignment exists exactly when bucket, member and permission are all recognised, and grants the permission's role to the member's id |
| Azure.RegistryAssignments | cpg_infra/abstraction/azure.py:493-509 | one role assignment per role of the membership, keyed by role type, on the registry's scope |
| Azure.RegistryWriterExtendsReader | cpg_infra/abstraction/azure.py:479-509 | a writer's assignments start with the reader's single assignment, and there are three of them |
| Azure.GroupMembership | cpg_infra/abstraction/azure.py:416-425 | the membership exists exactly when both ids are known, and links them under a prefixed or unique key |
| Azure.GroupMembershipAlwaysMade | cpg_infra/abstraction/azure.py:416-425 | a membership between recognised objects is always declared |
| Azure.AzureInfra.constructor | cpg_infra/abstraction/azure.py:34-51 | a new provider has no rules, no undelete period and nothing declared |
| Azure.AzureInfra.UseResourceGroup | cpg_infra/abstraction/azure.py:76-83 | the resource group is declared on first use and reused afterwards |
| Azure.AzureInfra.UseStorageAccount | cpg_infra/abstraction/azure.py:85-94 | the storage account is declared on first use, after its resource group, and reused afterwards |
| Azure.AzureInfra.BucketRuleUndelete | cpg_infra/abstraction/azure.py:225-234 | the call records the undelete period, replacing an earlier one, returns `None` and declares nothing |
| Azure.AzureInfra.CreateBucket | cpg_infra/abstraction/azure.py:266-316 | the bucket's filtered rules are added to the account's rules; the account is forced; one blob container is declared, in the project's group when one is given |
| Azure.AzureInfra.CreateContainerRegistry | cpg_infra/abstraction/azure.py:522-534 | one registry is declared in the dataset's resource group, after that group when it is new |
| Azure.AzureInfra.AddMemberToBucket | cpg_infra/abstraction/azure.py:334-343 | the call declares the bucket assignment, or nothing and an error when an argument is refused |
| Azure.AzureInfra.AddGroupMember | cpg_infra/abstraction/azure.py:416-425 | the call declares the group membership, or nothing and an error |
| Azure.AzureInfra.AddMemberToContainerRegistry | cpg_infra/abstraction/azure.py:493-509 | the call declares every registry assignment, or nothing and an error |
| Azure.AzureInfra.GiveMemberAbilityToListBuckets | cpg_infra/abstraction/azure.py:511-520 | the account is forced, then a blob-reader assignment on it is declared exactly when the member has a principal type |
| Azure.AzureInfra.Finalise | cpg_infra/abstraction/azure.py:53-60 | the account is forced, then one policy with every collected rule, then the undelete properties when a period was recorded |
| Aws.Put | cpg_infra/abstraction/aws.py:34-35 | a dictionary write gives the key the new value, keeps an existing key in its place and puts a new key last (also lines 259-262, 300-301) |
| Aws.PutOverwrites | cpg_infra/abstraction/aws.py:300-301 | a second write under a key replaces the first and leaves the order as the first write made it |
| Aws.GetIdentifier | cpg_infra/abstraction/aws.py:52-62 | an IAM group is identified by its name, an IAM user by its id, and buckets and other objects raise |
| Aws.NameAttr | cpg_infra/abstraction/aws.py:75-79 | only IAM groups and users have the `.name` the group walk reads |
| Aws.S3Policy | cpg_infra/abstraction/aws.py:84-108 | every known permission grants `s3:ListBucket` first, and an unknown one raises NotImplementedError |
| Aws.S3PoliciesNest | cpg_infra/abstraction/aws.py:84-108 | the action sets nest: list within read within append, and read within mutate; only append reads object versions and only mutate deletes |
| Aws.UnionActions | cpg_infra/abstraction/aws.py:118-124 | the actions of a list of memberships fail exactly when one membership is unknown |
| Aws.UnionActionsMembers | cpg_infra/abstraction/aws.py:118-124 | an action is granted exactly when one recorded membership's policy lists it |
| Aws.UnionActionsSnoc | cpg_infra/abstraction/aws.py:118-124 | recording one more known membership adds exactly its actions |
| Aws.UnionActionsAbsorbs | cpg_infra/abstraction/aws.py:118-124 | recording a membership no stronger than one already recorded changes nothing |
| Aws.BucketRuleUndelete | cpg_infra/abstraction/aws.py:209-215 | the undelete rule expires non-current versions after the given period |
| Aws.BucketRuleTemporaryIgnoresDays | cpg_infra/abstraction/aws.py:217-225 | as written the temporary rule always expires after the default eight days, whatever period is asked for |
| Aws.BucketRuleTemporary | cpg_infra/abstraction/aws.py:217-225 | as intended, the temporary rule expires after the period asked for |
| Aws.BucketRuleTemporaryAgreesOnDefault | cpg_infra/abstraction/aws.py:217-225 | the written and intended rules agree exactly when the period is the default |
| Aws.BucketRuleArchive | cpg_infra/abstraction/aws.py:227-228 | there is no archive rule on AWS |
| Aws.TruthyRules | cpg_infra/abstraction/aws.py:245 | dropping the falsy rules keeps exactly the rules that are present |
| Aws.BucketName | cpg_infra/abstraction/aws.py:239-243 | a unique bucket keeps its name; any other is prefix, dataset, '-', then the name |
| Aws.BucketNameInjective | cpg_infra/abstraction/aws.py:239-243 | different names give different prefixed bucket names |
| Aws.Tags | cpg_infra/abstraction/aws.py:145-146 | the tags name the project when it is truthy, else the dataset |
| Aws.RecordGroupMemberStores | cpg_infra/abstraction/aws.py:300-301 | recording stores the member under its group and key, replacing what was there, and touches no other entry |
| Aws.RecordGroupMemberOverwrites | cpg_infra/abstraction/aws.py:300-301 | under a repeated key the second member stays, in the first one's place |
| Aws.MembershipFor | cpg_infra/abstraction/aws.py:72-81 | a nested group is skipped; a user gives one membership named after the group's `.name`, whatever the group object is; a member or group without `.name` (a bucket, an output, text) raises |
| Aws.MembershipsFor | cpg_infra/abstraction/aws.py:69-81 | the reference walk over the recorded entries; the only error it stops with is AttributeError |
| Aws.MembershipsForCompletes | cpg_infra/abstraction/aws.py:69-81 | the walk over recorded members completes exactly when no entry raises |
| Aws.MembershipsForCount | cpg_infra/abstraction/aws.py:69-81 | with no error there is one membership per recorded entry whose member is not a group |
| Aws.MembershipsForShape | cpg_infra/abstraction/aws.py:69-81 | every membership made puts a recorded user, under its recorded key, into the `.name` of its recorded group object |
| Aws.MembershipsForStops | cpg_infra/abstraction/aws.py:69-81 | once an entry raises, later entries are never visited |
| Aws.StopsInGroup | cpg_infra/abstraction/aws.py:69-81 | a raise while visiting one group ends the whole walk with what was made before it |
| Aws.RecordBucketMemberAppends | cpg_infra/abstraction/aws.py:259-262 | recording appends to the member's list for the bucket, keeping order and duplicates, and leaves every other list alone |
| Aws.EntityStatementsAt | cpg_infra/abstraction/aws.py:118-129 | an entity gets one statement per bucket, with the union of the actions recorded for it on that bucket; an unknown membership raises |
| Aws.PoliciesAsWritten | cpg_infra/abstraction/aws.py:110-131 | as written, `statements` is built once before the entity loop, so each entity's policy also holds every earlier entity's statements |
| Aws.PoliciesAsWrittenAt | cpg_infra/abstraction/aws.py:110-131 | as written, the policy built for the entity at position j holds the statements of all entities up to and including it |
| Aws.PoliciesAsWrittenLeak | cpg_infra/abstraction/aws.py:116-131 | the written finalise leaks grants: a later entity's policy holds an earlier entity's statement on a bucket it was never granted |
| Aws.Policies | cpg_infra/abstraction/aws.py:110-131 | as intended, each entity's policy holds only the statements for its own buckets |
| Aws.PoliciesAt | cpg_infra/abstraction/aws.py:110-131 | the intended policy of each entity is the statements of its own buckets |
| Aws.PoliciesOwnGrants | cpg_infra/abstraction/aws.py:110-131 | every statement in an entity's intended policy is on a bucket it was granted, with exactly the actions its memberships there grant |
| Aws.PoliciesMap | cpg_infra/abstraction/aws.py:116-131 | the intended finalise is each entity's own statements in order, and it raises exactly at the first entity that raises |
| Aws.PoliciesErrPrefix | cpg_infra/abstraction/aws.py:116-131 | a raise for any of the first entities is a raise for the whole finalise |
| Aws.AllStatementsConcat | cpg_infra/abstraction/aws.py:116-129 | as written, the shared `statements` list is every entity's own statements back to back |
| Aws.AllStatementsContains | cpg_infra/abstraction/aws.py:116-129 | as written, the shared list holds every statement of every entity visited so far |
| Aws.AwsInfra.constructor | cpg_infra/abstraction/aws.py:31-36 | a new provider has empty membership tables and has declared nothing |
| Aws.AwsInfra.CreateBucket | cpg_infra/abstraction/aws.py:230-257 | one bucket is declared with the computed name, the truthy rules, the request payer and the tags |
| Aws.AwsInfra.CreateGroup | cpg_infra/abstraction/aws.py:291-298 | one IAM group is declared |
| Aws.AwsInfra.CreateMachineAccount | cpg_infra/abstraction/aws.py:269-279 | one IAM user named after the dataset is declared, and its id is the resource name |
| Aws.AwsInfra.AddMemberToBucket | cpg_infra/abstraction/aws.py:259-262 | the grant is only recorded, to be made by finalise |
| Aws.AwsInfra.AddGroupMember | cpg_infra/abstraction/aws.py:300-301 | the membership is only recorded, to be made by finalise |
| Aws.AwsInfra.FinaliseGroupMemberships | cpg_infra/abstraction/aws.py:69-81 | the walk declares exactly the memberships of the reference walk, visiting groups and keys in insertion order, and reports its error |
| Aws.AwsInfra.FinaliseGroup | cpg_infra/abstraction/aws.py:72-81 | the inner loop declares the memberships of one group's entries in key order |
| Aws.AwsInfra.FinaliseBucketMemberships | cpg_infra/abstraction/aws.py:110-131 | the policy documents are the intended per-entity policies, one per entity in insertion order |
| Aws.AwsInfra.Finalise | cpg_infra/abstraction/aws.py:64-67 | group memberships come first, and a raise there stops before the bucket policies |
| Driver.CPGInfrastructure.New | cpg_infra/driver.py:98-105 | the driver keeps the given provider and config, starts with nothing cached, and takes the provider's components from the config or else from the defaults row; a provider with neither raises KeyError |
| Driver.CPGInfrastructure.CreateGroup | cpg_infra/driver.py:123-126 | a group is created under the name '{dataset}-{name}' and its address is returned |
| Driver.CPGInfrastructure.GetMainUploadAccount | cpg_infra/driver.py:159-162 | the cached property creates the 'main-upload' machine account on first use only; a later call returns the same handle and creates nothing |
| Driver.CPGInfrastructure.GetAccessGroup | cpg_infra/driver.py:226-229 | the cached property creates the '{dataset}-access' group on first use only; a later call returns the same handle and creates nothing |
| Driver.CPGInfrastructure.GetWebAccessGroup | cpg_infra/driver.py:231-234 | the cached property creates the '{dataset}-web-access' group on first use only; a later call returns the same handle and creates nothing |
| Driver.CPGInfrastructure.GetReleaseAccessGroup | cpg_infra/driver.py:236-239 | the cached property creates the '{dataset}-release-access' group on first use only; a later call returns the same handle and creates nothing |
| Driver.CPGInfrastructure.GetAccessLevelGroups | cpg_infra/driver.py:241-244 | the cached property creates the three '{dataset}-{level}' groups on first use only; a later call returns the same handle and creates nothing |
| Driver.CPGInfrastructure.GetArchiveBucket | cpg_infra/driver.py:334-343 | the cached property creates the archive bucket on first use only; a later call returns the same handle and creates nothing |
| Driver.CPGInfrastructure.GetMainBucket | cpg_infra/driver.py:474-479 | the cached property creates the main bucket, with the undelete rule on first use only; a later call returns the same handle and creates nothing |
| Driver.CPGInfrastructure.GetMainTmpBucket | cpg_infra/driver.py:481-488 | the cached property creates the main-tmp bucket, with the temporary rule on first use only; a later call returns the same handle and creates nothing |
| Driver.CPGInfrastructure.GetMainAnalysisBucket | cpg_infra/driver.py:490-495 | the cached property creates the main-analysis bucket on first use only; a later call returns the same handle and creates nothing |
| Driver.CPGInfrastructure.GetMainWebBucket | cpg_infra/driver.py:497-502 | the cached property creates the main-web bucket on first use only; a later call returns the same handle and creates nothing |
| Driver.CPGInfrastructure.GetMainUploadBuckets | cpg_infra/driver.py:504-520 | the cached property creates the main-upload bucket and one bucket per additional upload name on first use only; a later call returns the same handle and creates nothing |
| Driver.CPGInfrastructure.GetTestBucket | cpg_infra/driver.py:565-570 | the cached property creates the test bucket on first use only; a later call returns the same handle and creates nothing |
| Driver.CPGInfrastructure.GetTestAnalysisBucket | cpg_infra/driver.py:572-577 | the cached property creates the test-analysis bucket on first use only; a later call returns the same handle and creates nothing |
| Driver.CPGInfrastructure.GetTestWebBucket | cpg_infra/driver.py:579-584 | the cached property creates the test-web bucket on first use only; a later call returns the same handle and creates nothing |
| Driver.CPGInfrastructure.GetTestTmpBucket | cpg_infra/driver.py:586-593 | the cached property creates the test-tmp bucket, with the temporary rule on first use only; a later call returns the same handle and creates nothing |
| Driver.CPGInfrastructure.GetTestUploadBucket | cpg_infra/driver.py:595-600 | the cached property creates the test-upload bucket on first use only; a later call returns the same handle and creates nothing |
| Driver.CPGInfrastructure.GetReleaseBucket | cpg_infra/driver.py:627-633 | the cached property creates the release-requester-pays bucket on first use only; a later call returns the same handle and creates nothing |
| Driver.CPGInfrastructure.GetHailBucket | cpg_infra/driver.py:693-698 | the cached property creates the single hail bucket, with the temporary rule on first use only; a later call returns the same handle and creates nothing |
| Driver.CPGInfrastructure.GetCromwellAccounts | cpg_infra/driver.py:775-785 | the cached property creates one cromwell account per access level, or none without the cromwell component on first use only; a later call returns the same handle and creates nothing |
| Driver.CPGInfrastructure.GetDataprocAccounts | cpg_infra/driver.py:847-857 | the cached property creates one dataproc account per access level, or none without the spark component on first use only; a later call returns the same handle and creates nothing |
| Driver.CPGInfrastructure.GetSampleMetadataGroups | cpg_infra/driver.py:875-885 | the cached property creates the sample-metadata groups on first use only; a later call returns the same handle and creates nothing |
| Driver.CPGInfrastructure.GetNotebookAccount | cpg_infra/driver.py:1043-1048 | the cached property creates the 'notebook-{dataset}' machine account on first use only; a later call returns the same handle and creates nothing |
| Driver.CPGInfrastructure.WorkingMachineAccounts | cpg_infra/driver.py:164-193 | the (kind, level, account) triples are those of the plan, and a missing hail account raises before anything is created; the caches end exactly as reading the dataproc and cromwell accounts (nothing when the hail accounts are missing) in turn leaves them, so each of those not cached yet is created once and nothing else is created |
| Driver.CPGInfrastructure.SetupAccessLevelGroupMemberships | cpg_infra/driver.py:263-274 | each working account joins its level's group; a missing hail account stops the step before any call; the caches end exactly as reading the working accounts, then the level groups when there is an account in turn leaves them, so each of those not cached yet is created once and nothing else is created |
| Driver.CPGInfrastructure.SetupDependentGroupMemberships | cpg_infra/driver.py:1189-1201 | the calls are exactly the plan's dependency memberships; the caches end exactly as reading the level groups in turn leaves them, so each of those not cached yet is created once and nothing else is created |
| Driver.CPGInfrastructure.SetupAccessLevelGroupOutputs | cpg_infra/driver.py:250-261 | one stack output per group kind; the caches end exactly as reading the access group and the level groups in turn leaves them, so each of those not cached yet is created once and nothing else is created |
| Driver.CPGInfrastructure.SetupGcpMonitoringAccess | cpg_infra/driver.py:276-285 | the monitoring grants of the plan, on GCP only; the caches end exactly as reading the access group in turn leaves them, so each of those not cached yet is created once and nothing else is created |
| Driver.CPGInfrastructure.SetupAccessGroups | cpg_infra/driver.py:218-224 | the access-group setup issues exactly the plan's calls, or stops early with the hail-account error; the caches end exactly as reading the properties of its sub-steps, in order in turn leaves them, so each of those not cached yet is created once and nothing else is created |
| Driver.CPGInfrastructure.SetupArchiveBucketPermissions | cpg_infra/driver.py:326-333 | the archive bucket's grants of the plan; the caches end exactly as reading the archive bucket and the level groups in turn leaves them, so each of those not cached yet is created once and nothing else is created |
| Driver.CPGInfrastructure.SetupMainBucketPermissions | cpg_infra/driver.py:347-369 | the main bucket's grants of the plan; the caches end exactly as reading the main bucket, the access group and the level groups in turn leaves them, so each of those not cached yet is created once and nothing else is created |
| Driver.CPGInfrastructure.SetupMainTmpBucket | cpg_infra/driver.py:371-384 | the main-tmp bucket's grants of the plan; the caches end exactly as reading the main-tmp bucket and the level groups in turn leaves them, so each of those not cached yet is created once and nothing else is created |
| Driver.CPGInfrastructure.SetupMainAnalysisBucket | cpg_infra/driver.py:386-405 | the main-analysis bucket's grants of the plan; the caches end exactly as reading the main-analysis bucket, the access group and the level groups in turn leaves them, so each of those not cached yet is created once and nothing else is created |
| Driver.CPGInfrastructure.SetupMainWebBucketPermissions | cpg_infra/driver.py:407-435 | the main-web bucket's grants of the plan; the caches end exactly as reading the main-web bucket, the access group and the level groups in turn leaves them, so each of those not cached yet is created once and nothing else is created |
| Driver.CPGInfrastructure.GrantUploadBucket | cpg_infra/driver.py:447-472 | the four grants on one upload bucket; the caches end exactly as reading the main-upload account, the level groups and the access group in turn leaves them, so each of those not cached yet is created once and nothing else is created |
| Driver.CPGInfrastructure.SetupMainUploadBucketsPermissions | cpg_infra/driver.py:437-472 | the four grants on each upload bucket in dictionary order; the caches end exactly as reading the upload buckets, then what each grant reads in turn leaves them, so each of those not cached yet is created once and nothing else is created |
| Driver.CPGInfrastructure.GrantTestBucket | cpg_infra/driver.py:531-546 | the four administrator grants on one test bucket; the caches end exactly as reading the access group and the level groups in turn leaves them, so each of those not cached yet is created once and nothing else is created |
| Driver.CPGInfrastructure.SetupTestBucketsPermissions | cpg_infra/driver.py:526-563 | the grants on the five test buckets, then the web server's read on test-web; the caches end exactly as reading the five test buckets, the access group, the level groups and test-web in turn leaves them, so each of those not cached yet is created once and nothing else is created |
| Driver.CPGInfrastructure.SetupReleaseBucketPermissions | cpg_infra/driver.py:605-625 | the release bucket's grants of the plan; the caches end exactly as reading the release bucket, the access group, the release access group and the level groups in turn leaves them, so each of those not cached yet is created once and nothing else is created |
| Driver.CPGInfrastructure.KindGroupsInOrder | cpg_infra/driver.py:306-324 | the access group followed by the three level groups; the caches end exactly as reading the access group and the level groups in turn leaves them, so each of those not cached yet is created once and nothing else is created |
| Driver.CPGInfrastructure.SetupGcpRequesterPaysAccess | cpg_infra/driver.py:306-324 | one requester-pays grant per group kind, on GCP; the caches end exactly as reading the access group and the level groups in turn leaves them, so each of those not cached yet is created once and nothing else is created |
| Driver.CPGInfrastructure.SetupStorage | cpg_infra/driver.py:287-304 | the storage setup issues exactly the plan's storage calls, the release and requester-pays parts only when enabled; the caches end exactly as reading the buckets' properties, then the release and requester-pays ones when those parts run in turn leaves them, so each of those not cached yet is created once and nothing else is created |
| Driver.CPGInfrastructure.SetupHailBucketPermissions | cpg_infra/driver.py:643-663 | each hail account administers the hail bucket; the caches end exactly as reading the hail bucket in turn leaves them, so each of those not cached yet is created once and nothing else is created |
| Driver.CPGInfrastructure.SetupHailWheelsBucketPermissions | cpg_infra/driver.py:665-677 | each access-level and hail group may read the wheels bucket; the caches end exactly as reading the access group in turn leaves them, so each of those not cached yet is created once and nothing else is created |
| Driver.CPGInfrastructure.SetupHail | cpg_infra/driver.py:639-641 | the hail setup issues exactly the plan's hail calls; the caches end exactly as reading the hail bucket and the access group in turn leaves them, so each of those not cached yet is created once and nothing else is created |
| Driver.CPGInfrastructure.GcpSetupCromwell | cpg_infra/driver.py:787-807 | the GCP-only cromwell grants of the plan; the caches end exactly as reading the cromwell accounts leaves them, so they are created once if not cached yet and nothing else is created |
| Driver.CPGInfrastructure.RecordLifescienceRunners | cpg_infra/driver.py:798-807 | each Cromwell machine account, in access-level order, is recorded as a Life Sciences workflow runner and nothing else is recorded; the caches end exactly as reading the cromwell accounts in turn leaves them, so each of those not cached yet is created once and nothing else is created |
| Driver.CPGInfrastructure.SetupCromwellMachineAccounts | cpg_infra/driver.py:710-733 | the cromwell accounts' grants of the plan; the caches end exactly as reading the cromwell accounts in turn leaves them, so each of those not cached yet is created once and nothing else is created |
| Driver.CPGInfrastructure.SetupCromwellCredential | cpg_infra/driver.py:741-772 | one level's credential secret, version and readers; creates no resource |
| Driver.CPGInfrastructure.SetupCromwellCredentials | cpg_infra/driver.py:735-772 | the credentials of every cromwell account, level by level; the caches end exactly as reading the cromwell accounts in turn leaves them, so each of those not cached yet is created once and nothing else is created |
| Driver.CPGInfrastructure.SetupCromwell | cpg_infra/driver.py:703-708 | the cromwell setup issues exactly the plan's cromwell calls; the caches end exactly as reading the cromwell accounts, when the component is enabled in turn leaves them, so each of those not cached yet is created once and nothing else is created |
| Driver.CPGInfrastructure.SparkUserGrants | cpg_infra/driver.py:817-824 | each hail account may act as the spark account of its level; creates no resource |
| Driver.CPGInfrastructure.SetupSpark | cpg_infra/driver.py:811-845 | the spark setup issues exactly the plan's spark calls; the caches end exactly as reading the dataproc accounts, when the component is enabled in turn leaves them, so each of those not cached yet is created once and nothing else is created |
| Driver.CPGInfrastructure.SmAccessTable | cpg_infra/driver.py:908-953 | the five fixed rows, then one row per read-only and per read-write service account; the caches end exactly as reading the access group and the level groups in turn leaves them, so each of those not cached yet is created once and nothing else is created |
| Driver.CPGInfrastructure.GrantSmRow | cpg_infra/driver.py:961-967 | one membership per permission the row lists; the caches end exactly as reading the sample-metadata groups, when the row lists a permission in turn leaves them, so each of those not cached yet is created once and nothing else is created |
| Driver.CPGInfrastructure.SetupSampleMetadataAccessPermissions | cpg_infra/driver.py:908-967 | the memberships of every row of the table; the caches end exactly as reading the access group, the level groups and the sample-metadata groups in turn leaves them, so each of those not cached yet is created once and nothing else is created |
| Driver.CPGInfrastructure.SetupSampleMetadataCloudrunPermissions | cpg_infra/driver.py:888-906 | one cloud-run invoker per sample-metadata group, on GCP; the caches end exactly as reading the sample-metadata groups and the access group in turn leaves them, so each of those not cached yet is created once and nothing else is created |
| Driver.CPGInfrastructure.SetupSampleMetadata | cpg_infra/driver.py:862-873 | the sample-metadata setup matches the plan, and raises NotImplementedError on Azure after the memberships; the caches end exactly as reading the properties of its sub-steps, in order in turn leaves them, so each of those not cached yet is created once and nothing else is created |
| Driver.CPGInfrastructure.SetupContainerRegistry | cpg_infra/driver.py:972-1012 | the registry grants of the plan; the caches end exactly as reading the access group and the level groups in turn leaves them, so each of those not cached yet is created once and nothing else is created |
| Driver.CPGInfrastructure.SetupNotebookAccount | cpg_infra/driver.py:1018-1041 | the two notebook grants, then NotImplementedError on any provider but GCP, else the compute-admin role; the caches end exactly as reading the notebook account and the access group in turn leaves them, so each of those not cached yet is created once and nothing else is created |
| Driver.CPGInfrastructure.SetupAnalysisRunnerConfigAccess | cpg_infra/driver.py:1070-1081 | as intended, each key's own group may read the config bucket; the caches end exactly as reading the access group in turn leaves them, so each of those not cached yet is created once and nothing else is created |
| Driver.CPGInfrastructure.SetupAnalysisRunner | cpg_infra/driver.py:1053-1068 | the analysis-runner setup issues exactly the plan's calls; the caches end exactly as reading the access group in turn leaves them, so each of those not cached yet is created once and nothing else is created |
| Driver.CPGInfrastructure.SetupReference | cpg_infra/driver.py:1170-1183 | each group kind may read the reference bucket; the caches end exactly as reading the access group and the level groups in turn leaves them, so each of those not cached yet is created once and nothing else is created |
| Driver.CPGInfrastructure.SetupGroupCacheSecret | cpg_infra/driver.py:1092-1109 | one cache secret with its readers |
| Driver.CPGInfrastructure.SetupAccessGroupCache | cpg_infra/driver.py:1111-1130 | the access-group cache calls of the plan; the caches end exactly as reading the access group and the level groups in turn leaves them, so each of those not cached yet is created once and nothing else is created |
| Driver.CPGInfrastructure.SetupWebAccessGroupCache | cpg_infra/driver.py:1156-1166 | the web-access-group cache calls of the plan; the caches end exactly as reading the web-access group in turn leaves them, so each of those not cached yet is created once and nothing else is created |
| Driver.CPGInfrastructure.SetupSampleMetadataAccessSecrets | cpg_infra/driver.py:1132-1154 | one cache secret per sample-metadata group; the caches end exactly as reading the sample-metadata groups in turn leaves them, so each of those not cached yet is created once and nothing else is created |
| Driver.CPGInfrastructure.SetupGroupCaches | cpg_infra/driver.py:1087-1090 | the three group caches in order; the caches end exactly as reading the properties of the three caches, in order in turn leaves them, so each of those not cached yet is created once and nothing else is created |
| Driver.CPGInfrastructure.RunMain | cpg_infra/driver.py:128-155 | the run issues exactly the plan's calls: the access groups, then each enabled component in order, then reference and caches; the first error ends the run; the resources created are exactly the creations of the properties the run reads that were not already cached, in first-read order, and no property is created twice; afterwards a property is cached iff it was cached before or the run read it |
| Driver.CPGInfrastructure.CreateUploadBuckets | cpg_infra/driver.py:504-520 | one upload bucket per additional name, created in order and returned with its name; no call is issued |
| Driver.CPGInfrastructure.CreateLevelAccounts | cpg_infra/driver.py:775-785 | the per-level machine accounts exist only when the component is enabled, one per access level; otherwise nothing is created (also lines 847-857) |
| Driver.CPGInfrastructure.GcpSetupCromwellOnGcp | cpg_infra/driver.py:703-708 | the GCP-only cromwell grants are issued on GCP and nothing elsewhere (also lines 787-807); the caches end exactly as reading the cromwell accounts on GCP, nothing elsewhere in turn leaves them, so each of those not cached yet is created once and nothing else is created |
| Driver.CPGInfrastructure.GcpSetupSpark | cpg_infra/driver.py:826-845 | the worker grant of each spark account, then the admin and worker grants of each hail account; creates no resource |
| Driver.CPGInfrastructure.GcpSetupSparkOnGcp | cpg_infra/driver.py:826 | the dataproc grants are issued only on GCP; creates no resource |
| Driver.CPGInfrastructure.SetupRegistryKind | cpg_infra/driver.py:990-1012 | one group kind reads both registries and, for 'full' and 'standard' only, may push to the common registry; no resource is created |
| Driver.CPGInfrastructure.SetupAnalysisRunnerAccess | cpg_infra/driver.py:1060-1068 | exactly one cloud-run invoker grant of the analysis-runner service to the access group; the caches end exactly as reading the access group in turn leaves them, so each of those not cached yet is created once and nothing else is created |
| Driver.CPGInfrastructure.SetupReleaseIfEnabled | cpg_infra/driver.py:300-301 | the release bucket grants are issued iff release is enabled; the caches end exactly as reading the release step's properties iff release is enabled in turn leaves them, so each of those not cached yet is created once and nothing else is created |
| Driver.CPGInfrastructure.SetupRequesterPaysOnGcp | cpg_infra/driver.py:303-304 | the requester-pays grants are issued iff the infrastructure is GCP; the caches end exactly as reading the access group and the level groups iff on GCP in turn leaves them, so each of those not cached yet is created once and nothing else is created |
| Driver.CPGInfrastructure.SetupHailIfEnabled | cpg_infra/driver.py:140-141 | the hail calls are issued iff the hail-accounts component is enabled; the caches end exactly as reading the hail step's properties iff the component is enabled in turn leaves them, so each of those not cached yet is created once and nothing else is created |
| Driver.CPGInfrastructure.SetupNotebooksIfEnabled | cpg_infra/driver.py:146-147 | the notebook calls and their error happen iff the notebooks component is enabled; the caches end exactly as reading the notebook step's properties iff the component is enabled in turn leaves them, so each of those not cached yet is created once and nothing else is created |
| Driver.CPGInfrastructure.SetupContainerRegistryIfEnabled | cpg_infra/driver.py:148-149 | the registry grants are issued iff the container-registry component is enabled; the caches end exactly as reading the registry step's properties iff the component is enabled in turn leaves them, so each of those not cached yet is created once and nothing else is created |
| Driver.CPGInfrastructure.SetupAnalysisRunnerIfEnabled | cpg_infra/driver.py:151-152 | the analysis-runner calls are issued iff the component is enabled; the caches end exactly as reading the analysis-runner step's properties iff the component is enabled in turn leaves them, so each of those not cached yet is created once and nothing else is created |
| Driver.CPGInfrastructure.SetupComputeComponents | cpg_infra/driver.py:140-145 | hail, cromwell and spark calls, in that order; the caches end exactly as reading the hail, cromwell and spark steps' properties, in order in turn leaves them, so each of those not cached yet is created once and nothing else is created |
| Driver.CPGInfrastructure.SetupSharedAccess | cpg_infra/driver.py:148-154 | registry, analysis-runner and reference calls, in that order; the caches end exactly as reading the properties of the registry, analysis-runner, reference and cache steps, in order in turn leaves them, so each of those not cached yet is created once and nothing else is created |
| Driver.CPGInfrastructure.MainFromNotebooks | cpg_infra/driver.py:146-155 | from the notebooks on, the run issues the plan's remaining calls, stopping at the notebook error; the caches end exactly as reading the properties of the steps it runs, in order in turn leaves them, so each of those not cached yet is created once and nothing else is created |
| Driver.CPGInfrastructure.MainAfterAccessGroups | cpg_infra/driver.py:134-155 | after the access groups, the run issues the plan's calls, stopping at the first error; the caches end exactly as reading the properties of the steps it runs, in order in turn leaves them, so each of those not cached yet is created once and nothing else is created |
| Driver.CPGInfrastructure.GrantLevelMemberships | cpg_infra/driver.py:264-274 | each working account, in order, joins the group of its access level; the caches end as reading the level groups leaves them when there is an account, and unchanged otherwise |
| Driver.CPGInfrastructure.GrantDependencyOutputs | cpg_infra/driver.py:1191-1201 | one level's group joins the same level's group output of each dependency stack, in `depends_on` order; no resource is created |
| Driver.CPGInfrastructure.GrantSmRows | cpg_infra/driver.py:961-967 | the memberships of every row of the sample-metadata table, row by row; the caches end as reading the sample-metadata groups leaves them |
| Driver.CPGInfrastructure.InvokeSmGroups | cpg_infra/driver.py:892-899 | each sample-metadata group, in order, may invoke the sample-metadata service; the caches end as reading the sample-metadata groups leaves them |
| Driver.CPGInfrastructure.GrantNotebookAccess | cpg_infra/driver.py:1020-1030 | the access group may use the notebook account and the account joins the access group; the caches end as reading the notebook account and the access group leaves them |
| Driver.CPGInfrastructure.TestBucketList | cpg_infra/driver.py:532-538 | the five test buckets with their names, in order, issuing no call; the caches end as reading the five test-bucket properties in that order leaves them |
| DriverCache.AccessAllAppend | cpg_infra/driver.py:226-229 | reading one run of cached properties and then another leaves the caches as reading the two runs joined does |
| DriverCache.AccessAllCachedAlready | cpg_infra/driver.py:226-229 | reading only properties that are cached already creates nothing and caches nothing new |
| DriverCache.AccessAllAgain | cpg_infra/driver.py:226-229 | reading the same run of properties a second time changes nothing |
| DriverCache.AccessAllCached | cpg_infra/driver.py:226-229 | after a run of reads, a property is cached iff it was cached before or was read |
| DriverCache.AccessAllFirstReads | cpg_infra/driver.py:226-229 | a run of reads creates exactly the creations of the properties read that were not cached before, in the order of their first read |
| DriverCache.FirstReadsOnce | cpg_infra/driver.py:226-229 | the first reads of a run name no property twice, and name exactly the properties read that were not cached before |
| DriverCache.UploadBucketsNonEmpty | cpg_infra/driver.py:504-520 | the upload-bucket property always holds at least one bucket, 'main-upload' |
| DriverProps.GroupIdsDistinct | cpg_infra/driver.py:123-126 | groups of distinct names under one dataset have distinct addresses |
| DriverProps.LevelGroupsShape | cpg_infra/driver.py:241-244 | `access_level_groups` has the keys test, standard and full once each, each mapped to its own '{dataset}-{level}' group |
| DriverProps.KindGroupsDistinct | cpg_infra/driver.py:226-244 | the access group and the three level groups are four distinct groups |
| DriverProps.GroupNamesPrefixed | cpg_infra/driver.py:123-126 | every group the driver creates is named '{dataset}-{name}' |
| DriverProps.HandlesFromCreations | cpg_infra/driver.py:159-244 | every cached property's handle is what its creation calls return: one handle for one creation, and one entry per creation for a dict (also lines 334-698, 775-885, 1043-1048) |
| DriverProps.UploadBucketsFromCreations | cpg_infra/driver.py:504-520 | the upload-bucket dict holds 'main-upload' and every additional name once each, each mapped to the bucket created under that name |
| DriverProps.LevelAccountsKeys | cpg_infra/driver.py:775-785 | per-level account dicts are keyed by the three access levels in order (also lines 847-857) |
| DriverProps.DeploymentAccounts | cpg_infra/driver.py:203-213 | deployment accounts are all three configured accounts, one per level, or none when any is unset |
| DriverPlan.HailAccountsByLevel | cpg_infra/driver.py:680-691 | the hail accounts fail with AssertionError exactly when the hail component is on and an account is unset; otherwise none without the component, and test, standard and full in that order with it |
| DriverProps.HailAccountMap | cpg_infra/driver.py:680-691 | without the hail component there are no hail accounts; with it, all three must be set, one per access level, or the assertion fails |
| DriverProps.CromwellDataprocAccounts | cpg_infra/driver.py:775-785 | cromwell and dataproc accounts exist, one per level, exactly when their component is selected (also lines 847-857) |
| DriverProps.SmTableRows | cpg_infra/driver.py:908-953 | the sample-metadata table row by row: the fixed rows' permissions, then one main-read row per read-only account and one main-read plus main-write row per read-write account |
| DriverProps.SmAccessCount | cpg_infra/driver.py:961-967 | there is one membership call per (row, permission): 16 for the fixed rows, one per read-only and two per read-write account |
| DriverProps.SmMembershipsExact | cpg_infra/driver.py:961-967 | the calls are exactly the memberships of the table's (row, permission) pairs, in order |
| DriverProps.SmMembershipTargets | cpg_infra/driver.py:875-885 | every membership goes into the metadata group of the permission it stands for (also lines 961-967) |
| DriverProps.DependencyCallsShape | cpg_infra/driver.py:1189-1201 | for each access level and each dependency, the dataset's group of that level joins the dependency's group of the same level, and there are no other calls |
| DriverProps.DependencyCount | cpg_infra/driver.py:1189-1201 | there are three dependency calls per dependency |
| DriverProps.MainBucketGrants | cpg_infra/driver.py:347-369 | on the main bucket the access group may list, standard may append and full may mutate, and nobody else is named |
| DriverProps.TestCallsShape | cpg_infra/driver.py:526-563 | on each of the five test buckets the access group and the three level groups are administrators, bucket by bucket, and the last call lets the web server read test-web |
| DriverProps.TestGrantsAdmin | cpg_infra/driver.py:526-563 | every test-bucket grant but the web server's is the mutate permission |
| DriverProps.RegistryKindCallsShape | cpg_infra/driver.py:972-1012 | each group kind may read both registries, and only full and standard may push to cpg-common |
| DriverProps.RegistryRoles | cpg_infra/driver.py:972-1012 | every group reads both registries; exactly standard and full may push to cpg-common; no other push right is granted |
| DriverProps.NameFromExternalSaChars | cpg_infra/driver.py:1211-1229 | whatever the address, the derived name holds only letters, digits, `_` and `-` |
| DriverProps.NameFromServiceAccount | cpg_infra/driver.py:1215-1216 | a Google service account address loses its suffix ('my-service-account@project.iam.gserviceaccount.com' gives 'my-service-account-project') |
| DriverProps.CleanNameKept | cpg_infra/driver.py:1224-1229 | a name whose characters are all kept and which has no double dash comes out unchanged |
| DriverProps.NameFromPersonalAddress | cpg_infra/driver.py:1218-1219 | any other address keeps its local part ('yourname@populationgenomics.org.au' gives 'yourname') |
| DriverProps.NameFromTaggedAddress | cpg_infra/driver.py:1221-1222 | dots and plus signs become dashes ('my.service-account+extra@domain.com' gives 'my-service-account-extra') |
| DriverProps.ConfigAccessMembers | cpg_infra/driver.py:1070-1081 | as written every config-viewer grant names the access group whatever its key; as intended each key's grant names that key's group |
| DriverProps.ConfigAccessAsWrittenMissesHail | cpg_infra/driver.py:1076-1081 | with hail enabled, the test hail account gets config access only in the intended form |
| DriverProps.MainAssertionError | cpg_infra/driver.py:128-131 | `main` stops with an assertion error exactly when hail is enabled without all three hail accounts, and then before any call (also lines 682-691) |
| DriverProps.MainNotImplemented | cpg_infra/driver.py:128-155 | with the hail accounts present, `main` stops as unimplemented exactly when sample metadata is on Azure or notebooks are on a provider other than GCP; otherwise it finishes (also lines 862-873, 1018-1041) |
| DriverProps.MainStopsAfterSampleMetadata | cpg_infra/driver.py:136-137 | on Azure with sample metadata, nothing after its access grants is set up (also lines 862-873) |
| DriverPlan.PutFacts | cpg_infra/driver.py:515-519 | after `d[k] = v`, `k` maps to `v`, every other key is untouched, no key is new but `k`, and keys stay distinct |
| DriverPlan.LevelGroupsAt | cpg_infra/driver.py:241-244 | `access_level_groups[al]` is the level's group for each of the three levels |
| DriverPlan.ExtraUploadBuckets | cpg_infra/driver.py:514-519 | each additional upload name gets a unique bucket with the undelete rule, in order |
| DriverPlan.SubNonName | cpg_infra/driver.py:1229 | every character outside letters, digits, `_` and `-` becomes '-', and length is kept |
| DriverPlan.SmExtraRows | cpg_infra/driver.py:942-959 | one row per extra service account, named after it, with the given permissions |
| GoogleGroupMembership.ConvertMember | cpg_infra/abstraction/google_group_membership.py:145-158 | a membership converts exactly when it has a preferred-member key and a name; a missing key is reported before a missing name, each with its own AttributeError |
| GoogleGroupMembership.ConvertPage | cpg_infra/abstraction/google_group_membership.py:145-158 | a page converts exactly when every membership does, member by member in order |
| GoogleGroupMembership.ConvertPageFirstError | cpg_infra/abstraction/google_group_membership.py:145-158 | a page fails with the error of its first bad membership |
| GoogleGroupMembership.ListingConcatenatesPages | cpg_infra/abstraction/google_group_membership.py:120-166 | a complete walk lists the pages' members concatenated in page order |
| GoogleGroupMembership.ListingStopsWithoutMemberships | cpg_infra/abstraction/google_group_membership.py:142-143 | a reply with no memberships ends the listing |
| GoogleGroupMembership.ListGroupMembers | cpg_infra/abstraction/google_group_membership.py:120-166 | the loop returns the reference listing; it first sends an empty token, then each page's next token, one page at a time |
| GoogleGroupMembership.TakeMemberships | cpg_infra/abstraction/google_group_membership.py:145-158 | the inner loop converts one page as the reference does |
| GoogleGroupMembership.IndexOfKey | cpg_infra/abstraction/google_group_membership.py:111 | the first member with the key, or none exactly when no member has it |
| GoogleGroupMembership.IndexOfName | cpg_infra/abstraction/google_group_membership.py:116 | the first member with the membership name, or none exactly when no member has it |
| GoogleGroupMembership.FindMemberByKey | cpg_infra/abstraction/google_group_membership.py:109-111 | a listing error propagates; otherwise a listed member with the key is found, and nothing exactly when none has it |
| GoogleGroupMembership.FindMemberByName | cpg_infra/abstraction/google_group_membership.py:114-116 | a listing error propagates; otherwise a listed member with the name is found, and nothing exactly when none has it |
| GoogleGroupMembership.AddMemberToGroup | cpg_infra/abstraction/google_group_membership.py:169-195 | an unfinished operation raises its error message, 'Unknown Error' by default; a finished one without a name raises AttributeError; otherwise the new member is returned |
| GoogleGroupMembership.Create | cpg_infra/abstraction/google_group_membership.py:69-82 | an existing membership is reused by name without a call; otherwise the added member's name becomes the id |
| GoogleGroupMembership.CreateIdempotent | cpg_infra/abstraction/google_group_membership.py:69-82 | creating the same membership again, once it is listed, reuses it and adds nothing |
| GoogleGroupMembership.Delete | cpg_infra/abstraction/google_group_membership.py:84-93 | an id with fewer than two '/'-separated parts raises IndexError; the group is the second part; the member is removed only when listed, and removal needs the operation to finish |
| GoogleGroupMembership.DeleteUsesGroupSegment | cpg_infra/abstraction/google_group_membership.py:84-87 | for 'groups/{g}/memberships/{m}' the group consulted is g, and its listing error propagates |
| GoogleGroupMembership.Diff | cpg_infra/abstraction/google_group_membership.py:95-98 | a membership never changes in place |
| GoogleGroupSettings.SettingsId | cpg_infra/abstraction/google_group_settings.py:56 | the id is 'google_group_settings::' followed by the group address |
| GoogleGroupSettings.SettingsIdInjective | cpg_infra/abstraction/google_group_settings.py:56 | different groups get different ids |
| GoogleGroupSettings.Create | cpg_infra/abstraction/google_group_settings.py:44-58 | the outputs keep exactly the requested setting keys, with the values the API reply gives, and a key missing from the reply raises |
| GoogleGroupSettings.CreateOutputsRequested | cpg_infra/abstraction/google_group_settings.py:44-58 | when the API applies the request, the outputs are the requested settings |
| GoogleGroupSettings.Read | cpg_infra/abstraction/google_group_settings.py:60-71 | reading keeps exactly the requested keys, each with the current value or None |
| GoogleGroupSettings.ReadAgreesWithCreate | cpg_infra/abstraction/google_group_settings.py:44-71 | reading right after creating gives back the created settings |
| GoogleGroupSettings.Diff | cpg_infra/abstraction/google_group_settings.py:77-87 | the group address or the settings are marked for replacement exactly when they differ, and a change is reported exactly when one is |
| GoogleGroupSettings.DiffReflexive | cpg_infra/abstraction/google_group_settings.py:77-87 | identical inputs show no change, and different inputs do |
| Metamist.ProjectsByName | cpg_infra/abstraction/metamist.py:10-17 | the index holds exactly the projects' names, each mapped to a project of that name |
| Metamist.ProjectsByNameKeepsLast | cpg_infra/abstraction/metamist.py:17 | a repeated name keeps the last project listed under it |
| Metamist.GetProjectByName | cpg_infra/abstraction/metamist.py:20-25 | a project is found exactly when one has the name |
| Metamist.Create | cpg_infra/abstraction/metamist.py:31-57 | an existing project is reused with its id; otherwise the new project's id is used; the resource id is 'metamist-project::{name}::{id}' |
| Metamist.CreateIdempotent | cpg_infra/abstraction/metamist.py:31-57 | creating again after a creation reuses the project with the same id and outputs |
| Metamist.Diff | cpg_infra/abstraction/metamist.py:59-69 | only a name change replaces, and it deletes the old project first |
| Metamist.Read | cpg_infra/abstraction/metamist.py:75-80 | the project reads as gone exactly when no project has the name, and otherwise keeps its inputs |
| Metamist.ReadAfterCreate | cpg_infra/abstraction/metamist.py:31-80 | a created project reads as present |
| HailBatch.AuthToken | cpg_infra/abstraction/hailbatch.py:50-66 | a non-empty HAIL_TOKEN_{CATEGORY} variable wins; otherwise a non-empty entry in the tokens file; only when neither gives a token does it raise ValueError naming the category and variable |
| HailBatch.AuthHeaders | cpg_infra/abstraction/hailbatch.py:39-47 | the headers exist exactly when a token does; Authorization is 'Bearer {token}', and the internal header, carrying the same value, is present exactly for an 'https://internal.hail' service |
| HailBatch.ParseBillingProjectId | cpg_infra/abstraction/hailbatch.py:343 | an id unpacks exactly when it splits on '::' into three parts, which it returns |
| HailBatch.ParseResourceId | cpg_infra/abstraction/hailbatch.py:272 | the id a billing project is created with unpacks back into its token category, batch URI and name (also line 343) |
| HailBatch.GetUser | cpg_infra/abstraction/hailbatch.py:69-88 | a missing token propagates; 404 means no user; any other error status raises; otherwise the reply body is the user |
| HailBatch.GetBillingProject | cpg_infra/abstraction/hailbatch.py:91-111 | a missing token propagates; 404, or 403 mentioning 'Unknown Hail Batch', means no project; a project found comes from a successful reply |
| HailBatch.PollCount | cpg_infra/abstraction/hailbatch.py:163-174 | the wait never polls more than its attempts |
| HailBatch.PollFindsFirstIdentity | cpg_infra/abstraction/hailbatch.py:164-171 | the wait returns the identity of the first poll, within the attempts, that shows one |
| HailBatch.PollGivesUp | cpg_infra/abstraction/hailbatch.py:164-174 | when no poll shows an identity the wait uses every attempt and finds nothing |
| HailBatch.CreateUser | cpg_infra/abstraction/hailbatch.py:115-187 | the user is created only when the lookup finds none; the wait runs only after a successful post, for at most seven polls, and the outcome is the reference one, failing when no identity appears |
| HailBatch.WaitForIdentity | cpg_infra/abstraction/hailbatch.py:159-174 | the polling loop agrees with the reference wait, in result and in the number of polls, and an identity found is non-empty |
| HailBatch.ReadUser | cpg_infra/abstraction/hailbatch.py:189-211 | reading fails exactly when the lookup does; the user is gone exactly on a 404; a present user carries its identity and its inputs |
| HailBatch.DiffUser | cpg_infra/abstraction/hailbatch.py:216-229 | the username or batch URI is replaced exactly when it differs, a change is reported exactly when one is, and nothing is deleted first |
| HailBatch.CreateBillingProject | cpg_infra/abstraction/hailbatch.py:235-274 | a closed project found by the lookup is reopened, anything else is created; a failed lookup or post raises; the id is '{category}::{uri}::{name}' and the outputs are the inputs |
| HailBatch.ReadBillingProject | cpg_infra/abstraction/hailbatch.py:276-289 | the project reads as gone exactly when it is missing or closed, and otherwise keeps its inputs |
| HailBatch.DeleteBillingProject | cpg_infra/abstraction/hailbatch.py:291-312 | closing posts to the project's close URL and succeeds exactly on a successful reply; a failure raises ValueError with the reply text |
| HailBatch.DiffBillingProject | cpg_infra/abstraction/hailbatch.py:314-327 | the name or batch URI is replaced exactly when it differs, a change is reported exactly when one is, and nothing is deleted first |
| HailBatch.CreateMembership | cpg_infra/abstraction/hailbatch.py:333-361 | an unparseable project id raises; a membership is created only on a successful post, with the id extended by '::{user}' and the add URL for that project and user |
| HailBatch.MembershipIdExtendsProjectId | cpg_infra/abstraction/hailbatch.py:272 | a membership of a project made by this provider has the project's id followed by '::{user}', and adds to that project (also lines 343-359) |
| HailBatch.ReadMembership | cpg_infra/abstraction/hailbatch.py:396-415 | a membership reads as present exactly when its project exists, is not closed and lists the user |
| HailBatch.DeleteMembership | cpg_infra/abstraction/hailbatch.py:377-394 | an unparseable project id raises; removal posts to the remove URL and succeeds only on a successful reply |
| HailBatch.DiffMembership | cpg_infra/abstraction/hailbatch.py:363-375 | the project or user is replaced exactly when it differs, and a change deletes before replacing |
| BillingUtils.DropFalsy | cpg_infra/billing_aggregator/aggregate/hail.py:129-130 | a label survives exactly when its value is truthy, and keeps that value |
| BillingUtils.GetHailEntry | cpg_infra/billing_aggregator/aggregate/utils.py:1390-1459 | the row carries the key, topic, service, the 'hail-{resource}' sku, no project, labels only when some were given, the cost and times, the invoice month of the start, AUD and the regular cost type |
| BillingUtils.GetCredit | cpg_infra/billing_aggregator/aggregate/utils.py:434-459 | the credit has id '{id}-credit', the given topic and project, the negated cost, ' Credit' and '-credit' suffixes on service and sku, and every other field of the entry |
| BillingUtils.CreditBalances | cpg_infra/billing_aggregator/aggregate/utils.py:434-459 | an entry and its credit cancel out, have different ids, and share start time and labels |
| BillingUtils.PairedAppend | cpg_infra/billing_aggregator/aggregate/hail.py:180-185 | two row lists that each pair every entry with its credit still do so when concatenated |
| BillingUtils.TrailingDigits | cpg_infra/billing_aggregator/aggregate/utils.py:868 | counts exactly the maximal run of digits at the end of the string |
| BillingUtils.DropDashDigits | cpg_infra/billing_aggregator/aggregate/utils.py:868-886 | either the string is kept, or a '-' followed by only digits is cut from its end |
| BillingUtils.TrailingDigitsOfDigits | cpg_infra/billing_aggregator/aggregate/utils.py:868 | the digit run of a prefix not ending in a digit followed by digits is exactly those digits |
| BillingUtils.StripDashDigitsRemovesSuffix | cpg_infra/billing_aggregator/aggregate/utils.py:868-886 | substituting the pattern '-\d+$' turns '{p}-{digits}' into p |
| BillingUtils.StripDashDigitsKeeps | cpg_infra/billing_aggregator/aggregate/utils.py:868-886 | a string not ending in a digit is left unchanged |
| BillingUtils.BillingRowToTopic | cpg_infra/billing_aggregator/aggregate/utils.py:871-886 | a row without a project goes to 'admin'; a mapped project to its dataset, 'admin' when that is empty; an unmapped one to its own id; the topic loses a trailing '-{digits}' |
| BillingUtils.NumberedProjectsShareTopic | cpg_infra/billing_aggregator/aggregate/utils.py:871-886 | an unmapped project 'dataset-123' is charged to 'dataset' |
| BillingUtils.FlattenAppend | cpg_infra/billing_aggregator/aggregate/utils.py:287-292 | flattening distributes over concatenation |
| BillingUtils.Chunks | cpg_infra/billing_aggregator/aggregate/utils.py:287-292 | for a positive size the chunks concatenate back to the sequence, none is empty or larger than the size, and all but the last are full |
| BillingUtils.Chunk | cpg_infra/billing_aggregator/aggregate/utils.py:287-292 | a zero size raises ValueError as range does, a negative one yields nothing, a positive one cuts the sequence into full chunks and a last rest |
| BillingUtils.DateRangeIterator | cpg_infra/billing_aggregator/aggregate/utils.py:1291-1318 | the intervals are empty exactly when start is not before end; otherwise they run from start to end, each consecutive, non-empty and at most one interval long, all but the last exactly one interval long |
| BillingUtils.InvoiceWindowStart | cpg_infra/billing_aggregator/aggregate/utils.py:1464-1467 | the window starts three days before the first of the month |
| BillingUtils.InvoiceWindowEnd | cpg_infra/billing_aggregator/aggregate/utils.py:1469-1475 | the window ends three days after the last of the month; in December that is 3 January of the next year |
| BillingUtils.InvoiceMonthRange | cpg_infra/billing_aggregator/aggregate/utils.py:1462-1477 | the invoice month reaches three days either side of the calendar month, both ends valid dates |
| BillingUtils.MonthBoundaries | cpg_infra/billing_aggregator/aggregate/utils.py:1469-1475 | the first of a month follows the last day of the previous month, across a year end too, and the next month starts the day after the last |
| BillingUtils.InferBatchNamespace | cpg_infra/billing_aggregator/aggregate/utils.py:1480-1498 | a non-empty namespace attribute is returned as it is; otherwise a user name containing 'test' gives 'test', else one containing 'standard' or 'full' gives 'main'; there is none exactly when neither applies |
| BillingUtils.ReformatBigqueryLabels | cpg_infra/billing_aggregator/aggregate/utils.py:1501-1515 | the loop builds the reference label map, failing as it does |
| BillingUtils.ReformatLabelsKeepsError | cpg_infra/billing_aggregator/aggregate/utils.py:1508-1509 | a 'key' entry without 'value' raises KeyError('value') |
| BillingUtils.ReformatLabelsFails | cpg_infra/billing_aggregator/aggregate/utils.py:1501-1515 | reformatting fails exactly when some entry has a 'key' and no 'value' |
| BillingUtils.ReformatLabelsLastWins | cpg_infra/billing_aggregator/aggregate/utils.py:1507-1513 | a label takes the value from the last entry that writes it |
| BillingUtils.ReformatLabelsOnlyWritten | cpg_infra/billing_aggregator/aggregate/utils.py:1507-1513 | a label no entry writes is absent |
| BillingUtils.NewRows | cpg_infra/billing_aggregator/aggregate/utils.py:941 | the rows kept are rows of the input that are not already stored |
| BillingUtils.NewRowsAppend | cpg_infra/billing_aggregator/aggregate/utils.py:934-941 | filtering chunk by chunk is filtering the whole list |
| BillingUtils.EffectiveChunkSizePositive | cpg_infra/billing_aggregator/aggregate/utils.py:913-920 | a positive requested chunk size never collapses to zero or below |
| BillingUtils.Upsert | cpg_infra/billing_aggregator/aggregate/utils.py:889-989 | no rows insert nothing; a zero chunk size raises ZeroDivisionError; otherwise the count is the number of rows not yet stored, and outside a dry run exactly those rows are loaded, in order, in non-empty loads |
| BillingUtils.InsertChunks | cpg_infra/billing_aggregator/aggregate/utils.py:934-985 | the chunk loop counts and, outside a dry run, loads exactly the new rows of all chunks |
| BillingUtils.ChunkStep | cpg_infra/billing_aggregator/aggregate/utils.py:934-941 | the new rows of one more chunk extend those of the chunks before it |
| BillingHail.GetBillingProjects | cpg_infra/billing_aggregator/aggregate/hail.py:54-69 | no server config gives no projects; otherwise its projects except 'hail' and 'seqr' |
| BillingHail.DatasetOf | cpg_infra/billing_aggregator/aggregate/hail.py:91-94 | a 'ci' project in any case is charged to 'hail', any other to itself |
| BillingHail.RenameArGuid | cpg_infra/billing_aggregator/aggregate/hail.py:99-101 | 'ar_guid' is moved to the configured name with its value, and every other attribute is kept |
| BillingHail.RenamingKeepsOthers | cpg_infra/billing_aggregator/aggregate/hail.py:123-127 | renaming 'name' and expanding the sequencing groups leave every other label as it was |
| BillingHail.JobLabelsPrecedence | cpg_infra/billing_aggregator/aggregate/hail.py:110-130 | a job attribute overrides a batch attribute, which overrides the base label; the label survives exactly when the winning value is truthy |
| BillingHail.JobLabelsJobName | cpg_infra/billing_aggregator/aggregate/hail.py:123-124 | a non-empty job name is moved to 'job_name' |
| BillingHail.JobLabelsTruthy | cpg_infra/billing_aggregator/aggregate/hail.py:129-130 | no label is left with an empty value |
| BillingHail.EntryKeyHasNoSlash | cpg_infra/billing_aggregator/aggregate/hail.py:166 | a row key never contains '/' |
| BillingHail.EntryKeyBeforeCutoff | cpg_infra/billing_aggregator/aggregate/hail.py:147-166 | before 2023 the key is 'hail-{dataset}-batch-{batch}-job-{job}' without the resource |
| BillingHail.CostEntriesShape | cpg_infra/billing_aggregator/aggregate/hail.py:104-185 | one job's rows pair each entry with its Hail credit, and every entry is charged to the dataset under the Hail service, skips service fees, has no project and no '/' in its id |
| BillingHail.JobsEntriesShape | cpg_infra/billing_aggregator/aggregate/hail.py:103-185 | the same holds for the rows of all jobs |
| BillingHail.GetFinalisedEntriesForBatch | cpg_infra/billing_aggregator/aggregate/hail.py:72-185 | excluded projects yield nothing; a batch missing a time raises ValueError; otherwise the rows of every job, with the batch's own attributes given the guid rename |
| BillingHail.AllJobRows | cpg_infra/billing_aggregator/aggregate/hail.py:103-185 | the job loop produces the reference rows |
| BillingHail.JobRows | cpg_infra/billing_aggregator/aggregate/hail.py:104-185 | the resource loop produces the reference rows of one job |
| BillingHail.ListedProjectsAreAggregated | cpg_infra/billing_aggregator/aggregate/hail.py:54-82 | a listed billing project is never one the generator skips |
| BillingSeqr.LastNotAfter | cpg_infra/billing_aggregator/aggregate/seqr.py:620-625 | the index of the last proportion entry dated on or before the date, or none exactly when every entry is later |
| BillingSeqr.GetRatiosFromDate | cpg_infra/billing_aggregator/aggregate/seqr.py:585-629 | the loop over the reversed map returns that latest entry, and raises AssertionError naming the date when there is none |
| BillingSeqr.RatiosSingleEarlier | cpg_infra/billing_aggregator/aggregate/seqr.py:592-596 | the first documented example picks the single earlier entry |
| BillingSeqr.RatiosLaterOfTwo | cpg_infra/billing_aggregator/aggregate/seqr.py:598-603 | the second documented example picks the later of two applicable entries |
| BillingSeqr.RatiosNoneBefore | cpg_infra/billing_aggregator/aggregate/seqr.py:611-617 | the last documented example finds no entry |
| BillingSeqr.SharesFor | cpg_infra/billing_aggregator/aggregate/seqr.py:102-107 | a batch started before the first seqr load is charged wholly to 'seqr'; a later one uses the applicable ratios, and fails when there are none |
| BillingSeqr.DirectKeyShape | cpg_infra/billing_aggregator/aggregate/seqr.py:302-311 | a dataset job's key is 'seqr-{dataset}-batch-{batch}-job-{job}' |
| BillingSeqr.NoDatasetJobs | cpg_infra/billing_aggregator/aggregate/seqr.py:113-117 | the jobs set aside for distribution are jobs of the batch without a dataset |
| BillingSeqr.GetFinalisedEntriesForBatch | cpg_infra/billing_aggregator/aggregate/seqr.py:83-243 | a batch missing a time raises ValueError; missing ratios raise; otherwise the rows of the dataset jobs followed by the distributed rows of the others |
| BillingSeqr.DirectJobRows | cpg_infra/billing_aggregator/aggregate/seqr.py:246-324 | the resource loop produces the reference rows of one dataset job |
| BillingSeqr.AllDistributedRows | cpg_infra/billing_aggregator/aggregate/seqr.py:139-243 | the loop over jobs without a dataset produces the reference distributed rows |
| BillingSeqr.DistributedJobRows | cpg_infra/billing_aggregator/aggregate/seqr.py:141-243 | the resource and share loops produce the reference rows of one job |
| BillingSeqr.DirectCostRowsShape | cpg_infra/billing_aggregator/aggregate/seqr.py:119-135 | each dataset-job entry is followed by its Hail credit, is charged to its dataset under 'Seqr compute', skips service fees, and has the documented key prefix (also lines 289-324) |
| BillingSeqr.DirectRowsShape | cpg_infra/billing_aggregator/aggregate/seqr.py:113-135 | the same holds for the rows of all dataset jobs |
| BillingSeqr.SharesRowsShape | cpg_infra/billing_aggregator/aggregate/seqr.py:186-243 | each distributed entry is followed by its credit and is charged to one of the shares' datasets under 'Seqr compute (distributed)', with no '/' in its key |
| BillingSeqr.DistributedCostRowsShape | cpg_infra/billing_aggregator/aggregate/seqr.py:144-243 | the same holds for all resources of one job |
| BillingSeqr.DistributedRowsShape | cpg_infra/billing_aggregator/aggregate/seqr.py:139-243 | the same holds for all jobs without a dataset |
| BillingSeqr.BatchRowsShape | cpg_infra/billing_aggregator/aggregate/seqr.py:83-243 | a batch's rows pair every entry with its credit: the direct rows come first, then the distributed ones |
| BillingSeqr.BeforeFirstLoadAllToSeqr | cpg_infra/billing_aggregator/aggregate/seqr.py:104-105 | before the first load every distributed entry is charged to 'seqr' (also line 186) |
| BillingIca.Get | cpg_infra/billing_aggregator/aggregate/ica.py:190-206 | a column reads as present exactly when the row has it, with its value |
| BillingIca.GetTopic | cpg_infra/billing_aggregator/aggregate/ica.py:184-185 | every row is charged to 'ica-illumina' |
| BillingIca.GetService | cpg_infra/billing_aggregator/aggregate/ica.py:188-194 | the service id is the sku; it is 'Cloud Storage' exactly for the Storage category, and 'Compute Engine' otherwise |
| BillingIca.GetSku | cpg_infra/billing_aggregator/aggregate/ica.py:197-198 | the sku is the row's sku and product |
| BillingIca.GetProject | cpg_infra/billing_aggregator/aggregate/ica.py:201-202 | the project id and name are both the sub-tenant name |
| BillingIca.GetInvoice | cpg_infra/billing_aggregator/aggregate/ica.py:205-206 | the invoice month is the row's month column |
| BillingIca.RowId | cpg_infra/billing_aggregator/aggregate/ica.py:314 | the row id is 'ica-' followed by the usage id |
| BillingIca.SplitAtColon | cpg_infra/billing_aggregator/aggregate/ica.py:218-221 | a pair splits exactly when it holds a ':', at the first one, and the parts join back to the pair |
| BillingIca.LabelsOfKeys | cpg_infra/billing_aggregator/aggregate/ica.py:217-222 | a label exists exactly when some pair sets that stripped key |
| BillingIca.LabelsOfKeysFromPairs | cpg_infra/billing_aggregator/aggregate/ica.py:217-222 | every label comes from a pair that sets it |
| BillingIca.LabelsOfKeysOfPair | cpg_infra/billing_aggregator/aggregate/ica.py:217-222 | every pair with a ':' sets its label |
| BillingIca.LabelsOfLastWins | cpg_infra/billing_aggregator/aggregate/ica.py:217-222 | a label holds the stripped value of the last pair that sets it |
| BillingIca.GetLabels | cpg_infra/billing_aggregator/aggregate/ica.py:209-223 | an empty or missing metadata column gives no labels; otherwise the loop builds the labels of its '\|'-separated pairs |
| BillingIca.MetadataPairs | cpg_infra/billing_aggregator/aggregate/ica.py:215 | the pairs join back to the metadata, and none holds a '\|' |
| BillingIca.GetJwtToken | cpg_infra/billing_aggregator/aggregate/ica.py:247-276 | a missing or empty API key raises ValueError; otherwise the token the service returns for key and domain |
| BillingIca.AddIds | cpg_infra/billing_aggregator/aggregate/ica.py:313-314 | fails exactly when some row lacks a usage id; otherwise each row gains its 'ica-' id, nothing else changing |
| BillingIca.GetCsvData | cpg_infra/billing_aggregator/aggregate/ica.py:279-315 | a missing or empty token raises ValueError; otherwise the downloaded rows with their ids. The `download` parameter stands for the rows after parsing, header lower-casing, timestamp conversion and the string casts of `sku` and `usage_id` |
| MonthlyAggregate.MatchMonth | cpg_infra/billing_aggregator/monthly_aggregate/main.py:216 | the '%m' directive reads one or two digits forming a month from 1 to 12 |
| MonthlyAggregate.ParseInvoiceMonth | cpg_infra/billing_aggregator/monthly_aggregate/main.py:216 | a parsed invoice month is a valid first of the month whose year is the string's first four digits |
| MonthlyAggregate.FourDigitString | cpg_infra/billing_aggregator/monthly_aggregate/main.py:104-120 | a four-digit year prints as exactly its four digits |
| MonthlyAggregate.ParseInvoiceMonthOf | cpg_infra/billing_aggregator/monthly_aggregate/main.py:216 | a stored six-character invoice month parses back to the first of its month |
| MonthlyAggregate.JanuaryDefaultRejected | cpg_infra/billing_aggregator/monthly_aggregate/main.py:117-120 | in January the default month as written is '{year}00', which strptime rejects (also line 216) |
| MonthlyAggregate.PreviousMonth | cpg_infra/billing_aggregator/monthly_aggregate/main.py:117-120 | the previous month is the month whose last day is the day before the first of this one |
| MonthlyAggregate.DefaultInvoiceMonthIsPrevious | cpg_infra/billing_aggregator/monthly_aggregate/main.py:117-120 | the corrected default is the six-character previous month, December of the last year in January |
| MonthlyAggregate.DefaultAgreesAfterJanuary | cpg_infra/billing_aggregator/monthly_aggregate/main.py:117-120 | outside January the corrected default is the one written |
| MonthlyAggregate.MatchingRows | cpg_infra/billing_aggregator/monthly_aggregate/main.py:218-222 | the WHERE clause keeps each row of that month whose usage ended within the window exactly as often as the table holds it, and no other row |
| MonthlyAggregate.InsertByTopic | cpg_infra/billing_aggregator/monthly_aggregate/main.py:222 | inserting a row into topic-sorted rows keeps them sorted by topic and adds exactly that row |
| MonthlyAggregate.OrderByTopic | cpg_infra/billing_aggregator/monthly_aggregate/main.py:222 | `ORDER BY topic` gives the same rows, as a multiset, sorted by topic |
| MonthlyAggregate.QueryRows | cpg_infra/billing_aggregator/monthly_aggregate/main.py:218-223 | the query returns the table's rows of that month whose usage ended within the window, each as often as the table holds it, and no others, sorted by topic |
| MonthlyAggregate.WithKeys | cpg_infra/billing_aggregator/monthly_aggregate/main.py:130 | every row gains its '{topic}-{month}-{cost category}' key, in order |
| MonthlyAggregate.ProcessMonth | cpg_infra/billing_aggregator/monthly_aggregate/main.py:112-134 | the corrected definition of `process_and_upload_monthly_billing_report`: without a month it takes the corrected default `DefaultInvoiceMonth`, December of the previous year in January, so it is the intended half of the main.py:117-120 Findings row, where the source builds '{year}00' and `strptime` raises; what it guarantees is stated by ProcessMonthGuards, BacktickRefused and AppendedRowsOfMonth |
| MonthlyAggregate.ProcessMonthGuards | cpg_infra/billing_aggregator/monthly_aggregate/main.py:112-134 | a month is processed only with a table name that is set and free of backticks; an append carries at least one row and writes to a nine-character '{year}-data' range |
| MonthlyAggregate.BacktickRefused | cpg_infra/billing_aggregator/monthly_aggregate/main.py:211-214 | a table name with a backtick raises ValueError before anything is read |
| MonthlyAggregate.AppendedRowsOfMonth | cpg_infra/billing_aggregator/monthly_aggregate/main.py:112-134 | a month appended to the sheet is six characters long, goes to the '{year}-data' range, and carries, sorted by topic, each row of that month inside its invoice window exactly as often as the table holds it and no other row, each with its '{topic}-{month}-{cost category}' key (also lines 154-155, 171, 216-223) |
| MonthlyAggregate.AsWrittenEarlyMonthsSkipped | cpg_infra/billing_aggregator/monthly_aggregate/main.py:103-127 | the year loop as written names January to September with one digit; the name parses but matches no stored month, so the month is skipped |
| MonthlyAggregate.NoRowsOfOtherLength | cpg_infra/billing_aggregator/monthly_aggregate/main.py:218-223 | a month name of any length but six matches no stored row |
| MonthlyAggregate.MonthsToLoad | cpg_infra/billing_aggregator/monthly_aggregate/main.py:101-107 | the corrected month list of a year holds at most one month per month number visited |
| MonthlyAggregate.MonthsToLoadSpec | cpg_infra/billing_aggregator/monthly_aggregate/main.py:101-107 | the corrected loop loads every month of the year in order, each as a six-character month, except the current one |
| MonthlyAggregate.ProcessAllKeepsError | cpg_infra/billing_aggregator/monthly_aggregate/main.py:103-109 | once a month raises, later months are not processed |
| MonthlyAggregate.MonthsToLoadPrefix | cpg_infra/billing_aggregator/monthly_aggregate/main.py:103 | the months up to k are a prefix of the months up to n |
| MonthlyAggregate.LoadForYear | cpg_infra/billing_aggregator/monthly_aggregate/main.py:101-109 | the loop processes the corrected months to load, with six-character month names (the intended half of the month-padding finding), stopping at the first error |
| MonthlyAggregate.LoadMonthStep | cpg_infra/billing_aggregator/monthly_aggregate/main.py:103-109 | one more month either ends the whole year with its error or adds its outcome |
| MonthlyAggregate.LoadStopsAtError | cpg_infra/billing_aggregator/monthly_aggregate/main.py:103-109 | an error in the first months is the year's result |
| MonthlyAggregate.ProcessAllStep | cpg_infra/billing_aggregator/monthly_aggregate/main.py:103-109 | processing one more month appends its outcome or stops with its error |
| UpdateBudget.TryCastInt | cpg_infra/billing_aggregator/update_budget/main.py:36-41 | a string converts exactly when int() accepts it, to that integer, and otherwise gives None |
| UpdateBudget.TryCastIntOfPrinted | cpg_infra/billing_aggregator/update_budget/main.py:36-41 | a printed integer converts back to itself |
| UpdateBudget.StoredByProject | cpg_infra/billing_aggregator/update_budget/main.py:104 | every stored row's project is a key, mapped to a stored row of that project |
| UpdateBudget.Decide | cpg_infra/billing_aggregator/update_budget/main.py:62-82 | a budget is inserted exactly when it has an amount and its project is not stored or is stored with a different amount or currency; the new row carries the project, amount and currency |
| UpdateBudget.DecideIdempotent | cpg_infra/billing_aggregator/update_budget/main.py:62-82 | once the inserted row is stored, the same budget is not inserted again |
| UpdateBudget.CompareAndUpdate | cpg_infra/billing_aggregator/update_budget/main.py:44-89 | a budget without an amount reports nothing; errors are reported exactly when a needed insert returns some, and they are those errors |
| UpdateBudget.CollectedErrorsExact | cpg_infra/billing_aggregator/update_budget/main.py:107-112 | the collected errors are empty exactly when no budget reports any, and each entry names a budget with the errors it reported |
| UpdateBudget.ResponseOf | cpg_infra/billing_aggregator/update_budget/main.py:114-117 | the status is 500 exactly when there are errors, which are then returned, and success means 200 |
| UpdateBudget.FromRequest | cpg_infra/billing_aggregator/update_budget/main.py:92-117 | the loop inserts the decided rows and answers with the response of the collected errors |
| BillingDriver.Capitalize | cpg_infra/billing_aggregator/driver.py:322 | the first character is upper-cased and the rest lower-cased, the length unchanged (also line 454) |
| BillingDriver.AlertPolicyNameShape | cpg_infra/billing_aggregator/driver.py:451 | the alert policy name starts with 'billing-', ends with '-alert' and has no spaces |
| BillingDriver.FunctionResourceNameInverse | cpg_infra/billing_aggregator/driver.py:321 | the function's name can be read back from its resource name |
| BillingDriver.SchedulerJobNameInverse | cpg_infra/billing_aggregator/driver.py:344 | the function's name can be read back from its scheduler job name |
| BillingDriver.ResourceNamesInjective | cpg_infra/billing_aggregator/driver.py:321-344 | different functions get different resource and job names |
| BillingDriver.Memory | cpg_infra/billing_aggregator/driver.py:311-317 | hail gets 2048M, seqr 3072M, every other function 1024M |
| BillingDriver.AggregatorEnv | cpg_infra/billing_aggregator/driver.py:331-339 | the environment has exactly the four variables, with the destination and source tables, the project, and twice the interval |
| BillingDriver.DefaultIntervalIsTwice | cpg_infra/billing_aggregator/driver.py:335-337 | the interval variable reads back as twice the configured interval |
| BillingDriver.CreateCloudFunction | cpg_infra/billing_aggregator/driver.py:365-455 | the build sets GOOGLE_FUNCTION_SOURCE exactly when a source file is given; the alert policy and its display name follow the function's name |
| BillingDriver.CheckInterval | cpg_infra/billing_aggregator/driver.py:288-299 | an interval outside (0, 24] raises ValueError; inside, a warning is printed exactly when it does not divide 24 |
| BillingDriver.AggregatorFunctions | cpg_infra/billing_aggregator/driver.py:308-340 | one cloud function per configured aggregator, in order |
| BillingDriver.AggregatorJobs | cpg_infra/billing_aggregator/driver.py:343-361 | one scheduler job per configured aggregator, in order |
| BillingDriver.BuildAggregators | cpg_infra/billing_aggregator/driver.py:308-361 | the loop builds those functions and jobs |
| BillingDriver.SetupAggregatorFunctions | cpg_infra/billing_aggregator/driver.py:285-361 | an invalid interval raises before anything is built; otherwise the warning, the functions and the jobs as above |
| BillingDriver.MainAggregators | cpg_infra/billing_aggregator/driver.py:47-56 | `main` skips the aggregator exactly when billing or its aggregator section is absent; otherwise it fails exactly when the interval is outside (0, 24], and else builds the configured functions and jobs |
| BillingDriver.ExtractDatasetTable | cpg_infra/billing_aggregator/driver.py:470-486 | a name without three dot-separated parts, or one in another project, raises ValueError; otherwise the three parts, which rebuild the name |
| BillingDriver.ExtractDatasetTableOfParts | cpg_infra/billing_aggregator/driver.py:470-486 | 'project.dataset.table' in the billing project splits back into its parts |
| GithubWif.MissingKey | cpg_infra/github_wif/driver.py:38-43 | a project lacks a key exactly when one of project_number, location and repositories is absent, reported in that order |
| GithubWif.ValidateProjects | cpg_infra/github_wif/driver.py:37-43 | validation passes exactly when every project is complete, and otherwise names the first incomplete project and its first missing key |
| GithubWif.ValidateConfig | cpg_infra/github_wif/driver.py:24-43 | a config without projects raises ValueError; otherwise the projects are validated |
| GithubWif.Clean | cpg_infra/github_wif/driver.py:66-67 | every lower-cased character outside [a-z0-9-] becomes '-', the others are kept, the length unchanged |
| GithubWif.ShortEnv | cpg_infra/github_wif/driver.py:70-74 | 'development' shortens to 'dev', 'production' to 'prod', other names are kept |
| GithubWif.SaNameOf | cpg_infra/github_wif/driver.py:77 | the name is the repo followed by '-img-{env}-deployer' |
| GithubWif.FittedRepo | cpg_infra/github_wif/driver.py:80-87 | the repo part is a prefix of the repo: all of it when the name fits, otherwise exactly what leaves room for the fixed 14 characters and the environment |
| GithubWif.FixLeadingDigit | cpg_infra/github_wif/driver.py:90-91 | a name starting with a digit has its first three characters replaced by 'gh-'; any other is kept |
| GithubWif.SaNameOfChars | cpg_infra/github_wif/driver.py:77 | a name built from clean parts is clean |
| GithubWif.SanitizeSaName | cpg_infra/github_wif/driver.py:46-93 | the reference definition of `sanitize_sa_name`; its length, alphabet, suffix and leading-digit guarantees are the SanitizeSaName lemmas below |
| GithubWif.SanitizeSaNameChars | cpg_infra/github_wif/driver.py:46-93 | a sanitized name has at least 14 characters, only lowercase letters, digits and hyphens, and does not start with a digit |
| GithubWif.SanitizeSaNameLength | cpg_infra/github_wif/driver.py:76-87 | a name that fits keeps its full length; a longer one is cut to exactly the maximum when the environment leaves room |
| GithubWif.SanitizeSaNameSuffix | cpg_infra/github_wif/driver.py:76-91 | every sanitized name ends with '-{env}-deployer' |
| GithubWif.SanitizeSaNamePlain | cpg_infra/github_wif/driver.py:66-93 | a short name starting with a letter is '{repo}-img-{env}-deployer' |
| GithubWif.SanitizeSaNameLeadingDigit | cpg_infra/github_wif/driver.py:89-91 | a short name starting with a digit begins 'gh-' and keeps the rest |
| GithubWif.ManageGithubSecrets | cpg_infra/github_wif/driver.py:365-438 | a repo without '/' gets nothing; otherwise it is split at the first '/' into owner and repository, and gets a GitHub provider '{repo}-{env}-provider' for the owner, then through that provider the environment, protected exactly in production, and the WIF_PROVIDER and WIF_SERVICE_ACCOUNT secrets |
| GithubWif.ReadGrants | cpg_infra/github_wif/driver.py:343-352 | one reader grant per read registry, keyed with the registry and its index |
| GithubWif.EnvironmentHead | cpg_infra/github_wif/driver.py:316-341 | the service account, its impersonation binding and its push grant form a sound deployment |
| GithubWif.SoundAppend | cpg_infra/github_wif/driver.py:296-360 | sound resource lists stay sound when concatenated |
| GithubWif.ReadGrantsSound | cpg_infra/github_wif/driver.py:343-352 | the read grants are sound |
| GithubWif.EnvironmentSound | cpg_infra/github_wif/driver.py:311-360 | the resources of one environment are sound: a protected branch policy only in production and a valid service-account id |
| GithubWif.EnvironmentsSound | cpg_infra/github_wif/driver.py:311-360 | so are those of all environments of a repository |
| GithubWif.RepositoriesSound | cpg_infra/github_wif/driver.py:307-360 | so are those of all repositories of a project |
| GithubWif.ProjectsSound | cpg_infra/github_wif/driver.py:296-360 | so are those of all valid projects |
| GithubWif.SetupEnvironment | cpg_infra/github_wif/driver.py:311-360 | the environment step creates the reference resources of one environment |
| GithubWif.SetupRepository | cpg_infra/github_wif/driver.py:311-360 | the environment loop creates the reference resources of one repository |
| GithubWif.SetupRepositories | cpg_infra/github_wif/driver.py:307-360 | the repository loop creates the reference resources of a project's repositories |
| GithubWif.SetupProject | cpg_infra/github_wif/driver.py:296-360 | a complete project gets its pool, provider and repository resources |
| GithubWif.SetupProjects | cpg_infra/github_wif/driver.py:294-362 | the project loop creates the reference resources of every complete project in order |
| GithubWif.SetupGithubWifInfrastructure | cpg_infra/github_wif/driver.py:282-362 | fails exactly when validation does, with its error; otherwise creates the reference resources of every project, and they are sound |
| NewStack.EffectiveSteps | stack/new_stack.py:108-113 | 'all' switches on every creation step; otherwise the steps asked for are kept |
| NewStack.ProjectIdOf | stack/new_stack.py:115-122 | a given project id is used lower-cased; otherwise the lower-cased dataset, with '-{digits}' when random digits are asked for |
| NewStack.Validate | stack/new_stack.py:124-140 | validation passes exactly when both the dataset and the project id match their patterns; a dataset over 17 characters is reported first, then a bad project id, then a bad dataset |
| NewStack.SixDigits | stack/new_stack.py:120 | a random suffix from 100000 to 999999 has six digits |
| NewStack.ValidateOptions | stack/new_stack.py:115-140 | the reference definition of the option checks on the lower-cased dataset and derived project id; stated by ShortDatasetNeedsDigits and RandomDigitsMakeProjectValid |
| NewStack.ShortDatasetNeedsDigits | stack/new_stack.py:129-136 | a dataset under six characters, without a project id or digits, fails the project check with the hint to add random digits |
| NewStack.RandomDigitsMakeProjectValid | stack/new_stack.py:115-140 | a valid dataset with random digits always gives a valid project id |
| NewStack.LowerOfLowerCase | stack/new_stack.py:115-122 | lower-casing a string without capitals changes nothing |
| NewStack.MissingUsernames | stack/new_stack.py:380-383 | the accounts to create are exactly the candidate usernames Hail does not know |
| NewStack.CreateHailAccounts | stack/new_stack.py:368-386 | the loop creates exactly the '-test', '-standard' and '-full' accounts the dataset lacks |
| NewStack.WaitUntilActive | stack/new_stack.py:390-398 | the wait checks at most ten times and stops at the first check that finds the account active |
| NewStack.AddToSeqrDependsOn | stack/new_stack.py:517-531 | the seqr stack is rewritten exactly when the dataset is not yet a dependency, with the dataset appended |
| NewStack.AddToSeqrDependsOnIdempotent | stack/new_stack.py:517-531 | afterwards the dataset is a dependency, adding it again changes nothing, and no earlier dependency is lost |
| NewStack.AddToTokens | stack/new_stack.py:534-551 | a dataset not yet in the repository map is added with ['sample-metadata'] and True is returned; otherwise the map is unchanged and False |
| NewStack.AddToTokensIdempotent | stack/new_stack.py:534-551 | afterwards the dataset is present, adding it again changes nothing, and other entries are unchanged |
| NewStack.BranchStepAsWrittenOnMain | stack/new_stack.py:419-429 | as written, git's 'main\n' differs from 'main', so the script asks whether to continue even on main |
| NewStack.BranchStepOnMain | stack/new_stack.py:418-437 | with the output stripped, main checks out 'add-{dataset}-stack' and any other branch asks to continue |
| StateMigrator.ScopedName | stack/migrations/state_migrator.py:97-114 | a key is scoped under '{dataset}-{cloud}', and a key already scoped is kept |
| StateMigrator.ScopedNameIdempotent | stack/migrations/state_migrator.py:97-114 | scoping a scoped key changes nothing |
| StateMigrator.ScopedNameOfDatasetKey | stack/migrations/state_migrator.py:98-101 | '{dataset}-{rest}' becomes '{dataset}-{cloud}-{rest}', keeping all of rest |
| StateMigrator.AzureDatasetKey | stack/migrations/state_migrator.py:106-111 | an Azure key 'az-{dataset}-{rest}' becomes '{dataset}-azure-{rest}' |
| StateMigrator.TypedKey | stack/migrations/state_migrator.py:83-94 | a bucket named 'cpg-{dataset}-…' is returned directly, scoped under '{dataset}-gcp' |
| StateMigrator.ProcessUrnIntoName | stack/migrations/state_migrator.py:51-116 | stack, stack-reference, bucket-object and provider URNs are skipped; a URN without four '::' fields raises ValueError; every name returned is scoped under the dataset's gcp or azure prefix, the gcp one for a '::gcp' URN |
| StateMigrator.ResourceBound | stack/migrations/state_migrator.py:129-141 | the resource part of a membership id takes at least one path segment |
| StateMigrator.MembershipParts | stack/migrations/state_migrator.py:127-160 | the member is the last path segment |
| StateMigrator.MembershipPartsRejoin | stack/migrations/state_migrator.py:146-160 | resource, role and member joined with '/' give back the identifier |
| StateMigrator.LeadingDigits | stack/migrations/state_migrator.py:23 | counts exactly the run of digits at the start of the string |
| StateMigrator.StripOrganization | stack/migrations/state_migrator.py:23 | a role that starts with 'organizations/', one or more digits and '/' has that prefix replaced by '/', the rest kept; any other role is returned unchanged (also lines 156-159) |
| StateMigrator.ProcessId | stack/migrations/state_migrator.py:119-167 | memberships get the 'resource role member' import id; bucket objects raise ValueError; buckets get '{project}/{id}'; anything else keeps its id |
| StateMigrator.MembershipImportId | stack/migrations/state_migrator.py:160 | a membership import id ends with a space and the member, the last part of the state id |
| StateMigrator.ProjectMembershipImportId | stack/migrations/state_migrator.py:126-160 | for a project membership with a plain role the import id is the identifier's three parts separated by spaces |
| StateMigrator.BucketMembershipResource | stack/migrations/state_migrator.py:149-150 | a bucket membership's resource loses its 'b/' prefix |
| StateMigrator.MigrateOne | stack/migrations/state_migrator.py:214-232 | a migrated resource has a non-empty id, keeps its type, and takes the name and id the two conversions give |
| StateMigrator.MigrateResources | stack/migrations/state_migrator.py:214-232 | a successful stack migration gives at most one migrated resource per state resource |
| StateMigrator.MigrateResourcesKeepsError | stack/migrations/state_migrator.py:214-232 | once a resource raises, the migration of the stack is that error |
| StateMigrator.MigratedNamesScoped | stack/migrations/state_migrator.py:214-232 | every migrated name is scoped under the dataset's gcp or azure prefix |
| StateMigrator.MigrateStack | stack/migrations/state_migrator.py:195-239 | the loop migrates the stack's resources as the reference does |
| LegacyStateMigrator.ScopedNameAsWritten | stack/state_migrator.py:36-55 | as written a scoped key is kept, and a key not starting with the dataset is scoped as in the later script |
| LegacyStateMigrator.AsWrittenAgreesOnPlainDataset | stack/state_migrator.py:41-52 | for a dataset without '-' dropping the first '-' field is removing the dataset, so both scripts agree |
| LegacyStateMigrator.AsWrittenKeepsDatasetTail | stack/state_migrator.py:41-52 | for a dataset 'a-b' the key 'a-b-{rest}' becomes 'a-b-{cloud}-b-{rest}', which differs from scoping it |
| LegacyStateMigrator.ProcessUrnWith | stack/state_migrator.py:19-57 | a URN without four fields raises; provider URNs are skipped; a name needs a '::gcp' or '::az' URN; any other URN raises 'Unrecognised URN' |
| LegacyStateMigrator.ProcessUrn | stack/state_migrator.py:19-57 | with the dataset removed as a prefix, every name is scoped under the dataset's gcp or azure prefix |
| LegacyStateMigrator.ProcessUrnAsWrittenDiffers | stack/state_migrator.py:19-57 | for dataset 'a-b' the URN's key 'a-b-{rest}' becomes 'a-b-gcp-b-{rest}' as written and 'a-b-gcp-{rest}' corrected |
| LegacyStateMigrator.ProcessId | stack/state_migrator.py:71-89 | non-memberships keep their id; a membership id ends with its member |
| LegacyStateMigrator.ProcessIdRejoin | stack/state_migrator.py:73-87 | a membership import id is resource, role and member separated by spaces, which joined with '/' give back the identifier |
| LegacyStateMigrator.MigrateOne | stack/state_migrator.py:115-130 | a resource without an id is skipped; a migrated one takes the name the corrected `ProcessUrn` gives and the converted id, and keeps its type. It is the intended half of the stack/state_migrator.py:41-52 Findings row: for a dataset containing '-' its name differs from the one the script computes as written |
| LegacyStateMigrator.MigratedKeepsError | stack/state_migrator.py:115-130 | once a resource raises, later resources are not migrated |
| LegacyStateMigrator.MigratedNamesScoped | stack/state_migrator.py:115-130 | every migrated name is scoped under the dataset's gcp or azure prefix |
| LegacyStateMigrator.Migration.MigrateStack | stack/state_migrator.py:8 | the module-level list gains the resources migrated before any error, and the error, if any, is reported (also lines 98-135). The names come from the corrected `ProcessUrn`, so this is the intended half of the stack/state_migrator.py:41-52 Findings row |
| CombineConfigs.DatasetKeys | stack/combine_configs.py:31-35 | exactly the 'datasets:' keys not ignored, with the prefix removed and their values |
| CombineConfigs.GcpKeys | stack/combine_configs.py:37-41 | exactly the 'gcp:' keys not ignored, with the prefix removed and their values |
| CombineConfigs.PrefixedSuffixes | stack/combine_configs.py:31-41 | exactly the suffixes of the keys carrying the prefix |
| CombineConfigs.BaseConfig | stack/combine_configs.py:31-41 | the dataset keys, with 'gcp' holding the gcp keys |
| CombineConfigs.MoveKey | stack/combine_configs.py:54-64 | an absent key changes nothing; a present key moves under the target section with its new name, creating the section if needed, and nothing else changes; a target that is not a mapping fails |
| CombineConfigs.MoveKeysRemoves | stack/combine_configs.py:54-64 | after the moves no old key remains, other keys are untouched, no key appears, and the target section is kept |
| CombineConfigs.MoveKeyLands | stack/combine_configs.py:58-64 | the moved value is found under its new name in the target section |
| CombineConfigs.FixEnableRelease | stack/combine_configs.py:67-69 | a missing, falsy or boolean enable_release is left alone; otherwise the string is replaced by its JSON value, other keys unchanged |
| CombineConfigs.FixArchiveAge | stack/combine_configs.py:70-72 | a missing, falsy or integer archive_age is left alone; a string is replaced by its integer value, other keys unchanged |
| Strings.StrLessEqTotal | stack/combine_configs.py:75 | the string order used to sort is total |
| CombineConfigs.YamlLessEqTotal | stack/combine_configs.py:75 | the order `sorted` uses, strings by code points and numbers (booleans as 0 and 1) by value, is total on each kind |
| CombineConfigs.InsertYaml | stack/combine_configs.py:75 | inserting into a sorted list keeps it sorted and adds exactly the element |
| CombineConfigs.SortYaml | stack/combine_configs.py:75 | the result is sorted and a permutation of the input |
| CombineConfigs.LeastKeyExists | stack/combine_configs.py:75 | a non-empty set of keys has a least key |
| CombineConfigs.KeyItems | stack/combine_configs.py:75 | iterating a JSON object gives each of its keys once, as strings, in key order |
| CombineConfigs.Characters | stack/combine_configs.py:75 | iterating a JSON string gives its characters, each as a one-character string, in order |
| CombineConfigs.Iterated | stack/combine_configs.py:75 | a list gives its items, a string its characters, an object its keys; null, booleans and numbers are not iterable |
| CombineConfigs.FixDependsOn | stack/combine_configs.py:74-75 | a missing or falsy depends_on is left alone; a non-string raises TypeError, text that is not JSON raises JSONDecodeError, a non-iterable or a mix that cannot be compared raises TypeError; otherwise the value becomes the sorted permutation of its items, other keys unchanged |
| CombineConfigs.DependsOnSorted | stack/combine_configs.py:74-75 | a JSON list of dataset names is rewritten as those same names in sorted order |
| CombineConfigs.SortNumbersExample | stack/combine_configs.py:75 | the JSON list `[3, 1, 2]` becomes `[1, 2, 3]` |
| CombineConfigs.SortKeysExample | stack/combine_configs.py:75 | the JSON object `{"b": 1, "a": 2}` becomes its sorted keys `["a", "b"]` |
| CombineConfigs.SortCharactersExample | stack/combine_configs.py:75 | the JSON string `"ba"` becomes `["a", "b"]`; the number 5 raises TypeError, and so does the list `[1, "a"]` |
| CombineConfigs.HailKeysAvoidTargets | stack/combine_configs.py:43-52 | no Hail key to move is itself the 'gcp' or 'azure' section |
| CombineConfigs.TwoMoves | stack/combine_configs.py:54-64 | after both move loops the gcp section remains and neither set of old keys does |
| CombineConfigs.MovedConfigMovesHailKeys | stack/combine_configs.py:43-64 | none of the six Hail service-account keys is left at the top level, and the gcp section exists |
| CombineConfigs.StackConfigMovesHailKeys | stack/combine_configs.py:43-75 | the same holds for the fully rewritten configuration |
| CombineConfigs.StackFile | stack/combine_configs.py:15-77 | the production stack and falsy files are skipped, and so is a falsy config section; a truthy file that is not a mapping raises TypeError, one without 'config' raises KeyError, and a truthy config section that is not a mapping raises AttributeError; a combined entry comes from a non-empty mapping config section |
| CombineConfigs.CombinedEntries | stack/combine_configs.py:15-77 | the combined configuration never holds 'production', and each entry is the rewritten config of the file with that dataset name |
| CombineConfigs.CombineWithSkips | stack/combine_configs.py:15-29 | a dataset name whose every file contributes nothing is absent from the result |
| CombineConfigs.CombineWithEntries | stack/combine_configs.py:15-77 | for any per-file rewrite, each combined entry is that rewrite's output for a file of that name |
| CombineConfigs.FlattenStack | stack/combine_configs.py:31-77 | the rewriting steps compute the reference configuration of one stack |
| CombineConfigs.MoveAll | stack/combine_configs.py:54-64 | the move loop computes the reference moves |
| CombineConfigs.CombineAll | stack/combine_configs.py:15-77 | the file loop computes the reference combined configuration |
| CombineConfigs.CombinedKeepsError | stack/combine_configs.py:15-77 | once a file raises, later files change nothing |
| ReorderState.NameOf | reorder_state_file.py:28 | the resource name is the fourth '::' field of the URN; a URN with fewer than four fields is an IndexError |
| ReorderState.UrnsOf | reorder_state_file.py:24 | the URN set holds exactly the URNs of the listed resources |
| ReorderState.ByUrn | reorder_state_file.py:24 | the lookup is keyed by exactly the listed URNs and maps each to a listed resource carrying that URN |
| ReorderState.DepsOf | reorder_state_file.py:22-30 | the dependency map is keyed by exactly the listed URNs |
| ReorderState.DepsOfByUrn | reorder_state_file.py:24-30 | each URN's recorded dependencies are those of the resource the lookup keeps for it (the last one listed under that URN) |
| ReorderState.CheckDepsMeaning | reorder_state_file.py:31-38 | one resource's check succeeds iff every dependency is already listed or exists somewhere in the file; when it succeeds it reports an issue iff some dependency is not yet listed; a ValueError names a dependency that is neither |
| ReorderState.ScanFlagSound | reorder_state_file.py:25-37 | when the scan reports an ordering issue, some resource depends on one listed only after it |
| ReorderState.ScanFlagComplete | reorder_state_file.py:25-37 | when a resource depends on one listed after it and the scan succeeds, the scan reports an ordering issue |
| ReorderState.ScanMeaning | reorder_state_file.py:25-37 | a successful scan flags an issue iff some resource has a forward dependency |
| ReorderState.DepsStep | reorder_state_file.py:30 | visiting a resource records its dependencies under its URN, leaving the other entries |
| ReorderState.ScanStep | reorder_state_file.py:26-37 | visiting one more resource ors its own issue flag into the flag so far |
| ReorderState.ScanDepsOk | reorder_state_file.py:31-39 | after a successful scan every dependency of every resource is either listed up to and including that resource or present in the file |
| ReorderState.Reordered | reorder_state_file.py:42-45 | the new resource list has one entry per URN of the order, the resource the lookup holds for it, in that order |
| ReorderState.ReorderedFileNameOfStem | reorder_state_file.py:41 | 'X.json' becomes 'X-reordered.json' when X has no other '.json' |
| ReorderState.ReorderWritesOnIssue | reorder_state_file.py:40-49 | a file is written only when the scan found an ordering issue, and never when the scan succeeds without one |
| ReorderState.ReorderedSameResources | reorder_state_file.py:42-45 | a topological order over the dependency map yields exactly the file's resources (one per URN), with no URN twice |
| ReorderState.ReorderedDependenciesFirst | reorder_state_file.py:42-45 | in the list rebuilt from a topological order, every dependency that is listed precedes the resource depending on it |
| ReorderState.ReorderOutput | reorder_state_file.py:40-49 | when something is written, the sorter produced an order over listed URNs and the output is the '-reordered' file name with the resources in that order |
| ReorderState.Reorder | reorder_state_file.py:14-49 | the whole script: the ValueError/IndexError of the scan, no output without an ordering issue, else the reordered file |
| ReorderState.CheckOrder | reorder_state_file.py:22-39 | the loop over resources returns the scan's verdict (issue flag or first error) and, on success, the dependency map of all resources |
| ReorderState.CheckResource | reorder_state_file.py:31-38 | the loop over one resource's dependencies returns its issue flag or the ValueError of the first dependency found nowhere |
| ReorderState.ScanFailsAt | reorder_state_file.py:26-39 | an error raised at one resource, after a clean prefix, is the error of the whole scan |
| ReorderState.ScanKeepsError | reorder_state_file.py:26-39 | once a prefix of the resources fails, the whole scan fails with the same error |
| ReorderState.CheckDepsKeepsError | reorder_state_file.py:31-38 | once a prefix of the dependencies fails, the resource's check fails with the same error |
| PyRepr.QuoteFor | scripts/repair_state_202306.py:42 | `repr` quotes with a double quote exactly when the text contains a single quote and no double quote, else with a single quote |
| PyRepr.EscapeChar | scripts/repair_state_202306.py:42 | each escaped character is non-empty and has no newline; a printable character other than the backslash and the quote stands for itself |
| PyRepr.Escape | scripts/repair_state_202306.py:42 | an escaped text has no newline |
| PyRepr.Repr | scripts/repair_state_202306.py:39-42 | a repr starts and ends with the chosen quote and contains no newline |
| PyRepr.UnreprRepr | scripts/repair_state_202306.py:39-42 | reading a repr back yields the original text (round trip) |
| PyRepr.UnescapeEscape | scripts/repair_state_202306.py:42 | unescaping an escaped text under the same quote yields the text back |
| PyRepr.UnescapeChar | scripts/repair_state_202306.py:42 | unescaping one escaped character followed by more text yields that character in front of the rest's reading |
| PyRepr.ReprInjective | scripts/repair_state_202306.py:42 | two texts with the same repr are equal, so distinct names and ids give distinct command arguments |
| PyRepr.ReprPlain | 202306_prepare_imports.py:140-141 | a text without quotes, backslashes or non-printables is shown as itself between single quotes |
| PyRepr.EscapePlain | 202306_prepare_imports.py:140-141 | such a text is left unchanged by escaping |
| PyRepr.HexDigitsValue | scripts/repair_state_202306.py:42 | each hex digit used by the `\x..` escapes reads back as its value |
| PulumiPlan.Input | scripts/repair_state_202306.py:49-52 | an input is found iff its key is present, with that key's value; otherwise a KeyError naming the key |
| PulumiPlan.MemberEmail | scripts/repair_state_202306.py:53 | the member email is found iff `preferredMemberKey` is present and has an `id` |
| PulumiPlan.ResourceRoleMember | scripts/repair_state_202306.py:58-81 | the IAM id succeeds iff the resource, role and member inputs are present, and is 'resource role member'; a missing resource input is the KeyError reported |
| PulumiPlan.IamResourceKey | scripts/repair_state_202306.py:58-83 | exactly the four IAM member types have a resource input |
| PulumiPlan.IamIdFormat | scripts/repair_state_202306.py:58-83 | the project, secret, service-account and bucket IAM types take their id from project, secretId, serviceAccountId and bucket respectively; every other type has no id |
| PulumiPlan.NameFromUrnOfFields | scripts/repair_state_202306.py:149 | the name taken from a URN is its last '::' field |
| PulumiPlan.GroupKey | scripts/repair_state_202306.py:118-119 | the key asked for always starts with 'groups/', and a key that already does is kept as it is |
| PulumiPlan.GroupKeyIdempotent | scripts/repair_state_202306.py:118-119 | prefixing is idempotent |
| PulumiPlan.EmailToIdMeaning | scripts/repair_state_202306.py:104-110 | an email has an id iff some listed membership has it, and the id is the name of its last such membership |
| PulumiPlan.StepImportWith | scripts/repair_state_202306.py:138-153 | a step yields an import only for 'create' with a new state and a non-empty id, typed from the state, named from the URN, with empty flags; a missing new state or another op yields none; the id lookup's KeyError propagates |
| PulumiPlan.CommandBodyNoNewline | 202306_prepare_imports.py:140-141 | the command before the flags contains no newline |
| RepairState.PrepareId | scripts/repair_state_202306.py:46-83 | every type other than the group membership gets the IAM id (or none) |
| RepairState.GroupMembershipId | scripts/repair_state_202306.py:51-110 | a group membership has an id iff the directory listing for its group key lists its email, and the id is a listed membership name of that email |
| RepairState.FlagTexts | scripts/repair_state_202306.py:39 | one '--key repr(value)' text per flag, in order |
| RepairState.ToCommandLine | scripts/repair_state_202306.py:37-43 | the reference definition of the `pulumi import` command line; its shape is stated by CommandLineShape and CommandLineNoNewline |
| RepairState.CommandLineShape | scripts/repair_state_202306.py:37-43 | the command line is the fixed prefix with the quoted type, name and id, followed by the flag texts only when there are flags (the trailing strip removes the blank) |
| RepairState.CommandLineNoNewline | scripts/repair_state_202306.py:37-43 | a command line whose flag keys have no newline contains none |
| RepairState.JoinLast | scripts/repair_state_202306.py:39 | a join ends with the last character of its last part |
| RepairState.JoinNoChar | scripts/repair_state_202306.py:39 | a character absent from the parts and the separator is absent from the join |
| RepairState.ImportsMeaning | scripts/repair_state_202306.py:136-153 | collecting succeeds iff every step's lookup succeeds, and the imports are exactly those the steps yield |
| RepairState.CollectWithKeepsError | scripts/repair_state_202306.py:138-153 | once a prefix of the steps fails, the whole collection fails with the same error |
| RepairState.CollectWithMeaning | scripts/repair_state_202306.py:136-153 | for any per-step conversion, collecting succeeds iff every step converts, and yields exactly the steps' imports |
| RepairState.StripJoined | scripts/repair_state_202306.py:37-43 | the strip in the command line removes only the joining space, and only when there are no flags |
| RepairState.CommandStartsWithPrefix | scripts/repair_state_202306.py:37-43 | a command without flags starts with the fixed pulumi import prefix |
| RepairState.CollectImports | scripts/repair_state_202306.py:136-153 | the loop over the plan's steps returns the reference collection |
| RepairState.ImportsHaveNoFlags | scripts/repair_state_202306.py:151 | every collected import has empty flags |
| RepairState.OutputAsWrittenOneLine | scripts/repair_state_202306.py:155-156 | as written, the output file has no newline at all, and with two imports the second command follows the first on the same line |
| RepairState.OutputLines | scripts/repair_state_202306.py:155-156 | with a newline after each command, the file splits into exactly the command lines |
| PrepareImports.PrepareId | 202306_prepare_imports.py:22-59 | group memberships are skipped (no id); every other type gets the IAM id, or none for a type outside the four IAM member types |
| PrepareImports.ScanMeaning | 202306_prepare_imports.py:95-113 | after the first pass the held-back memberships are exactly the plan's group-membership create steps, the imports are exactly what the steps yield, and none of them is a group membership |
| PrepareImports.ScanKeepsError | 202306_prepare_imports.py:95-113 | once a prefix of the steps fails, the pass fails with the same error |
| PrepareImports.ScanStep | 202306_prepare_imports.py:95-113 | one more step appends its import, if any, and holds it back when it is a membership |
| PrepareImports.ScanSteps | 202306_prepare_imports.py:92-113 | the first loop returns the reference pass |
| PrepareImports.GroupOf | 202306_prepare_imports.py:119 | a membership's group is found iff it has a new state with a 'group' input, and is that input |
| PrepareImports.GroupedOk | 202306_prepare_imports.py:117-120 | grouping succeeds iff every held-back membership has a group |
| PrepareImports.GroupedGroups | 202306_prepare_imports.py:117-122 | the groups are listed once each, in first-seen (defaultdict insertion) order, and are exactly the groups of the memberships |
| PrepareImports.GroupedContents | 202306_prepare_imports.py:117-120 | each group holds its memberships in plan order |
| PrepareImports.StepsOfGroupNone | 202306_prepare_imports.py:117-120 | a group no membership names holds no steps |
| PrepareImports.GroupedIsPermutation | 202306_prepare_imports.py:117-126 | visiting the groups in order and each group's memberships visits every held-back membership exactly once |
| PrepareImports.FlattenUpdate | 202306_prepare_imports.py:120 | appending a step to a listed group adds exactly that step to the visit |
| PrepareImports.FlattenFresh | 202306_prepare_imports.py:120 | a group not yet listed adds nothing to the visit |
| PrepareImports.GroupMemberships | 202306_prepare_imports.py:117-120 | the grouping loop returns the reference grouping |
| PrepareImports.GroupedKeepsError | 202306_prepare_imports.py:117-120 | once a prefix of the memberships fails, grouping fails with the same error |
| PrepareImports.MembershipImport | 202306_prepare_imports.py:126-135 | a membership's import carries its type, the URN's name and the id listed for its email; an email the group does not list is a KeyError naming it |
| PrepareImports.GroupImports | 202306_prepare_imports.py:126-135 | a group's imports succeed iff each membership's does, one per membership in order |
| PrepareImports.ImportGroup | 202306_prepare_imports.py:126-135 | the inner loop returns the reference group imports |
| PrepareImports.MembershipImportsStep | 202306_prepare_imports.py:122-135 | one more group appends its imports |
| PrepareImports.MembershipImportsKeepsError | 202306_prepare_imports.py:122-135 | once a prefix of the groups fails, the second pass fails with the same error |
| PrepareImports.MembershipImportsCount | 202306_prepare_imports.py:122-135 | the second pass yields one import per held-back membership |
| PrepareImports.ImportGroups | 202306_prepare_imports.py:122-135 | the loop over the groups returns the reference second pass |
| PrepareImports.PrepareRunCount | 202306_prepare_imports.py:88-135 | the script's imports are the first pass's imports followed by one import per held-back membership |
| PrepareImports.Prepare | 202306_prepare_imports.py:88-135 | the whole script returns the reference run, its first KeyError included |
| PrepareImports.OutputLines | 202306_prepare_imports.py:137-142 | the file splits at newlines into exactly one command per import, in order |
| FixAutoclass.Matches | autoclass_migration/fix_pulumi_state.py:22-25 | a resource is changed iff it is a bucket whose id is still pending; a bucket without an id is a KeyError |
| FixAutoclass.Autoclassed | autoclass_migration/fix_pulumi_state.py:26-33 | the fix succeeds iff inputs, outputs and propertyDependencies exist, sets exactly their 'autoclass' entries to the three fixed values and leaves every other field as it was |
| FixAutoclass.NameSet | autoclass_migration/fix_pulumi_state.py:20 | the pending set is exactly the named buckets |
| FixAutoclass.FixFrom | autoclass_migration/fix_pulumi_state.py:21-37 | the scan can fail only with a KeyError |
| FixAutoclass.FixFromShape | autoclass_migration/fix_pulumi_state.py:21-37 | the scan keeps every resource in its place, changing only pending buckets into their autoclassed form, and only takes names off the pending set |
| FixAutoclass.FixFromNotFound | autoclass_migration/fix_pulumi_state.py:21-41 | a name left pending is the id of no bucket from the scan's start on |
| FixAutoclass.FixFromFound | autoclass_migration/fix_pulumi_state.py:21-37 | every name taken off the pending set is the id of a bucket whose output entry is that bucket autoclassed |
| FixAutoclass.FixFromStep | autoclass_migration/fix_pulumi_state.py:21-37 | the scan from a resource is that resource's step (an error stops it, an emptied pending set ends it with the rest untouched), then the scan of the rest |
| FixAutoclass.FixAt | autoclass_migration/fix_pulumi_state.py:22-35 | one loop step rewrites the resource in place exactly when it succeeds and leaves every other resource alone |
| FixAutoclass.ScanResult | autoclass_migration/fix_pulumi_state.py:21-44 | from the scan's outcome: a KeyError is reported, names left unfound give the not-found error, otherwise the written resources |
| FixAutoclass.PrefixAppend | autoclass_migration/fix_pulumi_state.py:21-37 | resources kept in front of the scan accumulate in order |
| FixAutoclass.FixStateMeaning | autoclass_migration/fix_pulumi_state.py:13-44 | a written state has the same resources in place, every named bucket autoclassed and nothing else changed; a not-found error names only buckets that appear nowhere |
| FixAutoclass.FixResources | autoclass_migration/fix_pulumi_state.py:17-44 | fixing the resource array in place succeeds iff the reference does, with the same error, and leaves the array holding the reference output |
| DiskUsage.AggregateLevel | storage_visualization/disk_usage.py:38-56 | the level is a prefix of the blob name: cut after the first '.ht' that starts a '.ht/', else after the first such '.mt', else before the last '/', else empty (root) |
| DiskUsage.AggregateLevelFolder | storage_visualization/disk_usage.py:42-55 | a plain file aggregates to its folder |
| DiskUsage.AggregateLevelTable | storage_visualization/disk_usage.py:44-51 | anything inside a Hail table aggregates to the '.ht' directory |
| DiskUsage.AggregateLevelMatrixTable | storage_visualization/disk_usage.py:46-53 | anything inside a Hail matrix table (and no table) aggregates to the '.mt' directory |
| DiskUsage.AggregateLevelRoot | storage_visualization/disk_usage.py:48-56 | a file at the bucket root aggregates to the empty level |
| DiskUsage.Walk | storage_visualization/disk_usage.py:85-98 | the folders visited start at the blob's folder and end at the bucket root (''), every other one is a '/'-led prefix of the start |
| DiskUsage.WalkShrinks | storage_visualization/disk_usage.py:96-98 | each folder visited is strictly shorter than the previous one, so the walk ends and visits no folder twice |
| DiskUsage.Bump | storage_visualization/disk_usage.py:88-91 | one step adds the blob's size to 'size' and '<class>_bytes' and one to 'num_blobs' of exactly that path, leaving every other counter |
| DiskUsage.Paths | storage_visualization/disk_usage.py:87 | one 'gs://bucket' + folder path per folder visited |
| DiskUsage.AddAlongOnce | storage_visualization/disk_usage.py:86-98 | walking a blob's folders adds its counts once to each visited path and to no other |
| DiskUsage.AddBlobAncestors | storage_visualization/disk_usage.py:85-98 | a priced blob is counted once in every path from its aggregate level up to the bucket root |
| DiskUsage.RootPath | storage_visualization/disk_usage.py:87 | a path equals a bucket's root path only when it is that bucket's root |
| DiskUsage.AddAlongRoot | storage_visualization/disk_usage.py:86-98 | a walk reaches the root of its own bucket once and the root of no other bucket |
| DiskUsage.AddBlobsRoot | storage_visualization/disk_usage.py:81-98 | a bucket's root totals grow by the counts of its own blobs and of no other bucket's |
| DiskUsage.SumIncMeaning | storage_visualization/disk_usage.py:89-91 | summed over priced blobs, 'size' is their total size and 'num_blobs' their number |
| DiskUsage.AddBlobsPriced | storage_visualization/disk_usage.py:93-95 | a bucket counts without error only when every blob's storage class has a price (else KeyError) |
| DiskUsage.AggregateRoot | storage_visualization/disk_usage.py:72-98 | for distinct buckets, each bucket's root entry holds exactly its own blobs' totals |
| DiskUsage.AggregateAbsent | storage_visualization/disk_usage.py:72-98 | a bucket that was not listed has no counts at its root |
| DiskUsage.BucketsOf | storage_visualization/disk_usage.py:73-77 | the listed buckets are exactly 'cpg-<dataset>-<suffix>' for the suffixes, only test suffixes when the access level is 'test' |
| DiskUsage.BucketsOfPrefix | storage_visualization/disk_usage.py:73-77 | the buckets of the first suffixes are a prefix of the bucket list |
| DiskUsage.BucketsOfWellFormed | storage_visualization/disk_usage.py:73-77 | distinct slash-free suffixes give distinct slash-free bucket names |
| DiskUsage.BucketsWellFormed | storage_visualization/disk_usage.py:17-77 | the ten suffixes give distinct bucket names without '/' for a slash-free dataset |
| DiskUsage.BucketTotals | storage_visualization/disk_usage.py:72-98 | in the written stats, each listed bucket's 'gs://bucket' entry holds the total size and the number of its blobs |
| DiskUsage.AggregateListed | storage_visualization/disk_usage.py:93-95 | a successful run saw only priced storage classes |
| DiskUsage.CountBlob | storage_visualization/disk_usage.py:85-98 | the walk loop returns the reference counts of one blob, or the KeyError of an unpriced class |
| DiskUsage.CountBucket | storage_visualization/disk_usage.py:81-98 | the loop over one bucket's blobs returns the reference counts |
| DiskUsage.AddBlobsKeepsError | storage_visualization/disk_usage.py:81-98 | once a prefix of the blobs fails, counting the bucket fails with the same error |
| DiskUsage.AggregateKeepsError | storage_visualization/disk_usage.py:73-98 | once a prefix of the buckets fails, the run fails with the same error |
| DiskUsage.DiskUsage | storage_visualization/disk_usage.py:59-98 | the whole loop returns the reference aggregate over the dataset's buckets |
| Treemap.HailBatchUrl | storage_visualization/treemap.py:38-48 | a URL exists iff the batch id is non-empty; it starts with the batch URL, and is that URL when there is no job id |
| Treemap.JobUrlExtendsBatchUrl | storage_visualization/treemap.py:44-48 | a job URL is the batch URL plus '/jobs/<job>'; an empty job id still gives a job URL |
| Treemap.MissingName | storage_visualization/treemap.py:229 | the missing dataset's name has no '/' |
| Treemap.MissingNameOfPath | storage_visualization/treemap.py:229 | '<dir>/<dataset>.json.gz' is reported as '<dataset>' |
| Treemap.GreedyGroup | storage_visualization/treemap.py:29 | the group found is the longest run of dataset characters, up to the bound, that a '-main' or '-test' follows; none when no such run exists (also lines 254-256) |
| Treemap.DatasetOf | storage_visualization/treemap.py:29 | a dataset found by the regular expression is never empty (also lines 254-256) |
| Treemap.DatasetOfBucket | storage_visualization/treemap.py:29 | 'gs://cpg-<dataset>-main...' or '-test...' with no later '-main'/'-test' yields that dataset (also lines 254-256) |
| Treemap.GreedyGroupLongest | storage_visualization/treemap.py:29 | when the group can end at one place and nowhere later, the greedy group ends there |
| Treemap.DatasetOfPrefixed | storage_visualization/treemap.py:29 | on a name starting with the bucket prefix, the regex takes the greedy group right after it (also lines 254-256) |
| Treemap.GroupAtDataset | storage_visualization/treemap.py:29 | in such a name the greedy group ends exactly at the end of the dataset |
| Treemap.NoGroupInTail | storage_visualization/treemap.py:29 | no group may end inside a tail without '-main' or '-test' |
| Treemap.BucketOf | storage_visualization/treemap.py:236 | a bucket is found iff the name is a 'gs://' path, and is its first path segment |
| Treemap.Kept | storage_visualization/treemap.py:235-245 | a kept entry is within the depth bound, has a non-zero size and, when filtered, lies in a '-<level>-<type>' bucket |
| Treemap.DroppedEntries | storage_visualization/treemap.py:235-245 | an entry is skipped iff it fails the bucket-type filter, is deeper than the bound, or has size 0 |
| Treemap.FolderParent | storage_visualization/treemap.py:248-250 | a folder parent is a prefix of the name beyond 'gs://' with exactly one '/' fewer; there is none when the last '/' is within 'gs://' |
| Treemap.CountCharAppend | storage_visualization/treemap.py:240 | '/' counts add up over concatenation |
| Treemap.CountCharAbsent | storage_visualization/treemap.py:240 | a text without '/' counts none |
| Treemap.TopParent | storage_visualization/treemap.py:254-262 | a top-level entry's parent is its dataset only when grouping by dataset and the dataset is found, else the root node |
| Treemap.FormRow | storage_visualization/treemap.py:86-111 | a row exists iff size is non-zero and size, cost and blob count are present; it carries the name, parent, size, count and standard bytes; size 0 is a ZeroDivisionError |
| Treemap.Defaulted | storage_visualization/treemap.py:221-222 | a defaultdict reads the same as the map and has the three keys a row needs |
| Treemap.AddValues | storage_visualization/treemap.py:252-260 | accumulating adds every value key by key |
| Treemap.Names | storage_visualization/treemap.py:264 | the row names, in order |
| Treemap.StepEntryRows | storage_visualization/treemap.py:235-264 | a skipped entry changes nothing; a kept one appends exactly one row named after it whose parent follows the parent rule |
| Treemap.StepEntryRoot | storage_visualization/treemap.py:252-253 | only top-level entries add to the root totals, all their values |
| Treemap.StepEntryDatasets | storage_visualization/treemap.py:257-260 | a top-level entry adds to its dataset's totals only when it is parented by that dataset |
| Treemap.StepEntryOrder | storage_visualization/treemap.py:222-260 | the dataset order lists each dataset with totals exactly once |
| Treemap.StepEntriesRows | storage_visualization/treemap.py:234-264 | one file appends exactly the rows of its kept entries, in order, each following the parent rule |
| Treemap.StepEntriesRoot | storage_visualization/treemap.py:234-264 | the root totals grow by the sum of the file's top-level entries |
| Treemap.StepEntriesDatasets | storage_visualization/treemap.py:234-264 | each dataset's totals grow by the sum of its top-level entries |
| Treemap.StepEntriesOrder | storage_visualization/treemap.py:234-264 | the dataset order stays duplicate-free and complete |
| Treemap.StepInputsRows | storage_visualization/treemap.py:224-264 | over all inputs the missing list is exactly the absent files' names and the rows are exactly the kept entries in order |
| Treemap.NamesAppend | storage_visualization/treemap.py:264 | names distribute over concatenation |
| Treemap.StepInputsSums | storage_visualization/treemap.py:224-264 | the root and dataset totals are the sums over all inputs' top-level entries |
| Treemap.DatasetRowsMeaning | storage_visualization/treemap.py:266-267 | one dataset row per dataset in insertion order, parented by the root node, with that dataset's totals |
| Treemap.DatasetRowsOfRun | storage_visualization/treemap.py:266-267 | the dataset rows have distinct names, each with the summed totals of its dataset |
| Treemap.PrepareRows | storage_visualization/treemap.py:201-272 | the reference definition of `prepare_rows_from_input_paths`: entry rows, dataset rows and the root row, or the first error; stated by the PrepareRows lemmas below |
| Treemap.PrepareRowsEntries | storage_visualization/treemap.py:201-272 | the result starts with the kept entries' rows, in order, and reports exactly the missing inputs |
| Treemap.PrepareRowsRoot | storage_visualization/treemap.py:270-272 | the last row is the root node with no parent and the totals of every top-level entry |
| Treemap.PrepareRowsDatasets | storage_visualization/treemap.py:266-272 | between the entry rows and the root come the distinct dataset rows with their totals |
| Treemap.AllMissingFails | storage_visualization/treemap.py:228-270 | when no input exists the root row divides by a zero size (ZeroDivisionError) |
| Treemap.AllMissingInputs | storage_visualization/treemap.py:228-231 | when no input exists only the missing list changes |
| Treemap.FoldEntriesKeepsError | storage_visualization/treemap.py:234-264 | once a prefix of a file's entries fails, the file fails with the same error |
| Treemap.StepInputsKeepsError | storage_visualization/treemap.py:224-264 | once a prefix of the inputs fails, the run fails with the same error |
| Treemap.RowsWithKeepsError | storage_visualization/treemap.py:266-267 | once a prefix of the datasets fails, the dataset rows fail with the same error |
| Treemap.RowsWithMeaning | storage_visualization/treemap.py:266-267 | one row per name, in order, each the row made for that name |
| Treemap.MakeDatasetRows | storage_visualization/treemap.py:266-267 | the loop over the datasets returns the reference dataset rows |
| Treemap.PrepareRowsShape | storage_visualization/treemap.py:266-272 | the result is the entry rows, then the dataset rows, then the root row, with one entry row per kept entry |
| Treemap.FoldEntriesRows | storage_visualization/treemap.py:234-264 | for any step that adds at most one row under the parent rule, a file adds exactly one row per kept entry, in order |
| Treemap.FoldEntriesRoot | storage_visualization/treemap.py:252-253 | for any step that adds bucket entries to the root, the root grows by their sum |
| Treemap.FoldEntriesDatasets | storage_visualization/treemap.py:257-260 | for any step that adds grouped bucket entries to their dataset, each dataset grows by their sum |
| Treemap.FoldEntriesOrder | storage_visualization/treemap.py:222-260 | for any step that keeps the dataset order well formed, a file keeps it well formed |
| Treemap.ProcessEntries | storage_visualization/treemap.py:234-264 | the loop over one file's entries returns the reference step |
| Treemap.PrepareRowsFromInputPaths | storage_visualization/treemap.py:201-272 | the whole function returns the reference rows and missing list |

## Left out

- Pulumi resource constructors, `pulumi.Output` values and `.apply` chains are left out. Resources appear as recorded creation and call values, and outputs as symbolic handles.
- Cloud SDK calls and HTTP traffic are left out. This covers Cloud Identity, Groups Settings, Hail Batch, metamist, ICA, BigQuery, Secret Manager and the Cloud Storage listing. Each reply becomes a parameter of the operation that receives it. Two of these replies are cached for the life of the provider process: the metamist project listing and `list_group_members` (`@cache` in `cpg_infra/abstraction/google_group_membership.py`). A later create or delete then sees the listing taken before earlier creates, and the caller expresses this by passing the same listing again.
- Environment variables, the tokens file, `date.today()`, `datetime.now()` and the random digits in `new_stack.py` are left out. They become parameters.
- File I/O, JSON, gzip, YAML and TOML parsing, and base64 are left out. The model starts from the parsed values.
- Printing, logging, `time.sleep` and Slack posting are left out. They have no effect on the values computed.
- The `float` and `bytes` primitive targets of `try_parse_value_as_type` are left out. The parser has `str`, `int` and `bool` only.
- The `budget_notification_thresholds: list[float]` field of the infrastructure config, with its default `[0.5, 0.9, 1.0]`, is left out with them. Its only reader is the AWS budget in `cpg_infra/abstraction/aws.py`, which is not modelled. So `Config.FromDict` raises TypeError for an unexpected keyword on a config that sets this field, where the source accepts it.
- Floating-point arithmetic is left out. Costs, the currency conversion and the hail service fee are integers or opaque values. So are treemap hotness and `humanize` formatting, the USD-per-GB cost in `storage_visualization/disk_usage.py`, and the money formatting.
- The graphlib topological sort in `reorder_state_file.py` is left out. It is a `sorter` parameter. The lemmas assume only that its result is a topological order of the dependency map.
- The regular expression `DATASET_REGEX` in `storage_visualization/treemap.py` is not run by an engine. Its greedy match is written out explicitly.
- Python `set` iteration order is left out. Sets are modelled as sets, and nothing that is proved depends on hash order.
- Unicode is left out. `Strings.Strip`, `Strings.IntStrip` (the white space `int()` trims) and the case functions cover ASCII only, `StateMigrator.StripOrganization` reads `\d` as an ASCII digit, and `PyRepr.Repr` treats every character that is not a Latin-1 control character as printable.
- Several version skews inside `cpg_infra/driver.py` are modelled as each function is written, not as an end-to-end run:
  - the call to the absent `get_access_level_group_output_name` becomes an abstract group lookup;
  - `DevInfra` lacks most of the methods the driver calls;
  - `gcp.py` passes `group_key=` where the inputs take `group_id`;
  - the driver grants `ContainerRegistryMembership.APPEND`, which `base.py` does not define; the model uses the `WRITER` membership that the providers handle;
  - `aws.py` imports `group_by`, which `base.py` lacks;
  - the `HAIL_ACCOUNTS` property reads `hail_service_account_test`, `_standard` and `_full` directly from the dataset config, while the schema keeps them in its `gcp` and `azure` sections. As written, that read raises AttributeError.
- DriverPlan.HailAccountsByLevel: reads the three hail accounts as flat fields of the dataset config. So it does not raise the AttributeError the nested schema would give.
- DriverProps.HailAccountMap: inherits the flat hail-account reading of `DriverPlan.HailAccountsByLevel`.
- DriverProps.MainAssertionError: inherits the flat hail-account reading of `DriverPlan.HailAccountsByLevel`.
- The `billing.gcp.source_bq_table` and `gcp_cost_controls` reads in `cpg_infra/driver.py` are left out. They only forward configuration values to resources that are not modelled.
- The `if not start_time` branch of `cpg_infra/billing_aggregator/aggregate/hail.py` is dead code and is not modelled. So is the unused `inserted_ids` list in `upsert_rows_into_bigquery`.
- The BigQuery load jobs of `upsert_rows_into_bigquery` are recorded as the `loads` chunks. The chunk-size estimate from `sys.getsizeof` is the `totalMb` parameter.
- The pandas CSV handling of the ICA invoice rows is left out: parsing, lower-casing every header, converting `usage_timestamp` with its fixed format, and casting `sku` and `usage_id` to strings. The model starts from the rows after those steps.
- MonthlyAggregate.QueryRows: BigQuery's order among rows with the same topic is unspecified. The model orders them as the table lists them, and its contract states only the topic order and the rows' multiplicities.
- The asyncio queue in `process_entries_from_hail_in_chunks`, and the retry and back-off loops, are left out. They are concurrency and network plumbing.
- `parse_hail_time`, `fromisoformat` and the md5 row keys are left out. Times are day ordinals in `Calendar` or opaque strings, and keys are the strings fed to the hash.
- Argument parsing is left out: the `click` and `argparse` entry points and the `sys.argv` length checks. The exception is the bucket-name check in `autoclass_migration/fix_pulumi_state.py`, which is modelled as the `Usage` error.
- The PNG size filter and `main` of `storage_visualization/treemap.py` are left out. They are plotting and Slack I/O.
- `get_pulumi_name` in the state migrators is not part of this model. The names it returns stay symbolic.
- A plan step whose `newState` is empty is treated the same as one where it is absent, matching the source's `if not state`.
- Plugin discovery, the Slack bots, the cost-control function, `groups_cleanup`, `tokens`, `stack/azure_api.py` and the older `cpg_infra/config.py` are not part of this model. They are network-only or reflection-based.
- CombineConfigs.FixDependsOn: a decoded list with two or more lists among its items raises TypeError in the model, where Python compares lists item by item and may sort them. Floats are not modelled. The contract does not fix the order of equal numbers such as 1 and true; the model's sort keeps them in input order, as Python's does.
- Driver.CPGInfrastructure.New: is built on the corrected component lookup `Base.InfraComponentsIntended`. So a 'dev' infrastructure whose config lists components gets them, where the source raises KeyError('dev') (see Findings).
- BillingDriver.MainAggregators: models only the aggregator step of `main`. The aggregate table, the materialized views, the cost control and the cost reporting that `main` sets up afterwards are not part of this model.
- BillingUtils.DateRangeIterator: requires a positive interval, which every caller passes. With a zero or negative interval and start before end, the source's loop never stops.
- `Base.DevCreateBucket` has no row in the table. Its contract only restates the formatted handle.

## Findings

| source | as written | input that shows it | evidently intended | confidence | as-written member | corrected member |
|---|---|---|---|---|---|---|
| cpg_infra/config/deserializabledataclass.py:171 | `isinstance(value, dtype)` is reached with `dtype` a `typing.Any` or `Literal[...]` form, which raises TypeError | the default `deploy_locations=['gcp']`, typed `list[Literal['gcp', 'azure']]` | `Any` accepts every value and `Literal` accepts exactly its options | not executed | ConfigParser.SpecialFormsAsWritten, Config.DefaultDeployLocationsAsWritten | ConfigParser.SpecialFormsIntended, Config.DefaultDeployLocationsIntended |
| cpg_infra/abstraction/base.py:44-47 | the default of `dict.get` is computed eagerly, so a provider without a defaults row raises KeyError even when its components are configured | a 'dev' infrastructure whose dataset config lists components for 'dev' | the defaults row is consulted only when no components are configured | not executed | Base.DevComponentsAsWritten | Base.InfraComponentsIntended, Driver.CPGInfrastructure.New |
| cpg_infra/driver.py:1076-1081 | every key's config-bucket grant names `self.access_group` as the member | a dataset with hail accounts: the 'test' hail account never gets config access | each key's own group or account is the member | not executed | DriverProps.ConfigAccessAsWrittenMissesHail | Driver.CPGInfrastructure.SetupAnalysisRunnerConfigAccess |
| cpg_infra/abstraction/aws.py:116-131 | `statements` is created once, before the entity loop | two entities granted different buckets: the second one's policy also holds the first one's statement | a fresh statement list for each entity | not executed | Aws.PoliciesAsWrittenLeak | Aws.PoliciesOwnGrants |
| cpg_infra/abstraction/aws.py:217-225 | the expiration uses the constant `TMP_BUCKET_PERIOD_IN_DAYS`, not the `days` argument | `bucket_rule_temporary(days=30)` expires objects after 8 days | objects expire after the `days` asked for | not executed | Aws.BucketRuleTemporaryIgnoresDays | Aws.BucketRuleTemporaryAgreesOnDefault |
| cpg_infra/billing_aggregator/monthly_aggregate/main.py:103-104 | the month is formatted without zero padding | year 2023, month 1 gives '20231', which names no invoice month | the six-character month '202301' | not executed | MonthlyAggregate.AsWrittenEarlyMonthsSkipped | MonthlyAggregate.MonthsToLoadSpec |
| cpg_infra/billing_aggregator/monthly_aggregate/main.py:117-120 | the default month subtracts 1 from the month number without wrapping the year | in January 2024 the default is '202400', which `strptime` rejects at line 216 | December of the previous year, '202312' | not executed | MonthlyAggregate.JanuaryDefaultRejected | MonthlyAggregate.DefaultInvoiceMonthIsPrevious, MonthlyAggregate.ProcessMonth |
| stack/new_stack.py:419-429 | the `git rev-parse` output is only decoded, so it keeps its trailing newline | on branch main the output is 'main\n', which is not equal to 'main' | the stripped branch name is compared | not executed | NewStack.BranchStepAsWrittenOnMain | NewStack.BranchStepOnMain |
| stack/state_migrator.py:41-52 | the dataset is dropped with `split('-')[1:]`, which removes only its first '-' field | dataset 'thousand-genomes': 'thousand-genomes-x' becomes 'thousand-genomes-gcp-genomes-x' | the whole dataset prefix is removed | not executed | LegacyStateMigrator.ProcessUrnAsWrittenDiffers | LegacyStateMigrator.ProcessUrn, LegacyStateMigrator.MigrateOne, LegacyStateMigrator.Migration.MigrateStack |
| scripts/repair_state_202306.py:156 | `writelines` writes the commands without separators | two imports become one line, so the second `pulumi import` is passed as arguments of the first | one command per line | not executed | RepairState.OutputAsWrittenOneLine | RepairState.OutputLines |
