// Model of the Azure provider, cpg_infra/abstraction/azure.py: the
// alphanumeric name fix and the role maps as functions, and `AzureInfra`
// as a class whose storage-account lifecycle rules and undelete period are
// accumulated by `create_bucket`/`bucket_rule_undelete` and consumed by
// `finalise`. The Pulumi resources it declares are appended to `resources`.
module Azure {
  import opened Wrappers
  import opened Strings
  import opened Base

  datatype AzureError = ValueError

  // ---------------------------------------------------------------------
  // Names

  predicate IsLowerAlpha(c: char) { 'a' <= c <= 'z' }

  /** Keeps the characters of `s` that are lowercase ASCII letters, in order. */
  function KeepLowerAlpha(s: string): (r: string)
    ensures |r| <= |s|
    ensures forall i :: 0 <= i < |r| ==> IsLowerAlpha(r[i])
    ensures forall i :: 0 <= i < |r| ==> r[i] in s
  {
    if |s| == 0 then ""
    else (if IsLowerAlpha(s[0]) then [s[0]] else []) + KeepLowerAlpha(s[1..])
  }

  /** `fix_azure_alphanum_names` (azure.py:69-71): lower-case, then strip everything outside a-z. */
  function FixAzureAlphanumNames(name: string): (r: string)
    ensures |r| <= |name|
    ensures forall i :: 0 <= i < |r| ==> IsLowerAlpha(r[i])
  {
    KeepLowerAlpha(Lower(name))
  }

  lemma {:induction false} KeepLowerAlphaAppend(a: string, b: string)
    ensures KeepLowerAlpha(a + b) == KeepLowerAlpha(a) + KeepLowerAlpha(b)
    decreases |a|
  {
    if |a| == 0 {
      assert a + b == b;
    } else {
      assert (a + b)[1..] == a[1..] + b;
      KeepLowerAlphaAppend(a[1..], b);
    }
  }

  lemma LowerAppend(a: string, b: string)
    ensures Lower(a + b) == Lower(a) + Lower(b)
  {
    assert forall i :: 0 <= i < |a + b| ==> Lower(a + b)[i] == (Lower(a) + Lower(b))[i];
  }

  /** The fix works character by character: it distributes over concatenation. */
  lemma FixAzureAppend(a: string, b: string)
    ensures FixAzureAlphanumNames(a + b) == FixAzureAlphanumNames(a) + FixAzureAlphanumNames(b)
  {
    LowerAppend(a, b);
    KeepLowerAlphaAppend(Lower(a), Lower(b));
  }

  /** A single character survives as its lowercase form exactly when that is a letter. */
  lemma FixAzureChar(c: char)
    ensures FixAzureAlphanumNames([c]) == if IsLowerAlpha(LowerChar(c)) then [LowerChar(c)] else []
  {
    assert Lower([c])[1..] == [];
    assert Lower([c]) == [LowerChar(c)];
    assert [LowerChar(c)][1..] == [];
  }

  /** A name that is already lowercase letters only is left alone. */
  lemma {:induction false} FixAzureOfFixed(s: string)
    requires forall i :: 0 <= i < |s| ==> IsLowerAlpha(s[i])
    ensures FixAzureAlphanumNames(s) == s
    decreases |s|
  {
    if |s| > 0 {
      assert s == [s[0]] + s[1..];
      FixAzureAppend([s[0]], s[1..]);
      FixAzureChar(s[0]);
      FixAzureOfFixed(s[1..]);
    }
  }

  lemma FixAzureIdempotent(name: string)
    ensures FixAzureAlphanumNames(FixAzureAlphanumNames(name)) == FixAzureAlphanumNames(name)
  {
    FixAzureOfFixed(FixAzureAlphanumNames(name));
  }

  /** `_resource_group_name` (azure.py:42). */
  function ResourceGroupName(prefix: string, dataset: string): string { prefix + dataset }

  /** `_storage_account_name` (azure.py:43-45): the resource group name, fixed for Azure. */
  function StorageAccountName(prefix: string, dataset: string): (r: string)
    ensures forall i :: 0 <= i < |r| ==> IsLowerAlpha(r[i])
  {
    FixAzureAlphanumNames(ResourceGroupName(prefix, dataset))
  }

  /** The storage account name is already a valid Azure name, and is the fix of the prefix and dataset taken apart. */
  lemma StorageAccountNameStable(prefix: string, dataset: string)
    ensures FixAzureAlphanumNames(StorageAccountName(prefix, dataset)) == StorageAccountName(prefix, dataset)
    ensures StorageAccountName(prefix, dataset) == FixAzureAlphanumNames(prefix) + FixAzureAlphanumNames(dataset)
  {
    FixAzureIdempotent(ResourceGroupName(prefix, dataset));
    FixAzureAppend(prefix, dataset);
  }

  /** The `registry_name` of `create_container_registry` (azure.py:522-535). */
  function RegistryName(prefix: string, dataset: string, name: string): (r: string)
    ensures forall i :: 0 <= i < |r| ==> IsLowerAlpha(r[i])
    ensures r == StorageAccountName(prefix, dataset) + FixAzureAlphanumNames(name)
  {
    FixAzureAppend(prefix + dataset, name);
    FixAzureAlphanumNames(prefix + dataset + name)
  }

  // ---------------------------------------------------------------------
  // Role maps

  const BlobReaderRole: string := "/providers/Microsoft.Authorization/roleDefinitions/2a2b9908-6ea1-4ae2-8e65-a410df84e7d1"
  const BlobContributorRole: string := "/providers/Microsoft.Authorization/roleDefinitions/ba92f5b4-2d11-453d-a403-e96b0029c9fe"

  const RegistryPullRole: string := "/providers/Microsoft.Authorization/roleDefinitions/7f951dda-4ed3-4680-a7ca-43fe172d538d"
  const RegistryPushRole: string := "/providers/Microsoft.Authorization/roleDefinitions/8311e382-0749-4cb8-b61a-304f252e45ec"
  const RegistryDeleteRole: string := "/providers/Microsoft.Authorization/roleDefinitions/c2f4ef07-c644-48eb-af81-4b1b4947fb11"

  /** The permissions that need write access to the blobs. */
  predicate Writes(p: BucketPermission) { p == Mutate || p == Append }

  /** `bucket_membership_to_role` (azure.py:317-332): there is no list-only role, so LIST reads. */
  function BucketMembershipToRole(m: Arg<BucketPermission>): (r: Result<string, AzureError>)
    ensures r.Err? <==> m.Unknown?
    ensures m.Known? && Writes(m.value) ==> r == Ok(BlobContributorRole)
    ensures m.Known? && !Writes(m.value) ==> r == Ok(BlobReaderRole)
  {
    match m
    case Known(p) => if p == Mutate || p == Append then Ok(BlobContributorRole) else Ok(BlobReaderRole)
    case Unknown(_) => Err(ValueError)
  }

  /** Two permissions get the same role exactly when both write or both only read. */
  lemma BucketRoleClasses(p: BucketPermission, q: BucketPermission)
    ensures BucketMembershipToRole(Known(p)) == BucketMembershipToRole(Known(q)) <==> (Writes(p) <==> Writes(q))
  {
    assert BlobReaderRole[51] == '2' && BlobContributorRole[51] == 'b';
  }

  /** `_container_membership_to_roles` (azure.py:479-491): role type to role id, in dictionary order. */
  function ContainerMembershipToRoles(m: Arg<RegistryMembership>): (r: Result<seq<(string, string)>, AzureError>)
    ensures r.Err? <==> m.Unknown?
    ensures r.Ok? ==> |r.value| > 0 && r.value[0] == ("pull", RegistryPullRole)
    ensures m == Known(RegistryReader) ==> r == Ok([("pull", RegistryPullRole)])
    ensures m == Known(RegistryWriter) ==> r.Ok? && |r.value| == 3
  {
    match m
    case Known(RegistryReader) => Ok([("pull", RegistryPullRole)])
    case Known(RegistryWriter) => Ok([("pull", RegistryPullRole), ("push", RegistryPushRole), ("delete", RegistryDeleteRole)])
    case Unknown(_) => Err(ValueError)
  }

  /** Writers hold every role readers do, plus push and delete; no role type is listed twice. */
  lemma ReaderRolesInWriterRoles()
    ensures forall x :: x in ContainerMembershipToRoles(Known(RegistryReader)).value ==> x in ContainerMembershipToRoles(Known(RegistryWriter)).value
    ensures ("push", RegistryPushRole) in ContainerMembershipToRoles(Known(RegistryWriter)).value
    ensures ("push", RegistryPushRole) !in ContainerMembershipToRoles(Known(RegistryReader)).value
    ensures ("delete", RegistryDeleteRole) in ContainerMembershipToRoles(Known(RegistryWriter)).value
    ensures forall m: RegistryMembership, i, j :: 0 <= i < j < |ContainerMembershipToRoles(Known(m)).value| ==>
      ContainerMembershipToRoles(Known(m)).value[i].0 != ContainerMembershipToRoles(Known(m)).value[j].0
  {
    var w := ContainerMembershipToRoles(Known(RegistryWriter)).value;
    assert w[0].0[1] == 'u' && w[1].0[1] == 'u' && w[2].0[1] == 'e';
    assert w[0].0[2] == 'l' && w[1].0[2] == 's';
    assert RegistryPullRole[51] == '7' && RegistryPushRole[51] == '8';
  }

  // ---------------------------------------------------------------------
  // Objects the provider is handed

  /** The kinds of object `_get_object_id`/`_get_principal_type` tell apart. */
  datatype AzObject =
    | ManagedIdentity(principalId: string)    // az.managedidentity.UserAssignedIdentity
    | AdGroup(id: string)                     // azuread.Group
    | Registry(id: string)                    // az.containerregistry.Registry
    | Container(id: string)                   // az.storage.BlobContainer
    | OutputValue(value: string)              // a pulumi.Output
    | Text(s: string)
    | InternalGroup(group: AzObject)          // the driver's group wrapper, with `is_group` and `group`
    | Unrecognised(repr: string)

  function Unwrap(o: AzObject): (r: AzObject)
    ensures !r.InternalGroup?
  {
    if o.InternalGroup? then Unwrap(o.group) else o
  }

  /** `_get_object_id` (azure.py:390-414). */
  function ObjectId(o: AzObject): (r: Result<string, AzureError>)
    ensures r.Err? <==> Unwrap(o).Unrecognised?
    ensures Unwrap(o).Text? ==> r == Ok(Unwrap(o).s)
    ensures Unwrap(o).ManagedIdentity? ==> r == Ok(Unwrap(o).principalId)
  {
    match o
    case InternalGroup(g) => ObjectId(g)
    case OutputValue(v) => Ok(v)
    case Text(s) => Ok(s)
    case ManagedIdentity(p) => Ok(p)
    case AdGroup(id) => Ok(id)
    case Registry(id) => Ok(id)
    case Container(id) => Ok(id)
    case Unrecognised(_) => Err(ValueError)
  }

  const ServicePrincipal: string := "ServicePrincipal"
  const GroupPrincipal: string := "Group"

  /** `_get_principal_type` (azure.py:345-360): strings count as service principals; outputs, registries and containers are refused. */
  function PrincipalType(o: AzObject): (r: Result<string, AzureError>)
    ensures r.Ok? <==> (Unwrap(o).ManagedIdentity? || Unwrap(o).AdGroup? || Unwrap(o).Text?)
    ensures r.Ok? ==> (r.value == GroupPrincipal <==> Unwrap(o).AdGroup?)
    ensures r.Ok? ==> r.value == GroupPrincipal || r.value == ServicePrincipal
  {
    match o
    case InternalGroup(g) => PrincipalType(g)
    case ManagedIdentity(_) => Ok(ServicePrincipal)
    case AdGroup(_) => Ok(GroupPrincipal)
    case Text(_) => Ok(ServicePrincipal)
    case _ => Err(ValueError)
  }

  /** Whatever has a principal type also has an object id, so a principal is rejected on its type if at all. */
  lemma PrincipalHasObjectId(o: AzObject)
    ensures PrincipalType(o).Ok? ==> ObjectId(o).Ok?
    ensures ObjectId(o).Err? ==> PrincipalType(o).Err?
  {
  }

  // ---------------------------------------------------------------------
  // Lifecycle rules

  datatype BlobAction = TierToArchive(daysAfterModification: int) | DeleteBlob(daysAfterModification: int)

  datatype RuleFilter = RuleFilter(prefixMatch: seq<string>, blobTypes: seq<string>)

  /** An `az.storage.ManagementPolicyRuleArgs` as the `bucket_rule_*` methods build it; the filter is set by `create_bucket`. */
  datatype AzRule = AzRule(name: string, action: BlobAction, filter: Option<RuleFilter>)

  /** `bucket_rule_archive` (azure.py:236-249). */
  function BucketRuleArchive(days: int := ArchivePeriodInDays): (r: Option<AzRule>)
    ensures r.Some? && r.value.action == TierToArchive(days) && r.value.filter.None?
  {
    Some(AzRule("bucket-rule-archive", TierToArchive(days), None))
  }

  /** `bucket_rule_temporary` (azure.py:251-264). */
  function BucketRuleTemporary(days: int := TmpBucketPeriodInDays): (r: Option<AzRule>)
    ensures r.Some? && r.value.action == DeleteBlob(days) && r.value.filter.None?
  {
    Some(AzRule("bucket-rule-tmp", DeleteBlob(days), None))
  }

  /** The rules of a list that are truthy: Python's `filter(lambda x: x, ...)`, with `None` the falsy value. */
  function PresentRules(rules: seq<Option<AzRule>>): (r: seq<AzRule>)
    ensures |r| <= |rules|
    ensures forall x :: x in r <==> Some(x) in rules
  {
    if |rules| == 0 then []
    else (if rules[0].Some? then [rules[0].value] else []) + PresentRules(rules[1..])
  }

  lemma {:induction false} PresentRulesAppend(a: seq<Option<AzRule>>, b: seq<Option<AzRule>>)
    ensures PresentRules(a + b) == PresentRules(a) + PresentRules(b)
    decreases |a|
  {
    if |a| == 0 {
      assert a + b == b;
    } else {
      assert (a + b)[1..] == a[1..] + b;
      PresentRulesAppend(a[1..], b);
    }
  }

  /** The filter `create_bucket` applies: this bucket's blobs only. */
  function BucketFilter(bucket: string): RuleFilter { RuleFilter([bucket], ["blockBlob"]) }

  /** `apply_filter` in `create_bucket` (azure.py:287-290), on a copy of the rule. */
  function ApplyFilter(bucket: string, rule: AzRule): (r: AzRule)
    ensures r.action == rule.action && r.filter == Some(BucketFilter(bucket))
    ensures StartsWith(r.name, bucket + "-") && r.name[|bucket| + 1..] == rule.name
  {
    assert (bucket + "-" + rule.name)[..|bucket| + 1] == bucket + "-";
    AzRule(bucket + "-" + rule.name, rule.action, Some(BucketFilter(bucket)))
  }

  /** The rules `create_bucket` adds to the storage account for `bucket`. */
  function BucketRules(bucket: string, rules: seq<Option<AzRule>>): (r: seq<AzRule>)
    ensures |r| == |PresentRules(rules)|
    ensures forall i :: 0 <= i < |r| ==> r[i] == ApplyFilter(bucket, PresentRules(rules)[i])
  {
    var p := PresentRules(rules);
    seq(|p|, i requires 0 <= i < |p| => ApplyFilter(bucket, p[i]))
  }

  /** Every rule a bucket contributes applies to that bucket alone and carries its name. */
  lemma BucketRulesScoped(bucket: string, rules: seq<Option<AzRule>>)
    ensures forall x :: x in BucketRules(bucket, rules) ==>
      x.filter == Some(BucketFilter(bucket)) && StartsWith(x.name, bucket + "-")
    ensures forall x :: x in rules && x.Some? ==> ApplyFilter(bucket, x.value) in BucketRules(bucket, rules)
    ensures BucketRules(bucket, [None]) == []
  {
    var p := PresentRules(rules);
    forall x | x in rules && x.Some?
      ensures ApplyFilter(bucket, x.value) in BucketRules(bucket, rules)
    {
      assert x.value in p;
      var i :| 0 <= i < |p| && p[i] == x.value;
      assert BucketRules(bucket, rules)[i] == ApplyFilter(bucket, x.value);
    }
  }

  /** Rules of different buckets filter on different prefixes, so the storage-wide list keeps them apart. */
  lemma BucketRulesDisjoint(a: string, b: string, ra: seq<Option<AzRule>>, rb: seq<Option<AzRule>>)
    requires a != b
    ensures forall x, y :: x in BucketRules(a, ra) && y in BucketRules(b, rb) ==> x != y
  {
    BucketRulesScoped(a, ra);
    BucketRulesScoped(b, rb);
  }

  /** Python truthiness of the recorded undelete period: `None` and `0` are both falsy. */
  predicate UndeleteRecorded(u: Option<int>) { u.Some? && u.value != 0 }

  // ---------------------------------------------------------------------
  // Resources

  /** A role assignment's scope: an object's id, or the storage account's id. */
  datatype Scope = ObjectScope(id: string) | StorageAccountScope(accountName: string)

  datatype AzResource =
    | ResourceGroup(name: PulumiName, groupName: string)
    | StorageAccount(name: PulumiName, accountName: string, resourceGroup: string)
    | ManagementPolicy(name: PulumiName, accountName: string, rules: seq<AzRule>)
    | BlobServiceProperties(name: PulumiName, accountName: string, retentionDays: int)
    | BlobContainer(name: PulumiName, accountName: string, resourceGroup: string, containerName: string, metadata: seq<(string, string)>)
    | ContainerRegistry(name: PulumiName, registryName: string, resourceGroup: string)
    | RoleAssignment(name: PulumiName, scope: Scope, principalId: string, principalType: string, role: string)
    | GroupMember(name: PulumiName, groupObjectId: string, memberObjectId: string)

  /**
   * What the first use of the cached `storage_account` property creates: the
   * resource group first if it is not there yet (its name is an argument),
   * then the account. Nothing once the account exists.
   */
  function StorageAccountCreations(prefix: string, dataset: string, groupMade: bool, accountMade: bool): (r: seq<AzResource>)
    ensures accountMade ==> r == []
    ensures !accountMade ==> |r| > 0 && r[|r| - 1] == StorageAccount(Prefixed(StorageAccountName(prefix, dataset)), StorageAccountName(prefix, dataset), ResourceGroupName(prefix, dataset))
    ensures !accountMade ==> (|r| == 2 <==> !groupMade) && (!groupMade ==> r[0].ResourceGroup?)
  {
    if accountMade then []
    else ResourceGroupCreations(prefix, dataset, groupMade) + [StorageAccount(Prefixed(StorageAccountName(prefix, dataset)), StorageAccountName(prefix, dataset), ResourceGroupName(prefix, dataset))]
  }

  /** What the first use of the cached `resource_group` property creates. */
  function ResourceGroupCreations(prefix: string, dataset: string, groupMade: bool): (r: seq<AzResource>)
    ensures groupMade <==> r == []
    ensures !groupMade ==> r == [ResourceGroup(Prefixed(ResourceGroupName(prefix, dataset)), ResourceGroupName(prefix, dataset))]
  {
    if groupMade then [] else [ResourceGroup(Prefixed(ResourceGroupName(prefix, dataset)), ResourceGroupName(prefix, dataset))]
  }

  /** `_create_management_policy` (azure.py:101-114): one policy holding every rule, or none at all. */
  function PolicyCreations(account: string, rules: seq<AzRule>): (r: seq<AzResource>)
    ensures |r| <= 1
    ensures r == [] <==> rules == []
    ensures r != [] ==> r[0].ManagementPolicy? && r[0].rules == rules && r[0].accountName == account
  {
    if |rules| == 0 then [] else [ManagementPolicy(Prefixed(account + "-management-policy"), account, rules)]
  }

  /** The `if self.storage_account_undelete_rule: self._undelete(...)` step of `finalise` (azure.py:59-60, 192-203). */
  function UndeleteCreations(account: string, u: Option<int>): (r: seq<AzResource>)
    ensures |r| <= 1
    ensures r == [] <==> !UndeleteRecorded(u)
    ensures r != [] ==> r[0].BlobServiceProperties? && r[0].retentionDays == u.value && r[0].accountName == account
  {
    if UndeleteRecorded(u) then [BlobServiceProperties(Prefixed(account + "-" + IntToString(u.value) + "day-undelete-rule"), account, u.value)] else []
  }

  /** `project or self.resource_group.name`: an empty project name is falsy too. */
  function ContainerGroup(project: Option<string>, groupName: string): (r: string)
    ensures project.Some? && project.value != "" ==> r == project.value
    ensures project.None? || project.value == "" ==> r == groupName
  {
    if project.Some? && project.value != "" then project.value else groupName
  }

  /** The role assignment `add_member_to_bucket` declares (azure.py:334-343), or the error an argument raises. */
  function BucketAssignment(key: string, bucket: AzObject, member: AzObject, m: Arg<BucketPermission>): (r: Result<AzResource, AzureError>)
    ensures r.Ok? <==> ObjectId(bucket).Ok? && PrincipalType(member).Ok? && m.Known?
    ensures r.Ok? ==> r.value == RoleAssignment(Prefixed(key), ObjectScope(ObjectId(bucket).value), ObjectId(member).value,
                                                PrincipalType(member).value, BucketMembershipToRole(m).value)
  {
    PrincipalHasObjectId(member);
    match ObjectId(bucket)
    case Err(e) => Err(e)
    case Ok(scope) => (
      match ObjectId(member)
      case Err(e) => Err(e)
      case Ok(id) => (
        match PrincipalType(member)
        case Err(e) => Err(e)
        case Ok(t) => (
          match BucketMembershipToRole(m)
          case Err(e) => Err(e)
          case Ok(role) => Ok(RoleAssignment(Prefixed(key), ObjectScope(scope), id, t, role)))))
  }

  /** The role assignments `add_member_to_container_registry` declares (azure.py:493-509): one per role type. */
  function RegistryAssignments(key: string, registry: AzObject, member: AzObject, m: Arg<RegistryMembership>): (r: Result<seq<AzResource>, AzureError>)
    ensures r.Ok? <==> m.Known? && PrincipalType(member).Ok? && ObjectId(registry).Ok?
    ensures r.Ok? ==> |r.value| == |ContainerMembershipToRoles(m).value|
    ensures r.Ok? ==> forall i :: 0 <= i < |r.value| ==>
      r.value[i] == RoleAssignment(Prefixed(key + "-" + ContainerMembershipToRoles(m).value[i].0), ObjectScope(ObjectId(registry).value),
                                   ObjectId(member).value, PrincipalType(member).value, ContainerMembershipToRoles(m).value[i].1)
  {
    PrincipalHasObjectId(member);
    match ContainerMembershipToRoles(m)
    case Err(e) => Err(e)
    case Ok(roles) =>
      if ObjectId(member).Err? || PrincipalType(member).Err? || ObjectId(registry).Err? then Err(ValueError)
      else Ok(seq(|roles|, i requires 0 <= i < |roles| =>
        RoleAssignment(Prefixed(key + "-" + roles[i].0), ObjectScope(ObjectId(registry).value), ObjectId(member).value, PrincipalType(member).value, roles[i].1)))
  }

  /** A writer gets the reader's pull assignment under the same key, and two more. */
  lemma RegistryWriterExtendsReader(key: string, registry: AzObject, member: AzObject)
    requires RegistryAssignments(key, registry, member, Known(RegistryReader)).Ok?
    ensures RegistryAssignments(key, registry, member, Known(RegistryWriter)).Ok?
    ensures RegistryAssignments(key, registry, member, Known(RegistryReader)).value ==
            RegistryAssignments(key, registry, member, Known(RegistryWriter)).value[..1]
    ensures |RegistryAssignments(key, registry, member, Known(RegistryWriter)).value| == 3
  {
    var r := RegistryAssignments(key, registry, member, Known(RegistryReader)).value;
    var w := RegistryAssignments(key, registry, member, Known(RegistryWriter)).value;
    assert |r| == 1 && r[0] == w[0];
  }

  /** The managed-by-Azure AD group membership `add_group_member` declares (azure.py:416-425). */
  function GroupMembership(key: string, group: AzObject, member: AzObject, uniqueKey: bool): (r: Result<AzResource, AzureError>)
    ensures r.Ok? <==> ObjectId(group).Ok? && ObjectId(member).Ok?
    ensures r.Ok? ==> r.value.GroupMember? && r.value.name == (if uniqueKey then Unique(key) else Prefixed(key))
    ensures r.Ok? ==> r.value.groupObjectId == ObjectId(group).value && r.value.memberObjectId == ObjectId(member).value
  {
    if ObjectId(group).Err? || ObjectId(member).Err? then Err(ValueError)
    else Ok(GroupMember(if uniqueKey then Unique(key) else Prefixed(key), ObjectId(group).value, ObjectId(member).value))
  }

  /** Unlike the GCP provider, nothing switches Azure group memberships off: a valid group and member always give one. */
  lemma GroupMembershipAlwaysMade(key: string, group: AzObject, member: AzObject, uniqueKey: bool)
    requires !Unwrap(group).Unrecognised? && !Unwrap(member).Unrecognised?
    ensures GroupMembership(key, group, member, uniqueKey).Ok?
  {
  }

  /**
   * `AzureInfra`, with the cached `resource_group` and `storage_account`
   * properties as two flags, and the storage-account-wide lifecycle rules and
   * undelete period as the fields `create_bucket`, `bucket_rule_undelete`
   * and `finalise` share.
   */
  class AzureInfra {
    const prefix: string
    const dataset: string
    var lifecycleRules: seq<AzRule>
    var undeleteRule: Option<int>
    var groupMade: bool
    var accountMade: bool
    var resources: seq<AzResource>

    predicate Valid()
      reads this
    {
      accountMade ==> groupMade
    }

    /** `__init__` (azure.py:34-51): no rules, no undelete period, nothing created yet. */
    constructor (prefix: string, dataset: string)
      ensures this.prefix == prefix && this.dataset == dataset
      ensures lifecycleRules == [] && undeleteRule == None
      ensures !groupMade && !accountMade && resources == []
      ensures Valid()
    {
      this.prefix := prefix;
      this.dataset := dataset;
      lifecycleRules := [];
      undeleteRule := None;
      groupMade := false;
      accountMade := false;
      resources := [];
    }

    function AccountName(): string
    {
      StorageAccountName(prefix, dataset)
    }

    /** `resource_group` (azure.py:76-82): made on first use, then reused. */
    method UseResourceGroup() returns (name: string)
      requires Valid()
      modifies this
      ensures Valid() && groupMade && accountMade == old(accountMade)
      ensures resources == old(resources) + ResourceGroupCreations(prefix, dataset, old(groupMade))
      ensures lifecycleRules == old(lifecycleRules) && undeleteRule == old(undeleteRule)
      ensures name == ResourceGroupName(prefix, dataset)
    {
      if !groupMade {
        resources := resources + [ResourceGroup(Prefixed(ResourceGroupName(prefix, dataset)), ResourceGroupName(prefix, dataset))];
        groupMade := true;
      }
      name := ResourceGroupName(prefix, dataset);
    }

    /** `storage_account` (azure.py:84-93): made on first use, after the resource group it names. */
    method UseStorageAccount() returns (name: string)
      requires Valid()
      modifies this
      ensures Valid() && groupMade && accountMade
      ensures resources == old(resources) + StorageAccountCreations(prefix, dataset, old(groupMade), old(accountMade))
      ensures lifecycleRules == old(lifecycleRules) && undeleteRule == old(undeleteRule)
      ensures name == AccountName()
    {
      if !accountMade {
        var group := UseResourceGroup();
        resources := resources + [StorageAccount(Prefixed(AccountName()), AccountName(), group)];
        accountMade := true;
      }
      name := AccountName();
    }

    /** `bucket_rule_undelete` (azure.py:225-234): records the period and returns `None`; a later call replaces it. */
    method BucketRuleUndelete(days: int := UndeletePeriodInDays) returns (r: Option<AzRule>)
      modifies this
      ensures undeleteRule == Some(days) && r == None
      ensures lifecycleRules == old(lifecycleRules) && resources == old(resources)
      ensures groupMade == old(groupMade) && accountMade == old(accountMade)
    {
      undeleteRule := Some(days);
      r := None;
    }

    /**
     * `create_bucket` (azure.py:266-316): the truthy rules, filtered to this
     * bucket and renamed after it, join the account-wide list; the blob
     * container is declared in the storage account. Uniqueness, versioning,
     * requester-pays and autoclass change nothing on Azure.
     */
    method CreateBucket(name: string, rules: seq<Option<AzRule>>, unique: bool := false, requesterPays: bool := false,
                        versioning: bool := true, autoclass: bool := false, project: Option<string> := None)
      returns (bucket: AzResource)
      requires Valid()
      modifies this
      ensures Valid() && groupMade && accountMade
      ensures lifecycleRules == old(lifecycleRules) + BucketRules(name, rules) && undeleteRule == old(undeleteRule)
      ensures bucket == BlobContainer(Prefixed(name + "-blob-container"), AccountName(), ContainerGroup(project, ResourceGroupName(prefix, dataset)), name, [("bucket", name)])
      ensures resources == old(resources) + StorageAccountCreations(prefix, dataset, old(groupMade), old(accountMade)) + [bucket]
    {
      lifecycleRules := lifecycleRules + BucketRules(name, rules);
      var account := UseStorageAccount();
      var group: string;
      if project.Some? && project.value != "" {
        group := project.value;
      } else {
        group := UseResourceGroup();
      }
      bucket := BlobContainer(Prefixed(name + "-blob-container"), account, group, name, [("bucket", name)]);
      resources := resources + [bucket];
    }

    /** `create_container_registry` (azure.py:522-535). */
    method CreateContainerRegistry(name: string) returns (registry: AzResource)
      requires Valid()
      modifies this
      ensures Valid() && groupMade && accountMade == old(accountMade)
      ensures lifecycleRules == old(lifecycleRules) && undeleteRule == old(undeleteRule)
      ensures registry == ContainerRegistry(Prefixed("container-registry-" + name), RegistryName(prefix, dataset, name), ResourceGroupName(prefix, dataset))
      ensures resources == old(resources) + ResourceGroupCreations(prefix, dataset, old(groupMade)) + [registry]
    {
      var group := UseResourceGroup();
      registry := ContainerRegistry(Prefixed("container-registry-" + name), RegistryName(prefix, dataset, name), group);
      resources := resources + [registry];
    }

    /** `add_member_to_bucket` (azure.py:334-343): nothing is declared when an argument is refused. */
    method AddMemberToBucket(key: string, bucket: AzObject, member: AzObject, m: Arg<BucketPermission>) returns (err: Option<AzureError>)
      modifies this
      ensures var a := BucketAssignment(key, bucket, member, m);
        (err.None? <==> a.Ok?) && resources == old(resources) + (if a.Ok? then [a.value] else [])
      ensures lifecycleRules == old(lifecycleRules) && undeleteRule == old(undeleteRule)
      ensures groupMade == old(groupMade) && accountMade == old(accountMade)
    {
      var a := BucketAssignment(key, bucket, member, m);
      if a.Ok? {
        resources := resources + [a.value];
        err := None;
      } else {
        err := Some(a.error);
      }
    }

    /** `add_group_member` (azure.py:416-425). */
    method AddGroupMember(key: string, group: AzObject, member: AzObject, uniqueKey: bool := false) returns (err: Option<AzureError>)
      modifies this
      ensures var g := GroupMembership(key, group, member, uniqueKey);
        (err.None? <==> g.Ok?) && resources == old(resources) + (if g.Ok? then [g.value] else [])
      ensures lifecycleRules == old(lifecycleRules) && undeleteRule == old(undeleteRule)
      ensures groupMade == old(groupMade) && accountMade == old(accountMade)
    {
      var g := GroupMembership(key, group, member, uniqueKey);
      if g.Ok? {
        resources := resources + [g.value];
        err := None;
      } else {
        err := Some(g.error);
      }
    }

    /**
     * `add_member_to_container_registry` (azure.py:493-509): one assignment per
     * role type, keyed `key-<type>`. The member and registry are inspected on
     * every pass, so a refused one stops the loop on its first pass.
     */
    method AddMemberToContainerRegistry(key: string, registry: AzObject, member: AzObject, m: Arg<RegistryMembership>)
      returns (err: Option<AzureError>, declared: seq<AzResource>)
      modifies this
      ensures var a := RegistryAssignments(key, registry, member, m);
        (err.None? <==> a.Ok?) && (a.Ok? ==> declared == a.value) && (a.Err? ==> declared == [])
      ensures resources == old(resources) + declared
      ensures lifecycleRules == old(lifecycleRules) && undeleteRule == old(undeleteRule)
      ensures groupMade == old(groupMade) && accountMade == old(accountMade)
    {
      var roles := ContainerMembershipToRoles(m);
      declared := [];
      if roles.Err? {
        return Some(roles.error), [];
      }
      PrincipalHasObjectId(member);
      ghost var spec := RegistryAssignments(key, registry, member, m);
      var i := 0;
      while i < |roles.value|
        invariant 0 <= i <= |roles.value|
        invariant i > 0 ==> spec.Ok? && declared == spec.value[..i]
        invariant i == 0 ==> declared == []
        invariant resources == old(resources) + declared
        invariant lifecycleRules == old(lifecycleRules) && undeleteRule == old(undeleteRule)
        invariant groupMade == old(groupMade) && accountMade == old(accountMade)
      {
        var (roleType, role) := roles.value[i];
        var id := ObjectId(member);
        var principal := PrincipalType(member);
        var scope := ObjectId(registry);
        if id.Err? || principal.Err? || scope.Err? {
          return Some(ValueError), [];
        }
        var a := RoleAssignment(Prefixed(key + "-" + roleType), ObjectScope(scope.value), id.value, principal.value, role);
        assert a == spec.value[i];
        declared := declared + [a];
        resources := resources + [a];
        i := i + 1;
      }
      assert declared == spec.value;
      err := None;
    }

    /**
     * `give_member_ability_to_list_buckets` (azure.py:511-520): a
     * reader role on the whole storage account. The account is created
     * before the member is inspected, so it exists even when the member is
     * refused.
     */
    method GiveMemberAbilityToListBuckets(key: string, member: AzObject) returns (err: Option<AzureError>)
      requires Valid()
      modifies this
      ensures Valid() && groupMade && accountMade
      ensures err.None? <==> PrincipalType(member).Ok?
      ensures resources == old(resources) + StorageAccountCreations(prefix, dataset, old(groupMade), old(accountMade)) +
        (if err.None? then [RoleAssignment(Prefixed(key), StorageAccountScope(AccountName()), ObjectId(member).value, PrincipalType(member).value, BlobReaderRole)] else [])
      ensures lifecycleRules == old(lifecycleRules) && undeleteRule == old(undeleteRule)
    {
      var account := UseStorageAccount();
      PrincipalHasObjectId(member);
      var id := ObjectId(member);
      var principal := PrincipalType(member);
      if id.Err? || principal.Err? {
        return Some(ValueError);
      }
      var role := BucketMembershipToRole(Known(List));
      resources := resources + [RoleAssignment(Prefixed(key), StorageAccountScope(account), id.value, principal.value, role.value)];
      err := None;
    }

    /**
     * `finalise` (azure.py:53-60): forces the storage account, declares the
     * one management policy if any rule was recorded, then the undelete
     * retention if a truthy period was recorded.
     */
    method Finalise()
      requires Valid()
      modifies this
      ensures Valid() && groupMade && accountMade
      ensures resources == old(resources) + StorageAccountCreations(prefix, dataset, old(groupMade), old(accountMade)) +
        PolicyCreations(AccountName(), lifecycleRules) + UndeleteCreations(AccountName(), undeleteRule)
      ensures lifecycleRules == old(lifecycleRules) && undeleteRule == old(undeleteRule)
    {
      var account := UseStorageAccount();
      if |lifecycleRules| > 0 {
        resources := resources + [ManagementPolicy(Prefixed(account + "-management-policy"), account, lifecycleRules)];
      }
      if undeleteRule.Some? && undeleteRule.value != 0 {
        var days := undeleteRule.value;
        resources := resources + [BlobServiceProperties(Prefixed(account + "-" + IntToString(days) + "day-undelete-rule"), account, days)];
      }
    }
  }
}
