// The decision logic of the GCP provider (cpg_infra/abstraction/gcp.py):
// how members, groups and secrets are turned into IAM identifiers, which
// role each permission becomes, how buckets are named, and the resources
// the provider's grant methods declare. Pulumi resources are recorded as
// values in `GcpInfra.resources`; `pulumi.Output` values are not modelled.
module Gcp {
  import opened Wrappers
  import opened Strings
  import opened Base
  import opened Infra

  const ServiceAccountSuffix: string := ".iam.gserviceaccount.com"
  const ServiceAccountPrefix: string := "serviceAccount:"
  const GroupPrefix: string := "group:"

  /** The exceptions the provider raises. */
  datatype GcpError = ValueError | NotImplementedError

  /** The objects the provider is handed as members, groups or buckets. */
  datatype Member =
    | Account(email: string)                      // gcp.serviceaccount.Account
    | IdentityGroup(id: string, groupKeyId: string) // gcp.cloudidentity.Group
    | StorageBucket(name: string)                 // gcp.storage.Bucket
    | Text(s: string)                             // a plain str
    | Wrapped(group: Member)                      // the driver's group wrapper (has `is_group` and `group`)
    | Unsupported                                 // any other type

  /** The member with the driver's wrappers removed. */
  function Unwrap(m: Member): Member
  {
    if m.Wrapped? then Unwrap(m.group) else m
  }

  /** `get_member_key` (gcp.py:39-65): the IAM member string of `m`. */
  function MemberKey(m: Member): (r: Result<string, GcpError>)
    ensures r.Err? <==> Unwrap(m).Unsupported?
    ensures r.Err? ==> r.error == NotImplementedError
    ensures Unwrap(m).Account? ==> r == Ok(ServiceAccountPrefix + Unwrap(m).email)
    ensures Unwrap(m).IdentityGroup? ==> r == Ok(GroupPrefix + Unwrap(m).groupKeyId)
    ensures Unwrap(m).StorageBucket? ==> r == Ok(Unwrap(m).name)
    ensures Unwrap(m).Text? && EndsWith(Unwrap(m).s, ServiceAccountSuffix) && !StartsWith(Unwrap(m).s, ServiceAccountPrefix) ==>
              r == Ok(ServiceAccountPrefix + Unwrap(m).s)
    ensures Unwrap(m).Text? && !(EndsWith(Unwrap(m).s, ServiceAccountSuffix) && !StartsWith(Unwrap(m).s, ServiceAccountPrefix)) ==>
              r == Ok(Unwrap(m).s)
    ensures Unwrap(m).Text? && EndsWith(Unwrap(m).s, ServiceAccountSuffix) ==> StartsWith(r.value, ServiceAccountPrefix)
  {
    match m
    case Wrapped(g) => MemberKey(g)
    case Account(e) => Ok(ServiceAccountPrefix + e)
    case IdentityGroup(_, k) => Ok(GroupPrefix + k)
    case StorageBucket(n) => Ok(n)
    case Text(s) =>
      if EndsWith(s, ServiceAccountSuffix) && !StartsWith(s, ServiceAccountPrefix) then Ok(ServiceAccountPrefix + s)
      else Ok(s)
    case Unsupported => Err(NotImplementedError)
  }

  /** Normalising a string member twice gives what normalising it once gave. */
  lemma MemberKeyIdempotent(s: string)
    ensures MemberKey(Text(MemberKey(Text(s)).value)) == MemberKey(Text(s))
  {
    var k := MemberKey(Text(s)).value;
    if k != s {
      assert k[..|ServiceAccountPrefix|] == ServiceAccountPrefix;
    }
  }

  /** An account and its e-mail address as a string name the same IAM member. */
  lemma AccountAsText(email: string)
    requires EndsWith(email, ServiceAccountSuffix) && !StartsWith(email, ServiceAccountPrefix)
    ensures MemberKey(Account(email)) == MemberKey(Text(email))
  {
  }

  /** `get_preferred_group_membership_key` (gcp.py:68-86): the key a group membership names its member by. */
  function PreferredGroupMembershipKey(m: Member): (r: Result<string, GcpError>)
    ensures r.Err? <==> Unwrap(m).StorageBucket? || Unwrap(m).Unsupported?
    ensures r.Err? ==> r.error == NotImplementedError
    ensures Unwrap(m).IdentityGroup? ==> r == Ok(Unwrap(m).groupKeyId)
    ensures Unwrap(m).Account? ==> r == Ok(Unwrap(m).email)
    ensures Unwrap(m).Text? ==> r == Ok(Unwrap(m).s)
  {
    match m
    case Wrapped(g) => PreferredGroupMembershipKey(g)
    case IdentityGroup(_, k) => Ok(k)
    case Account(e) => Ok(e)
    case Text(s) => Ok(s)
    case StorageBucket(_) => Err(NotImplementedError)
    case Unsupported => Err(NotImplementedError)
  }

  /**
   * `get_group_key` (gcp.py:415-435). An account or a bucket is refused with
   * a ValueError; a wrapped group or another object is not handled.
   */
  function GroupKey(g: Member, groupsDomain: string): (r: Result<string, GcpError>)
    ensures g.Account? || g.StorageBucket? ==> r == Err(ValueError)
    ensures g.Wrapped? || g.Unsupported? ==> r == Err(NotImplementedError)
    ensures g.IdentityGroup? ==> r == Ok(g.id)
    ensures g.Text? && EndsWith(g.s, "@" + groupsDomain) && !StartsWith(g.s, GroupPrefix) ==> r == Ok(GroupPrefix + g.s)
    ensures g.Text? && !(EndsWith(g.s, "@" + groupsDomain) && !StartsWith(g.s, GroupPrefix)) ==> r == Ok(g.s)
    ensures g.Text? && EndsWith(g.s, "@" + groupsDomain) ==> StartsWith(r.value, GroupPrefix)
  {
    match g
    case Account(_) => Err(ValueError)
    case StorageBucket(_) => Err(ValueError)
    case IdentityGroup(id, _) => Ok(id)
    case Text(s) =>
      if EndsWith(s, "@" + groupsDomain) && !StartsWith(s, GroupPrefix) then Ok(GroupPrefix + s) else Ok(s)
    case Wrapped(_) => Err(NotImplementedError)
    case Unsupported => Err(NotImplementedError)
  }

  /** A string group key is normalised once and for all. */
  lemma GroupKeyIdempotent(s: string, groupsDomain: string)
    ensures GroupKey(Text(GroupKey(Text(s), groupsDomain).value), groupsDomain) == GroupKey(Text(s), groupsDomain)
  {
    var k := GroupKey(Text(s), groupsDomain).value;
    if k != s {
      assert k[..|GroupPrefix|] == GroupPrefix;
    }
  }

  datatype BucketMembershipRole = BucketMembershipRole(role: string, resourceKey: string)

  /** The custom role of each permission, after the common "Storage" part of its name. */
  function BucketRoleName(p: BucketPermission): string
  {
    match p
    case Mutate => "ObjectAndBucketMutator"
    case Append => "ViewerAndCreator"
    case Read => "ObjectAndBucketViewer"
    case List => "Lister"
  }

  function BucketRole(p: BucketPermission, orgId: string): string
  {
    orgId + "/roles/Storage" + BucketRoleName(p)
  }

  /**
   * `bucket_membership_to_role_list` (gcp.py:450-486): exactly one custom
   * organisation role per permission; the administrator grant carries its own
   * resource key so that it can be replaced without deleting the others.
   */
  function BucketMembershipToRoleList(m: Arg<BucketPermission>, resourceKey: string, orgId: string): (r: Result<seq<BucketMembershipRole>, GcpError>)
    ensures r.Ok? <==> m.Known?
    ensures r.Err? ==> r.error == ValueError
    ensures r.Ok? ==> |r.value| == 1 && StartsWith(r.value[0].role, orgId + "/roles/Storage")
    ensures r.Ok? ==> r.value[0].resourceKey == (if m.value == Mutate then resourceKey + "-no-bucket-deletion" else resourceKey)
  {
    match m
    case Known(p) =>
      var pre := orgId + "/roles/Storage";
      assert (pre + BucketRoleName(p))[..|pre|] == pre;
      Ok([BucketMembershipRole(BucketRole(p, orgId), if p == Mutate then resourceKey + "-no-bucket-deletion" else resourceKey)])
    case Unknown(_) => Err(ValueError)
  }

  /** The permission is recoverable from the role it is granted as. */
  function BucketPermissionOfRole(role: string, orgId: string): (r: Option<BucketPermission>)
  {
    if role == BucketRole(Mutate, orgId) then Some(Mutate)
    else if role == BucketRole(Append, orgId) then Some(Append)
    else if role == BucketRole(Read, orgId) then Some(Read)
    else if role == BucketRole(List, orgId) then Some(List)
    else None
  }

  /** Different permissions become different roles: the role names the permission it grants. */
  lemma BucketRolesRoundTrip(p: BucketPermission, rk: string, orgId: string)
    ensures BucketPermissionOfRole(BucketMembershipToRoleList(Known(p), rk, orgId).value[0].role, orgId) == Some(p)
  {
    // the four role names have different lengths
    assert |BucketRole(Mutate, orgId)| != |BucketRole(Append, orgId)| && |BucketRole(Mutate, orgId)| != |BucketRole(Read, orgId)|;
    assert |BucketRole(Mutate, orgId)| != |BucketRole(List, orgId)| && |BucketRole(Append, orgId)| != |BucketRole(Read, orgId)|;
    assert |BucketRole(Append, orgId)| != |BucketRole(List, orgId)| && |BucketRole(Read, orgId)| != |BucketRole(List, orgId)|;
  }

  datatype MachineAccountRole = AccountAccess | AccountAdmin | CredentialsAdmin

  /** The role `add_member_to_machine_account_role` grants (gcp.py:560-567). */
  function MachineAccountRoleName(role: Arg<MachineAccountRole>): (r: Result<string, GcpError>)
    ensures r.Ok? <==> role.Known?
    ensures r.Err? ==> r.error == ValueError
    ensures r.Ok? ==> StartsWith(r.value, "roles/iam.serviceAccount")
  {
    match role
    case Known(AccountAccess) => Ok("roles/iam.serviceAccountUser")
    case Known(AccountAdmin) => Ok("roles/iam.serviceAccountAdmin")
    case Known(CredentialsAdmin) => Ok("roles/iam.serviceAccountKeyAdmin")
    case Unknown(_) => Err(ValueError)
  }

  function MachineAccountRoleOf(name: string): Option<MachineAccountRole>
  {
    if name == "roles/iam.serviceAccountUser" then Some(AccountAccess)
    else if name == "roles/iam.serviceAccountAdmin" then Some(AccountAdmin)
    else if name == "roles/iam.serviceAccountKeyAdmin" then Some(CredentialsAdmin)
    else None
  }

  /** The machine-account role map is one-to-one: each role name identifies its role. */
  lemma MachineAccountRolesRoundTrip(role: MachineAccountRole, name: string)
    ensures MachineAccountRoleOf(MachineAccountRoleName(Known(role)).value) == Some(role)
    ensures MachineAccountRoleOf(name) == Some(role) ==> MachineAccountRoleName(Known(role)) == Ok(name)
  {
    var u, a, k := "roles/iam.serviceAccountUser", "roles/iam.serviceAccountAdmin", "roles/iam.serviceAccountKeyAdmin";
    assert u[24] != a[24] && u[24] != k[24] && a[24] != k[24];
  }

  /** The role `add_secret_member` grants (gcp.py:668-673). */
  function SecretRoleName(m: Arg<SecretMembership>): (r: Result<string, GcpError>)
    ensures r.Ok? <==> m.Known?
    ensures r.Err? ==> r.error == ValueError
    ensures r.Ok? ==> StartsWith(r.value, "roles/secretmanager.secret")
  {
    match m
    case Known(Admin) => Ok("roles/secretmanager.secretVersionManager")
    case Known(Accessor) => Ok("roles/secretmanager.secretAccessor")
    case Unknown(_) => Err(ValueError)
  }

  function SecretMembershipOf(name: string): Option<SecretMembership>
  {
    if name == "roles/secretmanager.secretVersionManager" then Some(Admin)
    else if name == "roles/secretmanager.secretAccessor" then Some(Accessor)
    else None
  }

  /** Administrators and accessors get different roles, and each role names its membership. */
  lemma SecretRolesRoundTrip(m: SecretMembership, name: string)
    ensures SecretMembershipOf(SecretRoleName(Known(m)).value) == Some(m)
    ensures SecretMembershipOf(name) == Some(m) ==> SecretRoleName(Known(m)) == Ok(name)
  {
    var v, a := "roles/secretmanager.secretVersionManager", "roles/secretmanager.secretAccessor";
    assert v[26] != a[26];
  }

  /** The role `add_member_to_container_registry` grants (gcp.py:730-735). */
  function RegistryRoleName(m: Arg<RegistryMembership>): (r: Result<string, GcpError>)
    ensures r.Ok? <==> m.Known?
    ensures r.Err? ==> r.error == ValueError
    ensures r.Ok? ==> StartsWith(r.value, "roles/artifactregistry.")
  {
    match m
    case Known(RegistryReader) => Ok("roles/artifactregistry.reader")
    case Known(RegistryWriter) => Ok("roles/artifactregistry.writer")
    case Unknown(_) => Err(ValueError)
  }

  function RegistryMembershipOf(name: string): Option<RegistryMembership>
  {
    if name == "roles/artifactregistry.reader" then Some(RegistryReader)
    else if name == "roles/artifactregistry.writer" then Some(RegistryWriter)
    else None
  }

  lemma RegistryRolesRoundTrip(m: RegistryMembership, name: string)
    ensures RegistryMembershipOf(RegistryRoleName(Known(m)).value) == Some(m)
    ensures RegistryMembershipOf(name) == Some(m) ==> RegistryRoleName(Known(m)) == Ok(name)
  {
    var r, w := "roles/artifactregistry.reader", "roles/artifactregistry.writer";
    assert r[23] != w[23];
  }

  /** `project or self.project_id`: an absent or empty project falls back to the provider's. */
  function ProjectOr(project: Option<string>, default: string): string
  {
    if project.Some? && project.value != "" then project.value else default
  }

  /** The secret as `add_secret_member` receives it. */
  datatype SecretArg = SecretResource(id: string) | SecretName(name: string) | UnexpectedSecret

  /**
   * The secret id `add_secret_member` grants on (gcp.py:675-689): a resource's
   * id; a string with exactly three '/' as it is; any other string expanded
   * to `projects/{project}/secrets/{name}`.
   */
  function SecretId(secret: SecretArg, project: Option<string>, projectId: string): (r: Result<string, GcpError>)
    ensures r.Err? <==> secret.UnexpectedSecret?
    ensures r.Err? ==> r.error == ValueError
    ensures secret.SecretName? && CountChar(secret.name, '/') == 3 ==> r.value == secret.name
    ensures secret.SecretResource? ==> r == Ok(secret.id)
    ensures secret.SecretName? && CountChar(secret.name, '/') != 3 ==>
      r == Ok("projects/" + ProjectOr(project, projectId) + "/secrets/" + secret.name)
    ensures secret.SecretName? && CountChar(secret.name, '/') != 3 ==>
      StartsWith(r.value, "projects/" + ProjectOr(project, projectId) + "/secrets/") && EndsWith(r.value, secret.name)
  {
    match secret
    case SecretResource(id) => Ok(id)
    case SecretName(n) =>
      if CountChar(n, '/') == 3 then Ok(n)
      else
        var pre := "projects/" + ProjectOr(project, projectId) + "/secrets/";
        assert (pre + n)[..|pre|] == pre && (pre + n)[|pre|..] == n;
        Ok(pre + n)
    case UnexpectedSecret => Err(ValueError)
  }

  /**
   * An expanded id is a full path: when neither the project nor the secret
   * name has a '/', expanding the result again leaves it unchanged.
   */
  lemma SecretIdExpandsOnce(name: string, project: Option<string>, projectId: string)
    requires CountChar(name, '/') == 0 && CountChar(ProjectOr(project, projectId), '/') == 0
    ensures var id := SecretId(SecretName(name), project, projectId).value;
      CountChar(id, '/') == 3 && SecretId(SecretName(id), project, projectId) == Ok(id)
  {
    var p := ProjectOr(project, projectId);
    var id := "projects/" + p + "/secrets/" + name;
    assert SecretId(SecretName(name), project, projectId).value == id;
    SecretPathSlashes(p, name);
  }

  /** A secret path built from a project and a name without '/' has exactly three. */
  lemma SecretPathSlashes(p: string, name: string)
    requires CountChar(name, '/') == 0 && CountChar(p, '/') == 0
    ensures CountChar("projects/" + p + "/secrets/" + name, '/') == 3
  {
    CountCharAppend("projects/" + p + "/secrets/", name, '/');
    CountCharAppend("projects/" + p, "/secrets/", '/');
    CountCharAppend("projects/", p, '/');
    assert CountChar("projects/", '/') == 1 by {
      var t := "projects/";
      assert t[1..][1..][1..][1..][1..][1..][1..][1..] == "/";
    }
    assert CountChar("/secrets/", '/') == 2 by {
      var t := "/secrets/";
      assert t[1..] == "secrets/" && t[1..][1..][1..][1..][1..][1..][1..][1..] == "/";
    }
  }

  /** `add_member_to_dataproc_api` (gcp.py:759-761): the short roles become dataproc roles. */
  function DataprocRoleName(role: string): (r: string)
    ensures role in {"worker", "admin"} ==> r == "roles/dataproc." + role
    ensures role !in {"worker", "admin"} ==> r == role
  {
    if role == "worker" || role == "admin" then "roles/dataproc." + role else role
  }

  /** Qualifying a role twice changes nothing more. */
  lemma DataprocRoleIdempotent(role: string)
    ensures DataprocRoleName(DataprocRoleName(role)) == DataprocRoleName(role)
  {
    var r := DataprocRoleName(role);
    if role in {"worker", "admin"} {
      assert |r| > 6;
    }
  }

  /** `create_bucket`'s name (gcp.py:388-392): prefixed by the storage prefix and dataset unless `unique`. */
  function GcpBucketName(storagePrefix: string, dataset: string, name: string, unique: bool): (r: string)
    ensures unique ==> r == name
    ensures !unique ==> r == storagePrefix + dataset + "-" + name
    ensures !unique ==> StartsWith(r, storagePrefix + dataset + "-") && EndsWith(r, "-" + name)
  {
    if unique then name
    else
      var r := storagePrefix + dataset + "-" + name;
      assert r == (storagePrefix + dataset + "-") + name && r == (storagePrefix + dataset) + ("-" + name);
      r
  }

  /** Distinct names give distinct bucket names, prefixed or not. */
  lemma GcpBucketNameInjective(storagePrefix: string, dataset: string, a: string, b: string, unique: bool)
    requires GcpBucketName(storagePrefix, dataset, a, unique) == GcpBucketName(storagePrefix, dataset, b, unique)
    ensures a == b
  {
    if !unique {
      var p := storagePrefix + dataset + "-";
      assert GcpBucketName(storagePrefix, dataset, a, unique) == p + a;
      assert GcpBucketName(storagePrefix, dataset, b, unique) == p + b;
      assert (p + a)[|p|..] == a && (p + b)[|p|..] == b;
    }
  }

  /** A GCS lifecycle rule, as the `bucket_rule_*` methods build it (gcp.py:333-369). */
  datatype GcpRule =
    | DeleteNoncurrent(daysSinceNoncurrent: int) // undelete: delete archived versions after n days
    | ArchiveAfter(age: int)
    | DeleteAfter(age: int)
    | AbortIncompleteUpload(age: int)

  /** The Pulumi resources the provider's grant and create methods declare. */
  datatype GcpResource =
    | Bucket(name: PulumiName, bucketName: string, labels: seq<(string, string)>, rules: seq<GcpRule>,
             requesterPays: bool, versioning: bool, autoclass: bool, project: string)
    | BucketIamMember(name: PulumiName, bucket: string, member: string, role: string)
    | GroupMembership(name: PulumiName, groupKey: string, memberKey: string)
    | SecretIamMember(name: PulumiName, project: string, secretId: string, role: string, member: string)
    | ServiceAccountIamMember(name: PulumiName, accountName: string, role: string, member: string)
    | RegistryIamMember(name: PulumiName, project: string, repository: string, role: string, member: string)
    | ProjectIamMember(name: PulumiName, project: string, role: string, member: string)

  /** The bucket `create_bucket` declares: the caller's rules, unchanged and in order, then the abort-incomplete-upload rule. */
  function BucketResource(storagePrefix: string, dataset: string, projectId: string, abortDays: int,
                          name: string, rules: seq<GcpRule>, unique: bool, requesterPays: bool, versioning: bool,
                          autoclass: bool, project: Option<string>): (r: GcpResource)
    ensures r.Bucket? && r.name == Prefixed(name + "-bucket")
    ensures r.bucketName == GcpBucketName(storagePrefix, dataset, name, unique) && r.labels == [("bucket", r.bucketName)]
    ensures |r.rules| == |rules| + 1 && r.rules[..|rules|] == rules && r.rules[|rules|] == AbortIncompleteUpload(abortDays)
    ensures r.requesterPays == requesterPays && r.versioning == versioning && r.autoclass == autoclass
    ensures r.project == ProjectOr(project, projectId)
  {
    var n := GcpBucketName(storagePrefix, dataset, name, unique);
    var all := rules + [AbortIncompleteUpload(abortDays)];
    assert all[..|rules|] == rules;
    Bucket(Prefixed(name + "-bucket"), n, [("bucket", n)], all, requesterPays, versioning, autoclass, ProjectOr(project, projectId))
  }

  /** The bindings `add_member_to_bucket` declares for a role list, one per role. */
  function BucketBindings(roles: seq<BucketMembershipRole>, bucket: string, member: string): (r: seq<GcpResource>)
    ensures |r| == |roles|
    ensures forall i :: 0 <= i < |roles| ==> r[i] == BucketIamMember(Prefixed(roles[i].resourceKey), bucket, member, roles[i].role)
  {
    seq(|roles|, i requires 0 <= i < |roles| => BucketIamMember(Prefixed(roles[i].resourceKey), bucket, member, roles[i].role))
  }

  /**
   * A GCP provider, reduced to the configuration its decisions read and the
   * resources it has declared, in order.
   */
  class GcpInfra {
    const disableGroupMemberships: bool
    const groupsDomain: string
    const orgId: string
    const projectId: string
    const storagePrefix: string
    const dataset: string
    const abortDays: int
    var resources: seq<GcpResource>

    constructor (disableGroupMemberships: bool, groupsDomain: string, orgId: string, projectId: string,
                 storagePrefix: string, dataset: string, abortDays: int)
      ensures this.disableGroupMemberships == disableGroupMemberships && this.groupsDomain == groupsDomain
      ensures this.orgId == orgId && this.projectId == projectId && this.storagePrefix == storagePrefix
      ensures this.dataset == dataset && this.abortDays == abortDays && resources == []
    {
      this.disableGroupMemberships := disableGroupMemberships;
      this.groupsDomain := groupsDomain;
      this.orgId := orgId;
      this.projectId := projectId;
      this.storagePrefix := storagePrefix;
      this.dataset := dataset;
      this.abortDays := abortDays;
      resources := [];
    }

    /** `create_bucket` (gcp.py:378-410). */
    method CreateBucket(name: string, rules: seq<GcpRule>, unique: bool := false, requesterPays: bool := false,
                        versioning: bool := true, autoclass: bool := false, project: Option<string> := None)
      returns (b: GcpResource)
      modifies this
      ensures b == BucketResource(storagePrefix, dataset, projectId, abortDays, name, rules, unique, requesterPays, versioning, autoclass, project)
      ensures resources == old(resources) + [b]
    {
      var bucketName := name;
      if !unique {
        bucketName := storagePrefix + dataset + "-" + name;
      }
      var all := rules + [AbortIncompleteUpload(abortDays)];
      b := Bucket(Prefixed(name + "-bucket"), bucketName, [("bucket", bucketName)], all, requesterPays, versioning, autoclass,
                  ProjectOr(project, projectId));
      resources := resources + [b];
    }

    /**
     * `add_member_to_bucket` (gcp.py:488-508): one binding per role of the
     * permission, in the role list's order; an unrecognised permission or
     * member raises before anything is declared.
     */
    method AddMemberToBucket(resourceKey: string, bucket: Member, member: Member, membership: Arg<BucketPermission>)
      returns (err: Option<GcpError>)
      modifies this
      ensures var roles := BucketMembershipToRoleList(membership, resourceKey, orgId);
        var bk, mk := MemberKey(bucket), MemberKey(member);
        if roles.Err? then err == Some(roles.error) && resources == old(resources)
        else if bk.Err? then err == Some(bk.error) && resources == old(resources)
        else if mk.Err? then err == Some(mk.error) && resources == old(resources)
        else err.None? && resources == old(resources) + BucketBindings(roles.value, bk.value, mk.value)
    {
      var roles := BucketMembershipToRoleList(membership, resourceKey, orgId);
      if roles.Err? {
        return Some(roles.error);
      }
      var bk, mk := MemberKey(bucket), MemberKey(member);
      if bk.Err? {
        return Some(bk.error);
      }
      if mk.Err? {
        return Some(mk.error);
      }
      var rs := roles.value;
      var i := 0;
      while i < |rs|
        invariant 0 <= i <= |rs|
        invariant resources == old(resources) + BucketBindings(rs[..i], bk.value, mk.value)
      {
        assert BucketBindings(rs[..i + 1], bk.value, mk.value) == BucketBindings(rs[..i], bk.value, mk.value) + [BucketIamMember(Prefixed(rs[i].resourceKey), bk.value, mk.value, rs[i].role)];
        resources := resources + [BucketIamMember(Prefixed(rs[i].resourceKey), bk.value, mk.value, rs[i].role)];
        i := i + 1;
      }
      assert rs[..i] == rs;
      return None;
    }

    /**
     * `add_group_member` (gcp.py:620-636): nothing when group memberships are
     * disabled; otherwise one membership, its resource key name-prefixed
     * unless `uniqueResourceKey`.
     */
    method AddGroupMember(resourceKey: string, group: Member, member: Member, uniqueResourceKey: bool := false)
      returns (err: Option<GcpError>)
      modifies this
      ensures disableGroupMemberships ==> err.None? && resources == old(resources)
      ensures !disableGroupMemberships ==>
        var gk, mk := GroupKey(group, groupsDomain), PreferredGroupMembershipKey(member);
        if gk.Err? then err == Some(gk.error) && resources == old(resources)
        else if mk.Err? then err == Some(mk.error) && resources == old(resources)
        else err.None? && resources == old(resources) + [GroupMembership(if uniqueResourceKey then Unique(resourceKey) else Prefixed(resourceKey), gk.value, mk.value)]
    {
      if disableGroupMemberships {
        return None;
      }
      var name := if uniqueResourceKey then Unique(resourceKey) else Prefixed(resourceKey);
      var gk := GroupKey(group, groupsDomain);
      if gk.Err? {
        return Some(gk.error);
      }
      var mk := PreferredGroupMembershipKey(member);
      if mk.Err? {
        return Some(mk.error);
      }
      resources := resources + [GroupMembership(name, gk.value, mk.value)];
      return None;
    }

    /** `add_member_to_machine_account_role` (gcp.py:549-575). */
    method AddMemberToMachineAccountRole(resourceKey: string, accountName: string, member: Member, role: Arg<MachineAccountRole>)
      returns (err: Option<GcpError>)
      modifies this
      ensures var rn, mk := MachineAccountRoleName(role), MemberKey(member);
        if rn.Err? then err == Some(rn.error) && resources == old(resources)
        else if mk.Err? then err == Some(mk.error) && resources == old(resources)
        else err.None? && resources == old(resources) + [ServiceAccountIamMember(Prefixed(resourceKey), accountName, rn.value, mk.value)]
    {
      var rn := MachineAccountRoleName(role);
      if rn.Err? {
        return Some(rn.error);
      }
      var mk := MemberKey(member);
      if mk.Err? {
        return Some(mk.error);
      }
      resources := resources + [ServiceAccountIamMember(Prefixed(resourceKey), accountName, rn.value, mk.value)];
      return None;
    }

    /** `add_secret_member` (gcp.py:660-698): the membership is checked first, then the secret, then the member. */
    method AddSecretMember(resourceKey: string, secret: SecretArg, member: Member, membership: Arg<SecretMembership>,
                           project: Option<string> := None)
      returns (err: Option<GcpError>)
      modifies this
      ensures var rn, sid, mk := SecretRoleName(membership), SecretId(secret, project, projectId), MemberKey(member);
        if rn.Err? then err == Some(rn.error) && resources == old(resources)
        else if sid.Err? then err == Some(sid.error) && resources == old(resources)
        else if mk.Err? then err == Some(mk.error) && resources == old(resources)
        else err.None? && resources == old(resources) + [SecretIamMember(Prefixed(resourceKey), ProjectOr(project, projectId), sid.value, rn.value, mk.value)]
    {
      var rn := SecretRoleName(membership);
      if rn.Err? {
        return Some(rn.error);
      }
      var sid := SecretId(secret, project, projectId);
      if sid.Err? {
        return Some(sid.error);
      }
      var mk := MemberKey(member);
      if mk.Err? {
        return Some(mk.error);
      }
      resources := resources + [SecretIamMember(Prefixed(resourceKey), ProjectOr(project, projectId), sid.value, rn.value, mk.value)];
      return None;
    }

    /** `add_member_to_container_registry` (gcp.py:721-744). */
    method AddMemberToContainerRegistry(resourceKey: string, registry: string, member: Member, membership: Arg<RegistryMembership>,
                                        project: Option<string> := None)
      returns (err: Option<GcpError>)
      modifies this
      ensures var rn, mk := RegistryRoleName(membership), MemberKey(member);
        if rn.Err? then err == Some(rn.error) && resources == old(resources)
        else if mk.Err? then err == Some(mk.error) && resources == old(resources)
        else err.None? && resources == old(resources) + [RegistryIamMember(Prefixed(resourceKey), ProjectOr(project, projectId), registry, rn.value, mk.value)]
    {
      var rn := RegistryRoleName(membership);
      if rn.Err? {
        return Some(rn.error);
      }
      var mk := MemberKey(member);
      if mk.Err? {
        return Some(mk.error);
      }
      resources := resources + [RegistryIamMember(Prefixed(resourceKey), ProjectOr(project, projectId), registry, rn.value, mk.value)];
      return None;
    }

    /** `add_member_to_dataproc_api` (gcp.py:758-769). */
    method AddMemberToDataprocApi(resourceKey: string, account: Member, role: string)
      returns (err: Option<GcpError>)
      modifies this
      ensures var mk := MemberKey(account);
        if mk.Err? then err == Some(mk.error) && resources == old(resources)
        else err.None? && resources == old(resources) + [ProjectIamMember(Prefixed(resourceKey), projectId, DataprocRoleName(role), mk.value)]
    {
      var r := role;
      if role == "worker" || role == "admin" {
        r := "roles/dataproc." + role;
      }
      var mk := MemberKey(account);
      if mk.Err? {
        return Some(mk.error);
      }
      resources := resources + [ProjectIamMember(Prefixed(resourceKey), projectId, r, mk.value)];
      return None;
    }
  }
}
