// The migration of per-dataset stacks into one stack: the new resource
// name derived from each URN, the import id derived from each state id, and
// the walk over one stack's resources.
module StateMigrator {
  import opened Wrappers
  import opened Strings

  datatype MigrateError = ValueError(message: string)

  const BucketObjectType := "gcp:storage/bucketObject:BucketObject"
  const BucketType := "gcp:storage/bucket:Bucket"
  const BucketMembershipType := "gcp:storage/bucketIAMMember:BucketIAMMember"
  const SecretMembershipType := "gcp:secretmanager/secretIamMember:SecretIamMember"
  const ServiceAccountMemberType := "gcp:serviceAccount/iAMMember:IAMMember"
  const CloudRunMembershipType := "gcp:cloudrun/iamMember:IamMember"
  const RepositoryMembershipType := "gcp:artifactregistry/repositoryIamMember:RepositoryIamMember"
  const IamMemberType := "gcp:serviceAccount:IAMMember"
  const ProjectMembershipType := "gcp:projects/iAMMember:IAMMember"
  const GcpGroupType := "gcp:cloudidentity/group:Group"
  const AzureBlobContainerType := "azure-native:storage:BlobContainer"
  const AzureGroupType := "azuread:index/group:Group"
  const OwnOrganizationRole := "organizations/648561325637"

  // ---------------------------------------------------------------------
  // Names

  /**
   * The name under the merged stack, scoped by dataset and cloud, for a
   * key already carrying its type suffix: kept when it already starts with
   * '{dataset}-{cloud}', else put after that prefix (without a leading
   * '{dataset}-' of its own).
   */
  function ScopedName(dataset: string, cloud: string, key: string): (r: string)
    ensures StartsWith(r, dataset + "-" + cloud)
    ensures StartsWith(key, dataset + "-" + cloud) ==> r == key
  {
    var prefix := dataset + "-" + cloud;
    if StartsWith(key, dataset) then
      if StartsWith(key, prefix) then key
      else
        var r := prefix + "-" + RemovePrefix(key, dataset + "-");
        assert r[..|prefix|] == prefix;
        r
    else if StartsWith(key, cloud) then
      var r := dataset + "-" + key;
      assert r[..|prefix|] == dataset + "-" + key[..|cloud|];
      r
    else
      var r := prefix + "-" + key;
      assert r[..|prefix|] == prefix;
      r
  }

  /** A scoped name is its own scoped name. */
  lemma ScopedNameIdempotent(dataset: string, cloud: string, key: string)
    ensures ScopedName(dataset, cloud, ScopedName(dataset, cloud, key)) == ScopedName(dataset, cloud, key)
  {
  }

  /**
   * A key of the dataset's own loses its '{dataset}-' and is put after
   * '{dataset}-{cloud}-' (the documented secret 'thousand-genomes-cromwell-test-key'
   * of stack 'thousand-genomes' is the case X = 'cromwell-test-key').
   */
  lemma ScopedNameOfDatasetKey(dataset: string, cloud: string, rest: string)
    requires !StartsWith(rest, cloud)
    ensures ScopedName(dataset, cloud, dataset + "-" + rest) == dataset + "-" + cloud + "-" + rest
  {
    var key := dataset + "-" + rest;
    assert key[..|dataset|] == dataset;
    assert key[..|dataset + "-"|] == dataset + "-";
    assert key[|dataset + "-"|..] == rest;
    assert |key| >= |dataset + "-" + cloud| ==>
             key[..|dataset + "-" + cloud|] == dataset + "-" + rest[..|cloud|];
  }

  /**
   * An Azure key 'az-{dataset}-X' loses 'az-' and becomes
   * '{dataset}-azure-X' (the documented 'az-common-access' group of stack
   * 'common' is the case X = 'access-group').
   */
  lemma AzureDatasetKey(dataset: string, rest: string)
    requires !Contains(dataset + "-" + rest, "az-") && !StartsWith(rest, "azure")
    ensures ScopedName(dataset, "azure", Replace("az-" + dataset + "-" + rest, "az-", "")) == dataset + "-azure-" + rest
  {
    assert "az-" + dataset + "-" + rest == "az-" + (dataset + "-" + rest);
    DropLeadingAz(dataset + "-" + rest);
    ScopedNameOfDatasetKey(dataset, "azure", rest);
  }

  /** Removing every 'az-' from 'az-' + x leaves x when x has none of its own. */
  lemma DropLeadingAz(x: string)
    requires !Contains(x, "az-")
    ensures Replace("az-" + x, "az-", "") == x
  {
    var k := "az-" + x;
    assert OccursAt(k, "az-", 0);
    assert k[3..] == x;
    ReplaceAbsent(x, "az-", "");
  }

  /**
   * The key with its type suffix; `true` with the final name for a bucket
   * key starting 'cpg-{dataset}', which becomes '{dataset}-gcp-X-bucket'.
   */
  function TypedKey(dataset: string, urn: string, key: string): (r: (bool, string))
    ensures r.0 ==> StartsWith(r.1, dataset + "-gcp")
  {
    if Contains(urn, AzureGroupType) then (false, key + "-group")
    else if Contains(urn, AzureBlobContainerType) then (false, key + "-blob-container")
    else if Contains(urn, GcpGroupType) then (false, key + "-group")
    else if Contains(urn, BucketType) then
      if StartsWith(key, "cpg-" + dataset) then
        var name := dataset + "-gcp-" + RemovePrefix(key, "cpg-" + dataset + "-") + "-bucket";
        assert name[..|dataset + "-gcp"|] == dataset + "-gcp";
        (true, name)
      else (false, key + "-bucket")
    else (false, key)
  }

  function ForbiddenPrefixes(dataset: string): seq<string>
  {
    ["urn:pulumi:" + dataset + "::datasets::pulumi:pulumi:Stack::",
     "urn:pulumi:" + dataset + "::datasets::pulumi:pulumi:StackReference::"]
  }

  predicate IsSkippedUrn(dataset: string, urn: string)
  {
    StartsWith(urn, ForbiddenPrefixes(dataset)[0]) || StartsWith(urn, ForbiddenPrefixes(dataset)[1])
  }

  /**
   * `process_urn_into_name`: None for the stack itself, bucket objects and
   * providers; a ValueError for a URN without four '::' fields or of
   * neither cloud; else the scoped name.
   */
  function ProcessUrnIntoName(dataset: string, urn: string): (r: Result<Option<string>, MigrateError>)
    ensures IsSkippedUrn(dataset, urn) ==> r == Ok(None)
    ensures !IsSkippedUrn(dataset, urn) && |Split(urn, "::")| != 4 ==>
              r == Err(ValueError("Cannot detect name from URN: " + urn))
    ensures r.Ok? && r.value.Some? ==>
              StartsWith(r.value.value, dataset + "-gcp") || StartsWith(r.value.value, dataset + "-azure")
    ensures r.Ok? && r.value.Some? && Contains(urn, "::gcp") ==> StartsWith(r.value.value, dataset + "-gcp")
  {
    if IsSkippedUrn(dataset, urn) then Ok(None)
    else
      var fields := Split(urn, "::");
      if |fields| != 4 then Err(ValueError("Cannot detect name from URN: " + urn))
      else if Contains(urn, BucketObjectType) then Ok(None)
      else if StartsWith(fields[2], "pulumi:providers:") then Ok(None)
      else
        var (done, key) := TypedKey(dataset, urn, fields[3]);
        if done then Ok(Some(key))
        else if Contains(urn, "::gcp") then Ok(Some(ScopedName(dataset, "gcp", key)))
        else if Contains(urn, "::az") then Ok(Some(ScopedName(dataset, "azure", Replace(key, "az-", ""))))
        else Err(ValueError("Unrecognised URN: " + urn))
  }

  // ---------------------------------------------------------------------
  // Import ids

  predicate IsMembershipType(rtype: string)
  {
    rtype in {ProjectMembershipType, RepositoryMembershipType, SecretMembershipType, BucketMembershipType,
              IamMemberType, CloudRunMembershipType, ServiceAccountMemberType}
  }

  /** How many '/'-parts of a membership id name the resource. */
  function ResourceBound(rtype: string): (n: nat)
    ensures n >= 1
  {
    if rtype == BucketMembershipType || rtype == IamMemberType then 2
    else if rtype == SecretMembershipType then 4
    else if rtype == RepositoryMembershipType then 6
    else if rtype == CloudRunMembershipType then 7
    else if rtype == ServiceAccountMemberType then 4
    else 1
  }

  /** The resource, role and member parts: `split[:n]`, `split[n:-1]` and `split[-1]`. */
  function MembershipParts(identifier: string, n: nat): (r: (string, string, string))
    ensures var ps := Split(identifier, "/");
            r.2 == ps[|ps| - 1] && '/' !in r.2
  {
    var ps := Split(identifier, "/");
    SplitCharPieces(identifier, '/');
    var resource := Join(ps[..if n <= |ps| then n else |ps|], "/");
    var role := if n < |ps| - 1 then Join(ps[n..|ps| - 1], "/") else "";
    (resource, role, ps[|ps| - 1])
  }

  /** With a role part present, the three parts joined by '/' give the id back. */
  lemma MembershipPartsRejoin(identifier: string, n: nat)
    requires n >= 1 && n + 2 <= |Split(identifier, "/")|
    ensures var (resource, role, member) := MembershipParts(identifier, n);
            resource + "/" + role + "/" + member == identifier
  {
    var ps := Split(identifier, "/");
    var k := |ps| - 1;
    assert ps == ps[..n] + ps[n..k] + [ps[k]];
    JoinAppend(ps[..n], ps[n..k], "/");
    JoinAppend(ps[..n] + ps[n..k], [ps[k]], "/");
    SplitJoinInverse(identifier, "/");
  }

  /** Leading ASCII digits of a string. */
  function LeadingDigits(s: string): (k: nat)
    ensures k <= |s| && forall i :: 0 <= i < k ==> IsDigit(s[i])
    ensures k < |s| ==> !IsDigit(s[k])
    decreases |s|
  {
    if |s| > 0 && IsDigit(s[0]) then 1 + LeadingDigits(s[1..]) else 0
  }

  /** `role[..k + 1]` is 'organizations/', one or more digits and a '/': what `^organizations\/\d+\/` matches. */
  predicate OrganizationPrefixEnds(role: string, k: int)
  {
    14 < k < |role| && StartsWith(role, "organizations/") && role[k] == '/' &&
    forall i :: 14 <= i < k ==> IsDigit(role[i])
  }

  /** `re.sub(r'^organizations\/\d+\/', '/', role)`. */
  function StripOrganization(role: string): (r: string)
    ensures r == role || (StartsWith(role, "organizations/") && |r| >= 1 && r[0] == '/' && EndsWith(role, r[1..]))
    ensures forall k :: OrganizationPrefixEnds(role, k) ==> r == "/" + role[k + 1..]
    ensures r != role ==> exists k :: OrganizationPrefixEnds(role, k) && r == "/" + role[k + 1..]
  {
    if !StartsWith(role, "organizations/") then role
    else
      var rest := role[14..];
      var k := LeadingDigits(rest);
      assert forall j :: OrganizationPrefixEnds(role, j) ==> j == 14 + k by {
        forall j | OrganizationPrefixEnds(role, j) ensures j == 14 + k {
          OrganizationPrefixAt(role, j);
        }
      }
      if k >= 1 && k < |rest| && rest[k] == '/' then
        var r := "/" + rest[k + 1..];
        assert role[|role| - |r[1..]|..] == rest[k + 1..];
        assert OrganizationPrefixEnds(role, 14 + k) && role[14 + k + 1..] == rest[k + 1..];
        r
      else role
  }

  /** The digits of a matched organization prefix are exactly the leading digits after 'organizations/'. */
  lemma OrganizationPrefixAt(role: string, j: int)
    requires OrganizationPrefixEnds(role, j)
    ensures j == 14 + LeadingDigits(role[14..])
  {
    var rest := role[14..];
    var k := LeadingDigits(rest);
    assert rest[j - 14] == role[j] == '/';
  }

  /** The role as imported: subscriptions get a leading '/', other organizations' prefixes collapse to '/'. */
  function ImportRole(role: string): string
  {
    var withSlash := if StartsWith(role, "subscriptions") then "/" + role else role;
    if StartsWith(withSlash, OwnOrganizationRole) then withSlash else StripOrganization(withSlash)
  }

  /** 'resource role member' for a membership id; a bucket's resource without its 'b/'. */
  function MembershipImportId(rtype: string, identifier: string): (r: string)
    ensures var ps := Split(identifier, "/");
            EndsWith(r, " " + ps[|ps| - 1])
  {
    var (resource, role, member) := MembershipParts(identifier, ResourceBound(rtype));
    var res := if rtype == BucketMembershipType then RemovePrefix(resource, "b/") else resource;
    var head := res + " " + ImportRole(role);
    EndsWithSpaced(head, member);
    head + " " + member
  }

  /**
   * `process_id`: memberships become 'resource role member', buckets get
   * the project in front, a bucket object is refused, anything else is
   * unchanged.
   */
  function ProcessId(projectId: string, rtype: string, identifier: string): (r: Result<string, MigrateError>)
    ensures IsMembershipType(rtype) ==> r == Ok(MembershipImportId(rtype, identifier))
    ensures rtype == BucketObjectType ==> r == Err(ValueError("Cannot migrate this resource"))
    ensures rtype == BucketType ==> r == Ok(projectId + "/" + identifier)
    ensures !IsMembershipType(rtype) && rtype != BucketObjectType && rtype != BucketType ==> r == Ok(identifier)
  {
    if IsMembershipType(rtype) then Ok(MembershipImportId(rtype, identifier))
    else if rtype == BucketObjectType then Err(ValueError("Cannot migrate this resource"))
    else if rtype == BucketType then Ok(projectId + "/" + identifier)
    else Ok(identifier)
  }

  lemma EndsWithSpaced(head: string, last: string)
    ensures EndsWith(head + " " + last, " " + last)
  {
    assert head + " " + last == head + (" " + last);
    EndsWithAppend(head, " " + last);
  }

  /** A project membership whose role needs no rewriting imports as its parts joined by spaces. */
  lemma ProjectMembershipImportId(identifier: string)
    requires 3 <= |Split(identifier, "/")|
    requires var role := MembershipParts(identifier, 1).1;
             !StartsWith(role, "subscriptions") && !StartsWith(role, "organizations/")
    ensures var (resource, role, member) := MembershipParts(identifier, 1);
            MembershipImportId(ProjectMembershipType, identifier) == resource + " " + role + " " + member &&
            resource + "/" + role + "/" + member == identifier
  {
    MembershipPartsRejoin(identifier, 1);
  }

  /** A bucket membership 'b/{bucket}/…' names the bucket without 'b/'. */
  lemma BucketMembershipResource(identifier: string)
    requires var ps := Split(identifier, "/"); |ps| >= 3 && ps[0] == "b"
    ensures var ps := Split(identifier, "/");
            StartsWith(MembershipImportId(BucketMembershipType, identifier), ps[1] + " ")
  {
    var ps := Split(identifier, "/");
    assert ps[..2] == [ps[0]] + [ps[1]];
    JoinCons(ps[0], [ps[1]], "/");
    var (resource, role, member) := MembershipParts(identifier, 2);
    assert resource == "b/" + ps[1];
    assert RemovePrefix(resource, "b/") == ps[1];
    var r := MembershipImportId(BucketMembershipType, identifier);
    assert r == ps[1] + " " + ImportRole(role) + " " + member;
    assert r[..|ps[1] + " "|] == ps[1] + " ";
  }

  // ---------------------------------------------------------------------
  // One stack

  /** A resource of an exported stack state. */
  datatype StateResource = StateResource(urn: string, rtype: string, id: Option<string>)

  /** A resource of the merged import file. */
  datatype Migrated = Migrated(name: string, rtype: string, id: string)

  /** One resource: an error, skipped (no name, or no id), or migrated. */
  function MigrateOne(projectId: string, dataset: string, res: StateResource): (r: Result<Option<Migrated>, MigrateError>)
    ensures r.Ok? && r.value.Some? ==>
              res.id.Some? && res.id.value != "" && r.value.value.rtype == res.rtype &&
              ProcessUrnIntoName(dataset, res.urn) == Ok(Some(r.value.value.name)) &&
              ProcessId(projectId, res.rtype, res.id.value) == Ok(r.value.value.id)
  {
    match ProcessUrnIntoName(dataset, res.urn)
    case Err(e) => Err(e)
    case Ok(name) =>
      if name.None? || name.value == "" then Ok(None)
      else if res.id.None? || res.id.value == "" then Ok(None)
      else
        match ProcessId(projectId, res.rtype, res.id.value)
        case Err(e) => Err(e)
        case Ok(id) => Ok(Some(Migrated(name.value, res.rtype, id)))
  }

  /** The migrated resources of a stack in order, or the first error. */
  function MigrateResources(projectId: string, dataset: string, rs: seq<StateResource>): (r: Result<seq<Migrated>, MigrateError>)
    ensures r.Ok? ==> |r.value| <= |rs|
    decreases |rs|
  {
    if |rs| == 0 then Ok([])
    else
      match MigrateResources(projectId, dataset, rs[..|rs| - 1])
      case Err(e) => Err(e)
      case Ok(done) =>
        match MigrateOne(projectId, dataset, rs[|rs| - 1])
        case Err(e) => Err(e)
        case Ok(None) => Ok(done)
        case Ok(Some(m)) => Ok(done + [m])
  }

  /** Once a prefix has failed, the whole stack fails with that error. */
  lemma {:induction false} MigrateResourcesKeepsError(projectId: string, dataset: string, rs: seq<StateResource>, i: nat)
    requires i <= |rs| && MigrateResources(projectId, dataset, rs[..i]).Err?
    ensures MigrateResources(projectId, dataset, rs) == MigrateResources(projectId, dataset, rs[..i])
    decreases |rs| - i
  {
    if i < |rs| {
      assert rs[..i + 1][..i] == rs[..i];
      MigrateResourcesKeepsError(projectId, dataset, rs, i + 1);
    } else {
      assert rs[..i] == rs;
    }
  }

  /** Every migrated resource is named under its dataset and cloud. */
  lemma {:induction false} MigratedNamesScoped(projectId: string, dataset: string, rs: seq<StateResource>)
    requires MigrateResources(projectId, dataset, rs).Ok?
    ensures forall m :: m in MigrateResources(projectId, dataset, rs).value ==>
              StartsWith(m.name, dataset + "-gcp") || StartsWith(m.name, dataset + "-azure")
    decreases |rs|
  {
    if |rs| > 0 {
      MigratedNamesScoped(projectId, dataset, rs[..|rs| - 1]);
    }
  }

  /** `_migrate_stack`: every resource of the stack state in order, stopping at the first error. */
  method MigrateStack(projectId: string, dataset: string, rs: seq<StateResource>) returns (r: Result<seq<Migrated>, MigrateError>)
    ensures r == MigrateResources(projectId, dataset, rs)
  {
    var resources: seq<Migrated> := [];
    var i := 0;
    while i < |rs|
      invariant 0 <= i <= |rs|
      invariant MigrateResources(projectId, dataset, rs[..i]) == Ok(resources)
    {
      assert rs[..i + 1][..i] == rs[..i];
      var one := MigrateOne(projectId, dataset, rs[i]);
      if one.Err? {
        assert MigrateResources(projectId, dataset, rs[..i + 1]) == Err(one.error);
        MigrateResourcesKeepsError(projectId, dataset, rs, i + 1);
        return Err(one.error);
      }
      if one.value.Some? {
        resources := resources + [one.value.value];
      }
      i := i + 1;
    }
    assert rs[..i] == rs;
    r := Ok(resources);
  }
}
