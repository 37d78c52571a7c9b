// The earlier migration script: the same URN and id rewriting with fewer
// cases, and a module-level list of migrated resources that grows with
// every stack it is run on.
module LegacyStateMigrator {
  import opened Wrappers
  import opened Strings
  import SM = StateMigrator

  // ---------------------------------------------------------------------
  // Names

  /**
   * The scoped name as the script writes it: a key of the dataset's own
   * loses its first '-'-separated segment, which is the dataset only when
   * the dataset name has no '-'.
   */
  function ScopedNameAsWritten(dataset: string, cloud: string, key: string): (r: string)
    ensures StartsWith(key, dataset + "-" + cloud) ==> r == key
    ensures !StartsWith(key, dataset) ==> r == SM.ScopedName(dataset, cloud, key)
  {
    if StartsWith(key, dataset) then
      if StartsWith(key, dataset + "-" + cloud) then key
      else Join([dataset, cloud] + Split(key, "-")[1..], "-")
    else SM.ScopedName(dataset, cloud, key)
  }

  /** For a dataset name without '-', the script's rule is the later migrator's. */
  lemma AsWrittenAgreesOnPlainDataset(dataset: string, cloud: string, rest: string)
    requires '-' !in dataset && !StartsWith(rest, cloud)
    ensures ScopedNameAsWritten(dataset, cloud, dataset + "-" + rest) == dataset + "-" + cloud + "-" + rest
    ensures ScopedNameAsWritten(dataset, cloud, dataset + "-" + rest) == SM.ScopedName(dataset, cloud, dataset + "-" + rest)
  {
    var key := dataset + "-" + rest;
    SepSafeChar(dataset, '-');
    FindAfterSafe(dataset, "-", rest);
    assert key[..|dataset|] == dataset;
    assert key[|dataset| + 1..] == rest;
    assert Split(key, "-") == [dataset] + Split(rest, "-");
    assert ([dataset] + Split(rest, "-"))[1..] == Split(rest, "-");
    SplitJoinInverse(rest, "-");
    assert [dataset, cloud] + Split(rest, "-") == [dataset] + ([cloud] + Split(rest, "-"));
    JoinCons(dataset, [cloud] + Split(rest, "-"), "-");
    JoinCons(cloud, Split(rest, "-"), "-");
    SM.ScopedNameOfDatasetKey(dataset, cloud, rest);
    assert |dataset + "-" + cloud| <= |key| ==>
             key[..|dataset + "-" + cloud|] == dataset + "-" + rest[..|cloud|];
  }

  /**
   * For a dataset 'A-B', a key 'A-B-X' comes out as 'A-B-{cloud}-B-X': the
   * first segment 'A' is dropped instead of the dataset 'A-B'.
   */
  lemma AsWrittenKeepsDatasetTail(a: string, b: string, rest: string, cloud: string)
    requires '-' !in a && '-' !in b && '-' !in rest && !StartsWith(rest, cloud)
    ensures var dataset := a + "-" + b;
            ScopedNameAsWritten(dataset, cloud, dataset + "-" + rest) == dataset + "-" + cloud + "-" + b + "-" + rest &&
            ScopedNameAsWritten(dataset, cloud, dataset + "-" + rest) != SM.ScopedName(dataset, cloud, dataset + "-" + rest)
  {
    var dataset := a + "-" + b;
    AsWrittenDatasetTailValue(a, b, rest, cloud);
    SM.ScopedNameOfDatasetKey(dataset, cloud, rest);
    assert |dataset + "-" + cloud + "-" + b + "-" + rest| > |dataset + "-" + cloud + "-" + rest|;
  }

  lemma AsWrittenDatasetTailValue(a: string, b: string, rest: string, cloud: string)
    requires '-' !in a && '-' !in b && '-' !in rest && !StartsWith(rest, cloud)
    ensures var dataset := a + "-" + b;
            ScopedNameAsWritten(dataset, cloud, dataset + "-" + rest) == dataset + "-" + cloud + "-" + b + "-" + rest
  {
    var dataset := a + "-" + b;
    var key := dataset + "-" + rest;
    SplitThreeTail(a, b, rest);
    assert key == a + "-" + b + "-" + rest;
    assert Split(key, "-")[1..] == [b, rest];
    assert key[..|dataset|] == dataset;
    assert StartsWith(key, dataset);
    NotScopedYet(dataset + "-", cloud, rest);
    JoinFour(dataset, cloud, b, rest);
    assert [dataset, cloud] + [b, rest] == [dataset, cloud, b, rest];
  }

  /** A key 'p' + rest does not start with 'p' + cloud when rest does not start with cloud. */
  lemma NotScopedYet(p: string, cloud: string, rest: string)
    requires !StartsWith(rest, cloud)
    ensures !StartsWith(p + rest, p + cloud)
  {
    if |cloud| <= |rest| {
      assert (p + rest)[..|p + cloud|] == p + rest[..|cloud|];
      assert (p + rest[..|cloud|])[|p|..] == rest[..|cloud|];
      assert (p + cloud)[|p|..] == cloud;
    }
  }

  lemma JoinFour(w: string, x: string, y: string, z: string)
    ensures Join([w, x, y, z], "-") == w + "-" + x + "-" + y + "-" + z
  {
    JoinCons(w, [x, y, z], "-");
    JoinCons(x, [y, z], "-");
    JoinCons(y, [z], "-");
  }

  /** Splitting 'a-b-rest' on '-', for parts without '-', leaves '[b, rest]' after the first piece. */
  lemma SplitThreeTail(a: string, b: string, rest: string)
    requires '-' !in a && '-' !in b && '-' !in rest
    ensures Split(a + "-" + b + "-" + rest, "-")[1..] == [b, rest]
  {
    SepSafeChar(a, '-');
    SepSafeChar(b, '-');
    SepSafeChar(rest, '-');
    JoinCons(a, [b, rest], "-");
    JoinCons(b, [rest], "-");
    assert Join([a, b, rest], "-") == a + "-" + b + "-" + rest;
    SplitJoin([a, b, rest], "-");
  }

  /** `process_urn`, with the scoping rule as a parameter. */
  function ProcessUrnWith(dataset: string, urn: string, scope: (string, string, string) -> string)
    : (r: Result<Option<string>, SM.MigrateError>)
    ensures |Split(urn, "::")| != 4 ==> r == Err(SM.ValueError("Cannot detect name from URN: " + urn))
    ensures |Split(urn, "::")| == 4 && StartsWith(Split(urn, "::")[2], "pulumi:providers:") ==> r == Ok(None)
    ensures r.Ok? && r.value.Some? ==> |Split(urn, "::")| == 4 && (Contains(urn, "::gcp") || Contains(urn, "::az"))
    ensures r.Err? && |Split(urn, "::")| == 4 ==>
              r == Err(SM.ValueError("Unrecognised URN: " + urn)) && !Contains(urn, "::gcp") && !Contains(urn, "::az")
  {
    var fields := Split(urn, "::");
    if |fields| != 4 then Err(SM.ValueError("Cannot detect name from URN: " + urn))
    else if StartsWith(fields[2], "pulumi:providers:") then Ok(None)
    else
      var key := fields[3];
      if Contains(urn, "::gcp") then Ok(Some(scope(dataset, "gcp", key)))
      else if Contains(urn, "::az") then Ok(Some(scope(dataset, "azure", Replace(key, "az-", ""))))
      else Err(SM.ValueError("Unrecognised URN: " + urn))
  }

  /** `process_urn` as written. */
  function ProcessUrnAsWritten(dataset: string, urn: string): Result<Option<string>, SM.MigrateError>
  {
    ProcessUrnWith(dataset, urn, ScopedNameAsWritten)
  }

  /** `process_urn` with the later migrator's scoping rule. */
  function ProcessUrn(dataset: string, urn: string): (r: Result<Option<string>, SM.MigrateError>)
    ensures r.Ok? && r.value.Some? ==>
              StartsWith(r.value.value, dataset + "-gcp") || StartsWith(r.value.value, dataset + "-azure")
  {
    ProcessUrnWith(dataset, urn, SM.ScopedName)
  }

  /** On a GCP URN whose key is 'A-B-X' in stack 'A-B', the two readings differ. */
  lemma ProcessUrnAsWrittenDiffers(a: string, b: string, rest: string, urn: string)
    requires '-' !in a && '-' !in b && '-' !in rest && !StartsWith(rest, "gcp")
    requires var fields := Split(urn, "::");
             |fields| == 4 && !StartsWith(fields[2], "pulumi:providers:") &&
             fields[3] == a + "-" + b + "-" + rest && Contains(urn, "::gcp")
    ensures ProcessUrnAsWritten(a + "-" + b, urn) == Ok(Some(a + "-" + b + "-gcp-" + b + "-" + rest))
    ensures ProcessUrn(a + "-" + b, urn) == Ok(Some(a + "-" + b + "-gcp-" + rest))
  {
    var dataset := a + "-" + b;
    var key := Split(urn, "::")[3];
    AsWrittenKeepsDatasetTail(a, b, rest, "gcp");
    assert ProcessUrnAsWritten(dataset, urn) == Ok(Some(ScopedNameAsWritten(dataset, "gcp", key)));
    assert ProcessUrn(dataset, urn) == Ok(Some(SM.ScopedName(dataset, "gcp", key)));
    assert dataset + "-" + "gcp" + "-" + b + "-" + rest == a + "-" + b + "-gcp-" + b + "-" + rest;
    assert dataset + "-" + "gcp" + "-" + rest == a + "-" + b + "-gcp-" + rest;
  }

  // ---------------------------------------------------------------------
  // Import ids

  predicate IsMembershipType(rtype: string)
  {
    rtype in {SM.ProjectMembershipType, SM.RepositoryMembershipType, SM.SecretMembershipType, SM.BucketMembershipType}
  }

  /**
   * `process_id`: a membership id as 'resource role member', with 2, 4 and
   * 6 resource parts for buckets, secrets and repositories and 1 otherwise;
   * anything else unchanged.
   */
  function ProcessId(rtype: string, identifier: string): (r: string)
    ensures !IsMembershipType(rtype) ==> r == identifier
    ensures IsMembershipType(rtype) ==>
              var ps := Split(identifier, "/");
              EndsWith(r, " " + ps[|ps| - 1])
  {
    if IsMembershipType(rtype) then
      var parts := SM.MembershipParts(identifier, SM.ResourceBound(rtype));
      EndsWithAppend(parts.0 + " " + parts.1, " " + parts.2);
      parts.0 + " " + parts.1 + " " + parts.2
    else identifier
  }

  /** With a role present, the three fields of a membership import id, rejoined by '/', are the state id. */
  lemma ProcessIdRejoin(rtype: string, identifier: string)
    requires IsMembershipType(rtype) && SM.ResourceBound(rtype) + 2 <= |Split(identifier, "/")|
    ensures exists resource, role, member ::
              ProcessId(rtype, identifier) == resource + " " + role + " " + member &&
              resource + "/" + role + "/" + member == identifier
  {
    var parts := SM.MembershipParts(identifier, SM.ResourceBound(rtype));
    SM.MembershipPartsRejoin(identifier, SM.ResourceBound(rtype));
    assert ProcessId(rtype, identifier) == parts.0 + " " + parts.1 + " " + parts.2;
  }

  // ---------------------------------------------------------------------
  // The accumulated resources

  /** One resource: skipped without an id or a name, else migrated; or an error. */
  function MigrateOne(dataset: string, res: SM.StateResource): (r: Result<Option<SM.Migrated>, SM.MigrateError>)
    ensures res.id.None? || res.id.value == "" ==> r == Ok(None)
    ensures r.Ok? && r.value.Some? ==>
              ProcessUrn(dataset, res.urn) == Ok(Some(r.value.value.name)) &&
              r.value.value == SM.Migrated(r.value.value.name, res.rtype, ProcessId(res.rtype, res.id.value))
  {
    if res.id.None? || res.id.value == "" then Ok(None)
    else
      match ProcessUrn(dataset, res.urn)
      case Err(e) => Err(e)
      case Ok(name) =>
        if name.None? || name.value == "" then Ok(None)
        else Ok(Some(SM.Migrated(name.value, res.rtype, ProcessId(res.rtype, res.id.value))))
  }

  /** The resources appended for a stack, and the error that stopped it, if any. */
  function Migrated(dataset: string, rs: seq<SM.StateResource>): (seq<SM.Migrated>, Option<SM.MigrateError>)
    decreases |rs|
  {
    if |rs| == 0 then ([], None)
    else
      var init := Migrated(dataset, rs[..|rs| - 1]);
      if init.1.Some? then init
      else
        match MigrateOne(dataset, rs[|rs| - 1])
        case Err(e) => (init.0, Some(e))
        case Ok(None) => init
        case Ok(Some(m)) => (init.0 + [m], None)
  }

  /** Once a prefix has failed, later resources append nothing and the error stays. */
  lemma {:induction false} MigratedKeepsError(dataset: string, rs: seq<SM.StateResource>, i: nat)
    requires i <= |rs| && Migrated(dataset, rs[..i]).1.Some?
    ensures Migrated(dataset, rs) == Migrated(dataset, rs[..i])
    decreases |rs| - i
  {
    if i < |rs| {
      assert rs[..i + 1][..i] == rs[..i];
      MigratedKeepsError(dataset, rs, i + 1);
    } else {
      assert rs[..i] == rs;
    }
  }

  /** Every appended resource is named under its dataset and cloud. */
  lemma {:induction false} MigratedNamesScoped(dataset: string, rs: seq<SM.StateResource>)
    ensures forall m :: m in Migrated(dataset, rs).0 ==>
              StartsWith(m.name, dataset + "-gcp") || StartsWith(m.name, dataset + "-azure")
    decreases |rs|
  {
    if |rs| > 0 {
      MigratedNamesScoped(dataset, rs[..|rs| - 1]);
    }
  }

  /** The script's module-level `resources` list. */
  class Migration {
    var resources: seq<SM.Migrated>

    constructor()
      ensures resources == []
    {
      resources := [];
    }

    /**
     * `migrate_stack`: appends the stack's migrated resources to the list,
     * keeping what earlier stacks appended, and returns the list written to
     * the stack's output file; an error leaves the resources appended
     * before it in the list.
     */
    method MigrateStack(dataset: string, rs: seq<SM.StateResource>) returns (r: Result<seq<SM.Migrated>, SM.MigrateError>)
      modifies this
      ensures resources == old(resources) + Migrated(dataset, rs).0
      ensures r.Ok? <==> Migrated(dataset, rs).1.None?
      ensures r.Ok? ==> r.value == resources
      ensures r.Err? ==> Migrated(dataset, rs).1 == Some(r.error)
    {
      var i := 0;
      while i < |rs|
        invariant 0 <= i <= |rs|
        invariant Migrated(dataset, rs[..i]).1.None?
        invariant resources == old(resources) + Migrated(dataset, rs[..i]).0
      {
        assert rs[..i + 1][..i] == rs[..i];
        var one := MigrateOne(dataset, rs[i]);
        if one.Err? {
          MigratedKeepsError(dataset, rs, i + 1);
          return Err(one.error);
        }
        if one.value.Some? {
          resources := resources + [one.value.value];
        }
        i := i + 1;
      }
      assert rs[..i] == rs;
      r := Ok(resources);
    }
  }
}
