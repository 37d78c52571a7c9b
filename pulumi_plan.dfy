// The parts of a `pulumi preview --json` plan that the 2023-06 import
// scripts read, and what they share: the import id of the IAM member
// types, the resource name from a URN, and the group directory lookup.
module PulumiPlan {
  import opened Wrappers
  import opened Strings
  import opened PyRepr

  const GroupMembershipType: string := "gcp:cloudidentity/groupMembership:GroupMembership"
  const ProjectIamType: string := "gcp:projects/iAMMember:IAMMember"
  const SecretIamType: string := "gcp:secretmanager/secretIamMember:SecretIamMember"
  const ServiceAccountIamType: string := "gcp:serviceAccount/iAMMember:IAMMember"
  const BucketIamType: string := "gcp:storage/bucketIAMMember:BucketIAMMember"

  /**
   * A step's `newState`: its type, its string inputs, and the
   * `preferredMemberKey` input object when there is one.
   */
  datatype State = State(rtype: string, inputs: map<string, string>, preferredMemberKey: Option<map<string, string>>)

  /** A plan step; `newState` is `None` when it is absent or empty. */
  datatype Step = Step(op: string, urn: string, newState: Option<State>)

  /** `PulumiImport`: the arguments of one `pulumi import` command; `flags` keeps the dict's order. */
  datatype PulumiImport = PulumiImport(rtype: string, name: string, id: string, flags: Option<seq<(string, string)>>)

  datatype PlanError = KeyError(key: string)

  function Input(state: State, key: string): (r: Result<string, PlanError>)
    ensures r.Ok? <==> key in state.inputs
    ensures r.Ok? ==> r.value == state.inputs[key]
    ensures r.Err? ==> r.error == KeyError(key)
  {
    if key in state.inputs then Ok(state.inputs[key]) else Err(KeyError(key))
  }

  /** `inputs['preferredMemberKey']['id']`. */
  function MemberEmail(state: State): (r: Result<string, PlanError>)
    ensures r.Ok? <==> state.preferredMemberKey.Some? && "id" in state.preferredMemberKey.value
    ensures r.Ok? ==> r.value == state.preferredMemberKey.value["id"]
  {
    match state.preferredMemberKey
    case None => Err(KeyError("preferredMemberKey"))
    case Some(key) => if "id" in key then Ok(key["id"]) else Err(KeyError("id"))
  }

  /**
   * `f'{resource} {role} {member}'` from the inputs, read in the order the
   * scripts read them (`first`, then `second`): the first missing key is the error.
   */
  function ResourceRoleMember(state: State, resourceKey: string, first: string, second: string): (r: Result<string, PlanError>)
    requires {first, second} == {"role", "member"}
    ensures r.Ok? <==> resourceKey in state.inputs && "role" in state.inputs && "member" in state.inputs
    ensures r.Ok? ==> r.value == state.inputs[resourceKey] + " " + state.inputs["role"] + " " + state.inputs["member"]
    ensures r.Err? && resourceKey !in state.inputs ==> r.error == KeyError(resourceKey)
  {
    match Input(state, resourceKey)
    case Err(e) => Err(e)
    case Ok(resource) =>
      match Input(state, first)
      case Err(e) => Err(e)
      case Ok(_) =>
        match Input(state, second)
        case Err(e) => Err(e)
        case Ok(_) => Ok(resource + " " + state.inputs["role"] + " " + state.inputs["member"])
  }

  /** The IAM member types both scripts import, and the input holding each one's resource. */
  function IamResourceKey(rtype: string): (r: Option<string>)
    ensures r.Some? <==> rtype in {ProjectIamType, SecretIamType, ServiceAccountIamType, BucketIamType}
  {
    if rtype == ProjectIamType then Some("project")
    else if rtype == SecretIamType then Some("secretId")
    else if rtype == ServiceAccountIamType then Some("serviceAccountId")
    else if rtype == BucketIamType then Some("bucket")
    else None
  }

  /** The `prepare_id` branches for the IAM member types; `None` for any other type. */
  function IamId(state: State): (r: Result<Option<string>, PlanError>)
  {
    match IamResourceKey(state.rtype)
    case None => Ok(None)
    case Some(key) =>
      var first := if state.rtype == ProjectIamType then "role" else "member";
      var second := if state.rtype == ProjectIamType then "member" else "role";
      match ResourceRoleMember(state, key, first, second)
      case Err(e) => Err(e)
      case Ok(id) => Ok(Some(id))
  }

  /** Each IAM member type's id is 'resource role member' from its own resource input. */
  lemma IamIdFormat(state: State)
    ensures state.rtype == ProjectIamType ==> IamIdIs(state, "project")
    ensures state.rtype == SecretIamType ==> IamIdIs(state, "secretId")
    ensures state.rtype == ServiceAccountIamType ==> IamIdIs(state, "serviceAccountId")
    ensures state.rtype == BucketIamType ==> IamIdIs(state, "bucket")
    ensures IamResourceKey(state.rtype).None? ==> IamId(state) == Ok(None)
  {
  }

  /** The id is 'resource role member' when the three inputs are there, else a KeyError naming a missing one. */
  predicate IamIdIs(state: State, resourceKey: string)
  {
    if resourceKey in state.inputs && "role" in state.inputs && "member" in state.inputs then
      IamId(state) == Ok(Some(state.inputs[resourceKey] + " " + state.inputs["role"] + " " + state.inputs["member"]))
    else
      IamId(state).Err? &&
      (var k := IamId(state).error.key; k in {resourceKey, "role", "member"} && k !in state.inputs)
  }

  /** `urn.split('::')[-1]`. */
  function NameFromUrn(urn: string): string
  {
    var fields := Split(urn, "::");
    fields[|fields| - 1]
  }

  /** The name is the URN's last '::' field. */
  lemma NameFromUrnOfFields(fields: seq<string>)
    requires |fields| >= 1
    requires forall i :: 0 <= i < |fields| - 1 ==> SepSafe(fields[i], "::")
    requires !Contains(fields[|fields| - 1], "::")
    ensures NameFromUrn(Join(fields, "::")) == fields[|fields| - 1]
  {
    SplitJoin(fields, "::");
  }

  /** The group key `lookup_google_group_members` asks the API for. */
  function GroupKey(group: string): (r: string)
    ensures StartsWith(r, "groups/")
    ensures StartsWith(group, "groups/") ==> r == group
  {
    if StartsWith(group, "groups/") then group else "groups/" + group
  }

  lemma GroupKeyIdempotent(group: string)
    ensures GroupKey(GroupKey(group)) == GroupKey(group)
  {
  }

  /**
   * `{m['preferredMemberKey']['id']: m['name'] for m in memberships}` over
   * (email, membership name) pairs: a later pair for an email wins.
   */
  function EmailToId(memberships: seq<(string, string)>): (m: map<string, string>)
    decreases |memberships|
  {
    if |memberships| == 0 then map[]
    else
      var n := |memberships| - 1;
      EmailToId(memberships[..n])[memberships[n].0 := memberships[n].1]
  }

  /** An email has an id iff some membership lists it, and the id is the name of its last membership. */
  lemma {:induction false} EmailToIdMeaning(memberships: seq<(string, string)>, email: string)
    ensures email in EmailToId(memberships) <==> exists i :: 0 <= i < |memberships| && memberships[i].0 == email
    ensures email in EmailToId(memberships) ==>
              exists i :: 0 <= i < |memberships| && memberships[i] == (email, EmailToId(memberships)[email]) &&
                forall j :: i < j < |memberships| ==> memberships[j].0 != email
    decreases |memberships|
  {
    if |memberships| > 0 {
      var n := |memberships| - 1;
      var init := memberships[..n];
      EmailToIdMeaning(init, email);
      assert forall i :: 0 <= i < n ==> init[i] == memberships[i];
      if memberships[n].0 != email && email in EmailToId(memberships) {
        var i :| 0 <= i < n && init[i] == (email, EmailToId(init)[email]) &&
                 forall j :: i < j < n ==> init[j].0 != email;
        assert memberships[i] == (email, EmailToId(memberships)[email]);
      }
    }
  }

  // ---------------------------------------------------------------------
  // Plan steps and commands

  /** What one plan step contributes: an import for a `create` step with a new state and a (truthy) id. */
  function StepImportWith(step: Step, prepare: State -> Result<Option<string>, PlanError>): (r: Result<Option<PulumiImport>, PlanError>)
    ensures r.Ok? && r.value.Some? ==>
              step.op == "create" && step.newState.Some? &&
              r.value.value == PulumiImport(step.newState.value.rtype, NameFromUrn(step.urn), r.value.value.id, Some([])) &&
              r.value.value.id != "" && prepare(step.newState.value) == Ok(Some(r.value.value.id))
    ensures step.op != "create" || step.newState.None? ==> r == Ok(None)
    ensures step.op == "create" && step.newState.Some? && prepare(step.newState.value).Err? ==>
              r == Err(prepare(step.newState.value).error)
    ensures step.op == "create" && step.newState.Some? && prepare(step.newState.value) == Ok(None) ==> r == Ok(None)
  {
    if step.op != "create" then Ok(None)
    else
      match step.newState
      case None => Ok(None)
      case Some(state) =>
        match prepare(state)
        case Err(e) => Err(e)
        case Ok(id) =>
          if id.Some? && id.value != "" then Ok(Some(PulumiImport(state.rtype, NameFromUrn(step.urn), id.value, Some([]))))
          else Ok(None)
  }

  const CommandPrefix: string :=
    "pulumi import" + " --generate-code=false" + " --non-interactive" + " --skip-preview" + " --yes "

  /** The command before any flags: the fixed prefix, then the quoted type, name and id. */
  function CommandBody(imp: PulumiImport): string
  {
    CommandPrefix + CommandArgs(imp)
  }

  /** The quoted type, name and id, separated by spaces. */
  function CommandArgs(imp: PulumiImport): string
  {
    Repr(imp.rtype) + " " + Repr(imp.name) + " " + Repr(imp.id)
  }

  lemma CommandBodyNoNewline(imp: PulumiImport)
    ensures '\n' !in CommandBody(imp)
  {
    assert '\n' !in CommandPrefix by {
      assert '\n' !in "pulumi import" && '\n' !in " --generate-code=false" && '\n' !in " --non-interactive";
      assert '\n' !in " --skip-preview" && '\n' !in " --yes ";
    }
  }
}
