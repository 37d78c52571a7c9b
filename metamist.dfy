// The dynamic provider for metamist projects.  The list of all projects is
// fetched once and indexed by name; create reuses a project that already
// exists, and projects are never deleted.
module Metamist {
  import opened Wrappers
  import opened Strings
  import opened Dynamic

  /** A project as the metamist API lists it (other fields left out). */
  datatype Project = Project(id: int, name: string)

  /** The resource's inputs. */
  datatype ProjectInputs = ProjectInputs(projectName: string, createTestProject: bool)

  datatype ProjectOutputs = ProjectOutputs(id: int, name: string)

  /** A successful create; `created` tells whether the API was asked to make the project. */
  datatype Created = Created(id: string, outs: ProjectOutputs, created: bool)

  /** `{p['name']: p for p in all_projects}`: a later project of the same name wins. */
  function ProjectsByName(all: seq<Project>): (r: map<string, Project>)
    ensures r.Keys == set p | p in all :: p.name
    ensures forall n :: n in r ==> r[n] in all && r[n].name == n
  {
    if |all| == 0 then map[]
    else
      var before := ProjectsByName(all[..|all| - 1]);
      assert all == all[..|all| - 1] + [all[|all| - 1]];
      before[all[|all| - 1].name := all[|all| - 1]]
  }

  /** The index keeps, for each name, the last project listed under it. */
  lemma {:induction false} ProjectsByNameKeepsLast(all: seq<Project>, i: nat)
    requires i < |all|
    requires forall j :: i < j < |all| ==> all[j].name != all[i].name
    ensures ProjectsByName(all)[all[i].name] == all[i]
    decreases |all|
  {
    if i < |all| - 1 {
      var init := all[..|all| - 1];
      assert init[i] == all[i];
      assert forall j :: i < j < |init| ==> init[j] == all[j];
      ProjectsByNameKeepsLast(init, i);
    }
  }

  /** `get_project_by_name`. */
  function GetProjectByName(all: seq<Project>, name: string): (r: Option<Project>)
    ensures r.Some? <==> exists p :: p in all && p.name == name
    ensures r.Some? ==> r.value in all && r.value.name == name
  {
    var projects := ProjectsByName(all);
    if name in projects then Some(projects[name]) else None
  }

  /** The resource id of a project: `metamist-project::<name>::<id>`. */
  function ProjectId(name: string, id: int): string
  {
    "metamist-project::" + name + "::" + IntToString(id)
  }

  /**
   * `MetamistProjectProvider.create`, given all projects and the project the
   * create call would return: an existing project of that name is reused.
   */
  function Create(all: seq<Project>, props: ProjectInputs, made: Project): (r: Created)
    ensures r.created <==> GetProjectByName(all, props.projectName).None?
    ensures r.outs.name == props.projectName
    ensures !r.created ==> r.outs.id == GetProjectByName(all, props.projectName).value.id
    ensures r.created ==> r.outs.id == made.id
    ensures r.id == ProjectId(props.projectName, r.outs.id)
  {
    match GetProjectByName(all, props.projectName)
    case Some(existing) =>
      Created(ProjectId(props.projectName, existing.id), ProjectOutputs(existing.id, props.projectName), false)
    case None =>
      Created(ProjectId(props.projectName, made.id), ProjectOutputs(made.id, props.projectName), true)
  }

  /**
   * Create is idempotent: once the project it made is listed, creating again
   * reuses it and yields the same id.
   */
  lemma CreateIdempotent(all: seq<Project>, props: ProjectInputs, made: Project, made2: Project)
    requires made.name == props.projectName
    requires Create(all, props, made).created
    ensures Create(all + [made], props, made2) == Created(Create(all, props, made).id, Create(all, props, made).outs, false)
  {
    var after := all + [made];
    ProjectsByNameKeepsLast(after, |all|);
    assert after[|all|] == made;
  }

  /** `MetamistProjectProvider.diff`: a renamed project is replaced, the old one first. */
  function Diff(olds: ProjectInputs, news: ProjectInputs): (r: DiffResult)
    ensures r.replaceKeys == (if olds.projectName != news.projectName then ["name"] else [])
    ensures r.changes <==> olds.projectName != news.projectName
    ensures r.deleteBeforeReplace <==> r.changes
  {
    var replacing := if olds.projectName != news.projectName then ["name"] else [];
    DiffResult(|replacing| > 0, replacing, |replacing| > 0)
  }

  /** `MetamistProjectProvider.read`: a project that is not listed reads as gone, otherwise the inputs are echoed. */
  function Read(all: seq<Project>, id: string, props: ProjectInputs): (r: ReadResult<ProjectInputs>)
    ensures r.Gone? <==> forall p :: p in all ==> p.name != props.projectName
    ensures r.Present? ==> r.id == id && r.outs == props
  {
    if GetProjectByName(all, props.projectName).None? then Gone else Present(id, props)
  }

  /** A project that create made or reused reads as present once it is listed. */
  lemma ReadAfterCreate(all: seq<Project>, props: ProjectInputs, made: Project, id: string)
    requires made.name == props.projectName
    ensures Read(all + [made], id, props) == Present(id, props)
  {
    assert made in all + [made];
  }
}
