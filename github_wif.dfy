// GitHub workload identity federation: the configuration check, the
// service-account naming rule, and the resources set up per project,
// repository and environment.
module GithubWif {
  import opened Wrappers
  import opened Strings

  const PoolName := "github-pool"
  const ProviderName := "github-provider"
  const GithubOrg := "populationgenomics"
  const SaNameMaxLength := 30

  datatype WifError = ValueError(message: string)

  /** An environment of a repository; absent read registries are an empty list. */
  datatype EnvConfig = EnvConfig(name: string, pushRegistry: string, readRegistries: seq<string>)

  /** A repository; absent environments are an empty list. */
  datatype RepoConfig = RepoConfig(name: string, githubRepo: string, environments: seq<EnvConfig>)

  /** A project's entry, each of its three required keys possibly missing. */
  datatype ProjectConfig = ProjectConfig(
    projectNumber: Option<string>,
    location: Option<string>,
    repositories: Option<seq<RepoConfig>>)

  /** The parsed configuration: the projects in their order, or no 'projects' key at all. */
  datatype WifConfig = WifConfig(projects: Option<seq<(string, ProjectConfig)>>)

  // ---------------------------------------------------------------------
  // Validation

  /** The first required key a project lacks. */
  function MissingKey(pc: ProjectConfig): (r: Option<string>)
    ensures r.None? <==> pc.projectNumber.Some? && pc.location.Some? && pc.repositories.Some?
    ensures r == Some("location") ==> pc.projectNumber.Some?
    ensures r == Some("repositories") ==> pc.projectNumber.Some? && pc.location.Some?
  {
    if pc.projectNumber.None? then Some("project_number")
    else if pc.location.None? then Some("location")
    else if pc.repositories.None? then Some("repositories")
    else None
  }

  predicate CompleteProject(pc: ProjectConfig)
  {
    MissingKey(pc).None?
  }

  function MissingKeyMessage(projectId: string, key: string): string
  {
    "Project " + projectId + " missing \"" + key + "\""
  }

  const MissingProjectsMessage := "Invalid GitHub WIF config: missing \"projects\" key"

  /** The projects are checked in order; the first incomplete one is reported. */
  function ValidateProjects(projects: seq<(string, ProjectConfig)>): (r: Result<(), WifError>)
    ensures r.Ok? <==> forall i :: 0 <= i < |projects| ==> CompleteProject(projects[i].1)
    ensures r.Err? ==> exists i :: 0 <= i < |projects| && !CompleteProject(projects[i].1) &&
                        (forall j :: 0 <= j < i ==> CompleteProject(projects[j].1)) &&
                        r.error == ValueError(MissingKeyMessage(projects[i].0, MissingKey(projects[i].1).value))
    decreases |projects|
  {
    if |projects| == 0 then Ok(())
    else
      match MissingKey(projects[0].1)
      case Some(key) => Err(ValueError(MissingKeyMessage(projects[0].0, key)))
      case None =>
        var rest := ValidateProjects(projects[1..]);
        assert forall i :: 1 <= i < |projects| ==> projects[i] == projects[1..][i - 1];
        if rest.Err? then
          var i :| 0 <= i < |projects[1..]| && !CompleteProject(projects[1..][i].1) &&
                   (forall j :: 0 <= j < i ==> CompleteProject(projects[1..][j].1)) &&
                   rest.error == ValueError(MissingKeyMessage(projects[1..][i].0, MissingKey(projects[1..][i].1).value));
          assert projects[i + 1] == projects[1..][i];
          assert forall j :: 1 <= j < i + 1 ==> projects[j] == projects[1..][j - 1];
          rest
        else
          rest
  }

  /** `validate_github_wif_config`: a 'projects' key whose every project has the three required keys. */
  function ValidateConfig(config: WifConfig): (r: Result<(), WifError>)
    ensures config.projects.None? ==> r == Err(ValueError(MissingProjectsMessage))
    ensures config.projects.Some? ==> r == ValidateProjects(config.projects.value)
  {
    if config.projects.None? then Err(ValueError(MissingProjectsMessage)) else ValidateProjects(config.projects.value)
  }

  // ---------------------------------------------------------------------
  // Service-account names

  predicate NameChar(c: char)
  {
    IsLowerAlpha(c) || IsDigit(c) || c == '-'
  }

  /** `re.sub(r'[^a-z0-9-]', '-', s.lower())`. */
  function Clean(s: string): (r: string)
    ensures |r| == |s|
    ensures forall i :: 0 <= i < |r| ==> NameChar(r[i])
    ensures forall i :: 0 <= i < |s| && NameChar(LowerChar(s[i])) ==> r[i] == LowerChar(s[i])
  {
    var lower := Lower(s);
    seq(|lower|, i requires 0 <= i < |lower| => if NameChar(lower[i]) then lower[i] else '-')
  }

  /** The long environment names have short forms. */
  function ShortEnv(env: string): (r: string)
    ensures env == "development" ==> r == "dev"
    ensures env == "production" ==> r == "prod"
    ensures env != "development" && env != "production" ==> r == env
  {
    if env == "development" then "dev" else if env == "production" then "prod" else env
  }

  /** '{repo}-img-{env}-deployer'. */
  function SaNameOf(repo: string, env: string): (r: string)
    ensures |r| == |repo| + |env| + 14
    ensures r[..|repo|] == repo && r[|repo|..] == "-img-" + env + "-deployer"
  {
    repo + "-img-" + env + "-deployer"
  }

  /**
   * The repository part kept: all of it when the name fits, else cut to
   * leave `maxLength` for the whole name (Python's `repo[:n]`, so a
   * negative room cuts from the end).
   */
  function FittedRepo(repo: string, env: string, maxLength: int): (b: string)
    ensures |b| <= |repo| && b == repo[..|b|]
    ensures |SaNameOf(repo, env)| <= maxLength ==> b == repo
    ensures |SaNameOf(repo, env)| > maxLength && |env| + 14 <= maxLength ==> |b| == maxLength - |env| - 14
  {
    if |SaNameOf(repo, env)| > maxLength then SlicePrefix(repo, maxLength - |env| - 14) else repo
  }

  /** A leading digit has the first three characters replaced by 'gh-'; the length is kept. */
  function FixLeadingDigit(name: string): (r: string)
    requires |name| >= 3
    ensures |r| == |name| && r[3..] == name[3..] && !IsDigit(r[0])
    ensures IsDigit(name[0]) ==> r == "gh-" + name[3..]
    ensures !IsDigit(name[0]) ==> r == name
  {
    if IsDigit(name[0]) then "gh-" + name[3..] else name
  }

  /**
   * `sanitize_sa_name`: '{repo}-img-{env}-deployer' from the cleaned names,
   * the repository part cut when the name is over `maxLength`, and a
   * leading digit replaced.
   */
  function SanitizeSaName(repoName: string, environment: string, maxLength: int): string
  {
    var repo := Clean(repoName);
    var env := ShortEnv(Clean(environment));
    FixLeadingDigit(SaNameOf(FittedRepo(repo, env, maxLength), env))
  }

  lemma SaNameOfChars(repo: string, env: string)
    requires forall i :: 0 <= i < |repo| ==> NameChar(repo[i])
    requires forall i :: 0 <= i < |env| ==> NameChar(env[i])
    ensures forall i :: 0 <= i < |SaNameOf(repo, env)| ==> NameChar(SaNameOf(repo, env)[i])
  {
    var r := SaNameOf(repo, env);
    var tail := "-img-" + env + "-deployer";
    forall i | 0 <= i < |r| ensures NameChar(r[i]) {
      if i < |repo| {
        assert r[i] == r[..|repo|][i];
      } else {
        assert r[i] == tail[i - |repo|];
        if i - |repo| < 5 {
        } else if i - |repo| < 5 + |env| {
          assert tail[i - |repo|] == env[i - |repo| - 5];
        }
      }
    }
  }

  /** The result is made of lower-case letters, digits and dashes, and never starts with a digit. */
  lemma SanitizeSaNameChars(repoName: string, environment: string, maxLength: int)
    ensures var r := SanitizeSaName(repoName, environment, maxLength);
            |r| >= 14 && !IsDigit(r[0]) && forall i :: 0 <= i < |r| ==> NameChar(r[i])
  {
    var repo := Clean(repoName);
    var env := ShortEnv(Clean(environment));
    var base := FittedRepo(repo, env, maxLength);
    assert forall i :: 0 <= i < |base| ==> base[i] == repo[i];
    SaNameOfChars(base, env);
    var name := SaNameOf(base, env);
    var r := FixLeadingDigit(name);
    forall i | 0 <= i < |r| ensures NameChar(r[i]) {
      if i >= 3 {
        assert r[i] == r[3..][i - 3] == name[3..][i - 3];
      }
    }
  }

  /**
   * The length of the result: the full name's when it fits, and exactly
   * `maxLength` when it does not but the environment leaves room.
   */
  lemma SanitizeSaNameLength(repoName: string, environment: string, maxLength: int)
    ensures var env := ShortEnv(Clean(environment));
            var full := SaNameOf(Clean(repoName), env);
            var r := SanitizeSaName(repoName, environment, maxLength);
            (|full| <= maxLength ==> |r| == |full|) &&
            (|full| > maxLength && |env| + 14 <= maxLength ==> |r| == maxLength)
  {
  }

  /** The environment part and the '-deployer' suffix always survive. */
  lemma SanitizeSaNameSuffix(repoName: string, environment: string, maxLength: int)
    ensures EndsWith(SanitizeSaName(repoName, environment, maxLength),
                     "-" + ShortEnv(Clean(environment)) + "-deployer")
  {
    var env := ShortEnv(Clean(environment));
    SaNameTail(FittedRepo(Clean(repoName), env, maxLength), env);
  }

  lemma SaNameTail(base: string, env: string)
    ensures EndsWith(FixLeadingDigit(SaNameOf(base, env)), "-" + env + "-deployer")
  {
    var name := SaNameOf(base, env);
    var r := FixLeadingDigit(name);
    var tail := "-" + env + "-deployer";
    assert name[|base|..] == "-img" + tail;
    assert name[|name| - |tail|..] == ("-img" + tail)[4..] == tail;
    assert r[|r| - |tail|..] == r[3..][|r| - |tail| - 3..] == name[3..][|name| - |tail| - 3..];
  }

  /** A name that fits and starts with a letter is the plain '{repo}-img-{env}-deployer'. */
  lemma SanitizeSaNamePlain(repoName: string, environment: string, maxLength: int)
    requires |SaNameOf(Clean(repoName), ShortEnv(Clean(environment)))| <= maxLength
    requires |repoName| > 0 && IsLowerAlpha(LowerChar(repoName[0]))
    ensures SanitizeSaName(repoName, environment, maxLength) ==
            Clean(repoName) + "-img-" + ShortEnv(Clean(environment)) + "-deployer"
  {
    var name := SaNameOf(Clean(repoName), ShortEnv(Clean(environment)));
    assert name[0] == name[..|Clean(repoName)|][0] == Clean(repoName)[0] == LowerChar(repoName[0]);
  }

  /** A name that fits and starts with a digit becomes 'gh-' plus the name after its third character. */
  lemma SanitizeSaNameLeadingDigit(repoName: string, environment: string, maxLength: int)
    requires |SaNameOf(Clean(repoName), ShortEnv(Clean(environment)))| <= maxLength
    requires |repoName| > 0 && IsDigit(repoName[0])
    ensures SanitizeSaName(repoName, environment, maxLength) ==
            "gh-" + SaNameOf(Clean(repoName), ShortEnv(Clean(environment)))[3..]
  {
    var name := SaNameOf(Clean(repoName), ShortEnv(Clean(environment)));
    assert name[0] == name[..|Clean(repoName)|][0] == Clean(repoName)[0] == repoName[0];
  }

  // ---------------------------------------------------------------------
  // Resources

  datatype Role = Writer | Reader

  /** A value only known once the deployment runs. */
  datatype Deferred = Literal(text: string) | EmailOf(serviceAccount: string)

  datatype Resource =
    | WifPool(key: string, project: string)
    | WifProvider(key: string, project: string, attributeCondition: string)
    | ServiceAccount(key: string, accountId: string, displayName: string, project: string)
    | Impersonation(key: string, serviceAccount: string, member: string)
    | RegistryAccess(key: string, serviceAccount: string, project: string, location: string, registry: string, role: Role)
    | GithubProvider(key: string, owner: string)
    | RepositoryEnvironment(key: string, provider: string, repository: string, environment: string, protectedBranches: bool)
    | EnvironmentSecret(key: string, provider: string, repository: string, environment: string, secretName: string,
                        value: Deferred)

  function ProviderResourceName(projectNumber: string): string
  {
    "projects/" + projectNumber + "/locations/global/workloadIdentityPools/" + PoolName + "/providers/" + ProviderName
  }

  function Principal(projectNumber: string, githubRepo: string, environment: string): string
  {
    "principal://iam.googleapis.com/projects/" + projectNumber + "/locations/global/workloadIdentityPools/" + PoolName +
    "/subject/repo:" + githubRepo + ":environment:" + environment
  }

  /**
   * `manage_github_secrets`: nothing for a repository without an owner;
   * else a GitHub provider for the owner (the part before the first '/'),
   * and through it the environment, protected only for production, and its
   * two secrets, in the repository after that '/'.
   */
  function ManageGithubSecrets(githubRepo: string, environment: string, providerName: string, saKey: string)
    : (r: seq<Resource>)
    ensures r == [] <==> '/' !in githubRepo
    ensures r != [] ==> |r| == 4 && r[0].GithubProvider? && r[1].RepositoryEnvironment? &&
                        githubRepo == r[0].owner + "/" + r[1].repository && '/' !in r[0].owner &&
                        r[0].key == r[1].repository + "-" + environment + "-provider" &&
                        r[1].key == r[1].repository + "-" + environment + "-env" &&
                        r[1].provider == r[0].key && r[1].environment == environment &&
                        (r[1].protectedBranches <==> environment == "production") &&
                        r[2] == EnvironmentSecret(r[1].key + "-wif-provider", r[0].key, r[1].repository, environment,
                                                  "WIF_PROVIDER", Literal(providerName)) &&
                        r[3] == EnvironmentSecret(r[1].key + "-wif-sa", r[0].key, r[1].repository, environment,
                                                  "WIF_SERVICE_ACCOUNT", EmailOf(saKey))
  {
    match Partition(githubRepo, '/')
    case None => []
    case Some((org, repo)) =>
      var providerKey := repo + "-" + environment + "-provider";
      var envKey := repo + "-" + environment + "-env";
      [GithubProvider(providerKey, org),
       RepositoryEnvironment(envKey, providerKey, repo, environment, environment == "production"),
       EnvironmentSecret(envKey + "-wif-provider", providerKey, repo, environment, "WIF_PROVIDER", Literal(providerName)),
       EnvironmentSecret(envKey + "-wif-sa", providerKey, repo, environment, "WIF_SERVICE_ACCOUNT", EmailOf(saKey))]
  }

  /** The read grants of one environment, numbered from `from`. */
  function ReadGrants(prefix: string, saKey: string, projectId: string, location: string, registries: seq<string>)
    : (r: seq<Resource>)
    ensures |r| == |registries|
    ensures forall i :: 0 <= i < |registries| ==>
              r[i] == RegistryAccess(prefix + "-" + registries[i] + "-read-" + IntToString(i), saKey, projectId, location,
                                     registries[i], Reader)
    decreases |registries|
  {
    if |registries| == 0 then []
    else
      var n := |registries| - 1;
      ReadGrants(prefix, saKey, projectId, location, registries[..n]) +
      [RegistryAccess(prefix + "-" + registries[n] + "-read-" + IntToString(n), saKey, projectId, location, registries[n], Reader)]
  }

  /** The service account of one repository environment, its impersonation binding and its push grant. */
  function EnvironmentHead(projectId: string, projectNumber: string, location: string, repo: RepoConfig, env: EnvConfig)
    : (r: seq<Resource>)
    ensures Sound(r)
  {
    var saName := SanitizeSaName(repo.name, env.name, SaNameMaxLength);
    var saKey := projectId + "-" + saName;
    var prefix := projectId + "-" + repo.name + "-" + env.name;
    SanitizeSaNameChars(repo.name, env.name, SaNameMaxLength);
    [ServiceAccount(saKey, saName, "Deploy " + repo.githubRepo + " " + env.name + " images", projectId),
     Impersonation(prefix + "-wif-binding", saKey, Principal(projectNumber, repo.githubRepo, env.name)),
     RegistryAccess(prefix + "-" + env.pushRegistry + "-write", saKey, projectId, location, env.pushRegistry, Writer)]
  }

  function AccountKey(projectId: string, repo: RepoConfig, env: EnvConfig): string
  {
    projectId + "-" + SanitizeSaName(repo.name, env.name, SaNameMaxLength)
  }

  function GrantPrefix(projectId: string, repo: RepoConfig, env: EnvConfig): string
  {
    projectId + "-" + repo.name + "-" + env.name
  }

  /** The resources of one repository environment. */
  function EnvironmentResources(projectId: string, projectNumber: string, location: string, repo: RepoConfig,
                                env: EnvConfig): seq<Resource>
  {
    var saKey := AccountKey(projectId, repo, env);
    EnvironmentHead(projectId, projectNumber, location, repo, env) +
    ReadGrants(GrantPrefix(projectId, repo, env), saKey, projectId, location, env.readRegistries) +
    ManageGithubSecrets(repo.githubRepo, env.name, ProviderResourceName(projectNumber), saKey)
  }

  function EnvironmentsResources(projectId: string, projectNumber: string, location: string, repo: RepoConfig,
                                 envs: seq<EnvConfig>): seq<Resource>
    decreases |envs|
  {
    if |envs| == 0 then []
    else
      EnvironmentsResources(projectId, projectNumber, location, repo, envs[..|envs| - 1]) +
      EnvironmentResources(projectId, projectNumber, location, repo, envs[|envs| - 1])
  }

  function RepositoriesResources(projectId: string, projectNumber: string, location: string, repos: seq<RepoConfig>)
    : seq<Resource>
    decreases |repos|
  {
    if |repos| == 0 then []
    else
      var repo := repos[|repos| - 1];
      RepositoriesResources(projectId, projectNumber, location, repos[..|repos| - 1]) +
      EnvironmentsResources(projectId, projectNumber, location, repo, repo.environments)
  }

  /** The pool and provider of a project. */
  function ProjectHead(projectId: string): seq<Resource>
  {
    [WifPool(projectId + "-github-pool", projectId),
     WifProvider(projectId + "-github-provider", projectId, "assertion.repository_owner == '" + GithubOrg + "'")]
  }

  /** The pool and provider of a project, then its repositories' resources. */
  function ProjectResources(projectId: string, pc: ProjectConfig): seq<Resource>
    requires CompleteProject(pc)
  {
    ProjectHead(projectId) + RepositoriesResources(projectId, pc.projectNumber.value, pc.location.value, pc.repositories.value)
  }

  function ProjectsResources(projects: seq<(string, ProjectConfig)>): seq<Resource>
    requires forall i :: 0 <= i < |projects| ==> CompleteProject(projects[i].1)
    decreases |projects|
  {
    if |projects| == 0 then []
    else
      var n := |projects| - 1;
      ProjectsResources(projects[..n]) + ProjectResources(projects[n].0, projects[n].1)
  }

  // ---------------------------------------------------------------------
  // Properties of the resources

  /**
   * What every resource of a deployment keeps: a protected branch policy
   * only in production, and a valid service-account id.
   */
  predicate SoundResource(r: Resource)
  {
    match r
    case RepositoryEnvironment(_, _, _, environment, protectedBranches) => protectedBranches <==> environment == "production"
    case ServiceAccount(_, accountId, _, _) =>
      |accountId| > 0 && !IsDigit(accountId[0]) && forall k :: 0 <= k < |accountId| ==> NameChar(accountId[k])
    case _ => true
  }

  predicate Sound(rs: seq<Resource>)
  {
    forall i :: 0 <= i < |rs| ==> SoundResource(rs[i])
  }

  lemma SoundAppend(a: seq<Resource>, b: seq<Resource>)
    requires Sound(a) && Sound(b)
    ensures Sound(a + b)
  {
    var c := a + b;
    forall i | 0 <= i < |c|
      ensures SoundResource(c[i])
    {
      if i < |a| {
        assert c[i] == a[i];
      } else {
        assert c[i] == b[i - |a|];
      }
    }
  }

  lemma ReadGrantsSound(prefix: string, saKey: string, projectId: string, location: string, registries: seq<string>)
    ensures Sound(ReadGrants(prefix, saKey, projectId, location, registries))
  {
  }

  lemma EnvironmentSound(projectId: string, projectNumber: string, location: string, repo: RepoConfig, env: EnvConfig)
    ensures Sound(EnvironmentResources(projectId, projectNumber, location, repo, env))
  {
    var saKey := AccountKey(projectId, repo, env);
    var head := EnvironmentHead(projectId, projectNumber, location, repo, env);
    var grants := ReadGrants(GrantPrefix(projectId, repo, env), saKey, projectId, location, env.readRegistries);
    ReadGrantsSound(GrantPrefix(projectId, repo, env), saKey, projectId, location, env.readRegistries);
    SoundAppend(head, grants);
    SoundAppend(head + grants, ManageGithubSecrets(repo.githubRepo, env.name, ProviderResourceName(projectNumber), saKey));
  }

  lemma {:induction false} EnvironmentsSound(projectId: string, projectNumber: string, location: string, repo: RepoConfig,
                                             envs: seq<EnvConfig>)
    ensures Sound(EnvironmentsResources(projectId, projectNumber, location, repo, envs))
    decreases |envs|
  {
    if |envs| > 0 {
      EnvironmentsSound(projectId, projectNumber, location, repo, envs[..|envs| - 1]);
      EnvironmentSound(projectId, projectNumber, location, repo, envs[|envs| - 1]);
      SoundAppend(EnvironmentsResources(projectId, projectNumber, location, repo, envs[..|envs| - 1]),
                  EnvironmentResources(projectId, projectNumber, location, repo, envs[|envs| - 1]));
    }
  }

  lemma {:induction false} RepositoriesSound(projectId: string, projectNumber: string, location: string, repos: seq<RepoConfig>)
    ensures Sound(RepositoriesResources(projectId, projectNumber, location, repos))
    decreases |repos|
  {
    if |repos| > 0 {
      var repo := repos[|repos| - 1];
      RepositoriesSound(projectId, projectNumber, location, repos[..|repos| - 1]);
      EnvironmentsSound(projectId, projectNumber, location, repo, repo.environments);
      SoundAppend(RepositoriesResources(projectId, projectNumber, location, repos[..|repos| - 1]),
                  EnvironmentsResources(projectId, projectNumber, location, repo, repo.environments));
    }
  }

  lemma {:induction false} ProjectsSound(projects: seq<(string, ProjectConfig)>)
    requires forall i :: 0 <= i < |projects| ==> CompleteProject(projects[i].1)
    ensures Sound(ProjectsResources(projects))
    decreases |projects|
  {
    if |projects| > 0 {
      var n := |projects| - 1;
      var (id, pc) := projects[n];
      ProjectsSound(projects[..n]);
      RepositoriesSound(id, pc.projectNumber.value, pc.location.value, pc.repositories.value);
      assert Sound(ProjectHead(id));
      SoundAppend(ProjectHead(id), RepositoriesResources(id, pc.projectNumber.value, pc.location.value, pc.repositories.value));
      SoundAppend(ProjectsResources(projects[..n]), ProjectResources(id, pc));
    }
  }

  // ---------------------------------------------------------------------
  // Setup

  /** The resources of one environment: account, impersonation, push grant, read grants and secrets. */
  method SetupEnvironment(projectId: string, projectNumber: string, location: string, repo: RepoConfig, env: EnvConfig)
    returns (rs: seq<Resource>)
    ensures rs == EnvironmentResources(projectId, projectNumber, location, repo, env)
  {
    var saKey := AccountKey(projectId, repo, env);
    var prefix := GrantPrefix(projectId, repo, env);
    var grants: seq<Resource> := [];
    var idx := 0;
    while idx < |env.readRegistries|
      invariant 0 <= idx <= |env.readRegistries|
      invariant grants == ReadGrants(prefix, saKey, projectId, location, env.readRegistries[..idx])
    {
      var registry := env.readRegistries[idx];
      ReadGrantsStep(prefix, saKey, projectId, location, env.readRegistries, idx);
      grants := grants + [RegistryAccess(prefix + "-" + registry + "-read-" + IntToString(idx), saKey, projectId, location,
                                         registry, Reader)];
      idx := idx + 1;
    }
    assert env.readRegistries[..idx] == env.readRegistries;
    rs := EnvironmentHead(projectId, projectNumber, location, repo, env) + grants +
          ManageGithubSecrets(repo.githubRepo, env.name, ProviderResourceName(projectNumber), saKey);
  }

  lemma ReadGrantsStep(prefix: string, saKey: string, projectId: string, location: string, registries: seq<string>, i: nat)
    requires i < |registries|
    ensures ReadGrants(prefix, saKey, projectId, location, registries[..i + 1]) ==
            ReadGrants(prefix, saKey, projectId, location, registries[..i]) +
            [RegistryAccess(prefix + "-" + registries[i] + "-read-" + IntToString(i), saKey, projectId, location,
                            registries[i], Reader)]
  {
    assert registries[..i + 1][..i] == registries[..i];
  }

  method SetupRepository(projectId: string, projectNumber: string, location: string, repo: RepoConfig)
    returns (rs: seq<Resource>)
    ensures rs == EnvironmentsResources(projectId, projectNumber, location, repo, repo.environments)
  {
    rs := [];
    var i := 0;
    while i < |repo.environments|
      invariant 0 <= i <= |repo.environments|
      invariant rs == EnvironmentsResources(projectId, projectNumber, location, repo, repo.environments[..i])
    {
      var envRs := SetupEnvironment(projectId, projectNumber, location, repo, repo.environments[i]);
      EnvironmentsStep(projectId, projectNumber, location, repo, repo.environments, i);
      rs := rs + envRs;
      i := i + 1;
    }
    assert repo.environments[..i] == repo.environments;
  }

  lemma EnvironmentsStep(projectId: string, projectNumber: string, location: string, repo: RepoConfig,
                         envs: seq<EnvConfig>, i: nat)
    requires i < |envs|
    ensures EnvironmentsResources(projectId, projectNumber, location, repo, envs[..i + 1]) ==
            EnvironmentsResources(projectId, projectNumber, location, repo, envs[..i]) +
            EnvironmentResources(projectId, projectNumber, location, repo, envs[i])
  {
    assert envs[..i + 1][..i] == envs[..i];
  }

  method SetupRepositories(projectId: string, projectNumber: string, location: string, repos: seq<RepoConfig>)
    returns (rs: seq<Resource>)
    ensures rs == RepositoriesResources(projectId, projectNumber, location, repos)
  {
    rs := [];
    var i := 0;
    while i < |repos|
      invariant 0 <= i <= |repos|
      invariant rs == RepositoriesResources(projectId, projectNumber, location, repos[..i])
    {
      assert repos[..i + 1][..i] == repos[..i];
      var repoRs := SetupRepository(projectId, projectNumber, location, repos[i]);
      rs := rs + repoRs;
      i := i + 1;
    }
    assert repos[..i] == repos;
  }

  method SetupProject(projectId: string, pc: ProjectConfig) returns (rs: seq<Resource>)
    requires CompleteProject(pc)
    ensures rs == ProjectResources(projectId, pc)
  {
    var body := SetupRepositories(projectId, pc.projectNumber.value, pc.location.value, pc.repositories.value);
    rs := ProjectHead(projectId) + body;
  }

  /** Every project's resources, project by project in order. */
  method SetupProjects(projects: seq<(string, ProjectConfig)>) returns (rs: seq<Resource>)
    requires forall i :: 0 <= i < |projects| ==> CompleteProject(projects[i].1)
    ensures rs == ProjectsResources(projects)
  {
    rs := [];
    var i := 0;
    while i < |projects|
      invariant 0 <= i <= |projects|
      invariant rs == ProjectsResources(projects[..i])
    {
      assert projects[..i + 1][..i] == projects[..i];
      var projectRs := SetupProject(projects[i].0, projects[i].1);
      rs := rs + projectRs;
      i := i + 1;
    }
    assert projects[..i] == projects;
  }

  /**
   * `setup_github_wif_infrastructure`: the configuration check, then every
   * project's resources in order; the deployment is sound.
   */
  method SetupGithubWifInfrastructure(config: WifConfig) returns (r: Result<seq<Resource>, WifError>)
    ensures r.Err? <==> ValidateConfig(config).Err?
    ensures r.Err? ==> r.error == ValidateConfig(config).error
    ensures r.Ok? ==> r.value == ProjectsResources(config.projects.value) && Sound(r.value)
  {
    var valid := ValidateConfig(config);
    if valid.Err? {
      return Err(valid.error);
    }
    var projects := config.projects.value;
    assert ValidateProjects(projects).Ok?;
    var rs := SetupProjects(projects);
    ProjectsSound(projects);
    r := Ok(rs);
  }
}
