// The dynamic providers for Hail Batch users, billing projects and
// billing-project memberships.  Each HTTP exchange is replaced by the reply
// the server gives, and the process environment and the tokens file by the
// values they hold; the operations take them as parameters.
module HailBatch {
  import opened Wrappers
  import opened Strings
  import opened Dynamic

  datatype HailError =
    | MissingToken(category: string, envKey: string)   // the ValueError of a category without a token
    | HTTPError(status: int)                           // `raise_for_status` on a 4xx or 5xx reply
    | ValueError(message: string)
    | Failure(message: string)                         // a bare `Exception`

  /** Where a token may come from: the environment, and `~/.hail/tokens.json` if it exists. */
  datatype TokenSources = TokenSources(env: map<string, string>, tokensFile: Option<map<string, string>>)

  /** A reply of the batch server: its status, its text and its decoded body. */
  datatype Reply<T> = Reply(status: int, text: string, body: T)

  /** `raise_for_status` raises exactly for client and server errors. */
  predicate IsErrorStatus(status: int)
  {
    400 <= status < 600
  }

  /** `resp.ok`. */
  predicate Succeeded(status: int)
  {
    !IsErrorStatus(status)
  }

  // ---------------------------------------------------------------- tokens

  function TokenEnvKey(category: string): string
  {
    "HAIL_TOKEN_" + Upper(category)
  }

  /** `get_hail_batch_auth_token`: a non-empty environment value first, then a non-empty tokens-file entry. */
  function AuthToken(category: string, src: TokenSources): (r: Result<string, HailError>)
    ensures TokenEnvKey(category) in src.env && src.env[TokenEnvKey(category)] != "" ==> r == Ok(src.env[TokenEnvKey(category)])
    ensures r.Ok? ==> r.value != ""
    ensures r.Ok? && (TokenEnvKey(category) !in src.env || src.env[TokenEnvKey(category)] == "") ==>
      src.tokensFile.Some? && category in src.tokensFile.value && src.tokensFile.value[category] == r.value
    ensures r.Err? <==>
      (TokenEnvKey(category) !in src.env || src.env[TokenEnvKey(category)] == "")
      && (src.tokensFile.None? || category !in src.tokensFile.value || src.tokensFile.value[category] == "")
    ensures r.Err? ==> r.error == MissingToken(category, TokenEnvKey(category))
  {
    var key := TokenEnvKey(category);
    if key in src.env && src.env[key] != "" then Ok(src.env[key])
    else if src.tokensFile.Some? && category in src.tokensFile.value && src.tokensFile.value[category] != "" then
      Ok(src.tokensFile.value[category])
    else Err(MissingToken(category, key))
  }

  const AuthorizationHeader := "Authorization"
  const InternalAuthorizationHeader := "X-Hail-Internal-Authorization"

  /** `get_hail_batch_auth_headers`. */
  function AuthHeaders(category: string, batchUri: string, src: TokenSources): (r: Result<map<string, string>, HailError>)
    ensures r.Ok? <==> AuthToken(category, src).Ok?
    ensures r.Ok? ==> AuthorizationHeader in r.value && r.value[AuthorizationHeader] == "Bearer " + AuthToken(category, src).value
    ensures r.Ok? ==> (InternalAuthorizationHeader in r.value <==> StartsWith(batchUri, "https://internal.hail"))
    ensures r.Ok? && InternalAuthorizationHeader in r.value ==> r.value[InternalAuthorizationHeader] == r.value[AuthorizationHeader]
    ensures r.Ok? ==> r.value.Keys <= {AuthorizationHeader, InternalAuthorizationHeader}
  {
    match AuthToken(category, src)
    case Err(e) => Err(e)
    case Ok(token) =>
      var headers := map[AuthorizationHeader := "Bearer " + token];
      if StartsWith(batchUri, "https://internal.hail") then
        Ok(headers[InternalAuthorizationHeader := "Bearer " + token])
      else Ok(headers)
  }

  // ---------------------------------------------------------------- urls and ids

  function BillingProjectUrl(batchUri: string, name: string): string
  {
    batchUri + "/api/v1alpha/billing_projects/" + name
  }

  function UserUrl(batchUri: string, username: string): string
  {
    batchUri + "/api/v1alpha/users/" + username
  }

  function MembershipUrl(batchUri: string, project: string, user: string, action: string): string
  {
    BillingProjectUrl(batchUri, project) + "/users/" + user + "/" + action
  }

  /** The id of a user or a billing project: `{category}::{uri}::{name}`. */
  function ResourceId(category: string, batchUri: string, name: string): string
  {
    category + "::" + batchUri + "::" + name
  }

  /** A field that can sit between `::` separators and be recovered by splitting. */
  predicate IdField(s: string)
  {
    !Contains(s, "::") && (|s| == 0 || s[|s| - 1] != ':')
  }

  /** `token_category, batch_uri, billing_project_name = id.split('::')`. */
  function ParseBillingProjectId(id: string): (r: Result<(string, string, string), HailError>)
    ensures r.Ok? <==> |Split(id, "::")| == 3
    ensures r.Ok? ==> r.value == (Split(id, "::")[0], Split(id, "::")[1], Split(id, "::")[2])
  {
    var parts := Split(id, "::");
    if |parts| == 3 then Ok((parts[0], parts[1], parts[2]))
    else Err(ValueError("wrong number of values to unpack"))
  }

  /** The three fields of a billing project's id come back from splitting it. */
  lemma ParseResourceId(category: string, batchUri: string, name: string)
    requires IdField(category) && IdField(batchUri) && !Contains(name, "::")
    ensures ParseBillingProjectId(ResourceId(category, batchUri, name)) == Ok((category, batchUri, name))
  {
    SepSafeDoubleColon(category);
    SepSafeDoubleColon(batchUri);
    var parts := [category, batchUri, name];
    assert parts[1..] == [batchUri, name];
    assert [batchUri, name][1..] == [name];
    assert Join([name], "::") == name;
    assert Join([batchUri, name], "::") == batchUri + "::" + name;
    assert Join(parts, "::") == ResourceId(category, batchUri, name);
    SplitJoin(parts, "::");
  }

  // ---------------------------------------------------------------- lookups

  /** A user as the server describes it. */
  datatype HailUser = HailUser(hailIdentity: Option<string>)

  /** A billing project as the server describes it. */
  datatype BillingProject = BillingProject(status: string, users: seq<string>)

  /** `get_hail_batch_user`: absent on 404, raised on any other error status. */
  function GetUser(category: string, batchUri: string, src: TokenSources, reply: Reply<HailUser>): (r: Result<Option<HailUser>, HailError>)
    ensures AuthToken(category, src).Err? ==> r == Err(AuthToken(category, src).error)
    ensures AuthToken(category, src).Ok? ==> (r == Ok(None) <==> reply.status == 404)
    ensures AuthToken(category, src).Ok? ==> (r.Err? <==> reply.status != 404 && IsErrorStatus(reply.status))
    ensures r.Ok? && r.value.Some? ==> r.value.value == reply.body
  {
    match AuthHeaders(category, batchUri, src)
    case Err(e) => Err(e)
    case Ok(_) =>
      if reply.status == 404 then Ok(None)
      else if IsErrorStatus(reply.status) then Err(HTTPError(reply.status))
      else Ok(Some(reply.body))
  }

  /** `get_hail_batch_billing_project`: absent on 404 and on a 403 naming an unknown project. */
  function GetBillingProject(category: string, batchUri: string, src: TokenSources, reply: Reply<BillingProject>): (r: Result<Option<BillingProject>, HailError>)
    ensures AuthToken(category, src).Err? ==> r == Err(AuthToken(category, src).error)
    ensures AuthToken(category, src).Ok? ==>
      (r == Ok(None) <==> reply.status == 404 || (reply.status == 403 && Contains(reply.text, "Unknown Hail Batch")))
    ensures r.Ok? && r.value.Some? ==> r.value.value == reply.body && Succeeded(reply.status)
  {
    match AuthHeaders(category, batchUri, src)
    case Err(e) => Err(e)
    case Ok(_) =>
      if reply.status == 404 then Ok(None)
      else if reply.status == 403 && Contains(reply.text, "Unknown Hail Batch") then Ok(None)
      else if IsErrorStatus(reply.status) then Err(HTTPError(reply.status))
      else Ok(Some(reply.body))
  }

  /** A user's identity counts only when it is a non-empty string. */
  function Identity(u: Option<HailUser>): Option<string>
  {
    if u.Some? && u.value.hailIdentity.Some? && u.value.hailIdentity.value != "" then u.value.hailIdentity else None
  }

  // ---------------------------------------------------------------- users

  datatype UserInputs = UserInputs(username: string, batchUri: string, tokenCategory: string)

  datatype UserOutputs = UserOutputs(cloudId: Option<string>, username: string, batchUri: string, tokenCategory: string)

  datatype UserCreated = UserCreated(id: string, outs: UserOutputs)

  const PollAttempts := 7

  /**
   * The wait after the user is posted: up to `attempts` polls, starting with
   * the `i`-th reply, until one reports an identity.  A poll that raises
   * ends the wait with its error.
   */
  function Poll(props: UserInputs, src: TokenSources, polls: nat -> Reply<HailUser>, i: nat, attempts: nat): Result<Option<string>, HailError>
    decreases attempts
  {
    if attempts == 0 then Ok(None)
    else
      match GetUser(props.tokenCategory, props.batchUri, src, polls(i))
      case Err(e) => Err(e)
      case Ok(u) =>
        if Identity(u).Some? then Ok(Identity(u))
        else Poll(props, src, polls, i + 1, attempts - 1)
  }

  /** The number of polls the wait makes. */
  function PollCount(props: UserInputs, src: TokenSources, polls: nat -> Reply<HailUser>, i: nat, attempts: nat): (n: nat)
    ensures n <= attempts
    decreases attempts
  {
    if attempts == 0 then 0
    else
      match GetUser(props.tokenCategory, props.batchUri, src, polls(i))
      case Err(_) => 1
      case Ok(u) =>
        if Identity(u).Some? then 1
        else 1 + PollCount(props, src, polls, i + 1, attempts - 1)
  }

  /** A reply that neither raises nor reports an identity. */
  predicate Pending(props: UserInputs, src: TokenSources, reply: Reply<HailUser>)
  {
    var u := GetUser(props.tokenCategory, props.batchUri, src, reply);
    u.Ok? && Identity(u.value).None?
  }

  /** The wait settles on the first identity reported within its attempts. */
  lemma {:induction false} PollFindsFirstIdentity(props: UserInputs, src: TokenSources, polls: nat -> Reply<HailUser>, i: nat, attempts: nat, k: nat)
    requires i <= k < i + attempts
    requires forall j :: i <= j < k ==> Pending(props, src, polls(j))
    requires GetUser(props.tokenCategory, props.batchUri, src, polls(k)).Ok?
    requires Identity(GetUser(props.tokenCategory, props.batchUri, src, polls(k)).value).Some?
    ensures Poll(props, src, polls, i, attempts) == Ok(Identity(GetUser(props.tokenCategory, props.batchUri, src, polls(k)).value))
    decreases attempts
  {
    if k > i {
      PollFindsFirstIdentity(props, src, polls, i + 1, attempts - 1, k);
    }
  }

  /** When every poll within the attempts is still pending, the wait gives up. */
  lemma {:induction false} PollGivesUp(props: UserInputs, src: TokenSources, polls: nat -> Reply<HailUser>, i: nat, attempts: nat)
    requires forall j :: i <= j < i + attempts ==> Pending(props, src, polls(j))
    ensures Poll(props, src, polls, i, attempts) == Ok(None)
    ensures PollCount(props, src, polls, i, attempts) == attempts
    decreases attempts
  {
    if attempts > 0 {
      PollGivesUp(props, src, polls, i + 1, attempts - 1);
    }
  }

  /**
   * `HailBatchUserProvider.create` as a function of the replies: an existing
   * user is reported without a POST; otherwise the POST must succeed and one
   * of seven polls must report an identity.
   */
  function CreateUserOutcome(props: UserInputs, src: TokenSources, lookup: Reply<HailUser>, post: Reply<()>, polls: nat -> Reply<HailUser>): Result<UserCreated, HailError>
  {
    var id := ResourceId(props.tokenCategory, props.batchUri, props.username);
    match GetUser(props.tokenCategory, props.batchUri, src, lookup)
    case Err(e) => Err(e)
    case Ok(Some(u)) => Ok(UserCreated(id, UserOutputs(u.hailIdentity, props.username, props.batchUri, props.tokenCategory)))
    case Ok(None) =>
      if IsErrorStatus(post.status) then Err(HTTPError(post.status))
      else
        match Poll(props, src, polls, 0, PollAttempts)
        case Err(e) => Err(e)
        case Ok(None) => Err(Failure("Hail user " + props.username + " did not create in time"))
        case Ok(Some(cloudId)) => Ok(UserCreated(id, UserOutputs(Some(cloudId), props.username, props.batchUri, props.tokenCategory)))
  }

  /** `HailBatchUserProvider.create`; `posted` is whether the create request was sent and `polled` how many polls were made. */
  method CreateUser(props: UserInputs, src: TokenSources, lookup: Reply<HailUser>, post: Reply<()>, polls: nat -> Reply<HailUser>)
    returns (r: Result<UserCreated, HailError>, posted: bool, polled: nat)
    ensures r == CreateUserOutcome(props, src, lookup, post, polls)
    ensures posted <==> GetUser(props.tokenCategory, props.batchUri, src, lookup) == Ok(None)
    ensures polled == (if posted && !IsErrorStatus(post.status) then PollCount(props, src, polls, 0, PollAttempts) else 0)
    ensures polled <= PollAttempts
  {
    posted := false;
    polled := 0;
    var id := ResourceId(props.tokenCategory, props.batchUri, props.username);
    var userObj := GetUser(props.tokenCategory, props.batchUri, src, lookup);
    if userObj.Err? {
      return Err(userObj.error), posted, polled;
    }
    if userObj.value.Some? {
      var u := userObj.value.value;
      return Ok(UserCreated(id, UserOutputs(u.hailIdentity, props.username, props.batchUri, props.tokenCategory))), posted, polled;
    }
    posted := true;
    if IsErrorStatus(post.status) {
      return Err(HTTPError(post.status)), posted, polled;
    }
    var waited;
    waited, polled := WaitForIdentity(props, src, polls);
    match waited
    case Err(e) =>
      return Err(e), posted, polled;
    case Ok(None) =>
      return Err(Failure("Hail user " + props.username + " did not create in time")), posted, polled;
    case Ok(Some(cloudId)) =>
      return Ok(UserCreated(id, UserOutputs(Some(cloudId), props.username, props.batchUri, props.tokenCategory))), posted, polled;
  }

  /**
   * The polling loop: up to seven polls, stopping at the first that raises
   * or reports an identity; `polled` counts the polls made.
   */
  method WaitForIdentity(props: UserInputs, src: TokenSources, polls: nat -> Reply<HailUser>) returns (r: Result<Option<string>, HailError>, polled: nat)
    ensures r == Poll(props, src, polls, 0, PollAttempts)
    ensures polled == PollCount(props, src, polls, 0, PollAttempts)
    ensures r.Ok? && r.value.Some? ==> r.value.value != ""
  {
    var attempts: nat := PollAttempts;
    polled := 0;
    while attempts > 0
      invariant polled + attempts == PollAttempts
      invariant Poll(props, src, polls, 0, PollAttempts) == Poll(props, src, polls, polled, attempts)
      invariant PollCount(props, src, polls, 0, PollAttempts) == polled + PollCount(props, src, polls, polled, attempts)
    {
      var polledUser := GetUser(props.tokenCategory, props.batchUri, src, polls(polled));
      PollStep(props, src, polls, polled, attempts);
      if polledUser.Err? {
        return Err(polledUser.error), polled + 1;
      }
      if Identity(polledUser.value).Some? {
        return Ok(Identity(polledUser.value)), polled + 1;
      }
      polled := polled + 1;
      attempts := attempts - 1;
    }
    return Ok(None), polled;
  }

  /** One poll of the wait: it stops on an error or an identity, and otherwise goes on to the next. */
  lemma PollStep(props: UserInputs, src: TokenSources, polls: nat -> Reply<HailUser>, i: nat, attempts: nat)
    requires attempts > 0
    ensures var u := GetUser(props.tokenCategory, props.batchUri, src, polls(i));
      if u.Err? then Poll(props, src, polls, i, attempts) == Err(u.error) && PollCount(props, src, polls, i, attempts) == 1
      else if Identity(u.value).Some? then
        Poll(props, src, polls, i, attempts) == Ok(Identity(u.value)) && PollCount(props, src, polls, i, attempts) == 1
      else
        Poll(props, src, polls, i, attempts) == Poll(props, src, polls, i + 1, attempts - 1) &&
        PollCount(props, src, polls, i, attempts) == 1 + PollCount(props, src, polls, i + 1, attempts - 1)
  {
  }

  /** `HailBatchUserProvider.read`: an absent user reads as gone. */
  function ReadUser(id: string, props: UserInputs, src: TokenSources, reply: Reply<HailUser>): (r: Result<ReadResult<UserOutputs>, HailError>)
    ensures r.Ok? <==> GetUser(props.tokenCategory, props.batchUri, src, reply).Ok?
    ensures r.Ok? ==> (r.value.Gone? <==> reply.status == 404)
    ensures r.Ok? && r.value.Present? ==>
      r.value.id == id && r.value.outs == UserOutputs(reply.body.hailIdentity, props.username, props.batchUri, props.tokenCategory)
  {
    match GetUser(props.tokenCategory, props.batchUri, src, reply)
    case Err(e) => Err(e)
    case Ok(None) => Ok(Gone)
    case Ok(Some(u)) => Ok(Present(id, UserOutputs(u.hailIdentity, props.username, props.batchUri, props.tokenCategory)))
  }

  /** `HailBatchUserProvider.diff`: a new username or batch URI replaces the user. */
  function DiffUser(olds: UserInputs, news: UserInputs): (r: DiffResult)
    ensures "username" in r.replaceKeys <==> olds.username != news.username
    ensures "batch_uri" in r.replaceKeys <==> olds.batchUri != news.batchUri
    ensures forall k :: k in r.replaceKeys ==> k == "username" || k == "batch_uri"
    ensures r.changes <==> |r.replaceKeys| > 0
    ensures !r.deleteBeforeReplace
  {
    var replacing := (if olds.username != news.username then ["username"] else [])
      + (if olds.batchUri != news.batchUri then ["batch_uri"] else []);
    DiffResult(|replacing| > 0, replacing, false)
  }

  // ---------------------------------------------------------------- billing projects

  datatype ProjectInputs = ProjectInputs(name: string, batchUri: string, tokenCategory: string)

  datatype ProjectAction = Reopen(url: string) | CreateNew(url: string)

  datatype ProjectCreated = ProjectCreated(id: string, outs: ProjectInputs, action: ProjectAction)

  /**
   * `HailBatchBillingProjectProvider.create`: a closed project is reopened,
   * anything else (absent or open) is created.
   */
  function CreateBillingProject(props: ProjectInputs, src: TokenSources, lookup: Reply<BillingProject>, post: Reply<()>): (r: Result<ProjectCreated, HailError>)
    ensures r.Ok? ==> r.value.id == ResourceId(props.tokenCategory, props.batchUri, props.name) && r.value.outs == props
    ensures r.Ok? ==> !IsErrorStatus(post.status)
    ensures r.Ok? ==> (r.value.action.Reopen? <==>
      GetBillingProject(props.tokenCategory, props.batchUri, src, lookup) == Ok(Some(lookup.body)) && lookup.body.status == "closed")
    ensures r.Ok? && r.value.action.Reopen? ==> r.value.action.url == BillingProjectUrl(props.batchUri, props.name) + "/reopen"
    ensures r.Ok? && r.value.action.CreateNew? ==> r.value.action.url == BillingProjectUrl(props.batchUri, props.name) + "/create"
    ensures GetBillingProject(props.tokenCategory, props.batchUri, src, lookup).Ok? && IsErrorStatus(post.status) ==> r == Err(HTTPError(post.status))
    ensures GetBillingProject(props.tokenCategory, props.batchUri, src, lookup).Err? ==> r == Err(GetBillingProject(props.tokenCategory, props.batchUri, src, lookup).error)
  {
    match GetBillingProject(props.tokenCategory, props.batchUri, src, lookup)
    case Err(e) => Err(e)
    case Ok(previous) =>
      var action :=
        if previous.Some? && previous.value.status == "closed" then Reopen(BillingProjectUrl(props.batchUri, props.name) + "/reopen")
        else CreateNew(BillingProjectUrl(props.batchUri, props.name) + "/create");
      if IsErrorStatus(post.status) then Err(HTTPError(post.status))
      else Ok(ProjectCreated(ResourceId(props.tokenCategory, props.batchUri, props.name), props, action))
  }

  /** The project is in use: listed and not closed. */
  function OpenProject(lookup: Result<Option<BillingProject>, HailError>): Result<Option<BillingProject>, HailError>
  {
    match lookup
    case Err(e) => Err(e)
    case Ok(None) => Ok(None)
    case Ok(Some(p)) => if p.status == "closed" then Ok(None) else Ok(Some(p))
  }

  /** `HailBatchBillingProjectProvider.read`: an absent or closed project reads as gone. */
  function ReadBillingProject(id: string, props: ProjectInputs, src: TokenSources, lookup: Reply<BillingProject>): (r: Result<ReadResult<ProjectInputs>, HailError>)
    ensures r.Ok? <==> GetBillingProject(props.tokenCategory, props.batchUri, src, lookup).Ok?
    ensures r.Ok? ==> (r.value.Gone? <==>
      GetBillingProject(props.tokenCategory, props.batchUri, src, lookup).value.None? || lookup.body.status == "closed")
    ensures r.Ok? && r.value.Present? ==> r.value == Present(id, props)
  {
    match OpenProject(GetBillingProject(props.tokenCategory, props.batchUri, src, lookup))
    case Err(e) => Err(e)
    case Ok(None) => Ok(Gone)
    case Ok(Some(_)) => Ok(Present(id, props))
  }

  /** `HailBatchBillingProjectProvider.delete`: the project is closed; a reply that is not ok is a ValueError. */
  function DeleteBillingProject(props: ProjectInputs, src: TokenSources, reply: Reply<()>): (r: Result<string, HailError>)
    ensures r.Ok? <==> AuthToken(props.tokenCategory, src).Ok? && Succeeded(reply.status)
    ensures r.Ok? ==> r.value == BillingProjectUrl(props.batchUri, props.name) + "/close"
    ensures AuthToken(props.tokenCategory, src).Ok? && !Succeeded(reply.status) ==>
      r == Err(ValueError("Could not close billing project " + props.name + ": " + reply.text))
  {
    match AuthHeaders(props.tokenCategory, props.batchUri, src)
    case Err(e) => Err(e)
    case Ok(_) =>
      if !Succeeded(reply.status) then Err(ValueError("Could not close billing project " + props.name + ": " + reply.text))
      else Ok(BillingProjectUrl(props.batchUri, props.name) + "/close")
  }

  /** `HailBatchBillingProjectProvider.diff`: a new name or batch URI replaces the project. */
  function DiffBillingProject(olds: ProjectInputs, news: ProjectInputs): (r: DiffResult)
    ensures "name" in r.replaceKeys <==> olds.name != news.name
    ensures "batch_uri" in r.replaceKeys <==> olds.batchUri != news.batchUri
    ensures forall k :: k in r.replaceKeys ==> k == "name" || k == "batch_uri"
    ensures r.changes <==> |r.replaceKeys| > 0
    ensures !r.deleteBeforeReplace
  {
    var replacing := (if olds.name != news.name then ["name"] else [])
      + (if olds.batchUri != news.batchUri then ["batch_uri"] else []);
    DiffResult(|replacing| > 0, replacing, false)
  }

  // ---------------------------------------------------------------- memberships

  /** A membership's inputs; the billing project is given by its id. */
  datatype MembershipInputs = MembershipInputs(billingProject: string, user: string)

  datatype MembershipCreated = MembershipCreated(id: string, outs: MembershipInputs, url: string)

  /**
   * `HailBatchBillingProjectMembershipProvider.create`: the project id is
   * split into its three fields and the user added to that project.
   */
  function CreateMembership(props: MembershipInputs, src: TokenSources, post: Reply<()>): (r: Result<MembershipCreated, HailError>)
    ensures ParseBillingProjectId(props.billingProject).Err? ==> r == Err(ParseBillingProjectId(props.billingProject).error)
    ensures r.Ok? ==> ParseBillingProjectId(props.billingProject).Ok? && !IsErrorStatus(post.status)
    ensures r.Ok? ==> r.value.outs == props
    ensures r.Ok? ==> var (category, uri, project) := ParseBillingProjectId(props.billingProject).value;
      r.value.id == ResourceId(category, uri, project) + "::" + props.user
      && r.value.url == MembershipUrl(uri, project, props.user, "add")
  {
    match ParseBillingProjectId(props.billingProject)
    case Err(e) => Err(e)
    case Ok((category, uri, project)) =>
      match AuthHeaders(category, uri, src)
      case Err(e) => Err(e)
      case Ok(_) =>
        if IsErrorStatus(post.status) then Err(HTTPError(post.status))
        else
          Ok(MembershipCreated(ResourceId(category, uri, project) + "::" + props.user, props, MembershipUrl(uri, project, props.user, "add")))
  }

  /** A membership of a project this provider created has the project's id with the user appended. */
  lemma MembershipIdExtendsProjectId(category: string, batchUri: string, name: string, user: string, src: TokenSources, post: Reply<()>)
    requires IdField(category) && IdField(batchUri) && !Contains(name, "::")
    requires CreateMembership(MembershipInputs(ResourceId(category, batchUri, name), user), src, post).Ok?
    ensures CreateMembership(MembershipInputs(ResourceId(category, batchUri, name), user), src, post).value.id
         == ResourceId(category, batchUri, name) + "::" + user
    ensures CreateMembership(MembershipInputs(ResourceId(category, batchUri, name), user), src, post).value.url
         == MembershipUrl(batchUri, name, user, "add")
  {
    ParseResourceId(category, batchUri, name);
  }

  /** `HailBatchBillingProjectMembershipProvider.read`: present iff the project is open and lists the user. */
  function ReadMembership(id: string, props: MembershipInputs, src: TokenSources, lookup: Reply<BillingProject>): (r: Result<ReadResult<MembershipInputs>, HailError>)
    ensures ParseBillingProjectId(props.billingProject).Err? ==> r == Err(ParseBillingProjectId(props.billingProject).error)
    ensures r.Ok? && r.value.Present? ==> r.value == Present(id, props)
    ensures r.Ok? ==> ParseBillingProjectId(props.billingProject).Ok?
    ensures r.Ok? ==> var (category, uri, _) := ParseBillingProjectId(props.billingProject).value;
      var found := GetBillingProject(category, uri, src, lookup);
      found.Ok? && (r.value.Present? <==> found.value.Some? && lookup.body.status != "closed" && props.user in lookup.body.users)
  {
    match ParseBillingProjectId(props.billingProject)
    case Err(e) => Err(e)
    case Ok((category, uri, _)) =>
      match OpenProject(GetBillingProject(category, uri, src, lookup))
      case Err(e) => Err(e)
      case Ok(None) => Ok(Gone)
      case Ok(Some(p)) => if props.user in p.users then Ok(Present(id, props)) else Ok(Gone)
  }

  /** `HailBatchBillingProjectMembershipProvider.delete`: the user is removed; a reply that is not ok is a ValueError. */
  function DeleteMembership(props: MembershipInputs, src: TokenSources, reply: Reply<()>): (r: Result<string, HailError>)
    ensures ParseBillingProjectId(props.billingProject).Err? ==> r == Err(ParseBillingProjectId(props.billingProject).error)
    ensures r.Ok? ==> Succeeded(reply.status) && ParseBillingProjectId(props.billingProject).Ok?
    ensures r.Ok? ==> var (_, uri, project) := ParseBillingProjectId(props.billingProject).value;
      r.value == MembershipUrl(uri, project, props.user, "remove")
  {
    match ParseBillingProjectId(props.billingProject)
    case Err(e) => Err(e)
    case Ok((category, uri, project)) =>
      match AuthHeaders(category, uri, src)
      case Err(e) => Err(e)
      case Ok(_) =>
        if !Succeeded(reply.status) then Err(ValueError("Could not delete user from billing project: " + reply.text))
        else Ok(MembershipUrl(uri, project, props.user, "remove"))
  }

  /** `HailBatchBillingProjectMembershipProvider.diff`: a new project or user replaces the membership, the old one first. */
  function DiffMembership(olds: MembershipInputs, news: MembershipInputs): (r: DiffResult)
    ensures "billing_project" in r.replaceKeys <==> olds.billingProject != news.billingProject
    ensures "user" in r.replaceKeys <==> olds.user != news.user
    ensures forall k :: k in r.replaceKeys ==> k == "billing_project" || k == "user"
    ensures r.changes <==> |r.replaceKeys| > 0
    ensures r.deleteBeforeReplace <==> r.changes
  {
    var replacing := (if olds.billingProject != news.billingProject then ["billing_project"] else [])
      + (if olds.user != news.user then ["user"] else []);
    DiffResult(|replacing| > 0, replacing, |replacing| > 0)
  }
}
