// The dynamic provider for Google Group memberships: paged listing of a
// group's members, lookups by member key and by membership name, and the
// create / delete / diff decisions built on them.  The Cloud Identity API is
// replaced by the replies it gives, which the operations take as parameters.
// `list_group_members` is cached for the life of the provider process, so a
// create or delete that follows earlier creates may be handed the listing
// taken before them: the caller passes that same listing again.
module GoogleGroupMembership {
  import opened Wrappers
  import opened Strings
  import opened Dynamic

  const MemberListPageSize := 100

  /** `GroupMember`: the member's email and the membership's resource name `groups/<group>/memberships/<id>`. */
  datatype GroupMember = GroupMember(memberKey: string, memberName: string)

  datatype GroupsError =
    | AttributeError(message: string)
    | Failure(message: string)    // the bare `Exception` raised for a failed operation
    | IndexError                  // a membership name without a second '/' segment

  /** `GoogleGroupMembershipProviderInputs`. */
  datatype MembershipInputs = MembershipInputs(groupId: string, memberKey: string)

  /** One membership object of a listing reply; each field is `None` when the reply lacks it. */
  datatype RawMember = RawMember(preferredMemberKeyId: Option<string>, name: Option<string>)

  /** One listing reply: `memberships` is `None` when the key is absent. */
  datatype Page = Page(memberships: Option<seq<RawMember>>, nextPageToken: Option<string>)

  /** `response.get('nextPageToken', '')`. */
  function NextToken(p: Page): string
  {
    p.nextPageToken.GetOr("")
  }

  predicate WellFormedMember(m: RawMember)
  {
    m.preferredMemberKeyId.Some? && m.name.Some?
  }

  /** One membership of a reply turned into a `GroupMember`; the key is checked before the name. */
  function ConvertMember(m: RawMember): (r: Result<GroupMember, GroupsError>)
    ensures r.Ok? <==> WellFormedMember(m)
    ensures r.Ok? ==> r.value == GroupMember(m.preferredMemberKeyId.value, m.name.value)
    ensures m.preferredMemberKeyId.None? ==> r == Err(AttributeError("preferredMemberKey not found"))
    ensures m.preferredMemberKeyId.Some? && m.name.None? ==> r == Err(AttributeError("member name not found"))
  {
    match m.preferredMemberKeyId
    case None => Err(AttributeError("preferredMemberKey not found"))
    case Some(key) =>
      match m.name
      case None => Err(AttributeError("member name not found"))
      case Some(name) => Ok(GroupMember(key, name))
  }

  /** The memberships of one reply, in order, or the error of the first malformed one. */
  function ConvertPage(ms: seq<RawMember>): (r: Result<seq<GroupMember>, GroupsError>)
    ensures r.Ok? <==> forall i :: 0 <= i < |ms| ==> WellFormedMember(ms[i])
    ensures r.Ok? ==> |r.value| == |ms| && forall i :: 0 <= i < |ms| ==> r.value[i] == ConvertMember(ms[i]).value
  {
    if |ms| == 0 then Ok([])
    else
      match ConvertMember(ms[0])
      case Err(e) => Err(e)
      case Ok(m) =>
        match ConvertPage(ms[1..])
        case Err(e) => Err(e)
        case Ok(rest) => Ok([m] + rest)
  }

  /** The error of a page is that of its first malformed membership. */
  lemma {:induction false} ConvertPageFirstError(ms: seq<RawMember>, i: nat)
    requires i < |ms| && !WellFormedMember(ms[i])
    requires forall j :: 0 <= j < i ==> WellFormedMember(ms[j])
    ensures ConvertPage(ms) == Err(ConvertMember(ms[i]).error)
    decreases i
  {
    if i > 0 {
      ConvertPageFirstError(ms[1..], i - 1);
    }
  }

  /**
   * What `list_group_members` returns when the i-th listing request is
   * answered by `pages[i]`: the pages' members in order, up to the first
   * reply without memberships or with an empty next-page token.  When the
   * replies run out, the walk ends as it does at a reply without memberships.
   */
  function Listing(pages: seq<Page>): Result<seq<GroupMember>, GroupsError>
  {
    if |pages| == 0 || pages[0].memberships.None? then Ok([])
    else
      match ConvertPage(pages[0].memberships.value)
      case Err(e) => Err(e)
      case Ok(got) =>
        if NextToken(pages[0]) == "" then Ok(got)
        else
          match Listing(pages[1..])
          case Err(e) => Err(e)
          case Ok(rest) => Ok(got + rest)
  }

  /** The concatenation of a list of member lists. */
  function Flatten(css: seq<seq<GroupMember>>): seq<GroupMember>
  {
    if |css| == 0 then [] else css[0] + Flatten(css[1..])
  }

  /**
   * A walk over the first `n` replies: each carries well-formed memberships,
   * and only the last has an empty next-page token.
   */
  predicate CompleteWalk(pages: seq<Page>, n: nat)
  {
    1 <= n <= |pages|
    && (forall i :: 0 <= i < n ==> pages[i].memberships.Some?)
    && (forall i :: 0 <= i < n ==> ConvertPage(pages[i].memberships.value).Ok?)
    && (forall i :: 0 <= i < n - 1 ==> NextToken(pages[i]) != "")
    && NextToken(pages[n - 1]) == ""
  }

  /** The members of each of the first `n` replies. */
  function PageMembers(pages: seq<Page>, n: nat): (r: seq<seq<GroupMember>>)
    requires CompleteWalk(pages, n)
    ensures |r| == n
    ensures forall i :: 0 <= i < n ==> r[i] == ConvertPage(pages[i].memberships.value).value
  {
    seq(n, i requires 0 <= i < n => ConvertPage(pages[i].memberships.value).value)
  }

  /** A complete walk lists the members of its pages concatenated in page order. */
  lemma {:induction false} ListingConcatenatesPages(pages: seq<Page>, n: nat)
    requires CompleteWalk(pages, n)
    ensures Listing(pages) == Ok(Flatten(PageMembers(pages, n)))
    decreases n
  {
    var css := PageMembers(pages, n);
    assert pages[0].memberships.Some? && ConvertPage(pages[0].memberships.value).Ok?;
    assert css[0] == ConvertPage(pages[0].memberships.value).value;
    if n == 1 {
      assert NextToken(pages[0]) == "";
      assert Listing(pages) == Ok(css[0]);
      assert Flatten(css[1..]) == [];
      assert Flatten(css) == css[0] + Flatten(css[1..]);
      assert css[0] + [] == css[0];
    } else {
      assert CompleteWalk(pages[1..], n - 1) by {
        forall i | 0 <= i < n - 1
          ensures pages[1..][i] == pages[i + 1]
        {
        }
      }
      ListingConcatenatesPages(pages[1..], n - 1);
      assert PageMembers(pages[1..], n - 1) == css[1..];
    }
  }

  /** A first reply without memberships lists no member at all, whatever follows. */
  lemma ListingStopsWithoutMemberships(pages: seq<Page>)
    requires |pages| > 0 && pages[0].memberships.None?
    ensures Listing(pages) == Ok([])
  {
  }

  /** Members already gathered, in front of the outcome of the rest of a walk. */
  function Prepend(members: seq<GroupMember>, rest: Result<seq<GroupMember>, GroupsError>): Result<seq<GroupMember>, GroupsError>
  {
    match rest
    case Err(e) => Err(e)
    case Ok(more) => Ok(members + more)
  }

  lemma PrependNothing(r: Result<seq<GroupMember>, GroupsError>)
    ensures Prepend([], r) == r
  {
    if r.Ok? {
      assert [] + r.value == r.value;
    }
  }

  lemma PrependTwice(a: seq<GroupMember>, b: seq<GroupMember>, r: Result<seq<GroupMember>, GroupsError>)
    ensures Prepend(a, Prepend(b, r)) == Prepend(a + b, r)
  {
    if r.Ok? {
      assert a + (b + r.value) == (a + b) + r.value;
    }
  }

  /**
   * `list_group_members` as the loop it is: each reply's memberships are
   * appended in order until a reply lacks them or its next-page token is
   * empty.  `sent` holds the page tokens of the requests made: the first is
   * empty and each later one is the previous reply's next-page token.
   */
  method ListGroupMembers(pages: seq<Page>) returns (r: Result<seq<GroupMember>, GroupsError>, sent: seq<string>)
    ensures r == Listing(pages)
    ensures 1 <= |sent| <= |pages| + 1 && sent[0] == ""
    ensures forall i :: 0 <= i < |sent| - 1 ==> pages[i].memberships.Some? && sent[i + 1] == NextToken(pages[i])
  {
    var members: seq<GroupMember> := [];
    var nextPageToken := "";
    var k := 0;
    sent := [];
    assert pages[0..] == pages;
    PrependNothing(Listing(pages));
    while true
      invariant 0 <= k <= |pages|
      invariant |sent| == k && (k > 0 ==> sent[0] == "")
      invariant forall i :: 0 <= i < k - 1 ==> pages[i].memberships.Some? && sent[i + 1] == NextToken(pages[i])
      invariant k > 0 ==> pages[k - 1].memberships.Some? && nextPageToken == NextToken(pages[k - 1]) && nextPageToken != ""
      invariant k == 0 ==> nextPageToken == ""
      invariant Listing(pages) == Prepend(members, Listing(pages[k..]))
      decreases |pages| - k
    {
      sent := sent + [nextPageToken];
      if k == |pages| || pages[k].memberships.None? {
        assert Listing(pages[k..]) == Ok([]);
        assert members + [] == members;
        return Ok(members), sent;
      }
      var response := pages[k];
      var got := TakeMemberships(response.memberships.value);
      if got.Err? {
        return Err(got.error), sent;
      }
      assert pages[k..][1..] == pages[k + 1..];
      PrependTwice(members, got.value, Listing(pages[k + 1..]));
      members := members + got.value;
      nextPageToken := NextToken(response);
      if |nextPageToken| == 0 {
        assert Listing(pages[k..]) == Ok(got.value);
        return Ok(members), sent;
      }
      k := k + 1;
    }
  }

  /** The inner loop over one reply's memberships, raising on the first malformed one. */
  method TakeMemberships(ms: seq<RawMember>) returns (r: Result<seq<GroupMember>, GroupsError>)
    ensures r == ConvertPage(ms)
  {
    var members: seq<GroupMember> := [];
    var i := 0;
    assert ms[0..] == ms;
    PrependNothing(ConvertPage(ms));
    while i < |ms|
      invariant 0 <= i <= |ms|
      invariant ConvertPage(ms) == Prepend(members, ConvertPage(ms[i..]))
    {
      var member := ms[i];
      if member.preferredMemberKeyId.None? {
        return Err(AttributeError("preferredMemberKey not found"));
      }
      if member.name.None? {
        return Err(AttributeError("member name not found"));
      }
      assert ms[i..][1..] == ms[i + 1..];
      PrependTwice(members, [GroupMember(member.preferredMemberKeyId.value, member.name.value)], ConvertPage(ms[i + 1..]));
      members := members + [GroupMember(member.preferredMemberKeyId.value, member.name.value)];
      i := i + 1;
    }
    assert ConvertPage(ms[i..]) == Ok([]);
    assert members + [] == members;
    return Ok(members);
  }

  /** The index of the first member with the given key (`next(... , None)`). */
  function IndexOfKey(members: seq<GroupMember>, key: string): (r: Option<nat>)
    ensures r.Some? ==> r.value < |members| && members[r.value].memberKey == key
    ensures r.Some? ==> forall j :: 0 <= j < r.value ==> members[j].memberKey != key
    ensures r.None? <==> forall j :: 0 <= j < |members| ==> members[j].memberKey != key
  {
    if |members| == 0 then None
    else if members[0].memberKey == key then Some(0)
    else match IndexOfKey(members[1..], key)
      case None => None
      case Some(i) => Some(i + 1)
  }

  /** The index of the first member with the given membership name. */
  function IndexOfName(members: seq<GroupMember>, name: string): (r: Option<nat>)
    ensures r.Some? ==> r.value < |members| && members[r.value].memberName == name
    ensures r.Some? ==> forall j :: 0 <= j < r.value ==> members[j].memberName != name
    ensures r.None? <==> forall j :: 0 <= j < |members| ==> members[j].memberName != name
  {
    if |members| == 0 then None
    else if members[0].memberName == name then Some(0)
    else match IndexOfName(members[1..], name)
      case None => None
      case Some(i) => Some(i + 1)
  }

  /** `find_member_in_group_by_key` over the group's listing. */
  function FindMemberByKey(listing: Result<seq<GroupMember>, GroupsError>, key: string): (r: Result<Option<GroupMember>, GroupsError>)
    ensures listing.Err? ==> r == Err(listing.error)
    ensures listing.Ok? ==> r.Ok?
    ensures listing.Ok? && r.Ok? && r.value.Some? ==> r.value.value.memberKey == key && r.value.value in listing.value
    ensures listing.Ok? && r.Ok? ==> (r.value.None? <==> forall m :: m in listing.value ==> m.memberKey != key)
  {
    match listing
    case Err(e) => Err(e)
    case Ok(members) =>
      match IndexOfKey(members, key)
      case None => Ok(None)
      case Some(i) => Ok(Some(members[i]))
  }

  /** `find_member_in_group_by_name` over the group's listing. */
  function FindMemberByName(listing: Result<seq<GroupMember>, GroupsError>, name: string): (r: Result<Option<GroupMember>, GroupsError>)
    ensures listing.Err? ==> r == Err(listing.error)
    ensures listing.Ok? ==> r.Ok?
    ensures listing.Ok? && r.Ok? && r.value.Some? ==> r.value.value.memberName == name && r.value.value in listing.value
    ensures listing.Ok? && r.Ok? ==> (r.value.None? <==> forall m :: m in listing.value ==> m.memberName != name)
  {
    match listing
    case Err(e) => Err(e)
    case Ok(members) =>
      match IndexOfName(members, name)
      case None => Ok(None)
      case Some(i) => Ok(Some(members[i]))
  }

  /** The reply to a create or delete request: `done`, the error message if any, and the new membership's name. */
  datatype OperationReply = OperationReply(done: bool, errorMessage: Option<string>, name: Option<string>)

  /** The exception raised for an operation that is not done. */
  function NotDone(reply: OperationReply): GroupsError
  {
    Failure(reply.errorMessage.GetOr("Unknown Error"))
  }

  /** `add_member_to_group`, given the API's reply to the create request. */
  function AddMemberToGroup(key: string, reply: OperationReply): (r: Result<GroupMember, GroupsError>)
    ensures r.Ok? <==> reply.done && reply.name.Some?
    ensures r.Ok? ==> r.value == GroupMember(key, reply.name.value)
    ensures !reply.done ==> r == Err(Failure(reply.errorMessage.GetOr("Unknown Error")))
    ensures reply.done && reply.name.None? ==> r == Err(AttributeError("Member creation response missing member name"))
  {
    if !reply.done then Err(NotDone(reply))
    else match reply.name
      case None => Err(AttributeError("Member creation response missing member name"))
      case Some(name) => Ok(GroupMember(key, name))
  }

  /** A successful create: the membership's name is the resource id; `added` tells whether a request was made. */
  datatype Created = Created(id: string, added: bool)

  /**
   * `GoogleGroupMembershipProvider.create`: an existing membership of the
   * key is reused; otherwise the member is added and the new name is the id.
   */
  function Create(listing: Result<seq<GroupMember>, GroupsError>, key: string, reply: OperationReply): (r: Result<Created, GroupsError>)
    ensures listing.Err? ==> r == Err(listing.error)
    ensures listing.Ok? && IndexOfKey(listing.value, key).Some? ==>
      r == Ok(Created(listing.value[IndexOfKey(listing.value, key).value].memberName, false))
    ensures listing.Ok? && IndexOfKey(listing.value, key).None? ==>
      (r.Ok? <==> AddMemberToGroup(key, reply).Ok?) && (r.Ok? ==> r.value == Created(reply.name.value, true))
  {
    match FindMemberByKey(listing, key)
    case Err(e) => Err(e)
    case Ok(Some(member)) => Ok(Created(member.memberName, false))
    case Ok(None) =>
      match AddMemberToGroup(key, reply)
      case Err(e) => Err(e)
      case Ok(created) => Ok(Created(created.memberName, true))
  }

  /**
   * Create is idempotent: once the membership a create produced is in the
   * group's listing, creating again reuses it, makes no request, and gives
   * the same id whatever the API would have answered.
   */
  lemma CreateIdempotent(members: seq<GroupMember>, key: string, reply: OperationReply, reply2: OperationReply)
    requires Create(Ok(members), key, reply).Ok?
    ensures Create(Ok(members + [GroupMember(key, Create(Ok(members), key, reply).value.id)]), key, reply2)
         == Ok(Created(Create(Ok(members), key, reply).value.id, false))
  {
    var id := Create(Ok(members), key, reply).value.id;
    var after := members + [GroupMember(key, id)];
    match IndexOfKey(members, key)
    case Some(i) =>
      assert after[i] == members[i];
      assert forall j :: 0 <= j < i ==> after[j] == members[j];
      assert IndexOfKey(after, key) == Some(i);
    case None =>
      assert after[|members|].memberKey == key;
      assert forall j :: 0 <= j < |members| ==> after[j] == members[j];
      assert IndexOfKey(after, key) == Some(|members|);
  }

  /** What a successful delete did: the group whose listing was consulted and whether a removal was requested. */
  datatype Deleted = Deleted(groupId: string, removed: bool)

  /**
   * `GoogleGroupMembershipProvider.delete`: the group id is the second
   * '/'-segment of the membership name; a member no longer listed is left
   * alone, otherwise the removal must be done.
   */
  function Delete(id: string, listing: string -> Result<seq<GroupMember>, GroupsError>, reply: OperationReply): (r: Result<Deleted, GroupsError>)
    ensures |Split(id, "/")| < 2 ==> r == Err(IndexError)
    ensures r.Ok? ==> r.value.groupId == Split(id, "/")[1]
    ensures r.Ok? && r.value.removed ==> reply.done
    ensures r.Ok? && !r.value.removed ==> listing(r.value.groupId).Ok? && IndexOfName(listing(r.value.groupId).value, id).None?
  {
    var parts := Split(id, "/");
    if |parts| < 2 then Err(IndexError)
    else
      var groupId := parts[1];
      match FindMemberByName(listing(groupId), id)
      case Err(e) => Err(e)
      case Ok(None) => Ok(Deleted(groupId, false))
      case Ok(Some(_)) =>
        if !reply.done then Err(NotDone(reply)) else Ok(Deleted(groupId, true))
  }

  /** For a name `groups/<g>/memberships/<m>`, delete consults the listing of group `g`. */
  lemma DeleteUsesGroupSegment(g: string, m: string, listing: string -> Result<seq<GroupMember>, GroupsError>, reply: OperationReply)
    requires '/' !in g && '/' !in m
    ensures Delete("groups/" + g + "/memberships/" + m, listing, reply).Ok? ==>
      Delete("groups/" + g + "/memberships/" + m, listing, reply).value.groupId == g
    ensures listing(g).Err? ==> Delete("groups/" + g + "/memberships/" + m, listing, reply) == Err(listing(g).error)
  {
    MembershipNameSplits(g, m);
  }

  lemma MembershipNameSplits(g: string, m: string)
    requires '/' !in g && '/' !in m
    ensures Split("groups/" + g + "/memberships/" + m, "/") == ["groups", g, "memberships", m]
  {
    assert "groups" + "/" + g + "/" + "memberships" + "/" + m == "groups/" + g + "/memberships/" + m;
    assert '/' !in "groups" && '/' !in "memberships";
    SplitFour("groups", g, "memberships", m);
  }

  /** Four slash-free parts joined by '/' split back into themselves. */
  lemma SplitFour(a: string, b: string, c: string, d: string)
    requires '/' !in a && '/' !in b && '/' !in c && '/' !in d
    ensures Split(a + "/" + b + "/" + c + "/" + d, "/") == [a, b, c, d]
  {
    var parts := [a, b, c, d];
    JoinFour(a, b, c, d, "/");
    assert forall i :: 0 <= i < 3 ==> SepSafe(parts[i], "/") by {
      SepSafeChar(a, '/');
      SepSafeChar(b, '/');
      SepSafeChar(c, '/');
    }
    assert !Contains(parts[3], "/") by {
      SepSafeChar(d, '/');
    }
    SplitJoin(parts, "/");
  }

  lemma JoinFour(a: string, b: string, c: string, d: string, sep: string)
    ensures Join([a, b, c, d], sep) == a + sep + b + sep + c + sep + d
  {
    var parts := [a, b, c, d];
    assert parts[1..] == [b, c, d];
    assert [b, c, d][1..] == [c, d];
    assert [c, d][1..] == [d];
    assert Join([c, d], sep) == c + sep + d;
    assert Join([b, c, d], sep) == b + sep + (c + sep + d);
  }

  /** `GoogleGroupMembershipProvider.diff`: a membership either exists or not, so nothing ever changes in place. */
  function Diff(id: string, olds: MembershipInputs, news: MembershipInputs): (r: DiffResult)
    ensures !r.changes && r.replaceKeys == []
  {
    NoChanges
  }
}
