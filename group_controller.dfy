/**
 * The group controller's request handling: ordered validation chains that end in an HTTP
 * failure or in a call to the group service, and the shaping of the service's results.
 * Service and user lookups are inputs: `authUserId` is the JWT's `_id`, `userFound` whether
 * `findById` found that user.
 */
module GroupController {
  import opened Wrappers
  import opened JsText
  import opened GroupService

  /** An `HttpException` leaving the controller. */
  datatype Failure = Failure(status: int, error: string)

  /** A truthy query string. */
  predicate Given(s: Option<string>) {
    s.Some? && s.value != ""
  }

  /** `Number(s)` of an optional query parameter: `Number(undefined)` is NaN. */
  function NumberOf(s: Option<string>): JsNum {
    if s.Some? then ToNumber(s.value) else NaN
  }

  /** A truthy `req.user?._id`. */
  predicate Authenticated(authUserId: Option<int>) {
    authUserId.Some? && authUserId.value != 0
  }

  // ---------------------------------------------------------------------------
  // GET /group/by-canvas

  /** The ids of the rows (id, canvas id) on the canvas `canvasId`, in query order. */
  function IdsOnCanvas(rows: seq<(int, int)>, canvasId: int): (ids: seq<int>)
    ensures |ids| <= |rows|
    ensures forall id :: id in ids <==> exists r :: r in rows && r.0 == id && r.1 == canvasId
    decreases |rows|
  {
    if rows == [] then []
    else
      var front := IdsOnCanvas(rows[..|rows| - 1], canvasId);
      var last := rows[|rows| - 1];
      assert forall r :: r in rows <==> r in rows[..|rows| - 1] || r == last;
      if last.1 == canvasId then front + [last.0] else front
  }

  /** An unhandled error (a failed query) leaves the controller as Nest's 500. */
  const InternalError := Failure(500, "Internal server error")

  /**
   * `getGroupIdByCanvas`. `Number(canvas_id)` is NaN for a missing or non-numeric parameter,
   * and the bigint query then fails, which nothing catches: 500. Otherwise 404 when the
   * canvas has no group, else the group ids in query order.
   */
  function GetGroupIdByCanvas(canvasIdText: Option<string>, rows: seq<(int, int)>): (r: Result<seq<int>, Failure>)
    ensures NumberOf(canvasIdText).NaN? ==> r == Err(InternalError)
    ensures NumberOf(canvasIdText).Num? ==>
      (r.Err? <==> IdsOnCanvas(rows, NumberOf(canvasIdText).value) == []) &&
      (r.Err? ==> r.error.status == 404) &&
      (r.Ok? ==> r.value == IdsOnCanvas(rows, NumberOf(canvasIdText).value))
  {
    match NumberOf(canvasIdText)
    case NaN => Err(InternalError)
    case Num(id) =>
      var ids := IdsOnCanvas(rows, id);
      if ids == [] then Err(Failure(404, "해당 캔버스에 대한 그룹을 찾을 수 없습니다.")) else Ok(ids)
  }

  /** A rendered canvas id with a group on it is answered with that group's id. */
  lemma GroupOnCanvasIsFound(canvasId: int, groupId: int, rows: seq<(int, int)>)
    requires (groupId, canvasId) in rows
    ensures GetGroupIdByCanvas(Some(IntToString(canvasId)), rows).Ok?
    ensures groupId in GetGroupIdByCanvas(Some(IntToString(canvasId)), rows).value
  {
    ToNumberOfIntToString(canvasId);
    assert groupId in IdsOnCanvas(rows, canvasId);
  }

  // ---------------------------------------------------------------------------
  // Response shaping

  datatype MessageOut = MessageOut(messageId: int, userId: string, name: string, content: string, timestamp: string)

  /** `messages.map(m => ({ messageId, user: { userId: String(m.user.id), name }, content, timestamp }))`. */
  function MessagesOut(messages: seq<Chat>): (out: seq<MessageOut>)
    ensures |out| == |messages|
    ensures forall i :: 0 <= i < |messages| ==>
      out[i] == MessageOut(messages[i].id, IntToString(messages[i].userId), messages[i].userName,
                           messages[i].message, messages[i].createdAt)
  {
    seq(|messages|, i requires 0 <= i < |messages| =>
      MessageOut(messages[i].id, IntToString(messages[i].userId), messages[i].userName,
                 messages[i].message, messages[i].createdAt))
  }

  /** The rendered user ids read back as the users' numeric ids. */
  lemma MessageUserIdsRoundTrip(messages: seq<Chat>, i: int)
    requires 0 <= i < |messages|
    ensures ToNumber(MessagesOut(messages)[i].userId) == Num(messages[i].userId)
  {
    ToNumberOfIntToString(messages[i].userId);
  }

  // ---------------------------------------------------------------------------
  // GET /group/init/chat

  /** What an exception thrown by the service looks like to the `catch`. */
  datatype Thrown = ServiceError(e: GroupError) | Fault

  /** The `catch`: an `HttpException` is rethrown as it is; anything else becomes 500. */
  function Caught(t: Thrown): (f: Failure)
    ensures t.Fault? || t == ServiceError(QueryFailed) <==> f.status == 500
    ensures t.ServiceError? ==> f.status == StatusOf(t.e)
  {
    match t
    case ServiceError(e) => Failure(StatusOf(e), "group service error")
    case Fault => Failure(500, "Internal server error")
  }

  datatype GroupOut = GroupOut(groupId: string, groupTitle: string)

  datatype ChatInitData = ChatInitData(defaultGroupId: string, groups: seq<GroupOut>, messages: seq<MessageOut>)

  /** The first four checks of `chatInit`, in order; success yields the canvas id. */
  function ChatInitChecks(canvasIdText: Option<string>, authUserId: Option<int>, userFound: bool): (r: Result<int, Failure>)
    ensures !Given(canvasIdText) <==> r == Err(Failure(400, "canvas_id required"))
    ensures Given(canvasIdText) && ToNumber(canvasIdText.value).NaN? <==> r == Err(Failure(400, "Invalid canvas_id"))
    ensures r.Err? && r.error.status == 401 <==>
      Given(canvasIdText) && ToNumber(canvasIdText.value).Num? && (!Authenticated(authUserId) || !userFound)
    ensures r.Ok? <==> Given(canvasIdText) && ToNumber(canvasIdText.value).Num? && Authenticated(authUserId) && userFound
    ensures r.Ok? ==> Num(r.value) == ToNumber(canvasIdText.value)
  {
    if !Given(canvasIdText) then Err(Failure(400, "canvas_id required"))
    else if ToNumber(canvasIdText.value).NaN? then Err(Failure(400, "Invalid canvas_id"))
    else if !Authenticated(authUserId) then Err(Failure(401, "Authentication required"))
    else if !userFound then Err(Failure(401, "Authentication required"))
    else Ok(ToNumber(canvasIdText.value).value)
  }

  /** The outcome of `chatInit` and whether it called `joinGroup` on the default group. */
  datatype ChatInitOutcome = ChatInitOutcome(response: Result<ChatInitData, Failure>, joined: bool)

  /**
   * `chatInit`. After the checks, a canvas without a default group is 404; a user who is not
   * a member of it joins it (`joinResult` is that call's exception, if any); then the user's
   * groups on the canvas and the default group's newest messages are returned.
   */
  function ChatInit(canvasIdText: Option<string>, authUserId: Option<int>, userFound: bool,
                    userGroups: seq<(int, string)>, defaultGroup: Option<int>, isMember: bool,
                    joinResult: Option<Thrown>, messages: seq<Chat>): (r: ChatInitOutcome)
    ensures var checks := ChatInitChecks(canvasIdText, authUserId, userFound);
      && (checks.Err? ==> r.response == Err(checks.error) && !r.joined)
      && (checks.Ok? && defaultGroup.None? ==> r.response == Err(Failure(404, "Default group not found")) && !r.joined)
      && (r.joined <==> checks.Ok? && defaultGroup.Some? && !isMember)
      && (r.joined && joinResult.Some? ==> r.response == Err(Caught(joinResult.value)))
      && (r.response.Ok? <==> checks.Ok? && defaultGroup.Some? && (isMember || joinResult.None?))
    ensures r.response.Ok? ==>
      && r.response.value.defaultGroupId == IntToString(defaultGroup.value)
      && |r.response.value.groups| == |userGroups|
      && (forall i :: 0 <= i < |userGroups| ==>
            r.response.value.groups[i] == GroupOut(IntToString(userGroups[i].0), userGroups[i].1))
      && r.response.value.messages == MessagesOut(messages)
  {
    match ChatInitChecks(canvasIdText, authUserId, userFound)
    case Err(f) => ChatInitOutcome(Err(f), false)
    case Ok(_) =>
      match defaultGroup
      case None => ChatInitOutcome(Err(Failure(404, "Default group not found")), false)
      case Some(g) =>
        if !isMember && joinResult.Some? then ChatInitOutcome(Err(Caught(joinResult.value)), true)
        else
          var groups := seq(|userGroups|, i requires 0 <= i < |userGroups| =>
            GroupOut(IntToString(userGroups[i].0), userGroups[i].1));
          ChatInitOutcome(Ok(ChatInitData(IntToString(g), groups, MessagesOut(messages))), !isMember)
  }

  /** The default group id in the response reads back as the group's id. */
  lemma DefaultGroupIdRoundTrip(canvasIdText: Option<string>, authUserId: Option<int>, userFound: bool,
                                userGroups: seq<(int, string)>, defaultGroup: Option<int>, isMember: bool,
                                joinResult: Option<Thrown>, messages: seq<Chat>)
    requires ChatInit(canvasIdText, authUserId, userFound, userGroups, defaultGroup, isMember, joinResult, messages).response.Ok?
    ensures ToNumber(ChatInit(canvasIdText, authUserId, userFound, userGroups, defaultGroup, isMember, joinResult, messages)
                       .response.value.defaultGroupId) == Num(defaultGroup.value)
  {
    ToNumberOfIntToString(defaultGroup.value);
  }

  /**
   * The controller calls `joinGroup` without a canvas id, so the service's count of the
   * user's groups is 0 and the three-group limit never refuses that join.
   */
  lemma DefaultJoinSkipsGroupLimit(groups: map<int, Group>, members: map<(int, int), int>, userId: int)
    ensures GroupCount(groups, members, userId, None) < MaxGroupsPerCanvas
  {
  }

  // ---------------------------------------------------------------------------
  // GET /group/chat

  /** `limit ? Number(limit) : 50`. */
  function LimitOf(limit: Option<string>): JsNum {
    if Given(limit) then ToNumber(limit.value) else Num(ChatCacheSize)
  }

  predicate ValidLimit(n: JsNum) {
    n.Num? && n.value > 0
  }

  /** An absent or empty limit means 50; a rendered positive integer is taken as it is; 0 and negative limits are refused. */
  lemma LimitRules(k: int)
    ensures LimitOf(None) == Num(50) && LimitOf(Some("")) == Num(50) && ValidLimit(LimitOf(None))
    ensures ValidLimit(LimitOf(Some(IntToString(k)))) <==> k > 0
    ensures k > 0 ==> LimitOf(Some(IntToString(k))) == Num(k)
  {
    ToNumberOfIntToString(k);
    assert IntToString(k) != "" by {
      if k < 0 { assert IntToString(k)[0] == '-'; }
    }
  }

  /**
   * The checks of `getChatHistory`, in order: no session user 401, a missing or non-numeric
   * group_id 400, a bad limit 400, an unknown user 401, a missing group 404, a non-member 403.
   * Success yields the group id and the number of messages to read.
   */
  function ChatHistoryChecks(authUserId: Option<int>, groupIdText: Option<string>, limit: Option<string>,
                             users: set<int>, groups: map<int, Group>, members: map<(int, int), int>): (r: Result<(int, int), Failure>)
    ensures r.Err? && r.error.status == 401 <==>
      !Authenticated(authUserId) ||
      (Given(groupIdText) && ToNumber(groupIdText.value).Num? && ValidLimit(LimitOf(limit)) && authUserId.value !in users)
    ensures r.Ok? <==>
      && Authenticated(authUserId)
      && Given(groupIdText) && ToNumber(groupIdText.value).Num?
      && ValidLimit(LimitOf(limit))
      && authUserId.value in users
      && ToNumber(groupIdText.value).value in groups
      && (authUserId.value, ToNumber(groupIdText.value).value) in members
    ensures r.Ok? ==> r.value == (ToNumber(groupIdText.value).value, LimitOf(limit).value)
    ensures r == Err(Failure(400, "group_id required")) <==>
      Authenticated(authUserId) && !(Given(groupIdText) && ToNumber(groupIdText.value).Num?)
    ensures r == Err(Failure(400, "Invalid limit")) <==>
      Authenticated(authUserId) && Given(groupIdText) && ToNumber(groupIdText.value).Num? && !ValidLimit(LimitOf(limit))
    ensures r == Err(Failure(404, "Group not found")) <==>
      Authenticated(authUserId) && Given(groupIdText) && ToNumber(groupIdText.value).Num? && ValidLimit(LimitOf(limit)) &&
      authUserId.value in users && ToNumber(groupIdText.value).value !in groups
    ensures r == Err(Failure(403, "You do not have permission to access this chat")) <==>
      Authenticated(authUserId) && Given(groupIdText) && ToNumber(groupIdText.value).Num? && ValidLimit(LimitOf(limit)) &&
      authUserId.value in users && ToNumber(groupIdText.value).value in groups &&
      (authUserId.value, ToNumber(groupIdText.value).value) !in members
  {
    if !Authenticated(authUserId) then Err(Failure(401, "Authentication required"))
    else if !Given(groupIdText) || ToNumber(groupIdText.value).NaN? then Err(Failure(400, "group_id required"))
    else if !ValidLimit(LimitOf(limit)) then Err(Failure(400, "Invalid limit"))
    else if authUserId.value !in users then Err(Failure(401, "Authentication required"))
    else
      var g := ToNumber(groupIdText.value).value;
      if g !in groups then Err(Failure(404, "Group not found"))
      else if (authUserId.value, g) !in members then Err(Failure(403, "You do not have permission to access this chat"))
      else Ok((g, LimitOf(limit).value))
  }

  /** `getChatHistory`: the checks, then the messages the service read for them. */
  function GetChatHistory(authUserId: Option<int>, groupIdText: Option<string>, limit: Option<string>,
                          users: set<int>, groups: map<int, Group>, members: map<(int, int), int>,
                          messages: seq<Chat>): (r: Result<seq<MessageOut>, Failure>)
    ensures var checks := ChatHistoryChecks(authUserId, groupIdText, limit, users, groups, members);
      && (checks.Err? ==> r == Err(checks.error))
      && (checks.Ok? ==> r == Ok(MessagesOut(messages)))
  {
    match ChatHistoryChecks(authUserId, groupIdText, limit, users, groups, members)
    case Err(f) => Err(f)
    case Ok(_) => Ok(MessagesOut(messages))
  }

  /** A member of an existing group reading with no limit is served, reading 50 messages. */
  lemma MemberReadsFifty(userId: int, groupId: int, users: set<int>, groups: map<int, Group>, members: map<(int, int), int>)
    requires userId != 0 && userId in users && groupId in groups && (userId, groupId) in members
    ensures ChatHistoryChecks(Some(userId), Some(IntToString(groupId)), None, users, groups, members) == Ok((groupId, 50))
  {
    ToNumberOfIntToString(groupId);
    assert IntToString(groupId) != "" by {
      if groupId < 0 { assert IntToString(groupId)[0] == '-'; }
    }
  }

  // ---------------------------------------------------------------------------
  // POST /group/create, /group/join, DELETE /group/quit

  /** The create, join and quit endpoints answer every service exception with 404. */
  function ServiceStatus(err: Option<GroupError>): (status: int)
    ensures err.None? <==> status == 200
    ensures err.Some? <==> status == 404
  {
    if err.None? then 200 else 404
  }

  /** So the service's 403 for a fourth group reaches the client as 404. */
  lemma GroupLimitSurfacesAs404()
    ensures StatusOf(TooManyGroups) == 403 && ServiceStatus(Some(TooManyGroups)) == 404
  {
  }
}
