/**
 * `GroupService`: chat groups of a canvas. The `groups` and `group_users` tables and the
 * Redis lists `chat:{id}` are fields of `GroupStore`; each method changes them as the
 * service's queries and Redis commands do, and errors are returned instead of thrown.
 */
module GroupService {
  import opened Wrappers
  import opened JsText
  import opened Sorting
  import opened Collections

  /** A row of `groups`; the overlay columns are modelled as integers. */
  datatype Group = Group(
    name: string,
    maxParticipants: int,
    currentParticipantsCount: int,
    canvasId: int,
    madeBy: int,
    isDefault: bool,
    url: Option<string>,
    x: int, y: int, height: int, width: int)

  /** The exceptions the service throws. */
  datatype GroupError =
    | TooManyGroups       // ForbiddenException: already in 3 groups on the canvas
    | CreatorMissing      // ConflictException: the creating user does not exist
    | DuplicateName       // ConflictException: unique violation 23505 on the name
    | UserOrGroupMissing  // NotFoundException in joinGroup
    | AlreadyMember       // ConflictException
    | GroupFull           // ConflictException
    | GroupMissing        // NotFoundException in quitOrDeleteGroup
    | UserMissing         // NotFoundException in quitOrDeleteGroup
    | NotMember           // ConflictException in quitOrDeleteGroup
    | QueryFailed         // not an HttpException: a NaN id reaching the bigint lookup fails the query

  /** The HTTP status of each exception; a failed query is no `HttpException` and becomes 500. */
  function StatusOf(e: GroupError): (code: int)
    ensures code in {403, 404, 409, 500}
    ensures code == 403 <==> e == TooManyGroups
    ensures code == 500 <==> e == QueryFailed
  {
    match e
    case TooManyGroups => 403
    case QueryFailed => 500
    case UserOrGroupMissing => 404
    case GroupMissing => 404
    case UserMissing => 404
    case _ => 409
  }

  const MaxGroupsPerCanvas := 3
  const ChatCacheSize := 50

  // ---------------------------------------------------------------------------
  // Chat lists

  datatype ChatUser = ChatUser(id: int, userName: string)

  /** One cached JSON entry of `chat:{id}`; absent properties are `None`. */
  datatype ChatEntry = ChatEntry(id: Option<int>, user: Option<ChatUser>, message: Option<string>, createdAt: string)

  /** A row of `chats` with its user; `createdIso` is `createdAt.toISOString()`. */
  datatype DbChat = DbChat(id: int, user: ChatUser, message: string, createdAt: int, createdIso: string)

  /** A message as the service returns it. */
  datatype Chat = Chat(id: int, groupId: int, userId: int, message: string, createdAt: string, userName: string)

  /** The Redis key `chat:${Number(groupId)}`. */
  function ChatKey(groupId: int): string {
    "chat:" + IntToString(groupId)
  }

  function Min(a: int, b: int): int {
    if a <= b then a else b
  }

  /** Redis `LRANGE list start stop`: negative indices count from the end, and the range is clamped. */
  function Lrange<T>(list: seq<T>, start: int, stop: int): (r: seq<T>)
    ensures |r| <= |list|
    ensures start == 0 && stop >= 0 ==> r == list[..Min(stop + 1, |list|)]
    ensures start == 0 && stop == -1 ==> r == list
  {
    var n := |list|;
    var s := if start < 0 then (if start + n < 0 then 0 else start + n) else start;
    var e := if stop < 0 then stop + n else stop;
    var e' := if e >= n then n - 1 else e;
    if s > e' || s >= n then [] else list[s..e' + 1]
  }

  /** JavaScript `a.slice(0, end)`: a negative end counts from the end. */
  function Slice<T>(a: seq<T>, end: int): (r: seq<T>)
    ensures |r| <= |a|
  {
    var n := |a|;
    var e := if end < 0 then (if end + n < 0 then 0 else end + n) else (if end > n then n else end);
    a[..e]
  }

  /** The `filter`: entries with a truthy id, user and message. */
  predicate Keep(e: ChatEntry) {
    e.id.Some? && e.id.value != 0 && e.user.Some? && e.message.Some? && e.message.value != ""
  }

  function ChatOf(e: ChatEntry, groupId: int): Chat
    requires Keep(e)
  {
    Chat(e.id.value, groupId, e.user.value.id, e.message.value, e.createdAt, e.user.value.userName)
  }

  /** The cache path's `filter` then `map`, in list order. */
  function CachedChats(entries: seq<ChatEntry>, groupId: int): (r: seq<Chat>)
    ensures |r| <= |entries|
    decreases |entries|
  {
    if entries == [] then []
    else
      var e := entries[|entries| - 1];
      CachedChats(entries[..|entries| - 1], groupId) + (if Keep(e) then [ChatOf(e, groupId)] else [])
  }

  /** Each returned chat comes from a valid entry, and each valid entry is returned. */
  lemma {:induction false} CachedChatsExactly(entries: seq<ChatEntry>, groupId: int)
    ensures forall c :: c in CachedChats(entries, groupId) <==>
      exists e :: e in entries && Keep(e) && c == ChatOf(e, groupId)
    decreases |entries|
  {
    if entries != [] {
      var front := entries[..|entries| - 1];
      CachedChatsExactly(front, groupId);
      assert forall e :: e in entries <==> e in front || e == entries[|entries| - 1];
    }
  }

  /** What the cache path returns for a list. */
  function FromCache(list: seq<ChatEntry>, groupId: int, take: int): seq<Chat> {
    Slice(CachedChats(Lrange(list, 0, Min(take, ChatCacheSize) - 1), groupId), take)
  }

  /**
   * For a positive `take`, the cache path reads at most min(take, 50) entries from the
   * head of the list and returns at most `take` chats, each from a valid entry among them.
   */
  lemma CacheReadBounds(list: seq<ChatEntry>, groupId: int, take: int)
    requires take >= 1
    ensures Lrange(list, 0, Min(take, ChatCacheSize) - 1) == list[..Min(Min(take, ChatCacheSize), |list|)]
    ensures |FromCache(list, groupId, take)| <= take
    ensures forall c :: c in FromCache(list, groupId, take) ==>
      exists e :: e in list[..Min(Min(take, ChatCacheSize), |list|)] && Keep(e) && c == ChatOf(e, groupId)
  {
    var window := Lrange(list, 0, Min(take, ChatCacheSize) - 1);
    var chats := CachedChats(window, groupId);
    CachedChatsExactly(window, groupId);
    assert forall c :: c in FromCache(list, groupId, take) ==> c in chats;
  }

  /** With `take` 0 the range `0..-1` reads the whole list, and `slice(0, 0)` then returns nothing. */
  lemma ZeroTakeReadsAll(list: seq<ChatEntry>, groupId: int)
    ensures Lrange(list, 0, Min(0, ChatCacheSize) - 1) == list
    ensures FromCache(list, groupId, 0) == []
  {
  }

  /** The JSON entry cached for a database row. */
  function PayloadOf(c: DbChat): ChatEntry {
    ChatEntry(Some(c.id), Some(c.user), Some(c.message), c.createdIso)
  }

  /** `LPUSH key p0 p1 ... pn`: each payload is pushed at the head in turn, so the list ends reversed. */
  function Pushed(payloads: seq<ChatEntry>, list: seq<ChatEntry>): (r: seq<ChatEntry>)
    ensures |r| == |payloads| + |list|
    decreases |payloads|
  {
    if payloads == [] then list else Pushed(payloads[1..], [payloads[0]] + list)
  }

  function Payloads(rows: seq<DbChat>): (r: seq<ChatEntry>)
    ensures |r| == |rows|
    ensures forall i :: 0 <= i < |rows| ==> r[i] == PayloadOf(rows[i])
  {
    seq(|rows|, i requires 0 <= i < |rows| => PayloadOf(rows[i]))
  }

  /** `LPUSH` then `LTRIM 0 49`. */
  function PushTrimmed(payloads: seq<ChatEntry>, list: seq<ChatEntry>): seq<ChatEntry> {
    Lrange(Pushed(payloads, list), 0, ChatCacheSize - 1)
  }

  /** Pushing several payloads onto an empty list leaves them in reverse order, the last one at the head. */
  lemma {:induction false} PushedReverses(payloads: seq<ChatEntry>, list: seq<ChatEntry>)
    ensures forall i :: 0 <= i < |payloads| ==> Pushed(payloads, list)[i] == payloads[|payloads| - 1 - i]
    ensures Pushed(payloads, list)[|payloads|..] == list
    decreases |payloads|
  {
    if payloads != [] {
      PushedReverses(payloads[1..], [payloads[0]] + list);
    }
  }

  /**
   * A refill from at most 50 rows keeps them all, in reverse: the head of the list is the
   * last row fetched, which is the oldest one.
   */
  lemma RefillReversed(recent: seq<DbChat>)
    requires |recent| <= ChatCacheSize
    ensures |PushTrimmed(Payloads(recent), [])| == |recent|
    ensures forall i :: 0 <= i < |recent| ==> PushTrimmed(Payloads(recent), [])[i] == PayloadOf(recent[|recent| - 1 - i])
  {
    PushedReverses(Payloads(recent), []);
    assert PushTrimmed(Payloads(recent), []) == Pushed(Payloads(recent), []);
  }

  /** Ascending creation time: the `sort` comparator `a.createdAt - b.createdAt`. */
  function ByCreated(a: DbChat, b: DbChat): bool {
    a.createdAt <= b.createdAt
  }

  function DbChatOf(c: DbChat, groupId: int): Chat {
    Chat(c.id, groupId, c.user.id, c.message, c.createdIso, c.user.userName)
  }

  function DbChats(rows: seq<DbChat>, groupId: int): (r: seq<Chat>)
    ensures |r| == |rows|
    ensures forall i :: 0 <= i < |rows| ==> r[i] == DbChatOf(rows[i], groupId)
  {
    seq(|rows|, i requires 0 <= i < |rows| => DbChatOf(rows[i], groupId))
  }

  /** What the database path returns: the rows oldest first, cut to `take`. */
  function FromDb(recent: seq<DbChat>, groupId: int, take: int): seq<Chat> {
    Slice(DbChats(SortBy(recent, ByCreated), groupId), take)
  }

  /** The database path returns the fetched rows in ascending creation order, none lost or added before the cut. */
  lemma FromDbOrdered(recent: seq<DbChat>, groupId: int)
    ensures Sorted(SortBy(recent, ByCreated), ByCreated)
    ensures multiset(SortBy(recent, ByCreated)) == multiset(recent)
    ensures |FromDb(recent, groupId, |recent|)| == |recent|
  {
    var dom := (c: DbChat) => true;
    assert TotalPreorderOn(ByCreated, dom);
    SortBySorted(recent, ByCreated, dom);
  }

  // ---------------------------------------------------------------------------
  // Membership

  /** The `group_users` count query: the user's memberships on the canvas in non-default groups. */
  function GroupCount(groups: map<int, Group>, members: map<(int, int), int>, userId: int, canvasId: Option<int>): nat {
    match canvasId
    case None => 0
    case Some(c) =>
      |set k | k in members && k.0 == userId && members[k] == c && k.1 in groups && !groups[k.1].isDefault|
  }

  /** The `overlay.v || group.v` fallback: undefined and 0 keep the stored value. */
  function Or(v: Option<int>, old_: int): int {
    if v.Some? && v.value != 0 then v.value else old_
  }

  /** The overlay data `updateGroupOverlayToDB` receives. */
  datatype OverlayData = OverlayData(url: string, x: Option<int>, y: Option<int>, width: Option<int>, height: Option<int>)

  class GroupStore {
    /** The `groups` table by id. */
    var groups: map<int, Group>
    /** The `group_users` table: (user id, group id) to the row's `canvas_id`. */
    var members: map<(int, int), int>
    /** The ids in the `users` table. */
    var users: set<int>
    /** The Redis chat lists by key. */
    var chats: map<string, seq<ChatEntry>>

    constructor (groups: map<int, Group>, members: map<(int, int), int>, users: set<int>, chats: map<string, seq<ChatEntry>>)
      ensures this.groups == groups && this.members == members && this.users == users && this.chats == chats
    {
      this.groups, this.members, this.users, this.chats := groups, members, users, chats;
    }

    function ChatList(key: string): seq<ChatEntry>
      reads this
    {
      if key in chats then chats[key] else []
    }

    function Count(userId: int, canvasId: Option<int>): nat
      reads this
    {
      GroupCount(groups, members, userId, canvasId)
    }

    /**
     * `getRecentChatsByGroupId`. A non-empty cache read is filtered and returned. Otherwise
     * `recent` (the newest 50 rows, newest first) refills the list, and the rows are
     * returned oldest first; with no rows the result is empty and nothing changes.
     */
    method GetRecentChatsByGroupId(groupId: int, take: int, recent: seq<DbChat>) returns (r: seq<Chat>)
      modifies this`chats
      ensures var window := Lrange(old(ChatList(ChatKey(groupId))), 0, Min(take, ChatCacheSize) - 1);
        && (|window| > 0 ==> r == FromCache(old(ChatList(ChatKey(groupId))), groupId, take) && chats == old(chats))
        && (|window| == 0 && recent == [] ==> r == [] && chats == old(chats))
        && (|window| == 0 && recent != [] ==>
              r == FromDb(recent, groupId, take) &&
              chats == old(chats)[ChatKey(groupId) := PushTrimmed(Payloads(recent), [])])
    {
      var key := ChatKey(groupId);
      var redisChats := Lrange(ChatList(key), 0, Min(take, ChatCacheSize) - 1);
      if |redisChats| > 0 {
        r := Slice(CachedChats(redisChats, groupId), take);
        return;
      }
      if |recent| == 0 {
        return [];
      }
      chats := chats[key := PushTrimmed(Payloads(recent), [])];
      r := FromDb(recent, groupId, take);
    }

    /**
     * `createGroup`: refused when the user is in 3 or more non-default groups of the canvas,
     * then when the user is missing, then on a duplicate name. A new group starts with one
     * participant, its creator, who becomes a member.
     */
    method CreateGroup(name: string, maxParticipants: int, canvasId: int, userId: int, newId: int)
      returns (r: Result<int, GroupError>)
      requires newId !in groups
      modifies this`groups, this`members
      ensures old(Count(userId, Some(canvasId))) >= MaxGroupsPerCanvas ==> r == Err(TooManyGroups)
      ensures old(Count(userId, Some(canvasId))) < MaxGroupsPerCanvas && userId !in users ==> r == Err(CreatorMissing)
      ensures (old(Count(userId, Some(canvasId))) < MaxGroupsPerCanvas && userId in users &&
               exists g :: g in old(groups) && old(groups)[g].name == name) ==> r == Err(DuplicateName)
      ensures r.Err? ==> groups == old(groups) && members == old(members)
      ensures r.Ok? ==> (r.value == newId &&
        groups == old(groups)[newId := Group(name, maxParticipants, 1, canvasId, userId, false, None, 0, 0, 0, 0)] &&
        members == old(members)[(userId, newId) := canvasId])
    {
      if Count(userId, Some(canvasId)) >= MaxGroupsPerCanvas {
        return Err(TooManyGroups);
      }
      if userId !in users {
        return Err(CreatorMissing);
      }
      if exists g :: g in groups && groups[g].name == name {
        return Err(DuplicateName);
      }
      groups := groups[newId := Group(name, maxParticipants, 1, canvasId, userId, false, None, 0, 0, 0, 0)];
      members := members[(userId, newId) := canvasId];
      r := Ok(newId);
    }

    /**
     * `joinGroup`: the 3-group limit first, then a missing user or group, an existing
     * membership and a full group; a join adds the membership and one participant.
     */
    method JoinGroup(groupId: int, userId: int, canvasId: Option<int>) returns (err: Option<GroupError>)
      modifies this`groups, this`members
      ensures old(Count(userId, canvasId)) >= MaxGroupsPerCanvas ==> err == Some(TooManyGroups)
      ensures old(Count(userId, canvasId)) < MaxGroupsPerCanvas ==>
        && (userId !in users || groupId !in old(groups) ==> err == Some(UserOrGroupMissing))
        && (userId in users && groupId in old(groups) && (userId, groupId) in old(members) ==> err == Some(AlreadyMember))
        && ((userId in users && groupId in old(groups) && (userId, groupId) !in old(members) &&
             old(groups)[groupId].maxParticipants <= old(groups)[groupId].currentParticipantsCount) ==> err == Some(GroupFull))
      ensures err.Some? ==> groups == old(groups) && members == old(members)
      ensures err.None? ==>
        && groupId in old(groups)
        && (userId, groupId) !in old(members)
        && old(groups)[groupId].currentParticipantsCount < old(groups)[groupId].maxParticipants
        && groups == old(groups)[groupId := old(groups)[groupId].(currentParticipantsCount := old(groups)[groupId].currentParticipantsCount + 1)]
        && members == old(members)[(userId, groupId) := old(groups)[groupId].canvasId]
    {
      if Count(userId, canvasId) >= MaxGroupsPerCanvas {
        return Some(TooManyGroups);
      }
      if userId !in users || groupId !in groups {
        return Some(UserOrGroupMissing);
      }
      if (userId, groupId) in members {
        return Some(AlreadyMember);
      }
      var group := groups[groupId];
      if group.maxParticipants <= group.currentParticipantsCount {
        return Some(GroupFull);
      }
      members := members[(userId, groupId) := group.canvasId];
      groups := groups[groupId := group.(currentParticipantsCount := group.currentParticipantsCount + 1)];
      err := None;
    }

    /**
     * `quitOrDeleteGroup`: the creator deletes the group and its chat list; any other member
     * leaves, lowering the count by one; a non-member gets a conflict.
     */
    method QuitOrDeleteGroup(groupIdText: string, userId: int) returns (err: Option<GroupError>)
      modifies this`groups, this`members, this`chats
      ensures var id := ToNumber(groupIdText);
        && (id.NaN? ==> err == Some(QueryFailed))
        && (id.Num? && id.value !in old(groups) ==> err == Some(GroupMissing))
        && (err.Some? ==> groups == old(groups) && members == old(members) && chats == old(chats))
        && (id.Num? && id.value in old(groups) ==>
              var g := old(groups)[id.value];
              && (userId !in users ==> err == Some(UserMissing))
              && (userId in users && g.madeBy == userId ==>
                    err.None? && groups == old(groups) - {id.value} && members == old(members) &&
                    chats == old(chats) - {"chat:" + groupIdText})
              && (userId in users && g.madeBy != userId && (userId, id.value) !in old(members) ==> err == Some(NotMember))
              && (userId in users && g.madeBy != userId && (userId, id.value) in old(members) ==>
                    err.None? && chats == old(chats) &&
                    groups == old(groups)[id.value := g.(currentParticipantsCount := g.currentParticipantsCount - 1)] &&
                    members == old(members) - {(userId, id.value)}))
    {
      var id := ToNumber(groupIdText);
      if id.NaN? {
        return Some(QueryFailed);
      }
      if id.value !in groups {
        return Some(GroupMissing);
      }
      var group := groups[id.value];
      if userId !in users {
        return Some(UserMissing);
      }
      if group.madeBy == userId {
        groups := groups - {id.value};
        chats := chats - {"chat:" + groupIdText};
        return None;
      }
      if (userId, id.value) !in members {
        return Some(NotMember);
      }
      groups := groups[id.value := group.(currentParticipantsCount := group.currentParticipantsCount - 1)];
      members := members - {(userId, id.value)};
      err := None;
    }

    /** `updateGroupOverlayToDB`: the url always, the other fields only when truthy. */
    method UpdateGroupOverlayToDB(groupId: int, overlay: OverlayData)
      requires groupId in groups
      modifies this`groups
      ensures groups == old(groups)[groupId := old(groups)[groupId].(
        url := Some(overlay.url),
        x := Or(overlay.x, old(groups)[groupId].x),
        y := Or(overlay.y, old(groups)[groupId].y),
        height := Or(overlay.height, old(groups)[groupId].height),
        width := Or(overlay.width, old(groups)[groupId].width))]
    {
      var g := groups[groupId];
      groups := groups[groupId := g.(
        url := Some(overlay.url),
        x := Or(overlay.x, g.x),
        y := Or(overlay.y, g.y),
        height := Or(overlay.height, g.height),
        width := Or(overlay.width, g.width))];
    }

    /**
     * `cleanupInactiveGroupChats`: each `chat:*` key whose group no longer exists is deleted.
     * A key whose id is not a number makes the lookup fail, which ends the cleanup early.
     */
    method CleanupInactiveGroupChats()
      modifies this`chats
      ensures chats.Keys <= old(chats).Keys
      ensures forall k :: k in chats ==> chats[k] == old(chats)[k]
      ensures forall k :: k in old(chats) && k !in chats ==> Orphan(k, groups)
      ensures (forall k :: k in old(chats) && IsChatKey(k) ==> ToNumber(k[5..]).Num?) ==>
        forall k :: k in old(chats) ==> (k in chats <==> !Orphan(k, groups))
    {
      ghost var c0 := chats;
      ghost var matching := set k | k in chats && IsChatKey(k);
      var keys := Members(set k | k in chats && IsChatKey(k));
      assert forall j :: 0 <= j < |keys| ==> keys[j] in matching;
      assert forall k :: k in matching ==> k in keys;
      var i := 0;
      while i < |keys|
        invariant 0 <= i <= |keys|
        invariant chats.Keys <= c0.Keys
        invariant forall k :: k in chats ==> chats[k] == c0[k]
        invariant forall k :: k in c0 ==> (k in chats <==> !(k in keys[..i] && Orphan(k, groups)))
      {
        var key := keys[i];
        assert key in matching;
        var id := ToNumber(key[5..]);
        if id.NaN? {
          assert key in c0 && IsChatKey(key);
          return;
        }
        if id.value !in groups {
          chats := chats - {key};
        }
        assert keys[..i + 1] == keys[..i] + [key];
        i := i + 1;
      }
      assert keys[..i] == keys;
    }
  }

  /** A key matched by the pattern `chat:*`. */
  predicate IsChatKey(k: string) {
    |k| >= 5 && k[..5] == "chat:"
  }

  /** A chat key whose numeric id names no group. */
  predicate Orphan(k: string, groups: map<int, Group>) {
    IsChatKey(k) && ToNumber(k[5..]).Num? && ToNumber(k[5..]).value !in groups
  }
}
