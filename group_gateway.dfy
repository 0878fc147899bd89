/**
 * `GroupGateway`: group chat over sockets. A client's socket rooms are a set it owns; the
 * Redis chat lists, the `chat:message` publications and the room broadcasts belong to the
 * gateway. Sessions are the JSON users stored under `socket:{sid}:user`, and memberships
 * are the `group_users` rows as (user id, group id) with the member's user name.
 */
module GroupGateway {
  import opened Wrappers
  import opened JsText
  import opened Collections
  import opened GameLogic
  import opened GroupService

  /** What the gateway emits to the calling client. */
  datatype ClientEmit = AuthErrorEvent | ChatErrorEvent

  /** One client socket: its id and the rooms it is in. */
  class Client {
    var id: string
    var rooms: set<string>
    var emitted: seq<ClientEmit>

    constructor (id: string, rooms: set<string>)
      ensures this.id == id && this.rooms == rooms && emitted == []
    {
      this.id, this.rooms, emitted := id, rooms, [];
    }
  }

  /** A value is truthy in JavaScript. */
  predicate TruthyId(v: Option<int>) {
    v.Some? && v.value != 0
  }

  /**
   * `getUserIdFromClient`: `Number(user.userId || user.id)`, or null without a session.
   * `userId` wins when truthy; otherwise `id` is used, and without it the result is NaN.
   */
  function ClientUserId(session: Option<SessionUser>): (r: Option<JsNum>)
    ensures r.None? <==> session.None?
    ensures r.Some? && TruthyId(session.value.userId) ==> r.value == Num(session.value.userId.value)
    ensures r.Some? && !TruthyId(session.value.userId) && session.value.id.Some? ==> r.value == Num(session.value.id.value)
    ensures r.Some? ==> (r.value.NaN? <==> !TruthyId(session.value.userId) && session.value.id.None?)
  {
    match session
    case None => None
    case Some(user) =>
      if TruthyId(user.userId) then Some(Num(user.userId.value))
      else if user.id.Some? then Some(Num(user.id.value))
      else Some(NaN)
  }

  /** The `!userId` test passes: a session whose id is a non-zero number. */
  predicate Authenticated(r: Option<JsNum>) {
    r.Some? && r.value.Num? && r.value.value != 0
  }

  /** `checkGroupMembership(userId, Number(group_id))`. */
  predicate IsMember(members: map<(int, int), string>, userId: int, groupId: JsNum) {
    groupId.Num? && (userId, groupId.value) in members
  }

  function GroupRoom(groupIdText: string): string {
    "group_" + groupIdText
  }

  predicate StartsWithGroup(room: string) {
    |room| >= 6 && room[..6] == "group_"
  }

  /** A room the join loop leaves: another group room, never the socket's own room. */
  predicate Leaves(room: string, clientId: string, target: string) {
    room != clientId && room != target && StartsWithGroup(room)
  }

  /**
   * `join_chat`. Without a session user: `auth_error`. A group id that is not a number: the
   * membership query fails and the handler rejects with nothing emitted and no room changed.
   * A non-member: `chat_error`. Already in the target room: nothing. Otherwise every other
   * group room is left and the target joined.
   */
  method HandleJoinChat(client: Client, session: Option<SessionUser>, groupIdText: string, members: map<(int, int), string>)
    modifies client`rooms, client`emitted
    ensures var uid := ClientUserId(session);
      var member := Authenticated(uid) && IsMember(members, uid.value.value, ToNumber(groupIdText));
      var target := GroupRoom(groupIdText);
      && (!Authenticated(uid) ==> client.emitted == old(client.emitted) + [AuthErrorEvent] && client.rooms == old(client.rooms))
      && (Authenticated(uid) && ToNumber(groupIdText).NaN? ==> client.emitted == old(client.emitted) && client.rooms == old(client.rooms))
      && (Authenticated(uid) && ToNumber(groupIdText).Num? && !member ==>
            client.emitted == old(client.emitted) + [ChatErrorEvent] && client.rooms == old(client.rooms))
      && (member ==> client.emitted == old(client.emitted))
      && (member && target in old(client.rooms) ==> client.rooms == old(client.rooms))
      && (member && target !in old(client.rooms) ==>
            client.rooms == (set r | r in old(client.rooms) && !Leaves(r, client.id, target)) + {target})
  {
    var uid := ClientUserId(session);
    if !Authenticated(uid) {
      client.emitted := client.emitted + [AuthErrorEvent];
      return;
    }
    if ToNumber(groupIdText).NaN? {
      return;
    }
    if !IsMember(members, uid.value.value, ToNumber(groupIdText)) {
      client.emitted := client.emitted + [ChatErrorEvent];
      return;
    }
    var target := GroupRoom(groupIdText);
    if target in client.rooms {
      return;
    }
    LeaveOtherGroupRooms(client, target);
    client.rooms := client.rooms + {target};
  }

  /** The `for (const room of Array.from(client.rooms))` loop of `join_chat`. */
  method LeaveOtherGroupRooms(client: Client, target: string)
    modifies client`rooms
    ensures client.rooms == set r | r in old(client.rooms) && !Leaves(r, client.id, target)
  {
    var current := Members(client.rooms);
    ghost var r0 := client.rooms;
    var i := 0;
    while i < |current|
      invariant 0 <= i <= |current|
      invariant forall r :: r in client.rooms <==> r in r0 && !(r in current[..i] && Leaves(r, client.id, target))
    {
      var room := current[i];
      if Leaves(room, client.id, target) {
        client.rooms := client.rooms - {room};
      }
      assert current[..i + 1] == current[..i] + [room];
      i := i + 1;
    }
    assert current[..i] == current;
  }

  /** `leave_chat`: only the group's room is left. */
  method HandleLeaveChat(client: Client, groupIdText: string)
    modifies client`rooms
    ensures client.rooms == old(client.rooms) - {GroupRoom(groupIdText)}
  {
    client.rooms := client.rooms - {GroupRoom(groupIdText)};
  }

  /** `LPUSH` of one entry then `LTRIM 0 49`. */
  function PushCapped(list: seq<ChatEntry>, entry: ChatEntry): seq<ChatEntry> {
    Lrange([entry] + list, 0, ChatCacheSize - 1)
  }

  /** The new entry is at the head, followed by the newest 49 older entries; the list never exceeds 50. */
  lemma PushCappedKeepsNewest(list: seq<ChatEntry>, entry: ChatEntry)
    ensures |PushCapped(list, entry)| == Min(|list| + 1, ChatCacheSize)
    ensures PushCapped(list, entry)[0] == entry
    ensures PushCapped(list, entry)[1..] == list[..Min(|list|, ChatCacheSize - 1)]
  {
  }

  /** A chat event published on `chat:message` for the database writer. */
  datatype Publication = Publication(groupId: int, chatData: ChatEntry)

  /** A `chat_message` broadcast to a room. */
  datatype RoomEmit = RoomEmit(room: string, payload: ChatEntry)

  class ChatHub {
    var chats: map<string, seq<ChatEntry>>
    var published: seq<Publication>
    var broadcasts: seq<RoomEmit>

    constructor (chats: map<string, seq<ChatEntry>>)
      ensures this.chats == chats && published == [] && broadcasts == []
    {
      this.chats, published, broadcasts := chats, [], [];
    }

    function ChatList(key: string): seq<ChatEntry>
      reads this
    {
      if key in chats then chats[key] else []
    }

    /**
     * `send_chat`: the payload (id `Date.now()`, the member's name) is pushed at the head of
     * `chat:{id}`, which is trimmed to 50, then published and broadcast to the group's room.
     */
    method HandleSendChat(client: Client, session: Option<SessionUser>, groupIdText: string, message: string,
                          members: map<(int, int), string>, now: int, nowIso: string)
      modifies this, client`emitted
      ensures var uid := ClientUserId(session);
        && (!Authenticated(uid) ==>
              client.emitted == old(client.emitted) + [AuthErrorEvent] && chats == old(chats) &&
              published == old(published) && broadcasts == old(broadcasts))
        && (Authenticated(uid) && !IsMember(members, uid.value.value, ToNumber(groupIdText)) ==>
              client.emitted == old(client.emitted) + [ChatErrorEvent] && chats == old(chats) &&
              published == old(published) && broadcasts == old(broadcasts))
        && (Authenticated(uid) && IsMember(members, uid.value.value, ToNumber(groupIdText)) ==>
              var gid := ToNumber(groupIdText).value;
              var payload := ChatEntry(Some(now), Some(ChatUser(uid.value.value, members[(uid.value.value, gid)])), Some(message), nowIso);
              client.emitted == old(client.emitted) &&
              chats == old(chats)[ChatKey(gid) := PushCapped(old(ChatList(ChatKey(gid))), payload)] &&
              published == old(published) + [Publication(gid, payload)] &&
              broadcasts == old(broadcasts) + [RoomEmit(GroupRoom(groupIdText), payload)])
    {
      var uid := ClientUserId(session);
      if !Authenticated(uid) {
        client.emitted := client.emitted + [AuthErrorEvent];
        return;
      }
      var userId := uid.value.value;
      var gidNum := ToNumber(groupIdText);
      if !IsMember(members, userId, gidNum) {
        client.emitted := client.emitted + [ChatErrorEvent];
        return;
      }
      var gid := gidNum.value;
      var payload := ChatEntry(Some(now), Some(ChatUser(userId, members[(userId, gid)])), Some(message), nowIso);
      var key := ChatKey(gid);
      chats := chats[key := PushCapped(ChatList(key), payload)];
      published := published + [Publication(gid, payload)];
      broadcasts := broadcasts + [RoomEmit(GroupRoom(groupIdText), payload)];
    }
  }
}
