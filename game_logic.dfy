/**
 * The quiz game's answer handling (`GameLogicService.handleSendResult`): a right answer
 * paints the pixel and moves its ownership, a wrong one costs a life, a player with no
 * life left is dead and loses every pixel, and once no player is alive the game ends with
 * a ranking of all players.
 */
module GameLogic {
  import opened Wrappers
  import opened JsText
  import opened Sorting
  import opened GameState
  import opened PixelField
  import opened CanvasService
  import opened GamePixel
  import opened Collections

  // ---------------------------------------------------------------------------
  // Sessions

  /** The JSON stored under `socket:{socketId}:user`; either id may be absent. */
  datatype SessionUser = SessionUser(id: Option<int>, userId: Option<int>, username: string)

  /**
   * `getUserIdFromClient`: `String(user.id ?? user.userId)`, or null without a session.
   * A session without either id still yields the truthy string "undefined", so only a
   * missing session fails the `!userId` test.
   */
  function UserIdOf(session: Option<SessionUser>): (r: Option<string>)
    ensures r.None? <==> session.None?
    ensures r.Some? ==> r.value != ""
    ensures session.Some? && session.value.id.Some? ==> ToNumber(r.value) == Num(session.value.id.value)
    ensures session.Some? && session.value.id.None? && session.value.userId.Some? ==>
      ToNumber(r.value) == Num(session.value.userId.value)
  {
    match session
    case None => None
    case Some(user) =>
      if user.id.Some? then
        ToNumberOfIntToString(user.id.value);
        Some(IntToString(user.id.value))
      else if user.userId.Some? then
        ToNumberOfIntToString(user.userId.value);
        Some(IntToString(user.userId.value))
      else Some("undefined")
  }

  /** The session, if any, that `getUserNameById` stops at: the first whose id is `userId`. */
  predicate SessionOf(sessions: seq<SessionUser>, i: int, userId: string) {
    0 <= i < |sessions| && UserIdOf(Some(sessions[i])) == Some(userId) &&
    forall j :: 0 <= j < i ==> UserIdOf(Some(sessions[j])) != Some(userId)
  }

  /**
   * `getUserNameById`: scans the sessions in order; the first one whose id is `userId`
   * gives its username, or `userId` when that username is empty; no match gives `userId`.
   */
  function UserNameById(sessions: seq<SessionUser>, userId: string): (name: string)
    ensures forall i :: SessionOf(sessions, i, userId) ==>
      name == if sessions[i].username != "" then sessions[i].username else userId
    ensures (forall i :: 0 <= i < |sessions| ==> UserIdOf(Some(sessions[i])) != Some(userId)) ==> name == userId
    ensures userId != "" ==> name != ""
    decreases |sessions|
  {
    if sessions == [] then userId
    else if UserIdOf(Some(sessions[0])) == Some(userId) then
      if sessions[0].username != "" then sessions[0].username else userId
    else
      var rest := sessions[1..];
      assert forall i :: SessionOf(sessions, i, userId) ==> i > 0 && SessionOf(rest, i - 1, userId) by {
        forall i | SessionOf(sessions, i, userId)
          ensures i > 0 && SessionOf(rest, i - 1, userId)
        {
          forall j | 0 <= j < i - 1
            ensures UserIdOf(Some(rest[j])) != Some(userId)
          {
            assert rest[j] == sessions[j + 1];
          }
        }
      }
      assert (forall i :: 0 <= i < |sessions| ==> UserIdOf(Some(sessions[i])) != Some(userId)) ==>
        forall i :: 0 <= i < |rest| ==> UserIdOf(Some(rest[i])) != Some(userId) by {
        if forall i :: 0 <= i < |sessions| ==> UserIdOf(Some(sessions[i])) != Some(userId) {
          forall i | 0 <= i < |rest|
            ensures UserIdOf(Some(rest[i])) != Some(userId)
          {
            assert rest[i] == sessions[i + 1];
          }
        }
      }
      UserNameById(rest, userId)
  }

  // ---------------------------------------------------------------------------
  // Answers

  /** `pixel.owner && pixel.owner !== userId`: the pixel belonged to somebody else. */
  predicate OtherOwner(prevOwner: Option<string>, userId: string) {
    prevOwner.Some? && prevOwner.value != "" && prevOwner.value != userId
  }

  /**
   * The player records after one answer. Every answer counts a try; a right answer gives
   * the player the pixel (and takes it from its previous owner), a wrong one costs a life
   * and marks the player dead once the life left is 0 or less.
   */
  function AfterAnswer(m: Records, canvasId: string, userId: string, result: bool, prevOwner: Option<string>): (r: Records)
    ensures TryCountOf(r, canvasId, userId) == TryCountOf(m, canvasId, userId) + 1
    ensures result ==> OwnCountOf(r, canvasId, userId) == OwnCountOf(m, canvasId, userId) + 1
    ensures result ==> LifeOf(r, canvasId, userId) == LifeOf(m, canvasId, userId)
    ensures result ==> DeadOf(r, canvasId, userId) == DeadOf(m, canvasId, userId)
    ensures result && OtherOwner(prevOwner, userId) ==>
      OwnCountOf(r, canvasId, prevOwner.value) == OwnCountOf(m, canvasId, prevOwner.value) - 1 &&
      TryCountOf(r, canvasId, prevOwner.value) == TryCountOf(m, canvasId, prevOwner.value)
    ensures !result ==> LifeOf(r, canvasId, userId) == LifeOf(m, canvasId, userId) - 1
    ensures !result ==> OwnCountOf(r, canvasId, userId) == OwnCountOf(m, canvasId, userId)
    ensures !result ==> (DeadOf(r, canvasId, userId) <==> DeadOf(m, canvasId, userId) || LifeOf(m, canvasId, userId) <= 1)
    ensures forall k :: k != (canvasId, userId) && !(result && OtherOwner(prevOwner, userId) && k == (canvasId, prevOwner.value)) ==>
      (k in r <==> k in m) && (k in m ==> r[k] == m[k])
  {
    var tried := WithTryIncremented(m, canvasId, userId);
    if result then RightAnswered(tried, canvasId, userId, prevOwner) else WrongAnswered(tried, canvasId, userId)
  }

  /** The own-count moves of a right answer. */
  function RightAnswered(m: Records, canvasId: string, userId: string, prevOwner: Option<string>): Records {
    var moved := if OtherOwner(prevOwner, userId) then WithOwnCountAdded(m, canvasId, prevOwner.value, -1) else m;
    WithOwnCountAdded(moved, canvasId, userId, 1)
  }

  /** The lost life, and the death it may cause, of a wrong answer. */
  function WrongAnswered(m: Records, canvasId: string, userId: string): Records {
    var hurt := WithLifeDecremented(m, canvasId, userId);
    if LifeOf(hurt, canvasId, userId) <= 0 then WithDead(hurt, canvasId, userId, true) else hurt
  }

  /** Whether a wrong answer kills the player: `decrUserLife` returns 0 or less. */
  predicate Dies(m: Records, canvasId: string, userId: string, result: bool) {
    !result && LifeOf(m, canvasId, userId) - 1 <= 0
  }

  /** The sum of the own counts of `users`. */
  function TotalOwn(m: Records, canvasId: string, users: seq<string>): int
    decreases |users|
  {
    if users == [] then 0 else TotalOwn(m, canvasId, users[..|users| - 1]) + OwnCountOf(m, canvasId, users[|users| - 1])
  }

  /** Changing one player's own count by `delta` changes the total of a list naming it once by `delta`. */
  lemma {:induction false} TotalOwnShift(m: Records, r: Records, canvasId: string, users: seq<string>, v: string, delta: int)
    requires Distinct(users)
    requires forall w :: w != v ==> OwnCountOf(r, canvasId, w) == OwnCountOf(m, canvasId, w)
    requires OwnCountOf(r, canvasId, v) == OwnCountOf(m, canvasId, v) + delta
    ensures TotalOwn(r, canvasId, users) == TotalOwn(m, canvasId, users) + (if v in users then delta else 0)
    decreases |users|
  {
    if users != [] {
      var front := users[..|users| - 1];
      var last := users[|users| - 1];
      assert Distinct(front);
      TotalOwnShift(m, r, canvasId, front, v, delta);
      assert v in users <==> v in front || v == last;
      if v == last {
        forall i | 0 <= i < |front|
          ensures front[i] != v
        {
          assert users[i] != users[|users| - 1];
        }
      }
    }
  }

  /**
   * A right answer on somebody else's pixel moves one pixel of ownership: the total own
   * count of the players is unchanged. On an unowned pixel, or one the player already
   * owns, the total grows by one.
   */
  lemma RightAnswerMovesOwnership(m: Records, canvasId: string, userId: string, prevOwner: Option<string>, users: seq<string>)
    requires Distinct(users) && userId in users
    requires OtherOwner(prevOwner, userId) ==> prevOwner.value in users
    ensures TotalOwn(AfterAnswer(m, canvasId, userId, true, prevOwner), canvasId, users) ==
      TotalOwn(m, canvasId, users) + (if OtherOwner(prevOwner, userId) then 0 else 1)
  {
    var tried := WithTryIncremented(m, canvasId, userId);
    TotalOwnShift(m, tried, canvasId, users, userId, 0);
    var moved := tried;
    if OtherOwner(prevOwner, userId) {
      moved := WithOwnCountAdded(tried, canvasId, prevOwner.value, -1);
      TotalOwnShift(tried, moved, canvasId, users, prevOwner.value, -1);
    }
    TotalOwnShift(moved, WithOwnCountAdded(moved, canvasId, userId, 1), canvasId, users, userId, 1);
  }

  /**
   * The records after a right answer as `handleSendResult` is written: the pixel it looks
   * up comes from `getAllPixels`, whose pixels carry x, y and colour but no owner, so
   * `pixel.owner` is always null and no previous owner is ever charged.
   */
  function AfterRightAnswerAsWritten(m: Records, canvasId: string, userId: string): (r: Records)
    ensures OwnCountOf(r, canvasId, userId) == OwnCountOf(m, canvasId, userId) + 1
  {
    AfterAnswer(m, canvasId, userId, true, None)
  }

  /**
   * As written, painting over another player's pixel leaves that player's own count as it
   * was, so the total own count grows by one on every right answer.
   */
  lemma AsWrittenInflatesOwnership(m: Records, canvasId: string, userId: string, owner: string, users: seq<string>)
    requires Distinct(users) && userId in users && owner in users
    requires owner != "" && owner != userId
    ensures OwnCountOf(AfterRightAnswerAsWritten(m, canvasId, userId), canvasId, owner) == OwnCountOf(m, canvasId, owner)
    ensures TotalOwn(AfterRightAnswerAsWritten(m, canvasId, userId), canvasId, users) == TotalOwn(m, canvasId, users) + 1
    ensures TotalOwn(AfterAnswer(m, canvasId, userId, true, Some(owner)), canvasId, users) == TotalOwn(m, canvasId, users)
  {
    RightAnswerMovesOwnership(m, canvasId, userId, None, users);
    RightAnswerMovesOwnership(m, canvasId, userId, Some(owner), users);
  }

  // ---------------------------------------------------------------------------
  // Ranking

  /** One entry of `userStats`. */
  datatype UserStat = UserStat(username: string, ownCount: int, tryCount: int, dead: bool)

  /** `{ ...u, rank: i + 1 }`. */
  datatype RankedStat = RankedStat(stat: UserStat, rank: nat)

  /** Alive and has answered at least once. */
  predicate Leading(a: UserStat) {
    !a.dead && a.tryCount > 0
  }

  /** Dead, or has never answered. */
  predicate Trailing(a: UserStat) {
    a.dead || a.tryCount == 0
  }

  /** The comparator of the ranking sort: negative puts `a` first. */
  function Compare(a: UserStat, b: UserStat): int {
    if Leading(a) && Trailing(b) then -1
    else if Leading(b) && Trailing(a) then 1
    else if !a.dead && !b.dead && a.tryCount > 0 && b.tryCount > 0 then
      if b.ownCount != a.ownCount then b.ownCount - a.ownCount else a.tryCount - b.tryCount
    else if Trailing(a) && Trailing(b) then
      if b.tryCount != a.tryCount then b.tryCount - a.tryCount else a.ownCount - b.ownCount
    else 0
  }

  /** A stable sort keeps `a` before `b` exactly when the comparator is not positive. */
  function Le(a: UserStat, b: UserStat): bool {
    Compare(a, b) <= 0
  }

  /** Try counts only ever grow from 0; on such stats the comparator is consistent. */
  predicate Counted(a: UserStat) {
    a.tryCount >= 0
  }

  /** The sort key the comparator orders by: leaders by most pixels then fewest tries, the rest by most tries then fewest pixels. */
  function Key(a: UserStat): (int, int, int) {
    if Leading(a) then (0, -a.ownCount, a.tryCount) else (1, -a.tryCount, a.ownCount)
  }

  predicate KeyLe(k: (int, int, int), l: (int, int, int)) {
    k.0 < l.0 || (k.0 == l.0 && (k.1 < l.1 || (k.1 == l.1 && k.2 <= l.2)))
  }

  lemma CompareByKey(a: UserStat, b: UserStat)
    requires Counted(a) && Counted(b)
    ensures Le(a, b) <==> KeyLe(Key(a), Key(b))
  {
  }

  /** On counted stats, "the comparator is not positive" is a total preorder. */
  lemma {:induction false} LeTotalPreorder()
    ensures TotalPreorderOn(Le, Counted)
  {
    forall a, b | Counted(a) && Counted(b)
      ensures Le(a, b) || Le(b, a)
    {
      CompareByKey(a, b);
      CompareByKey(b, a);
    }
    forall a, b, c | Counted(a) && Counted(b) && Counted(c) && Le(a, b) && Le(b, c)
      ensures Le(a, c)
    {
      CompareByKey(a, b);
      CompareByKey(b, c);
      CompareByKey(a, c);
    }
  }

  /** `userStats.sort(...).map((u, i) => ({ ...u, rank: i + 1 }))`. */
  function Rank(stats: seq<UserStat>): (r: seq<RankedStat>)
    ensures |r| == |stats|
  {
    var sorted := SortBy(stats, Le);
    seq(|sorted|, i requires 0 <= i < |sorted| => RankedStat(sorted[i], i + 1))
  }

  function Unranked(r: seq<RankedStat>): seq<UserStat> {
    seq(|r|, i requires 0 <= i < |r| => r[i].stat)
  }

  /**
   * The ranking lists every player once with ranks 1..n; alive players who answered come
   * before the others; among them more pixels, then fewer tries, rank higher; among the
   * others more tries, then fewer pixels, rank higher.
   */
  lemma {:induction false} RankOrder(stats: seq<UserStat>)
    requires forall i :: 0 <= i < |stats| ==> Counted(stats[i])
    ensures var r := Rank(stats);
      && multiset(Unranked(r)) == multiset(stats)
      && (forall i :: 0 <= i < |r| ==> r[i].rank == i + 1)
      && (forall i, j :: 0 <= i < j < |r| ==> !(Trailing(r[i].stat) && Leading(r[j].stat)))
      && (forall i, j :: 0 <= i < j < |r| && Leading(r[i].stat) && Leading(r[j].stat) ==>
            r[i].stat.ownCount > r[j].stat.ownCount ||
            (r[i].stat.ownCount == r[j].stat.ownCount && r[i].stat.tryCount <= r[j].stat.tryCount))
      && (forall i, j :: 0 <= i < j < |r| && Trailing(r[i].stat) && Trailing(r[j].stat) ==>
            r[i].stat.tryCount > r[j].stat.tryCount ||
            (r[i].stat.tryCount == r[j].stat.tryCount && r[i].stat.ownCount <= r[j].stat.ownCount))
  {
    var r := Rank(stats);
    var sorted := SortBy(stats, Le);
    LeTotalPreorder();
    SortBySorted(stats, Le, Counted);
    assert Unranked(r) == sorted;
    forall i, j | 0 <= i < j < |r|
      ensures Le(r[i].stat, r[j].stat)
    {
      assert r[i].stat == sorted[i] && r[j].stat == sorted[j];
    }
  }

  // ---------------------------------------------------------------------------
  // The handler

  /** What `handleSendResult` sends: to the caller's socket, or to the canvas room. */
  datatype Emit =
    | AuthError
    | GameError
    | PixelUpdate(room: string, x: int, y: int, color: string)
    | DeadUser(room: string, username: string, pixels: seq<FreedPixel>, count: nat)
    | DeadNotice
    | GameResult(room: string, results: seq<RankedStat>)

  function Room(canvasId: string): string {
    "canvas_" + canvasId
  }

  /** The players' stats in the order `order` lists them. */
  function StatsOf(m: Records, canvasId: string, order: seq<string>, sessions: seq<SessionUser>): (stats: seq<UserStat>)
    ensures |stats| == |order|
    ensures forall i :: 0 <= i < |order| ==>
      && stats[i].ownCount == OwnCountOf(m, canvasId, order[i])
      && stats[i].tryCount == TryCountOf(m, canvasId, order[i])
      && stats[i].dead == DeadOf(m, canvasId, order[i])
  {
    seq(|order|, i requires 0 <= i < |order| =>
      UserStat(UserNameById(sessions, order[i]), OwnCountOf(m, canvasId, order[i]),
        TryCountOf(m, canvasId, order[i]), DeadOf(m, canvasId, order[i])))
  }

  /**
   * A right answer: the canvas is loaded, the try counted, the pixel's ownership moved to
   * the player and the pixel painted unless its lock is held.
   */
  method AnswerRight(state: GameStateStore, canvas: CanvasStore, canvasId: string, userId: string,
                     x: int, y: int, color: string, prevOwner: Option<string>)
    returns (emits: seq<Emit>)
    modifies state`records, canvas`cells, canvas`dirtyPixels, canvas`locks
    ensures emits == [PixelUpdate(Room(canvasId), x, y, color)]
    ensures canvas.locks == old(canvas.locks)
    ensures state.records == AfterAnswer(old(state.records), canvasId, userId, true, prevOwner)
    ensures LockKey(canvasId, x, y) in old(canvas.locks) ==>
      canvas.cells == old(canvas.CellsAfterLoad(Some(canvasId))) && canvas.dirtyPixels == old(canvas.dirtyPixels)
    ensures LockKey(canvasId, x, y) !in old(canvas.locks) ==>
      var loaded := old(canvas.CellsAfterLoad(Some(canvasId)));
      canvas.cells == loaded[canvasId := HashIn(loaded, canvasId)[Cell(x, y) := color]] &&
      canvas.dirtyPixels == old(canvas.dirtyPixels)[canvasId := old(canvas.Dirty(canvasId)) + {Cell(x, y)}]
  {
    var allPixels, fields := canvas.GetAllPixels(Some(canvasId));
    CountRightAnswer(state, canvasId, userId, prevOwner);
    var _ := canvas.ApplyDrawPixel(canvasId, x, y, color, ToNumber(userId));
    emits := [PixelUpdate(Room(canvasId), x, y, color)];
  }

  /** The counter updates of a right answer: the try, then the pixel's ownership moving to the player. */
  method CountRightAnswer(state: GameStateStore, canvasId: string, userId: string, prevOwner: Option<string>)
    modifies state`records
    ensures state.records == AfterAnswer(old(state.records), canvasId, userId, true, prevOwner)
  {
    var tries := state.IncrUserTryCount(canvasId, userId);
    if OtherOwner(prevOwner, userId) {
      var _ := state.DecrUserOwnCount(canvasId, prevOwner.value);
    }
    var _ := state.IncrUserOwnCount(canvasId, userId);
  }

  /** The hashes after the freed pixels have been blackened; nothing is written when none was freed. */
  function FreedCells(cells: map<string, map<Cell, string>>, canvasId: string, freed: seq<FreedPixel>): map<string, map<Cell, string>> {
    if freed == [] then cells else cells[canvasId := Blackened(HashIn(cells, canvasId), freed)]
  }

  /** `dead_user` to the room with the freed pixels and their number, then `dead_notice` to the player, then possibly `game_result`. */
  predicate DeathAnnounced(emits: seq<Emit>, canvasId: string, username: string, freed: seq<FreedPixel>) {
    2 <= |emits| <= 3 && emits[0] == DeadUser(Room(canvasId), username, freed, |freed|) && emits[1] == DeadNotice
  }

  /**
   * A death: the pixels `owned` records for the player are freed, the player is marked dead,
   * and the game may end. The source's list carries no owner, so as written nothing is freed
   * (`GamePixel.AsWrittenFreesNothing`).
   */
  method Die(state: GameStateStore, canvas: CanvasStore, sessions: seq<SessionUser>,
             canvasId: string, userId: string, owned: Option<seq<OwnedPixel>>)
    returns (emits: seq<Emit>, order: seq<string>)
    modifies state`records, state`deadPlayers, canvas`cells
    ensures var freed := FreedOf(owned.GetOr([]), OwnedBy(userId));
      && canvas.cells == FreedCells(old(canvas.cells), canvasId, freed)
      && state.records == WithDead(old(state.records), canvasId, userId, true)
      && state.deadPlayers == old(state.deadPlayers)[canvasId := old(state.GetAllDeadUsers(canvasId)) + {userId}]
      && DeathAnnounced(emits, canvasId, UserNameById(sessions, userId), freed)
    ensures |emits| == 3 <==> state.GetAllUsersInGame(canvasId) <= old(state.GetAllDeadUsers(canvasId)) + {userId}
    ensures |emits| == 3 ==>
      Enumerates(order, state.GetAllUsersInGame(canvasId)) &&
      emits[2] == GameResult(Room(canvasId), Rank(StatsOf(state.records, canvasId, order, sessions)))
  {
    var freed := FreeAllPixelsOfUser(canvas, canvasId, userId, owned);
    state.SetUserDead(canvasId, userId, true);
    state.AddDeadUser(canvasId, userId);
    var room := Room(canvasId);
    emits := [DeadUser(room, UserNameById(sessions, userId), freed, |freed|), DeadNotice];
    var all := state.GetAllUsersInGame(canvasId);
    var dead := state.GetAllDeadUsers(canvasId);
    order := Members(all);
    if all - dead == {} {
      emits := emits + [GameResult(room, Rank(StatsOf(state.records, canvasId, order, sessions)))];
    } else {
      assert !(all <= dead);
    }
  }

  /** The caller's id; only read when there is a session. */
  function Caller(session: Option<SessionUser>): string {
    UserIdOf(session).GetOr("")
  }

  /** The caller has a session and is not dead, so the answer is applied. */
  predicate Answers(dead: bool, session: Option<SessionUser>) {
    session.Some? && !dead
  }

  /** A wrong answer: the canvas is loaded, the try counted and a life lost, which may kill the player. */
  method AnswerWrong(state: GameStateStore, canvas: CanvasStore, sessions: seq<SessionUser>,
                     canvasId: string, userId: string, owned: Option<seq<OwnedPixel>>)
    returns (emits: seq<Emit>, order: seq<string>)
    modifies state`records, state`deadPlayers, canvas`cells
    ensures state.records == AfterAnswer(old(state.records), canvasId, userId, false, None)
    ensures !Dies(old(state.records), canvasId, userId, false) ==>
      emits == [] && state.deadPlayers == old(state.deadPlayers) && canvas.cells == old(canvas.CellsAfterLoad(Some(canvasId)))
    ensures Dies(old(state.records), canvasId, userId, false) ==>
      var freed := FreedOf(owned.GetOr([]), OwnedBy(userId));
      && canvas.cells == FreedCells(old(canvas.CellsAfterLoad(Some(canvasId))), canvasId, freed)
      && state.deadPlayers == old(state.deadPlayers)[canvasId := old(state.GetAllDeadUsers(canvasId)) + {userId}]
      && DeathAnnounced(emits, canvasId, UserNameById(sessions, userId), freed)
      && (|emits| == 3 <==> state.GetAllUsersInGame(canvasId) <= old(state.GetAllDeadUsers(canvasId)) + {userId})
    ensures |emits| == 3 ==>
      Enumerates(order, state.GetAllUsersInGame(canvasId)) &&
      emits[2] == GameResult(Room(canvasId), Rank(StatsOf(state.records, canvasId, order, sessions)))
  {
    var allPixels, fields := canvas.GetAllPixels(Some(canvasId));
    var tries := state.IncrUserTryCount(canvasId, userId);
    var life := state.DecrUserLife(canvasId, userId);
    emits, order := [], [];
    if life <= 0 {
      emits, order := Die(state, canvas, sessions, canvasId, userId, owned);
    }
  }

  /**
   * `handleSendResult`. `session` is the caller's session, `sessions` every stored session
   * in `KEYS` order, `prevOwner` the owner recorded for the pixel and `owned` the canvas's
   * pixels with the owners recorded for them. The source loads both through `getAllPixels`,
   * which carries no owner; see `AsWrittenInflatesOwnership` and `GamePixel.AsWrittenFreesNothing`.
   */
  method HandleSendResult(state: GameStateStore, canvas: CanvasStore,
                          session: Option<SessionUser>, sessions: seq<SessionUser>,
                          canvasId: string, x: int, y: int, color: string, result: bool,
                          prevOwner: Option<string>, owned: Option<seq<OwnedPixel>>)
    returns (emits: seq<Emit>, order: seq<string>)
    modifies state`records, state`deadPlayers, canvas`cells, canvas`dirtyPixels, canvas`locks
    ensures canvas.locks == old(canvas.locks)
    // no session: refused, nothing changes
    ensures session.None? ==>
      emits == [AuthError] && state.records == old(state.records) && state.deadPlayers == old(state.deadPlayers) &&
      canvas.cells == old(canvas.cells) && canvas.dirtyPixels == old(canvas.dirtyPixels)
    // a dead player: refused, nothing changes
    ensures session.Some? && old(state.GetUserDead(canvasId, Caller(session))) ==>
      emits == [GameError] && state.records == old(state.records) && state.deadPlayers == old(state.deadPlayers) &&
      canvas.cells == old(canvas.cells) && canvas.dirtyPixels == old(canvas.dirtyPixels)
    // otherwise the answer is applied to the records
    ensures Answers(old(state.GetUserDead(canvasId, Caller(session))), session) ==>
      state.records == AfterAnswer(old(state.records), canvasId, Caller(session), result, prevOwner)
    ensures Answers(old(state.GetUserDead(canvasId, Caller(session))), session) ==>
      state.deadPlayers ==
        if Dies(old(state.records), canvasId, Caller(session), result)
        then old(state.deadPlayers)[canvasId := old(state.GetAllDeadUsers(canvasId)) + {Caller(session)}]
        else old(state.deadPlayers)
    // a right answer paints the pixel unless its lock is held
    ensures Answers(old(state.GetUserDead(canvasId, Caller(session))), session) && result ==>
      emits == [PixelUpdate(Room(canvasId), x, y, color)]
    ensures Answers(old(state.GetUserDead(canvasId, Caller(session))), session) && result ==>
      var loaded := old(canvas.CellsAfterLoad(Some(canvasId)));
      if LockKey(canvasId, x, y) in old(canvas.locks) then
        canvas.cells == loaded && canvas.dirtyPixels == old(canvas.dirtyPixels)
      else
        canvas.cells == loaded[canvasId := HashIn(loaded, canvasId)[Cell(x, y) := color]] &&
        canvas.dirtyPixels == old(canvas.dirtyPixels)[canvasId := old(canvas.Dirty(canvasId)) + {Cell(x, y)}]
    // a wrong answer the player survives only costs the life
    ensures (Answers(old(state.GetUserDead(canvasId, Caller(session))), session) && !result &&
             !Dies(old(state.records), canvasId, Caller(session), result)) ==>
      emits == [] && canvas.cells == old(canvas.CellsAfterLoad(Some(canvasId))) && canvas.dirtyPixels == old(canvas.dirtyPixels)
    // a death frees the player's pixels, is announced, and may end the game
    ensures (Answers(old(state.GetUserDead(canvasId, Caller(session))), session) &&
             Dies(old(state.records), canvasId, Caller(session), result)) ==>
      var userId := Caller(session);
      var loaded := old(canvas.CellsAfterLoad(Some(canvasId)));
      var freed := FreedOf(owned.GetOr([]), OwnedBy(userId));
      && canvas.dirtyPixels == old(canvas.dirtyPixels)
      && canvas.cells == FreedCells(loaded, canvasId, freed)
      && DeathAnnounced(emits, canvasId, UserNameById(sessions, userId), freed)
      && (|emits| == 3 <==> state.GetAllUsersInGame(canvasId) <= old(state.GetAllDeadUsers(canvasId)) + {userId})
    ensures |emits| == 3 ==>
      Enumerates(order, state.GetAllUsersInGame(canvasId)) &&
      emits[2] == GameResult(Room(canvasId), Rank(StatsOf(state.records, canvasId, order, sessions)))
  {
    var found := UserIdOf(session);
    if found.None? {
      return [AuthError], [];
    }
    var userId := found.value;
    if state.GetUserDead(canvasId, userId) {
      return [GameError], [];
    }
    order := [];
    if result {
      emits := AnswerRight(state, canvas, canvasId, userId, x, y, color, prevOwner);
    } else {
      emits, order := AnswerWrong(state, canvas, sessions, canvasId, userId, owned);
    }
  }
}
