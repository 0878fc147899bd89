/**
 * The game's write-behind to the database (`GameFlushService`): dirty pixel fields and
 * dirty players collected in Redis sets are written out in batches, and the sets are then
 * deleted. Database statements are recorded as an appended log of writes.
 */
module GameFlush {
  import opened Wrappers
  import opened JsText
  import opened Collections
  import opened PixelField
  import opened GameState
  import opened CanvasService

  /** `UPDATE pixels SET color, owner WHERE canvas_id, x, y`. */
  datatype PixelWrite = PixelWrite(canvasId: string, x: int, y: int, color: string, owner: Option<string>)

  /** The `user_canvas` upsert and the `game_user_result` life update for one player. */
  datatype UserWrite = UserWrite(userId: string, canvasId: string, ownCount: int, tryCount: int, life: int)

  /**
   * The write for one dirty field: the field `x:y` decodes back to the cell (see
   * `PixelField.FieldRoundTrip`), the value splits at '|' into colour and owner, and an
   * absent or empty owner is written as null.
   */
  function WriteOf(canvasId: string, f: Cell, value: string): (w: PixelWrite)
    ensures w.owner.Some? ==> w.owner.value != ""
  {
    var (color, owner) := ColorOwnerOf(value);
    PixelWrite(canvasId, f.x, f.y, color, owner)
  }

  /** The coordinates written are those the field `x:y` decodes to with `split(':').map(Number)`. */
  lemma WriteDecodesField(canvasId: string, f: Cell, value: string)
    ensures CoordsOf(FieldOf(f.x, f.y)) == (Num(WriteOf(canvasId, f, value).x), Num(WriteOf(canvasId, f, value).y))
  {
    FieldRoundTrip(f.x, f.y);
  }

  /** A field is written when its hash value exists and is non-empty. */
  predicate Writes(hash: map<Cell, string>, f: Cell) {
    f in hash && hash[f] != ""
  }

  /** The writes of `flushDirtyPixels` for the dirty fields in the order listed. */
  function PixelWritesOf(canvasId: string, hash: map<Cell, string>, fields: seq<Cell>): (ws: seq<PixelWrite>)
    ensures |ws| <= |fields|
    decreases |fields|
  {
    if fields == [] then []
    else
      var f := fields[|fields| - 1];
      PixelWritesOf(canvasId, hash, fields[..|fields| - 1]) + (if Writes(hash, f) then [WriteOf(canvasId, f, hash[f])] else [])
  }

  /** Exactly the listed fields with a non-empty value are written, each from its own value. */
  lemma {:induction false} PixelWritesExactly(canvasId: string, hash: map<Cell, string>, fields: seq<Cell>)
    ensures forall f :: f in fields && Writes(hash, f) ==> WriteOf(canvasId, f, hash[f]) in PixelWritesOf(canvasId, hash, fields)
    ensures forall w :: w in PixelWritesOf(canvasId, hash, fields) ==>
      var f := Cell(w.x, w.y);
      f in fields && Writes(hash, f) && w == WriteOf(canvasId, f, hash[f])
    ensures PixelWritesOf(canvasId, hash, fields) == [] <==> forall f :: f in fields ==> !Writes(hash, f)
    decreases |fields|
  {
    if fields != [] {
      var front := fields[..|fields| - 1];
      PixelWritesExactly(canvasId, hash, front);
      assert forall f :: f in fields <==> f in front || f == fields[|fields| - 1];
    }
  }

  /** A pixel freed by a death (`#000000|`) is written black with a null owner. */
  lemma FreedPixelWritesBlack(canvasId: string, f: Cell)
    ensures WriteOf(canvasId, f, CellValue("#000000", None)) == PixelWrite(canvasId, f.x, f.y, "#000000", None)
  {
    CellRoundTrip("#000000", None);
  }

  /** A painted pixel with an owner is written with that colour and owner. */
  lemma OwnedPixelWrites(canvasId: string, f: Cell, color: string, owner: string)
    requires '|' !in color && '|' !in owner && owner != ""
    ensures WriteOf(canvasId, f, CellValue(color, Some(owner))) == PixelWrite(canvasId, f.x, f.y, color, Some(owner))
  {
    CellRoundTrip(color, Some(owner));
  }

  /** `!userId || userId === '0' || isNaN(Number(userId))`: ids the flush skips. */
  predicate InvalidUserId(userId: string) {
    userId == "" || userId == "0" || ToNumber(userId).NaN?
  }

  /** Whether a player's row is written: a valid id that names a row of `users`. */
  predicate UserWritten(users: set<int>, userId: string) {
    !InvalidUserId(userId) && ToNumber(userId).value in users
  }

  /**
   * The write for one player: `ownCount || 0` and `tryCount || 0` read a missing field as
   * 0, and `life || 2` reads a missing life as 2. The fields are strings, so a stored 0 is
   * truthy and kept.
   */
  function UserWriteOf(m: Records, canvasId: string, userId: string): (w: UserWrite)
    ensures w.ownCount == OwnCountOf(m, canvasId, userId) && w.tryCount == TryCountOf(m, canvasId, userId)
    ensures RecordOf(m, canvasId, userId).life.None? ==> w.life == 2
    ensures RecordOf(m, canvasId, userId).life.Some? ==> w.life == LifeOf(m, canvasId, userId)
  {
    var r := RecordOf(m, canvasId, userId);
    UserWrite(userId, canvasId, r.ownCount.GetOr(0), r.tryCount.GetOr(0), r.life.GetOr(2))
  }

  /** The writes of `flushDirtyUsers` for the dirty players in the order listed. */
  function UserWritesOf(m: Records, canvasId: string, users: set<int>, ids: seq<string>): (ws: seq<UserWrite>)
    ensures |ws| <= |ids|
    decreases |ids|
  {
    if ids == [] then []
    else
      var u := ids[|ids| - 1];
      UserWritesOf(m, canvasId, users, ids[..|ids| - 1]) + (if UserWritten(users, u) then [UserWriteOf(m, canvasId, u)] else [])
  }

  /** Exactly the listed players with a valid, known id are written, each once, from their own record. */
  lemma {:induction false} UserWritesExactly(m: Records, canvasId: string, users: set<int>, ids: seq<string>)
    requires Distinct(ids)
    ensures forall w :: w in UserWritesOf(m, canvasId, users, ids) ==>
      w.userId in ids && UserWritten(users, w.userId) && w == UserWriteOf(m, canvasId, w.userId)
    ensures forall u :: u in ids && UserWritten(users, u) ==> UserWriteOf(m, canvasId, u) in UserWritesOf(m, canvasId, users, ids)
    ensures forall i, j :: 0 <= i < j < |UserWritesOf(m, canvasId, users, ids)| ==>
      UserWritesOf(m, canvasId, users, ids)[i].userId != UserWritesOf(m, canvasId, users, ids)[j].userId
    decreases |ids|
  {
    if ids != [] {
      var front := ids[..|ids| - 1];
      var u := ids[|ids| - 1];
      assert Distinct(front);
      UserWritesExactly(m, canvasId, users, front);
      assert forall v :: v in ids <==> v in front || v == u;
      assert u !in front by {
        forall i | 0 <= i < |front|
          ensures front[i] != u
        {
          assert ids[i] != ids[|ids| - 1];
        }
      }
    }
  }

  /** The flush loop's threshold: a set is flushed once it holds 10 entries. */
  const FlushThreshold := 10

  /** The forced flush runs when more than this many milliseconds have passed. */
  const ForceInterval := 30000

  /**
   * `!lastForceFlush || now - parseInt(lastForceFlush) > 30000`. A record that does not
   * parse makes the difference NaN, and a comparison with NaN is false.
   */
  predicate ForceDue(last: Option<string>, now: int) {
    last.None? || last.value == "" || (ParseInt(last.value).Num? && now - ParseInt(last.value).value > ForceInterval)
  }

  /** The recorded `now.toString()` reads back as `now`: the next forced flush comes more than 30000 ms later. */
  lemma ForceWindow(recorded: nat, now: int)
    ensures ForceDue(Some(IntToString(recorded)), now) <==> now - recorded > ForceInterval
  {
    ParseIntOfNatString(recorded, []);
    assert NatToString(recorded) + [] == IntToString(recorded);
  }

  /**
   * The dirty sets after one canvas's set is flushed: `DEL` runs only for a non-empty set,
   * and no other canvas's set changes.
   */
  function SetDeletedIfNonEmpty<T>(m: map<string, set<T>>, key: string): (r: map<string, set<T>>)
    ensures key !in r || r[key] == {}
    ensures forall c :: c != key ==> (c in r <==> c in m) && (c in r ==> r[c] == m[c])
  {
    if key in m && m[key] != {} then m - {key} else m
  }

  /** The state `GameFlushService` owns: the dirty-player sets, the last forced flushes, and the database writes. */
  class FlushStore {
    var dirtyUsers: map<string, set<string>>
    var lastForceFlush: map<string, string>
    var pixelWrites: seq<PixelWrite>
    var userWrites: seq<UserWrite>

    constructor ()
      ensures dirtyUsers == map[] && lastForceFlush == map[] && pixelWrites == [] && userWrites == []
    {
      dirtyUsers := map[];
      lastForceFlush := map[];
      pixelWrites := [];
      userWrites := [];
    }

    function DirtyUsers(canvasId: string): set<string>
      reads this
    {
      if canvasId in dirtyUsers then dirtyUsers[canvasId] else {}
    }

    function LastForce(canvasId: string): Option<string>
      reads this
    {
      if canvasId in lastForceFlush then Some(lastForceFlush[canvasId]) else None
    }

    /** `addDirtyPixel`: SADD of the field `x:y`. */
    method AddDirtyPixel(canvas: CanvasStore, canvasId: string, x: int, y: int)
      modifies canvas`dirtyPixels
      ensures canvas.dirtyPixels == old(canvas.dirtyPixels)[canvasId := old(canvas.Dirty(canvasId)) + {Cell(x, y)}]
    {
      canvas.dirtyPixels := canvas.dirtyPixels[canvasId := canvas.Dirty(canvasId) + {Cell(x, y)}];
    }

    /** `addDirtyUser`: SADD of the player's id. */
    method AddDirtyUser(canvasId: string, userId: string)
      modifies this`dirtyUsers
      ensures dirtyUsers == old(dirtyUsers)[canvasId := old(DirtyUsers(canvasId)) + {userId}]
    {
      dirtyUsers := dirtyUsers[canvasId := DirtyUsers(canvasId) + {userId}];
    }

    /**
     * `flushDirtyPixels`: every dirty field with a value is written, in `SMEMBERS` order,
     * and the dirty set is deleted. An empty set writes nothing.
     */
    method FlushDirtyPixels(canvas: CanvasStore, canvasId: string) returns (fields: seq<Cell>)
      modifies this`pixelWrites, canvas`dirtyPixels
      ensures Enumerates(fields, old(canvas.Dirty(canvasId))) && |fields| == |old(canvas.Dirty(canvasId))|
      ensures pixelWrites == old(pixelWrites) + PixelWritesOf(canvasId, canvas.Hash(canvasId), fields)
      ensures canvas.dirtyPixels == if fields == [] then old(canvas.dirtyPixels) else old(canvas.dirtyPixels) - {canvasId}
      ensures canvas.Dirty(canvasId) == {}
    {
      fields := Members(canvas.Dirty(canvasId));
      if |fields| == 0 {
        return;
      }
      var hash := canvas.Hash(canvasId);
      var i := 0;
      while i < |fields|
        invariant 0 <= i <= |fields|
        invariant pixelWrites == old(pixelWrites) + PixelWritesOf(canvasId, hash, fields[..i])
        invariant canvas.dirtyPixels == old(canvas.dirtyPixels)
      {
        var f := fields[i];
        assert fields[..i + 1][..i] == fields[..i];
        if f in hash && hash[f] != "" {
          pixelWrites := pixelWrites + [WriteOf(canvasId, f, hash[f])];
        }
        i := i + 1;
      }
      assert fields[..i] == fields;
      canvas.dirtyPixels := canvas.dirtyPixels - {canvasId};
    }

    /**
     * `flushDirtyUsers`: every dirty player with a valid id that `users` holds is written,
     * in `SMEMBERS` order, and the dirty set is deleted. An empty set writes nothing.
     */
    method FlushDirtyUsers(state: GameStateStore, canvasId: string, users: set<int>) returns (ids: seq<string>)
      modifies this`userWrites, this`dirtyUsers
      ensures Enumerates(ids, old(DirtyUsers(canvasId))) && |ids| == |old(DirtyUsers(canvasId))|
      ensures userWrites == old(userWrites) + UserWritesOf(state.records, canvasId, users, ids)
      ensures dirtyUsers == if ids == [] then old(dirtyUsers) else old(dirtyUsers) - {canvasId}
      ensures DirtyUsers(canvasId) == {}
    {
      ids := Members(DirtyUsers(canvasId));
      if |ids| == 0 {
        return;
      }
      var i := 0;
      while i < |ids|
        invariant 0 <= i <= |ids|
        invariant userWrites == old(userWrites) + UserWritesOf(state.records, canvasId, users, ids[..i])
        invariant dirtyUsers == old(dirtyUsers)
      {
        var u := ids[i];
        assert ids[..i + 1][..i] == ids[..i];
        if !InvalidUserId(u) && ToNumber(u).value in users {
          userWrites := userWrites + [UserWriteOf(state.records, canvasId, u)];
        }
        i := i + 1;
      }
      assert ids[..i] == ids;
      dirtyUsers := dirtyUsers - {canvasId};
    }

    /**
     * The pixel half of a `flushLoop` tick: the dirty-pixel set is flushed when it holds
     * at least 10 fields, and again when a forced flush is `due`; that second flush finds
     * an already flushed set empty and writes nothing.
     */
    method TickPixels(canvas: CanvasStore, canvasId: string, due: bool) returns (fields: seq<Cell>)
      modifies this`pixelWrites, canvas`dirtyPixels
      ensures |old(canvas.Dirty(canvasId))| >= FlushThreshold || due ==>
        Enumerates(fields, old(canvas.Dirty(canvasId))) && canvas.Dirty(canvasId) == {} &&
        canvas.dirtyPixels == SetDeletedIfNonEmpty(old(canvas.dirtyPixels), canvasId) &&
        pixelWrites == old(pixelWrites) + PixelWritesOf(canvasId, canvas.Hash(canvasId), fields)
      ensures !(|old(canvas.Dirty(canvasId))| >= FlushThreshold || due) ==>
        fields == [] && canvas.dirtyPixels == old(canvas.dirtyPixels) && pixelWrites == old(pixelWrites)
    {
      fields := [];
      var count := |canvas.Dirty(canvasId)|;
      if count >= FlushThreshold {
        fields := FlushDirtyPixels(canvas, canvasId);
      }
      if due {
        var again := FlushDirtyPixels(canvas, canvasId);
        if count < FlushThreshold {
          fields := again;
        }
      }
    }

    /** The player half of a `flushLoop` tick, with the same two triggers. */
    method TickUsers(state: GameStateStore, canvasId: string, users: set<int>, due: bool) returns (ids: seq<string>)
      modifies this`userWrites, this`dirtyUsers
      ensures |old(DirtyUsers(canvasId))| >= FlushThreshold || due ==>
        Enumerates(ids, old(DirtyUsers(canvasId))) && DirtyUsers(canvasId) == {} &&
        dirtyUsers == SetDeletedIfNonEmpty(old(dirtyUsers), canvasId) &&
        userWrites == old(userWrites) + UserWritesOf(state.records, canvasId, users, ids)
      ensures !(|old(DirtyUsers(canvasId))| >= FlushThreshold || due) ==>
        ids == [] && dirtyUsers == old(dirtyUsers) && userWrites == old(userWrites)
    {
      ids := [];
      var count := |DirtyUsers(canvasId)|;
      if count >= FlushThreshold {
        ids := FlushDirtyUsers(state, canvasId, users);
      }
      if due {
        var again := FlushDirtyUsers(state, canvasId, users);
        if count < FlushThreshold {
          ids := again;
        }
      }
    }

    /**
     * One tick of `flushLoop` at time `now`: each set holding at least 10 entries is
     * flushed, and both are flushed when a forced flush is due, which then records `now`.
     * The pixel and player flushes touch disjoint state, so they are taken one half at a time.
     */
    method Tick(canvas: CanvasStore, state: GameStateStore, canvasId: string, now: int, users: set<int>)
      returns (pixelFields: seq<Cell>, userIds: seq<string>)
      modifies this`pixelWrites, this`userWrites, this`dirtyUsers, this`lastForceFlush, canvas`dirtyPixels
      ensures lastForceFlush ==
        if ForceDue(old(LastForce(canvasId)), now) then old(lastForceFlush)[canvasId := IntToString(now)] else old(lastForceFlush)
      ensures |old(canvas.Dirty(canvasId))| >= FlushThreshold || ForceDue(old(LastForce(canvasId)), now) ==>
        Enumerates(pixelFields, old(canvas.Dirty(canvasId))) && canvas.Dirty(canvasId) == {} &&
        canvas.dirtyPixels == SetDeletedIfNonEmpty(old(canvas.dirtyPixels), canvasId) &&
        pixelWrites == old(pixelWrites) + PixelWritesOf(canvasId, canvas.Hash(canvasId), pixelFields)
      ensures !(|old(canvas.Dirty(canvasId))| >= FlushThreshold || ForceDue(old(LastForce(canvasId)), now)) ==>
        canvas.dirtyPixels == old(canvas.dirtyPixels) && pixelWrites == old(pixelWrites)
      ensures |old(DirtyUsers(canvasId))| >= FlushThreshold || ForceDue(old(LastForce(canvasId)), now) ==>
        Enumerates(userIds, old(DirtyUsers(canvasId))) && DirtyUsers(canvasId) == {} &&
        dirtyUsers == SetDeletedIfNonEmpty(old(dirtyUsers), canvasId) &&
        userWrites == old(userWrites) + UserWritesOf(state.records, canvasId, users, userIds)
      ensures !(|old(DirtyUsers(canvasId))| >= FlushThreshold || ForceDue(old(LastForce(canvasId)), now)) ==>
        dirtyUsers == old(dirtyUsers) && userWrites == old(userWrites)
    {
      var due := ForceDue(LastForce(canvasId), now);
      pixelFields := TickPixels(canvas, canvasId, due);
      userIds := TickUsers(state, canvasId, users, due);
      if due {
        lastForceFlush := lastForceFlush[canvasId := IntToString(now)];
      }
    }
  }
}
