/**
 * Per-player game state kept in Redis: the hash `game:{canvasId}:user:{userId}` with the
 * fields life, try_count, own_count, dead and color, and the sets `game:{canvasId}:users`
 * and `game:{canvasId}:dead_users`. Key expiry is not modelled.
 */
module GameState {
  import opened Wrappers

  /** The fields of one `game:{canvasId}:user:{userId}` hash; `None` is a field never written. */
  datatype UserRecord = UserRecord(
    life: Option<int>,
    tryCount: Option<int>,
    ownCount: Option<int>,
    dead: Option<bool>,
    color: Option<string>)

  const NoRecord := UserRecord(None, None, None, None, None)

  /** A hash key is the pair (canvasId, userId). */
  type UserKey = (string, string)

  type Records = map<UserKey, UserRecord>

  /** The record of one player; a missing hash has no fields. */
  function RecordOf(m: Records, canvasId: string, userId: string): UserRecord {
    if (canvasId, userId) in m then m[(canvasId, userId)] else NoRecord
  }

  /** `parseInt(hget(...) || '0')`: a missing counter reads 0. */
  function LifeOf(m: Records, canvasId: string, userId: string): int {
    RecordOf(m, canvasId, userId).life.GetOr(0)
  }

  function TryCountOf(m: Records, canvasId: string, userId: string): int {
    RecordOf(m, canvasId, userId).tryCount.GetOr(0)
  }

  function OwnCountOf(m: Records, canvasId: string, userId: string): int {
    RecordOf(m, canvasId, userId).ownCount.GetOr(0)
  }

  /** `hget(..., 'dead') === '1'`: a flag never set reads false. */
  function DeadOf(m: Records, canvasId: string, userId: string): bool {
    RecordOf(m, canvasId, userId).dead == Some(true)
  }

  /** Every record other than (canvasId, userId) is the same in `m` and `r`. */
  ghost predicate OthersUnchanged(m: Records, r: Records, canvasId: string, userId: string) {
    forall k :: k != (canvasId, userId) ==> (k in r <==> k in m) && (k in m ==> r[k] == m[k])
  }

  /** HINCRBY try_count 1. */
  function WithTryIncremented(m: Records, canvasId: string, userId: string): (r: Records)
    ensures TryCountOf(r, canvasId, userId) == TryCountOf(m, canvasId, userId) + 1
    ensures LifeOf(r, canvasId, userId) == LifeOf(m, canvasId, userId)
    ensures OwnCountOf(r, canvasId, userId) == OwnCountOf(m, canvasId, userId)
    ensures DeadOf(r, canvasId, userId) == DeadOf(m, canvasId, userId)
    ensures OthersUnchanged(m, r, canvasId, userId)
  {
    var rec := RecordOf(m, canvasId, userId);
    m[(canvasId, userId) := rec.(tryCount := Some(rec.tryCount.GetOr(0) + 1))]
  }

  /** HINCRBY own_count delta (delta is 1 or -1 in the source). */
  function WithOwnCountAdded(m: Records, canvasId: string, userId: string, delta: int): (r: Records)
    ensures OwnCountOf(r, canvasId, userId) == OwnCountOf(m, canvasId, userId) + delta
    ensures LifeOf(r, canvasId, userId) == LifeOf(m, canvasId, userId)
    ensures TryCountOf(r, canvasId, userId) == TryCountOf(m, canvasId, userId)
    ensures DeadOf(r, canvasId, userId) == DeadOf(m, canvasId, userId)
    ensures OthersUnchanged(m, r, canvasId, userId)
  {
    var rec := RecordOf(m, canvasId, userId);
    m[(canvasId, userId) := rec.(ownCount := Some(rec.ownCount.GetOr(0) + delta))]
  }

  /** HINCRBY life -1. */
  function WithLifeDecremented(m: Records, canvasId: string, userId: string): (r: Records)
    ensures LifeOf(r, canvasId, userId) == LifeOf(m, canvasId, userId) - 1
    ensures TryCountOf(r, canvasId, userId) == TryCountOf(m, canvasId, userId)
    ensures OwnCountOf(r, canvasId, userId) == OwnCountOf(m, canvasId, userId)
    ensures DeadOf(r, canvasId, userId) == DeadOf(m, canvasId, userId)
    ensures OthersUnchanged(m, r, canvasId, userId)
  {
    var rec := RecordOf(m, canvasId, userId);
    m[(canvasId, userId) := rec.(life := Some(rec.life.GetOr(0) - 1))]
  }

  /** HSET dead 1 or 0. */
  function WithDead(m: Records, canvasId: string, userId: string, value: bool): (r: Records)
    ensures DeadOf(r, canvasId, userId) == value
    ensures LifeOf(r, canvasId, userId) == LifeOf(m, canvasId, userId)
    ensures TryCountOf(r, canvasId, userId) == TryCountOf(m, canvasId, userId)
    ensures OwnCountOf(r, canvasId, userId) == OwnCountOf(m, canvasId, userId)
    ensures OthersUnchanged(m, r, canvasId, userId)
  {
    m[(canvasId, userId) := RecordOf(m, canvasId, userId).(dead := Some(value))]
  }

  class GameStateStore {
    var records: Records
    /** `game:{canvasId}:users`, by canvas id. */
    var players: map<string, set<string>>
    /** `game:{canvasId}:dead_users`, by canvas id. */
    var deadPlayers: map<string, set<string>>

    constructor ()
      ensures records == map[] && players == map[] && deadPlayers == map[]
    {
      records := map[];
      players := map[];
      deadPlayers := map[];
    }

    function Record(canvasId: string, userId: string): UserRecord
      reads this
    {
      RecordOf(records, canvasId, userId)
    }

    /** `getUserLife`: a missing field reads 0. */
    function GetUserLife(canvasId: string, userId: string): (v: int)
      reads this
      ensures (canvasId, userId) in records && records[(canvasId, userId)].life.Some? ==> v == records[(canvasId, userId)].life.value
      ensures !((canvasId, userId) in records && records[(canvasId, userId)].life.Some?) ==> v == 0
    {
      LifeOf(records, canvasId, userId)
    }

    /** `getUserTryCount`: a missing field reads 0. */
    function GetUserTryCount(canvasId: string, userId: string): (v: int)
      reads this
      ensures (canvasId, userId) in records && records[(canvasId, userId)].tryCount.Some? ==> v == records[(canvasId, userId)].tryCount.value
      ensures !((canvasId, userId) in records && records[(canvasId, userId)].tryCount.Some?) ==> v == 0
    {
      TryCountOf(records, canvasId, userId)
    }

    /** `getUserOwnCount`: a missing field reads 0. */
    function GetUserOwnCount(canvasId: string, userId: string): (v: int)
      reads this
      ensures (canvasId, userId) in records && records[(canvasId, userId)].ownCount.Some? ==> v == records[(canvasId, userId)].ownCount.value
      ensures !((canvasId, userId) in records && records[(canvasId, userId)].ownCount.Some?) ==> v == 0
    {
      OwnCountOf(records, canvasId, userId)
    }

    /** `getUserDead`: true only when the stored flag is '1'. */
    function GetUserDead(canvasId: string, userId: string): (v: bool)
      reads this
      ensures v <==> (canvasId, userId) in records && records[(canvasId, userId)].dead == Some(true)
    {
      DeadOf(records, canvasId, userId)
    }

    /** `getUserColor`: a missing colour reads ''. */
    function GetUserColor(canvasId: string, userId: string): (v: string)
      reads this
      ensures (canvasId, userId) in records && records[(canvasId, userId)].color.Some? ==> v == records[(canvasId, userId)].color.value
      ensures !((canvasId, userId) in records && records[(canvasId, userId)].color.Some?) ==> v == ""
    {
      Record(canvasId, userId).color.GetOr("")
    }

    /** `getAllUsersInGame` (SMEMBERS of a missing set is empty). */
    function GetAllUsersInGame(canvasId: string): (v: set<string>)
      reads this
      ensures canvasId in players ==> v == players[canvasId]
      ensures canvasId !in players ==> v == {}
    {
      if canvasId in players then players[canvasId] else {}
    }

    /** `getAllDeadUsers`. */
    function GetAllDeadUsers(canvasId: string): (v: set<string>)
      reads this
      ensures canvasId in deadPlayers ==> v == deadPlayers[canvasId]
      ensures canvasId !in deadPlayers ==> v == {}
    {
      if canvasId in deadPlayers then deadPlayers[canvasId] else {}
    }

    method SetUserLife(canvasId: string, userId: string, value: int)
      modifies this`records
      ensures records == old(records)[(canvasId, userId) := old(Record(canvasId, userId)).(life := Some(value))]
      ensures GetUserLife(canvasId, userId) == value
    {
      records := records[(canvasId, userId) := Record(canvasId, userId).(life := Some(value))];
    }

    /** HINCRBY life -1: a missing field counts from 0; returns the new value. */
    method DecrUserLife(canvasId: string, userId: string) returns (life: int)
      modifies this`records
      ensures records == WithLifeDecremented(old(records), canvasId, userId)
      ensures life == GetUserLife(canvasId, userId) == old(GetUserLife(canvasId, userId)) - 1
    {
      records := WithLifeDecremented(records, canvasId, userId);
      life := GetUserLife(canvasId, userId);
    }

    method SetUserDead(canvasId: string, userId: string, value: bool)
      modifies this`records
      ensures records == WithDead(old(records), canvasId, userId, value)
      ensures GetUserDead(canvasId, userId) == value
    {
      records := WithDead(records, canvasId, userId, value);
    }

    method IncrUserTryCount(canvasId: string, userId: string) returns (count: int)
      modifies this`records
      ensures records == WithTryIncremented(old(records), canvasId, userId)
      ensures count == GetUserTryCount(canvasId, userId) == old(GetUserTryCount(canvasId, userId)) + 1
    {
      records := WithTryIncremented(records, canvasId, userId);
      count := GetUserTryCount(canvasId, userId);
    }

    method IncrUserOwnCount(canvasId: string, userId: string) returns (count: int)
      modifies this`records
      ensures records == WithOwnCountAdded(old(records), canvasId, userId, 1)
      ensures count == GetUserOwnCount(canvasId, userId) == old(GetUserOwnCount(canvasId, userId)) + 1
    {
      records := WithOwnCountAdded(records, canvasId, userId, 1);
      count := GetUserOwnCount(canvasId, userId);
    }

    method DecrUserOwnCount(canvasId: string, userId: string) returns (count: int)
      modifies this`records
      ensures records == WithOwnCountAdded(old(records), canvasId, userId, -1)
      ensures count == GetUserOwnCount(canvasId, userId) == old(GetUserOwnCount(canvasId, userId)) - 1
    {
      records := WithOwnCountAdded(records, canvasId, userId, -1);
      count := GetUserOwnCount(canvasId, userId);
    }

    method SetUserOwnCount(canvasId: string, userId: string, value: int)
      modifies this`records
      ensures records == old(records)[(canvasId, userId) := old(Record(canvasId, userId)).(ownCount := Some(value))]
      ensures GetUserOwnCount(canvasId, userId) == value
    {
      records := records[(canvasId, userId) := Record(canvasId, userId).(ownCount := Some(value))];
    }

    method SetUserColor(canvasId: string, userId: string, color: string)
      modifies this`records
      ensures records == old(records)[(canvasId, userId) := old(Record(canvasId, userId)).(color := Some(color))]
      ensures GetUserColor(canvasId, userId) == color
    {
      records := records[(canvasId, userId) := Record(canvasId, userId).(color := Some(color))];
    }

    /** SADD `game:{canvasId}:users`: idempotent, and the user is listed afterwards. */
    method AddUserToGame(canvasId: string, userId: string)
      modifies this`players
      ensures players == old(players)[canvasId := old(GetAllUsersInGame(canvasId)) + {userId}]
      ensures GetAllUsersInGame(canvasId) == old(GetAllUsersInGame(canvasId)) + {userId}
    {
      players := players[canvasId := GetAllUsersInGame(canvasId) + {userId}];
    }

    /** SADD `game:{canvasId}:dead_users`. */
    method AddDeadUser(canvasId: string, userId: string)
      modifies this`deadPlayers
      ensures deadPlayers == old(deadPlayers)[canvasId := old(GetAllDeadUsers(canvasId)) + {userId}]
      ensures GetAllDeadUsers(canvasId) == old(GetAllDeadUsers(canvasId)) + {userId}
    {
      deadPlayers := deadPlayers[canvasId := GetAllDeadUsers(canvasId) + {userId}];
    }
  }
}
