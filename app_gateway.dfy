/**
 * `AppGateway`: socket bookkeeping. Connections carry an optional JWT; a verified user gets a
 * session `socket:{sid}:user` and joins the set `user:{uid}:sockets`; every socket is in
 * `active_sockets`, and canvas rooms keep `canvas:{id}:sockets` sets. The active-user count is
 * broadcast with a throttle.
 *
 * Redis sets are maps from key to a non-empty set: Redis deletes a set when its last member
 * is removed, which `SRem` writes out.
 */
module AppGateway {
  import opened Wrappers
  import opened JsText
  import opened Collections

  // ---------------------------------------------------------------------------
  // Token extraction

  /** A string is truthy in JavaScript when it is non-empty. */
  predicate TruthyText(s: Option<string>) {
    s.Some? && s.value != ""
  }

  /**
   * The token of `getUserFromSocket`: `handshake.auth.token` when truthy, else the second
   * word of the `Authorization` header; an absent or empty result is no token.
   */
  function ExtractToken(authToken: Option<string>, authorization: Option<string>): (t: Option<string>)
    ensures t.Some? ==> t.value != ""
    ensures TruthyText(authToken) ==> t == authToken
    ensures !TruthyText(authToken) && authorization.None? ==> t.None?
    ensures !TruthyText(authToken) && t.Some? ==>
      authorization.Some? && |Split(authorization.value, ' ')| >= 2 && t.value == Split(authorization.value, ' ')[1]
  {
    if TruthyText(authToken) then authToken
    else if authorization.None? then None
    else
      var words := Split(authorization.value, ' ');
      if |words| >= 2 && words[1] != "" then Some(words[1]) else None
  }

  /** A `Bearer <token>` header yields the token when `auth.token` is absent or empty. */
  lemma BearerHeaderToken(authToken: Option<string>, scheme: string, token: string)
    requires !TruthyText(authToken)
    requires ' ' !in scheme && ' ' !in token && token != ""
    ensures ExtractToken(authToken, Some(scheme + " " + token)) == Some(token)
  {
    var parts := [scheme, token];
    assert Join(parts[1..], ' ') == token;
    assert scheme + " " + token == Join(parts, ' ');
    SplitJoin(parts, ' ');
  }

  /** A header without a space carries no token. */
  lemma HeaderWithoutSpace(authToken: Option<string>, header: string)
    requires !TruthyText(authToken) && ' ' !in header
    ensures ExtractToken(authToken, Some(header)).None?
  {
    SplitWithout(header, ' ');
  }

  // ---------------------------------------------------------------------------
  // Redis sets

  /** `SADD key member`. */
  function SAdd<K(==), V(==)>(m: map<K, set<V>>, key: K, member: V): (r: map<K, set<V>>)
    ensures r.Keys == m.Keys + {key}
    ensures r[key] == (if key in m then m[key] else {}) + {member}
    ensures forall k :: k in m && k != key ==> r[k] == m[k]
  {
    m[key := (if key in m then m[key] else {}) + {member}]
  }

  /** `SREM key member`; a set left empty is deleted. */
  function SRem<K(==,!new), V(==)>(m: map<K, set<V>>, key: K, member: V): (r: map<K, set<V>>)
    ensures key in r <==> key in m && m[key] - {member} != {}
    ensures key in r ==> r[key] == m[key] - {member}
    ensures forall k :: k != key ==> (k in r <==> k in m) && (k in m ==> r[k] == m[k])
  {
    if key !in m then m
    else if m[key] - {member} == {} then m - {key}
    else m[key := m[key] - {member}]
  }

  /** Every stored set is non-empty. */
  predicate NoEmptySets<K, V>(m: map<K, set<V>>) {
    forall k :: k in m ==> m[k] != {}
  }

  /** Both commands keep every stored set non-empty. */
  lemma SetCommandsKeepSetsNonEmpty<K(!new), V>(m: map<K, set<V>>, key: K, member: V)
    requires NoEmptySets(m)
    ensures NoEmptySets(SAdd(m, key, member)) && NoEmptySets(SRem(m, key, member))
  {
  }

  /** Removing a member that was just added to a set that did not hold it restores the store. */
  lemma {:induction false} SRemUndoesSAdd<K(!new), V>(m: map<K, set<V>>, key: K, member: V)
    requires NoEmptySets(m)
    requires key in m ==> member !in m[key]
    ensures SRem(SAdd(m, key, member), key, member) == m
  {
    var r := SRem(SAdd(m, key, member), key, member);
    if key in m {
      assert SAdd(m, key, member)[key] - {member} == m[key];
      assert r.Keys == m.Keys;
    } else {
      assert r.Keys == m.Keys;
    }
  }

  // ---------------------------------------------------------------------------
  // Canvas socket keys

  /** A key matching the glob `canvas:*:sockets`. */
  predicate GlobCanvasSockets(k: string) {
    |k| >= 15 && k[..7] == "canvas:" && k[|k| - 8..] == ":sockets"
  }

  function CanvasKey(canvasId: string): string {
    "canvas:" + canvasId + ":sockets"
  }

  /** `key.match(/^canvas:(\d+):sockets$/)`: the captured digits, if the key matches. */
  function MatchCanvasKey(k: string): (d: Option<string>)
    ensures d.Some? ==> GlobCanvasSockets(k)
  {
    if |k| >= 16 && k[..7] == "canvas:" && k[|k| - 8..] == ":sockets" && AllDigits(k[7..|k| - 8])
    then Some(k[7..|k| - 8]) else None
  }

  /** The regular expression matches exactly the keys `canvas:{d}:sockets` with `d` a non-empty run of digits. */
  lemma CanvasKeyMatch(k: string, d: string)
    ensures MatchCanvasKey(k) == Some(d) <==> k == CanvasKey(d) && d != "" && AllDigits(d)
  {
    if k == CanvasKey(d) {
      assert k[..7] == "canvas:";
      assert k[7..|k| - 8] == d;
      assert k[|k| - 8..] == ":sockets";
    }
    if MatchCanvasKey(k) == Some(d) {
      assert k == k[..7] + k[7..|k| - 8] + k[|k| - 8..];
    }
  }

  // ---------------------------------------------------------------------------
  // The gateway

  /** A verified JWT user: `userId`, `id` and `nickName` as the token carries them. */
  datatype TokenUser = TokenUser(userId: Option<int>, id: Option<int>, nickName: Option<string>)

  /** The JSON stored under `socket:{sid}:user`. */
  datatype SessionData = SessionData(id: Option<int>, username: Option<string>)

  /** `user.userId || user.id`. */
  function SessionUserId(user: TokenUser): (r: Option<int>)
    ensures user.userId.Some? && user.userId.value != 0 ==> r == user.userId
    ensures !(user.userId.Some? && user.userId.value != 0) ==> r == user.id
  {
    if user.userId.Some? && user.userId.value != 0 then user.userId else user.id
  }

  /** The `active_user_count` payload. */
  datatype ActiveUserCount = ActiveUserCount(count: nat, canvasCounts: map<string, nat>, timestamp: int)

  const BroadcastInterval := 5000

  /** The throttle: a broadcast is skipped iff the count is unchanged and less than 5 s have passed. */
  predicate ShouldBroadcast(count: int, now: int, lastCount: int, lastTime: int) {
    !(count == lastCount && now - lastTime < BroadcastInterval)
  }

  /** The per-canvas counts the broadcast carries: one entry per key matching the expression. */
  ghost predicate CountsOf(counts: map<string, nat>, sets: map<string, set<string>>) {
    && (forall d :: d in counts <==> d != "" && AllDigits(d) && CanvasKey(d) in sets)
    && (forall d :: d in counts ==> counts[d] == |sets[CanvasKey(d)]|)
  }

  /** The `for (const key of canvasKeys)` loop of `getCanvasUserCounts`. */
  method CanvasUserCounts(sets: map<string, set<string>>) returns (counts: map<string, nat>)
    ensures CountsOf(counts, sets)
  {
    var keys := Members(set k | k in sets && GlobCanvasSockets(k));
    assert forall j :: 0 <= j < |keys| ==> keys[j] in sets by {
      forall j | 0 <= j < |keys| ensures keys[j] in sets {
        assert keys[j] in keys;
      }
    }
    counts := map[];
    var i := 0;
    while i < |keys|
      invariant 0 <= i <= |keys|
      invariant forall d :: d in counts ==> d != "" && AllDigits(d) && CanvasKey(d) in sets && counts[d] == |sets[CanvasKey(d)]|
      invariant forall j :: 0 <= j < i && MatchCanvasKey(keys[j]).Some? ==> MatchCanvasKey(keys[j]).value in counts
    {
      var key := keys[i];
      var m := MatchCanvasKey(key);
      if m.Some? {
        CanvasKeyMatch(key, m.value);
        counts := counts[m.value := |sets[key]|];
      }
      i := i + 1;
    }
    forall d | d != "" && AllDigits(d) && CanvasKey(d) in sets
      ensures d in counts
    {
      CanvasKeyMatch(CanvasKey(d), d);
      assert CanvasKey(d) in keys;
      var j :| 0 <= j < |keys| && keys[j] == CanvasKey(d);
    }
  }

  /** The canvas sets after a socket leaves every set whose key matches the glob. */
  function Detached(sets: map<string, set<string>>, sid: string): (r: map<string, set<string>>)
    ensures forall k :: k in r <==> k in sets && (!GlobCanvasSockets(k) || sets[k] - {sid} != {})
    ensures forall k :: k in r ==> r[k] == if GlobCanvasSockets(k) then sets[k] - {sid} else sets[k]
  {
    map k | k in sets && (!GlobCanvasSockets(k) || sets[k] - {sid} != {}) ::
      if GlobCanvasSockets(k) then sets[k] - {sid} else sets[k]
  }

  /** The `srem` loop of `removeSocketFromAllCanvases`, over the keys `keys` lists. */
  method RemoveFromSets(sets: map<string, set<string>>, keys: seq<string>, sid: string) returns (r: map<string, set<string>>)
    requires Enumerates(keys, set k | k in sets && GlobCanvasSockets(k))
    ensures r == Detached(sets, sid)
  {
    assert forall j :: 0 <= j < |keys| ==> keys[j] in sets && GlobCanvasSockets(keys[j]) by {
      forall j | 0 <= j < |keys| ensures keys[j] in sets && GlobCanvasSockets(keys[j]) {
        assert keys[j] in keys;
      }
    }
    r := sets;
    var i := 0;
    while i < |keys|
      invariant 0 <= i <= |keys|
      invariant forall j :: 0 <= j < |keys| ==> keys[j] in sets && GlobCanvasSockets(keys[j])
      invariant forall k :: k in r ==> k in sets
      invariant forall k :: k in sets && !GlobCanvasSockets(k) ==> k in r && r[k] == sets[k]
      invariant forall j :: i <= j < |keys| ==> keys[j] in r && r[keys[j]] == sets[keys[j]]
      invariant forall j :: 0 <= j < i ==> (keys[j] in r <==> sets[keys[j]] - {sid} != {})
      invariant forall j :: 0 <= j < i && keys[j] in r ==> r[keys[j]] == sets[keys[j]] - {sid}
    {
      r := SRem(r, keys[i], sid);
      i := i + 1;
    }
    forall k | k in sets && GlobCanvasSockets(k)
      ensures (k in r <==> sets[k] - {sid} != {}) && (k in r ==> r[k] == sets[k] - {sid})
    {
      assert k in keys;
      var j :| 0 <= j < |keys| && keys[j] == k;
    }
  }

  class Gateway {
    /** `socket:{sid}:user`, by socket id. */
    var sessions: map<string, SessionData>
    /** `user:{uid}:sockets`, by the session's user id (`undefined` is `None`). */
    var userSockets: map<Option<int>, set<string>>
    /** `active_sockets`. */
    var activeSockets: set<string>
    /** The `canvas:*:sockets` sets, by key. */
    var canvasSockets: map<string, set<string>>
    var lastBroadcastCount: int
    var lastBroadcastTime: int
    /** The `active_user_count` emits to all clients. */
    var broadcasts: seq<ActiveUserCount>

    predicate Valid()
      reads this
    {
      NoEmptySets(userSockets) && NoEmptySets(canvasSockets)
    }

    constructor ()
      ensures Valid()
      ensures sessions == map[] && userSockets == map[] && activeSockets == {} && canvasSockets == map[]
      ensures lastBroadcastCount == 0 && lastBroadcastTime == 0 && broadcasts == []
    {
      sessions, userSockets, activeSockets, canvasSockets := map[], map[], {}, map[];
      lastBroadcastCount, lastBroadcastTime, broadcasts := 0, 0, [];
    }

    /** `cleanupOldSockets`: `active_sockets` and every `canvas:*:sockets` key are deleted. */
    method CleanupOldSockets()
      requires Valid()
      modifies this`activeSockets, this`canvasSockets
      ensures Valid()
      ensures activeSockets == {}
      ensures canvasSockets == map k | k in old(canvasSockets) && !GlobCanvasSockets(k) :: old(canvasSockets)[k]
    {
      activeSockets := {};
      canvasSockets := map k | k in canvasSockets && !GlobCanvasSockets(k) :: canvasSockets[k];
    }

    /** `saveUserSession`: the session is written and the socket joins its user's set. */
    method SaveUserSession(user: TokenUser, sid: string)
      requires Valid()
      modifies this`sessions, this`userSockets
      ensures Valid()
      ensures sessions == old(sessions)[sid := SessionData(SessionUserId(user), user.nickName)]
      ensures userSockets == SAdd(old(userSockets), SessionUserId(user), sid)
    {
      var uid := SessionUserId(user);
      sessions := sessions[sid := SessionData(uid, user.nickName)];
      userSockets := SAdd(userSockets, uid, sid);
    }

    /**
     * `removeUserSession`: with a session, it is deleted and the socket leaves its user's set
     * (the set is deleted once empty); without one nothing changes.
     */
    method RemoveUserSession(sid: string)
      requires Valid()
      modifies this`sessions, this`userSockets
      ensures Valid()
      ensures sid !in old(sessions) ==> sessions == old(sessions) && userSockets == old(userSockets)
      ensures sid in old(sessions) ==>
        sessions == old(sessions) - {sid} && userSockets == SRem(old(userSockets), old(sessions)[sid].id, sid)
    {
      if sid in sessions {
        var uid := sessions[sid].id;
        sessions := sessions - {sid};
        userSockets := SRem(userSockets, uid, sid);
      }
    }

    /**
     * `handleConnection`: a verified user's session is saved, and the socket joins
     * `active_sockets` either way. `verified` is the outcome of verifying the extracted token
     * (`None` when verification fails).
     */
    method HandleConnection(sid: string, authToken: Option<string>, authorization: Option<string>, verified: Option<TokenUser>)
      requires Valid()
      modifies this`sessions, this`userSockets, this`activeSockets
      ensures Valid()
      ensures activeSockets == old(activeSockets) + {sid}
      ensures ExtractToken(authToken, authorization).Some? && verified.Some? ==>
        sessions == old(sessions)[sid := SessionData(SessionUserId(verified.value), verified.value.nickName)] &&
        userSockets == SAdd(old(userSockets), SessionUserId(verified.value), sid)
      ensures ExtractToken(authToken, authorization).None? || verified.None? ==>
        sessions == old(sessions) && userSockets == old(userSockets)
    {
      var token := ExtractToken(authToken, authorization);
      if token.Some? && verified.Some? {
        SaveUserSession(verified.value, sid);
      }
      activeSockets := activeSockets + {sid};
    }

    /** `handleDisconnect`: the session is removed, and the socket leaves `active_sockets` and every canvas set. */
    method HandleDisconnect(sid: string)
      requires Valid()
      modifies this`sessions, this`userSockets, this`activeSockets, this`canvasSockets
      ensures Valid()
      ensures sid !in old(sessions) ==> sessions == old(sessions) && userSockets == old(userSockets)
      ensures sid in old(sessions) ==>
        sessions == old(sessions) - {sid} && userSockets == SRem(old(userSockets), old(sessions)[sid].id, sid)
      ensures activeSockets == old(activeSockets) - {sid}
      ensures canvasSockets == Detached(old(canvasSockets), sid)
    {
      RemoveUserSession(sid);
      activeSockets := activeSockets - {sid};
      var keys := Members(set k | k in canvasSockets && GlobCanvasSockets(k));
      canvasSockets := RemoveFromSets(canvasSockets, keys, sid);
    }

    /**
     * `broadcastActiveUserCount` at time `now`: skipped when throttled; otherwise the count of
     * `active_sockets` and the per-canvas counts are emitted and recorded.
     */
    method BroadcastActiveUserCount(now: int)
      modifies this`lastBroadcastCount, this`lastBroadcastTime, this`broadcasts
      ensures !ShouldBroadcast(|activeSockets|, now, old(lastBroadcastCount), old(lastBroadcastTime)) ==>
        lastBroadcastCount == old(lastBroadcastCount) && lastBroadcastTime == old(lastBroadcastTime) &&
        broadcasts == old(broadcasts)
      ensures ShouldBroadcast(|activeSockets|, now, old(lastBroadcastCount), old(lastBroadcastTime)) ==>
        lastBroadcastCount == |activeSockets| && lastBroadcastTime == now &&
        |broadcasts| == |old(broadcasts)| + 1 && broadcasts[..|old(broadcasts)|] == old(broadcasts) &&
        broadcasts[|old(broadcasts)|].count == |activeSockets| &&
        broadcasts[|old(broadcasts)|].timestamp == now &&
        CountsOf(broadcasts[|old(broadcasts)|].canvasCounts, canvasSockets)
    {
      var count := |activeSockets|;
      if !ShouldBroadcast(count, now, lastBroadcastCount, lastBroadcastTime) {
        return;
      }
      var counts := CanvasUserCounts(canvasSockets);
      broadcasts := broadcasts + [ActiveUserCount(count, counts, now)];
      lastBroadcastCount := count;
      lastBroadcastTime := now;
    }
  }

  /** Right after a broadcast, the same count is not broadcast again within 5 s, and is after that. */
  lemma ThrottleAfterBroadcast(count: int, lastTime: int, now: int)
    ensures ShouldBroadcast(count, now, count, lastTime) <==> now - lastTime >= BroadcastInterval
  {
  }

  /** A changed count is always broadcast. */
  lemma ChangedCountBroadcasts(count: int, lastCount: int, lastTime: int, now: int)
    requires count != lastCount
    ensures ShouldBroadcast(count, now, lastCount, lastTime)
  {
  }
}
