/**
 * The canvas pixel store: the Redis hash `canvas:{id}` (field `x:y`, value colour), the
 * set `dirty_pixels:{id}` read by the flush worker, the per-pixel locks `lock:{id}:{x}:{y}`
 * and the per-user cooldown keys `cooldown:{userId}:{id}`, with the `pixels` table as
 * the fallback source.
 */
module CanvasService {
  import opened Wrappers
  import opened JsText
  import opened PixelField

  /** A pixel as `getPixelsFromRedis` and `getAllPixels` return it. */
  datatype PixelView = PixelView(x: JsNum, y: JsNum, color: string)

  /** A row of the `pixels` table, as `getPixelsFromDB` selects it. */
  datatype DbPixel = DbPixel(x: int, y: int, color: string)

  /** The outcome of `applyDrawPixelWithCooldown`. */
  datatype CooldownResult =
    | OnCooldown(remaining: int)   // { success: false, message: '쿨다운 중', remaining }
    | Drawn(cooldown: int)         // { success: true, cooldown }
    | SaveFailed                   // { success: false, message: '픽셀 저장 실패' }

  const CooldownSeconds := 20

  /** A row of `canvases` as far as the controllers read it; times are epoch milliseconds. */
  datatype CanvasMeta = CanvasMeta(
    id: int,
    title: string,
    canvasType: string,
    sizeX: Option<int>,
    sizeY: Option<int>,
    createdAt: int,
    startedAt: Option<int>,
    endedAt: Option<int>,
    isActive: bool)

  function LockKey(canvasId: string, x: int, y: int): string {
    "lock:" + canvasId + ":" + IntToString(x) + ":" + IntToString(y)
  }

  function CooldownKey(userId: int, canvasId: string): string {
    "cooldown:" + IntToString(userId) + ":" + canvasId
  }

  /** One hash entry read back: its field `x:y` split and converted with `Number`. */
  function ViewOf(cell: Cell, color: string): PixelView {
    PixelView(Num(cell.x), Num(cell.y), color)
  }

  /** `ViewOf` is what decoding the stored field string gives. */
  lemma ViewOfDecodes(cell: Cell, color: string)
    ensures ViewOf(cell, color) == PixelView(CoordsOf(FieldOf(cell.x, cell.y)).0, CoordsOf(FieldOf(cell.x, cell.y)).1, color)
  {
    FieldRoundTrip(cell.x, cell.y);
  }

  function CellOf(p: DbPixel): Cell {
    Cell(p.x, p.y)
  }

  function DbView(p: DbPixel): PixelView {
    PixelView(Num(p.x), Num(p.y), p.color)
  }

  function DbViews(rows: seq<DbPixel>): (r: seq<PixelView>)
    ensures |r| == |rows|
    ensures forall i :: 0 <= i < |rows| ==> r[i] == DbView(rows[i])
  {
    if rows == [] then [] else [DbView(rows[0])] + DbViews(rows[1..])
  }

  /** The hash after HSET of each row in turn: a later row for the same cell wins. */
  function Cached(hash: map<Cell, string>, rows: seq<DbPixel>): map<Cell, string>
    decreases |rows|
  {
    if rows == [] then hash
    else Cached(hash[CellOf(rows[0]) := rows[0].color], rows[1..])
  }

  /** Caching adds exactly the rows' fields to the hash. */
  lemma {:induction false} CachedKeys(hash: map<Cell, string>, rows: seq<DbPixel>)
    ensures Cached(hash, rows).Keys == hash.Keys + set i | 0 <= i < |rows| :: CellOf(rows[i])
    decreases |rows|
  {
    if rows != [] {
      var h := hash[CellOf(rows[0]) := rows[0].color];
      CachedKeys(h, rows[1..]);
      var all := set i | 0 <= i < |rows| :: CellOf(rows[i]);
      var tail := set i | 0 <= i < |rows[1..]| :: CellOf(rows[1..][i]);
      assert all == {CellOf(rows[0])} + tail by {
        forall f | f in all
          ensures f in {CellOf(rows[0])} + tail
        {
          var i :| 0 <= i < |rows| && f == CellOf(rows[i]);
          if i > 0 {
            assert f == CellOf(rows[1..][i - 1]);
          }
        }
        forall f | f in tail
          ensures f in all
        {
          var i :| 0 <= i < |rows[1..]| && f == CellOf(rows[1..][i]);
          assert f == CellOf(rows[i + 1]);
        }
      }
    }
  }

  /** A row that no later row overrides leaves its colour in the cached hash. */
  lemma {:induction false} CachedLastWins(hash: map<Cell, string>, rows: seq<DbPixel>, i: nat)
    requires i < |rows|
    requires forall j :: i < j < |rows| ==> CellOf(rows[j]) != CellOf(rows[i])
    ensures CellOf(rows[i]) in Cached(hash, rows)
    ensures Cached(hash, rows)[CellOf(rows[i])] == rows[i].color
    decreases |rows|
  {
    var h := hash[CellOf(rows[0]) := rows[0].color];
    var tail := rows[1..];
    if i == 0 {
      forall j | 0 <= j < |tail|
        ensures CellOf(tail[j]) != CellOf(rows[0])
      {
        assert tail[j] == rows[j + 1];
      }
      CachedUntouched(h, tail, CellOf(rows[0]));
    } else {
      forall j | i - 1 < j < |tail|
        ensures CellOf(tail[j]) != CellOf(tail[i - 1])
      {
        assert tail[j] == rows[j + 1];
      }
      CachedLastWins(h, tail, i - 1);
    }
  }

  /** A field that no row writes keeps its value. */
  lemma {:induction false} CachedUntouched(hash: map<Cell, string>, rows: seq<DbPixel>, f: Cell)
    requires f in hash
    requires forall j :: 0 <= j < |rows| ==> CellOf(rows[j]) != f
    ensures f in Cached(hash, rows) && Cached(hash, rows)[f] == hash[f]
    decreases |rows|
  {
    if rows != [] {
      CachedUntouched(hash[CellOf(rows[0]) := rows[0].color], rows[1..], f);
    }
  }

  /** `pixels` lists the hash: `fields` enumerates its fields once each, in some order. */
  ghost predicate Lists(pixels: seq<PixelView>, fields: seq<Cell>, hash: map<Cell, string>) {
    |fields| == |pixels| &&
    (forall i :: 0 <= i < |fields| ==> fields[i] in hash && pixels[i] == ViewOf(fields[i], hash[fields[i]])) &&
    (forall i, j :: 0 <= i < j < |fields| ==> fields[i] != fields[j]) &&
    (forall f :: f in hash ==> f in fields)
  }

  /** The canvas id `getAllPixels` and `getCanvasById` fall back on: the newest canvas. */
  function RealCanvasId(canvasId: Option<string>, latest: Option<int>): (r: Option<string>)
    ensures canvasId.Some? && canvasId.value != "" ==> r == canvasId
    ensures (canvasId.None? || canvasId.value == "") && latest.None? ==> r.None?
  {
    if canvasId.Some? && canvasId.value != "" then canvasId
    else if latest.Some? then Some(IntToString(latest.value))
    else None
  }

  /** The `is_active` value `getCanvasList` filters on. */
  function ActiveFlag(status: string): bool {
    status == "active"
  }

  /** `getCanvasList`: the canvases whose `is_active` matches the requested status. */
  function CanvasList(rows: seq<CanvasMeta>, status: string): (r: seq<CanvasMeta>)
    ensures forall c :: c in r ==> c in rows && c.isActive == (status == "active")
    ensures forall c :: c in rows && c.isActive == (status == "active") ==> c in r
  {
    if rows == [] then []
    else (if rows[0].isActive == ActiveFlag(status) then [rows[0]] else []) + CanvasList(rows[1..], status)
  }

  /**
   * `getCanvasById`: the requested or newest canvas id, `None` when there is none or it is
   * not a number, and otherwise the id with whatever metadata row exists.
   */
  function GetCanvasById(canvasId: Option<string>, latest: Option<int>, metas: map<int, CanvasMeta>)
    : (r: Option<(string, Option<CanvasMeta>)>)
    ensures r.Some? <==> RealCanvasId(canvasId, latest).Some? && ToNumber(RealCanvasId(canvasId, latest).value).Num?
    ensures r.Some? ==> r.value.0 == RealCanvasId(canvasId, latest).value
    ensures r.Some? ==> var n := ToNumber(r.value.0).value;
      (r.value.1.Some? <==> n in metas) && (r.value.1.Some? ==> r.value.1.value == metas[n])
  {
    match RealCanvasId(canvasId, latest)
    case None => None
    case Some(id) =>
      match ToNumber(id)
      case NaN => None
      case Num(n) => Some((id, if n in metas then Some(metas[n]) else None))
  }

  /** The `canvas:{id}` hash in a snapshot of all hashes; a missing key is an empty hash. */
  function HashIn(cells: map<string, map<Cell, string>>, canvasId: string): map<Cell, string> {
    if canvasId in cells then cells[canvasId] else map[]
  }

  class CanvasStore {
    /** `canvas:{id}` hashes, by canvas id. */
    var cells: map<string, map<Cell, string>>
    /** `dirty_pixels:{id}` sets, by canvas id. */
    var dirtyPixels: map<string, set<Cell>>
    /** Held locks: key `lock:{id}:{x}:{y}` to the holder's user id. */
    var locks: map<string, string>
    /** Remaining TTL in seconds of each live cooldown key. */
    var cooldowns: map<string, int>
    /** The `pixels` table, by canvas id. */
    var dbPixels: map<string, seq<DbPixel>>
    /** The id of the newest canvas, if any canvas exists. */
    var latestCanvasId: Option<int>

    constructor (dbPixels: map<string, seq<DbPixel>>, latestCanvasId: Option<int>)
      ensures cells == map[] && dirtyPixels == map[] && locks == map[] && cooldowns == map[]
      ensures this.dbPixels == dbPixels && this.latestCanvasId == latestCanvasId
    {
      cells := map[];
      dirtyPixels := map[];
      locks := map[];
      cooldowns := map[];
      this.dbPixels := dbPixels;
      this.latestCanvasId := latestCanvasId;
    }

    function Hash(canvasId: string): map<Cell, string>
      reads this
    {
      HashIn(cells, canvasId)
    }

    function Dirty(canvasId: string): set<Cell>
      reads this
    {
      if canvasId in dirtyPixels then dirtyPixels[canvasId] else {}
    }

    function DbRows(canvasId: string): seq<DbPixel>
      reads this
    {
      if canvasId in dbPixels then dbPixels[canvasId] else []
    }

    /**
     * The hashes after `getAllPixels(canvasId)`: a DB fallback with rows caches them
     * into the empty hash; every other path leaves the hashes alone.
     */
    function CellsAfterLoad(canvasId: Option<string>): map<string, map<Cell, string>>
      reads this
    {
      match RealCanvasId(canvasId, latestCanvasId)
      case None => cells
      case Some(id) =>
        if |Hash(id)| > 0 || DbRows(id) == [] then cells else cells[id := Cached(map[], DbRows(id))]
    }

    /** Redis TTL: -2 for a key that does not exist. */
    function Ttl(key: string): int
      reads this
    {
      if key in cooldowns then cooldowns[key] else -2
    }

    /** `tryDrawPixel`: HSET the colour and mark the field dirty for the flush worker. */
    method TryDrawPixel(canvasId: string, x: int, y: int, color: string) returns (ok: bool)
      modifies this`cells, this`dirtyPixels
      ensures ok
      ensures cells == old(cells)[canvasId := old(Hash(canvasId))[Cell(x, y) := color]]
      ensures dirtyPixels == old(dirtyPixels)[canvasId := old(Dirty(canvasId)) + {Cell(x, y)}]
    {
      cells := cells[canvasId := Hash(canvasId)[Cell(x, y) := color]];
      dirtyPixels := dirtyPixels[canvasId := Dirty(canvasId) + {Cell(x, y)}];
      ok := true;
    }

    /** `getPixelsFromRedis`: every hash entry decoded, in the hash's own (unspecified) order. */
    method GetPixelsFromRedis(canvasId: string) returns (pixels: seq<PixelView>, ghost fields: seq<Cell>)
      ensures Lists(pixels, fields, Hash(canvasId))
      ensures |pixels| == 0 <==> |Hash(canvasId)| == 0
    {
      var hash := Hash(canvasId);
      var rest := hash.Keys;
      pixels := [];
      fields := [];
      while rest != {}
        invariant rest <= hash.Keys
        invariant |fields| == |pixels|
        invariant forall i :: 0 <= i < |fields| ==>
          fields[i] in hash && fields[i] !in rest && pixels[i] == ViewOf(fields[i], hash[fields[i]])
        invariant forall i, j :: 0 <= i < j < |fields| ==> fields[i] != fields[j]
        invariant forall f :: f in hash && f !in rest ==> f in fields
        invariant |hash| == 0 ==> |pixels| == 0
        decreases rest
      {
        var f :| f in rest;
        pixels := pixels + [ViewOf(f, hash[f])];
        fields := fields + [f];
        rest := rest - {f};
      }
      if |hash| != 0 {
        var f :| f in hash;
        assert f in fields;
      }
    }

    /**
     * `getAllPixels`: the Redis pixels when the hash is non-empty; otherwise the DB rows,
     * which are also written into the hash.
     */
    method GetAllPixels(canvasId: Option<string>) returns (pixels: seq<PixelView>, ghost fields: seq<Cell>)
      modifies this`cells
      ensures cells == old(CellsAfterLoad(canvasId))
      ensures RealCanvasId(canvasId, latestCanvasId).None? ==> pixels == []
      ensures RealCanvasId(canvasId, latestCanvasId).Some? ==>
        var id := RealCanvasId(canvasId, latestCanvasId).value;
        if |old(Hash(id))| > 0 then Lists(pixels, fields, Hash(id))
        else pixels == DbViews(DbRows(id))
    {
      fields := [];
      var realId := RealCanvasId(canvasId, latestCanvasId);
      if realId.None? {
        return [], [];
      }
      var id := realId.value;
      pixels, fields := GetPixelsFromRedis(id);
      if |pixels| > 0 {
        return;
      }
      var rows := DbRows(id);
      var hash := Hash(id);
      assert hash == map[];
      var i := 0;
      while i < |rows|
        invariant 0 <= i <= |rows|
        invariant Cached(hash, rows[i..]) == Cached(map[], rows)
      {
        assert rows[i..][1..] == rows[i + 1..];
        hash := hash[CellOf(rows[i]) := rows[i].color];
        i := i + 1;
      }
      if |rows| > 0 {
        cells := cells[id := hash];
      }
      pixels := DbViews(rows);
    }

    /** `getPixel`: the stored value when it is a non-empty string, else null. */
    function GetPixel(canvasId: string, x: int, y: int): (r: Option<string>)
      reads this
      ensures r.Some? <==> Cell(x, y) in Hash(canvasId) && Hash(canvasId)[Cell(x, y)] != ""
      ensures r.Some? ==> r.value == Hash(canvasId)[Cell(x, y)]
    {
      var h := Hash(canvasId);
      if Cell(x, y) in h && h[Cell(x, y)] != "" then Some(h[Cell(x, y)]) else None
    }

    /** `releaseRedisLock`: deletes the lock only when the releaser holds it; returns DEL's count. */
    method ReleaseRedisLock(lockKey: string, lockUser: string) returns (released: int)
      modifies this`locks
      ensures old(lockKey in locks && locks[lockKey] == lockUser) ==> released == 1 && locks == old(locks) - {lockKey}
      ensures !old(lockKey in locks && locks[lockKey] == lockUser) ==> released == 0 && locks == old(locks)
    {
      if lockKey in locks && locks[lockKey] == lockUser {
        locks := locks - {lockKey};
        released := 1;
      } else {
        released := 0;
      }
    }

    /**
     * `applyDrawPixel`: SET NX the cell's lock; when it is already held, refuse without
     * writing; otherwise draw and release the lock again.
     */
    method ApplyDrawPixel(canvasId: string, x: int, y: int, color: string, userId: JsNum) returns (ok: bool)
      modifies this`cells, this`dirtyPixels, this`locks
      ensures locks == old(locks)
      ensures ok <==> LockKey(canvasId, x, y) !in old(locks)
      ensures !ok ==> cells == old(cells) && dirtyPixels == old(dirtyPixels)
      ensures ok ==> cells == old(cells)[canvasId := old(Hash(canvasId))[Cell(x, y) := color]]
      ensures ok ==> dirtyPixels == old(dirtyPixels)[canvasId := old(Dirty(canvasId)) + {Cell(x, y)}]
    {
      var lockKey := LockKey(canvasId, x, y);
      var lockUser := NumToString(userId);
      if lockKey in locks {
        return false;
      }
      locks := locks[lockKey := lockUser];
      ok := TryDrawPixel(canvasId, x, y, color);
      var _ := ReleaseRedisLock(lockKey, lockUser);
      assert locks == old(locks);
    }

    /**
     * `applyDrawPixelWithCooldown`: refused while the user's cooldown on this canvas has
     * time left; a successful draw starts a 20-second cooldown, a failed one none.
     */
    method ApplyDrawPixelWithCooldown(canvasId: string, x: int, y: int, color: string, userId: int)
      returns (r: CooldownResult)
      modifies this`cells, this`dirtyPixels, this`locks, this`cooldowns
      ensures var key := CooldownKey(userId, canvasId);
        if old(Ttl(key)) > 0 then
          r == OnCooldown(old(Ttl(key))) && cells == old(cells) && dirtyPixels == old(dirtyPixels)
          && cooldowns == old(cooldowns)
        else if LockKey(canvasId, x, y) in old(locks) then
          r == SaveFailed && cells == old(cells) && dirtyPixels == old(dirtyPixels) && cooldowns == old(cooldowns)
        else
          r == Drawn(CooldownSeconds) && cooldowns == old(cooldowns)[key := CooldownSeconds]
          && cells == old(cells)[canvasId := old(Hash(canvasId))[Cell(x, y) := color]]
          && dirtyPixels == old(dirtyPixels)[canvasId := old(Dirty(canvasId)) + {Cell(x, y)}]
      ensures locks == old(locks)
    {
      var key := CooldownKey(userId, canvasId);
      var ttl := Ttl(key);
      if ttl > 0 {
        return OnCooldown(ttl);
      }
      var ok := ApplyDrawPixel(canvasId, x, y, color, Num(userId));
      if ok {
        cooldowns := cooldowns[key := CooldownSeconds];
        r := Drawn(CooldownSeconds);
      } else {
        r := SaveFailed;
      }
    }

    /** `getCooldownRemaining`: the TTL when positive, else 0; never negative. */
    function GetCooldownRemaining(userId: int, canvasId: string): (r: nat)
      reads this
      ensures r > 0 <==> Ttl(CooldownKey(userId, canvasId)) > 0
      ensures r > 0 ==> r == Ttl(CooldownKey(userId, canvasId))
    {
      var ttl := Ttl(CooldownKey(userId, canvasId));
      if ttl > 0 then ttl else 0
    }
  }

  /** After a DB fallback with rows, the hash is non-empty, so the next read is served by Redis. */
  lemma FallbackFillsCache(rows: seq<DbPixel>)
    requires |rows| > 0
    ensures |Cached(map[], rows)| > 0
  {
    CachedKeys(map[], rows);
    assert CellOf(rows[0]) in Cached(map[], rows).Keys;
  }
}
