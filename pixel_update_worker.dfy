/**
 * The `pixel-update` worker. Each job's update is stored in an insertion-ordered map keyed
 * `${canvasId}:${x}:${y}`, so a later update of the same pixel replaces the earlier one.
 * When 200 updates are pending, the map is flushed: snapshot in insertion order, cleared,
 * grouped by canvas in first-appearance order, and each group written in chunks of at
 * most 100 pixels. Each chunk's coordinate condition binds parameters 2i+1 and 2i+2 to
 * the i-th pixel's x and y. The database is the log `written` of those chunk updates.
 */
module PixelUpdateWorker {
  import opened Wrappers
  import opened JsText
  import opened Collections

  /** The job payload `PixelUpdate`. */
  datatype PixelUpdate = PixelUpdate(canvasId: int, x: int, y: int, color: string, owner: Option<int>)

  /** The map key `${canvasId}:${x}:${y}`, as the triple it encodes. */
  datatype PendingKey = PendingKey(canvasId: int, x: int, y: int)

  const PixelBatchSize := 200
  const ChunkSize := 100

  function KeyOf(p: PixelUpdate): PendingKey {
    PendingKey(p.canvasId, p.x, p.y)
  }

  /** The key's text. */
  function KeyText(k: PendingKey): string {
    IntToString(k.canvasId) + ":" + IntToString(k.x) + ":" + IntToString(k.y)
  }

  /** A key text splits at ':' into the three rendered numbers. */
  lemma KeyTextSplits(k: PendingKey)
    ensures Split(KeyText(k), ':') == [IntToString(k.canvasId), IntToString(k.x), IntToString(k.y)]
  {
    var parts := [IntToString(k.canvasId), IntToString(k.x), IntToString(k.y)];
    IntToStringHasNo(k.canvasId, ':');
    IntToStringHasNo(k.x, ':');
    IntToStringHasNo(k.y, ':');
    assert Join(parts[1..], ':') == parts[1] + [':'] + parts[2];
    assert KeyText(k) == Join(parts, ':');
    SplitJoin(parts, ':');
  }

  /** Distinct pixels have distinct key texts, so keying by the triple is the same map. */
  lemma KeyTextInjective(k1: PendingKey, k2: PendingKey)
    ensures KeyText(k1) == KeyText(k2) <==> k1 == k2
  {
    if KeyText(k1) == KeyText(k2) {
      KeyTextSplits(k1);
      KeyTextSplits(k2);
      var parts1 := Split(KeyText(k1), ':');
      assert parts1 == Split(KeyText(k2), ':');
      ToNumberOfIntToString(k1.canvasId);
      ToNumberOfIntToString(k1.x);
      ToNumberOfIntToString(k1.y);
      ToNumberOfIntToString(k2.canvasId);
      ToNumberOfIntToString(k2.x);
      ToNumberOfIntToString(k2.y);
      assert ToNumber(parts1[0]) == Num(k1.canvasId) == Num(k2.canvasId);
      assert ToNumber(parts1[1]) == Num(k1.x) == Num(k2.x);
      assert ToNumber(parts1[2]) == Num(k1.y) == Num(k2.y);
    }
  }

  /** `Array.from(pixelUpdateMap.values())`: the pending updates in key insertion order. */
  function Snapshot(order: seq<PendingKey>, pending: map<PendingKey, PixelUpdate>): (s: seq<PixelUpdate>)
    requires forall k :: k in order ==> k in pending
    ensures |s| == |order|
    ensures forall i :: 0 <= i < |order| ==> s[i] == pending[order[i]]
    decreases |order|
  {
    if order == [] then []
    else Snapshot(order[..|order| - 1], pending) + [pending[order[|order| - 1]]]
  }

  // ---------------------------------------------------------------------------
  // Grouping by canvas

  /** The canvas ids of `s`, each once, in order of first appearance (the keys of `canvasGroups`). */
  function CanvasIdsOf(s: seq<PixelUpdate>): (ids: seq<int>)
    decreases |s|
  {
    if s == [] then []
    else
      var ids := CanvasIdsOf(s[..|s| - 1]);
      var c := s[|s| - 1].canvasId;
      if c in ids then ids else ids + [c]
  }

  /** The updates of canvas `c`, in snapshot order (the value of `canvasGroups` at `c`). */
  function GroupOf(s: seq<PixelUpdate>, c: int): seq<PixelUpdate>
    decreases |s|
  {
    if s == [] then []
    else GroupOf(s[..|s| - 1], c) + (if s[|s| - 1].canvasId == c then [s[|s| - 1]] else [])
  }

  /** The canvas ids are exactly those occurring in `s`, each listed once. */
  lemma {:induction false} CanvasIdsExactly(s: seq<PixelUpdate>)
    ensures Distinct(CanvasIdsOf(s))
    ensures forall c :: c in CanvasIdsOf(s) <==> exists p :: p in s && p.canvasId == c
    decreases |s|
  {
    if s != [] {
      var front := s[..|s| - 1];
      CanvasIdsExactly(front);
      assert forall p :: p in s <==> p in front || p == s[|s| - 1];
    }
  }

  /** A group holds exactly the updates of its canvas, and every update of `s` lies in its own group. */
  lemma {:induction false} GroupOfExactly(s: seq<PixelUpdate>, c: int)
    ensures forall p :: p in GroupOf(s, c) <==> p in s && p.canvasId == c
    ensures multiset(GroupOf(s, c)) <= multiset(s)
    decreases |s|
  {
    if s != [] {
      var front := s[..|s| - 1];
      GroupOfExactly(front, c);
      assert s == front + [s[|s| - 1]];
      assert forall p :: p in s <==> p in front || p == s[|s| - 1];
    }
  }

  /** The groups of `ids`, concatenated in order. */
  function Grouped(s: seq<PixelUpdate>, ids: seq<int>): seq<PixelUpdate>
    decreases |ids|
  {
    if ids == [] then []
    else Grouped(s, ids[..|ids| - 1]) + GroupOf(s, ids[|ids| - 1])
  }

  /** Appending an update of canvas `c` adds it to the groups exactly when `c` is listed. */
  lemma {:induction false} GroupedSnoc(s: seq<PixelUpdate>, p: PixelUpdate, ids: seq<int>)
    requires Distinct(ids)
    ensures multiset(Grouped(s + [p], ids)) ==
      multiset(Grouped(s, ids)) + (if p.canvasId in ids then multiset{p} else multiset{})
    decreases |ids|
  {
    if ids != [] {
      var front := ids[..|ids| - 1];
      var c := ids[|ids| - 1];
      assert Distinct(front);
      assert (s + [p])[..|s + [p]| - 1] == s;
      GroupedSnoc(s, p, front);
      assert c !in front;
      assert p.canvasId in ids <==> p.canvasId in front || p.canvasId == c;
    }
  }

  /** Grouping in first-appearance order loses and duplicates nothing. */
  lemma {:induction false} GroupedPermutes(s: seq<PixelUpdate>)
    ensures multiset(Grouped(s, CanvasIdsOf(s))) == multiset(s)
    decreases |s|
  {
    if s != [] {
      var front := s[..|s| - 1];
      var p := s[|s| - 1];
      var ids := CanvasIdsOf(front);
      GroupedPermutes(front);
      CanvasIdsExactly(front);
      assert s == front + [p];
      GroupedSnoc(front, p, ids);
      if p.canvasId !in ids {
        var c := p.canvasId;
        var all := ids + [c];
        assert CanvasIdsOf(s) == all;
        assert all[..|all| - 1] == ids;
        GroupEmpty(front, c);
        assert GroupOf(s, c) == [p];
        assert Grouped(s, all) == Grouped(s, ids) + [p];
      }
    }
  }

  lemma GroupEmpty(s: seq<PixelUpdate>, c: int)
    requires forall p :: p in s ==> p.canvasId != c
    ensures GroupOf(s, c) == []
  {
    GroupOfExactly(s, c);
  }

  // ---------------------------------------------------------------------------
  // Chunks and their parameters

  /** The x, y parameters of a chunk, pushed pixel by pixel. */
  function ParamsOf(chunk: seq<PixelUpdate>): (params: seq<int>)
    ensures |params| == 2 * |chunk|
    decreases |chunk|
  {
    if chunk == [] then []
    else ParamsOf(chunk[..|chunk| - 1]) + [chunk[|chunk| - 1].x, chunk[|chunk| - 1].y]
  }

  /** The placeholders `(x = $a AND y = $b)` of a chunk's coordinate condition, as (a, b). */
  function ConditionsOf(n: nat): (conds: seq<(int, int)>)
    ensures |conds| == n
    decreases n
  {
    if n == 0 then [] else ConditionsOf(n - 1) + [(2 * n - 1, 2 * n)]
  }

  /** The i-th condition names parameters 2i+1 and 2i+2, which hold the i-th pixel's x and y. */
  lemma {:induction false} ConditionsLocate(chunk: seq<PixelUpdate>)
    ensures forall i :: 0 <= i < |chunk| ==>
      && ConditionsOf(|chunk|)[i] == (2 * i + 1, 2 * i + 2)
      && ParamsOf(chunk)[2 * i] == chunk[i].x
      && ParamsOf(chunk)[2 * i + 1] == chunk[i].y
    decreases |chunk|
  {
    if chunk != [] {
      ConditionsLocate(chunk[..|chunk| - 1]);
    }
  }

  /** One chunked `UPDATE` of a canvas's pixels with its parameters and coordinate condition. */
  datatype ChunkUpdate = ChunkUpdate(canvasId: int, pixels: seq<PixelUpdate>, params: seq<int>, conditions: seq<(int, int)>)

  function UpdateOf(c: int, chunk: seq<PixelUpdate>): ChunkUpdate {
    ChunkUpdate(c, chunk, ParamsOf(chunk), ConditionsOf(|chunk|))
  }

  /** The chunked updates of one canvas group, 100 pixels at a time. */
  function ChunkUpdates(c: int, group: seq<PixelUpdate>): seq<ChunkUpdate>
    decreases |group|
  {
    if group == [] then []
    else if |group| <= ChunkSize then [UpdateOf(c, group)]
    else [UpdateOf(c, group[..ChunkSize])] + ChunkUpdates(c, group[ChunkSize..])
  }

  /** The pixels of a sequence of updates, concatenated. */
  function PixelsOf(us: seq<ChunkUpdate>): seq<PixelUpdate>
    decreases |us|
  {
    if us == [] then [] else us[0].pixels + PixelsOf(us[1..])
  }

  lemma {:induction false} PixelsOfAppend(a: seq<ChunkUpdate>, b: seq<ChunkUpdate>)
    ensures PixelsOf(a + b) == PixelsOf(a) + PixelsOf(b)
    decreases |a|
  {
    if a == [] {
      assert a + b == b;
    } else {
      assert (a + b)[0] == a[0];
      assert (a + b)[1..] == a[1..] + b;
      PixelsOfAppend(a[1..], b);
    }
  }

  /** The chunks of a group are non-empty, at most 100 long, of that canvas, and concatenate to the group. */
  lemma {:induction false} ChunksCover(c: int, group: seq<PixelUpdate>)
    ensures PixelsOf(ChunkUpdates(c, group)) == group
    ensures forall u :: u in ChunkUpdates(c, group) ==>
      u.canvasId == c && 0 < |u.pixels| <= ChunkSize && u == UpdateOf(c, u.pixels)
    decreases |group|
  {
    if |group| > ChunkSize {
      ChunksCover(c, group[ChunkSize..]);
      assert group[..ChunkSize] + group[ChunkSize..] == group;
    }
  }

  /** Every update a flush writes, canvas group after canvas group. */
  function FlushUpdates(s: seq<PixelUpdate>, ids: seq<int>): seq<ChunkUpdate>
    decreases |ids|
  {
    if ids == [] then []
    else FlushUpdates(s, ids[..|ids| - 1]) + ChunkUpdates(ids[|ids| - 1], GroupOf(s, ids[|ids| - 1]))
  }

  /** What flushing the snapshot `s` writes. */
  function FlushOf(s: seq<PixelUpdate>): seq<ChunkUpdate> {
    FlushUpdates(s, CanvasIdsOf(s))
  }

  lemma {:induction false} FlushUpdatesPixels(s: seq<PixelUpdate>, ids: seq<int>)
    ensures PixelsOf(FlushUpdates(s, ids)) == Grouped(s, ids)
    ensures forall u :: u in FlushUpdates(s, ids) ==>
      u.canvasId in ids && 0 < |u.pixels| <= ChunkSize && u == UpdateOf(u.canvasId, u.pixels) &&
      forall p :: p in u.pixels ==> p.canvasId == u.canvasId
    decreases |ids|
  {
    if ids != [] {
      var front := ids[..|ids| - 1];
      var c := ids[|ids| - 1];
      FlushUpdatesPixels(s, front);
      ChunksCover(c, GroupOf(s, c));
      PixelsOfAppend(FlushUpdates(s, front), ChunkUpdates(c, GroupOf(s, c)));
      GroupOfExactly(s, c);
      forall u | u in ChunkUpdates(c, GroupOf(s, c))
        ensures forall p :: p in u.pixels ==> p.canvasId == c
      {
        PixelsInChunk(ChunkUpdates(c, GroupOf(s, c)), u);
      }
    }
  }

  lemma {:induction false} PixelsInChunk(us: seq<ChunkUpdate>, u: ChunkUpdate)
    requires u in us
    ensures forall p :: p in u.pixels ==> p in PixelsOf(us)
    decreases |us|
  {
    if us[0] != u {
      PixelsInChunk(us[1..], u);
    }
  }

  /**
   * A flush writes every snapshot update exactly once, in chunks of 1 to 100 updates of one
   * canvas, each with the parameters and conditions of its pixels.
   */
  lemma FlushWritesEachOnce(s: seq<PixelUpdate>)
    ensures multiset(PixelsOf(FlushOf(s))) == multiset(s)
    ensures forall u :: u in FlushOf(s) ==>
      0 < |u.pixels| <= ChunkSize && u == UpdateOf(u.canvasId, u.pixels) &&
      forall p :: p in u.pixels ==> p.canvasId == u.canvasId
  {
    FlushUpdatesPixels(s, CanvasIdsOf(s));
    GroupedPermutes(s);
  }

  // ---------------------------------------------------------------------------
  // The worker

  /** The coordinate condition of a chunk: parameters pushed and placeholders numbered as they go. */
  method CoordConditions(chunk: seq<PixelUpdate>) returns (params: seq<int>, conds: seq<(int, int)>)
    ensures params == ParamsOf(chunk) && conds == ConditionsOf(|chunk|)
  {
    params, conds := [], [];
    var paramIndex := 1;
    var i := 0;
    while i < |chunk|
      invariant 0 <= i <= |chunk|
      invariant paramIndex == 2 * i + 1
      invariant params == ParamsOf(chunk[..i]) && conds == ConditionsOf(i)
    {
      assert chunk[..i + 1][..i] == chunk[..i];
      conds := conds + [(paramIndex, paramIndex + 1)];
      params := params + [chunk[i].x, chunk[i].y];
      paramIndex := paramIndex + 2;
      i := i + 1;
    }
    assert chunk[..i] == chunk;
  }

  /** The `canvasGroups` loop: an insertion-ordered map from canvas id to its updates. */
  method GroupByCanvas(s: seq<PixelUpdate>) returns (ids: seq<int>, groups: map<int, seq<PixelUpdate>>)
    ensures ids == CanvasIdsOf(s)
    ensures forall c :: c in groups <==> c in ids
    ensures forall c :: c in groups ==> groups[c] == GroupOf(s, c)
  {
    ids, groups := [], map[];
    var i := 0;
    while i < |s|
      invariant 0 <= i <= |s|
      invariant ids == CanvasIdsOf(s[..i])
      invariant forall c :: c in groups <==> c in ids
      invariant forall c :: c in groups ==> groups[c] == GroupOf(s[..i], c)
    {
      assert s[..i + 1][..i] == s[..i];
      var c := s[i].canvasId;
      if c !in groups {
        groups := groups[c := []];
        ids := ids + [c];
        GroupEmpty(s[..i], c) by {
          CanvasIdsExactly(s[..i]);
        }
      }
      groups := groups[c := groups[c] + [s[i]]];
      i := i + 1;
    }
    assert s[..i] == s;
  }

  /** The chunk loop of one canvas group. */
  /** The chunk starting at `i` heads the chunked updates of `group[i..]`. */
  lemma ChunkUpdatesFrom(c: int, group: seq<PixelUpdate>, i: nat)
    requires i < |group|
    ensures i + ChunkSize < |group| ==>
      ChunkUpdates(c, group[i..]) == [UpdateOf(c, group[i..i + ChunkSize])] + ChunkUpdates(c, group[i + ChunkSize..])
    ensures i + ChunkSize >= |group| ==> ChunkUpdates(c, group[i..]) == [UpdateOf(c, group[i..])]
  {
    var rest := group[i..];
    if i + ChunkSize < |group| {
      assert rest[..ChunkSize] == group[i..i + ChunkSize];
      assert rest[ChunkSize..] == group[i + ChunkSize..];
    }
  }

  /** One chunk's update: its pixels with their coordinate condition. */
  method WriteChunk(c: int, chunk: seq<PixelUpdate>) returns (u: ChunkUpdate)
    ensures u == UpdateOf(c, chunk)
  {
    var params, conds := CoordConditions(chunk);
    u := ChunkUpdate(c, chunk, params, conds);
  }

  /** One pass of the chunk loop keeps the written updates a prefix of the group's updates. */
  lemma ChunkStep(c: int, group: seq<PixelUpdate>, i: nat, updates: seq<ChunkUpdate>)
    requires i < |group|
    ensures i + ChunkSize < |group| ==>
      (updates + [UpdateOf(c, group[i..i + ChunkSize])]) + ChunkUpdates(c, group[i + ChunkSize..])
        == updates + ChunkUpdates(c, group[i..])
    ensures i + ChunkSize >= |group| ==> updates + [UpdateOf(c, group[i..|group|])] == updates + ChunkUpdates(c, group[i..])
  {
    ChunkUpdatesFrom(c, group, i);
    assert group[i..|group|] == group[i..];
  }

  method WriteGroup(c: int, group: seq<PixelUpdate>) returns (updates: seq<ChunkUpdate>)
    ensures updates == ChunkUpdates(c, group)
  {
    updates := [];
    var i := 0;
    ghost var whole := ChunkUpdates(c, group);
    while i < |group|
      invariant 0 <= i
      invariant i < |group| ==> updates + ChunkUpdates(c, group[i..]) == whole
      invariant i >= |group| ==> updates == whole
    {
      var end := if i + ChunkSize < |group| then i + ChunkSize else |group|;
      var u := WriteChunk(c, group[i..end]);
      ChunkStep(c, group, i, updates);
      updates := updates + [u];
      i := i + ChunkSize;
    }
  }

  /** The grouping and chunk loops of `flushPixelToDb` over a snapshot. */
  method WriteSnapshot(snapshot: seq<PixelUpdate>) returns (out: seq<ChunkUpdate>)
    ensures out == FlushOf(snapshot)
  {
    var ids, groups := GroupByCanvas(snapshot);
    out := [];
    var i := 0;
    while i < |ids|
      invariant 0 <= i <= |ids|
      invariant out == FlushUpdates(snapshot, ids[..i])
    {
      assert ids[..i + 1][..i] == ids[..i];
      var updates := WriteGroup(ids[i], groups[ids[i]]);
      out := out + updates;
      i := i + 1;
    }
    assert ids[..i] == ids;
  }

  class PixelUpdateBuffer {
    /** `pixelUpdateMap`; `order` is its key insertion order. */
    var pending: map<PendingKey, PixelUpdate>
    var order: seq<PendingKey>
    /** The chunk updates sent to the database, in order. */
    var written: seq<ChunkUpdate>

    ghost predicate Valid()
      reads this
    {
      Distinct(order) && (forall k :: k in order <==> k in pending) && |order| == |pending|
    }

    constructor ()
      ensures Valid() && pending == map[] && order == [] && written == []
    {
      pending, order, written := map[], [], [];
    }

    /** `flushPixelToDb`: nothing when empty; otherwise snapshot, clear, group and write in chunks. */
    method FlushPixelToDb()
      requires Valid()
      modifies this`pending, this`order, this`written
      ensures Valid() && pending == map[] && order == []
      ensures written == old(written) + FlushOf(Snapshot(old(order), old(pending)))
    {
      if |pending| == 0 {
        assert order == [];
        return;
      }
      var snapshot := Snapshot(order, pending);
      pending, order := map[], [];
      var out := WriteSnapshot(snapshot);
      written := written + out;
    }

    /** Stores the job's update under its key, replacing an update of the same pixel in place. */
    method SetPending(data: PixelUpdate)
      requires Valid()
      modifies this`pending, this`order
      ensures Valid()
      ensures pending == old(pending)[KeyOf(data) := data]
      ensures order == if KeyOf(data) in old(pending) then old(order) else old(order) + [KeyOf(data)]
    {
      var key := KeyOf(data);
      if key !in pending {
        order := order + [key];
      }
      pending := pending[key := data];
    }

    /** One `pixel-update` job: store the update, and flush once 200 are pending. */
    method HandleJob(data: PixelUpdate)
      requires Valid()
      modifies this`pending, this`order, this`written
      ensures Valid()
      ensures |pending| < PixelBatchSize
      ensures var staged := old(pending)[KeyOf(data) := data];
        var stagedOrder := if KeyOf(data) in old(pending) then old(order) else old(order) + [KeyOf(data)];
        if |staged| >= PixelBatchSize then
          pending == map[] && order == [] && written == old(written) + FlushOf(Snapshot(stagedOrder, staged))
        else
          pending == staged && order == stagedOrder && written == old(written)
    {
      SetPending(data);
      if |pending| >= PixelBatchSize {
        FlushPixelToDb();
      }
    }
  }

}
