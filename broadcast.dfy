/**
 * `BroadcastService`: pixel updates are queued per canvas and sent to the canvas's room
 * in batches, when a queue reaches 50 updates or when the single pending flush timer
 * fires. Timer scheduling is a flag; the timer firing is the method `TimerFires`.
 */
module Broadcast {
  import opened Collections

  /** One queued `PixelUpdate`. */
  datatype Update = Update(canvasId: string, x: int, y: int, color: string)

  /** One `pixel_update` emit with its `pixels` array. */
  datatype Batch = Batch(room: string, pixels: seq<Update>)

  const BatchSize := 50

  function Room(canvasId: string): string {
    "canvas_" + canvasId
  }

  /** The batches `flushAllBatches` sends for the queues, visiting `keys` in order: non-empty queues only. */
  function Flushes(queues: map<string, seq<Update>>, keys: seq<string>): (bs: seq<Batch>)
    ensures |bs| <= |keys|
    decreases |keys|
  {
    if keys == [] then []
    else
      var k := keys[|keys| - 1];
      Flushes(queues, keys[..|keys| - 1]) + (if k in queues && queues[k] != [] then [Batch(Room(k), queues[k])] else [])
  }

  /** Every non-empty queue among `keys` is sent whole to its own room, and nothing else is sent. */
  lemma {:induction false} FlushesExactly(queues: map<string, seq<Update>>, keys: seq<string>)
    ensures forall k :: k in keys && k in queues && queues[k] != [] ==> Batch(Room(k), queues[k]) in Flushes(queues, keys)
    ensures forall b :: b in Flushes(queues, keys) ==>
      b.pixels != [] && exists k :: k in keys && k in queues && b == Batch(Room(k), queues[k])
    decreases |keys|
  {
    if keys != [] {
      var front := keys[..|keys| - 1];
      var k := keys[|keys| - 1];
      FlushesExactly(queues, front);
      assert forall j :: j in keys <==> j in front || j == k;
    }
  }

  /** Every queue is below the batch size. */
  ghost predicate AllBelow(queues: map<string, seq<Update>>) {
    forall k :: k in queues ==> |queues[k]| < BatchSize
  }

  /** The loop of `flushAllBatches` on values: each queue of `keys` is sent if non-empty, then emptied. */
  method FlushQueues(q0: map<string, seq<Update>>, keys: seq<string>, e0: seq<Batch>)
    returns (queues: map<string, seq<Update>>, emitted: seq<Batch>)
    requires Distinct(keys) && forall k :: k in keys ==> k in q0
    ensures emitted == e0 + Flushes(q0, keys)
    ensures queues.Keys == q0.Keys
    ensures forall k :: k in queues ==> queues[k] == (if k in keys then [] else q0[k])
  {
    queues, emitted := q0, e0;
    var i := 0;
    while i < |keys|
      invariant 0 <= i <= |keys|
      invariant queues.Keys == q0.Keys
      invariant forall j :: 0 <= j < i ==> queues[keys[j]] == []
      invariant forall j :: i <= j < |keys| ==> queues[keys[j]] == q0[keys[j]]
      invariant forall k :: k in queues && k !in keys ==> queues[k] == q0[k]
      invariant emitted == e0 + Flushes(q0, keys[..i])
    {
      var k := keys[i];
      assert keys[..i + 1][..i] == keys[..i];
      if queues[k] != [] {
        emitted := emitted + [Batch(Room(k), queues[k])];
      }
      queues := queues[k := []];
      i := i + 1;
    }
    assert keys[..i] == keys;
    forall k | k in queues && k in keys
      ensures queues[k] == []
    {
      var j :| 0 <= j < |keys| && keys[j] == k;
    }
  }

  class BroadcastBuffer {
    /** Whether the socket server instance was obtained. */
    var hasServer: bool
    /** `pixelBatchQueue`; `keys` is the map's insertion order. */
    var queues: map<string, seq<Update>>
    var keys: seq<string>
    /** Whether `batchTimeout` is set. */
    var timerPending: bool
    /** Everything emitted, in order. */
    var emitted: seq<Batch>

    /** `keys` lists the queues' canvas ids, each once. */
    ghost predicate Valid()
      reads this
    {
      Distinct(keys) && forall k :: k in keys <==> k in queues
    }

    constructor (hasServer: bool)
      ensures Valid()
      ensures this.hasServer == hasServer && queues == map[] && keys == [] && !timerPending && emitted == []
    {
      this.hasServer := hasServer;
      queues := map[];
      keys := [];
      timerPending := false;
      emitted := [];
    }

    /** `flushBatch`: a non-empty queue is sent to its room and emptied. */
    method FlushBatch(canvasId: string)
      modifies this`queues, this`emitted
      ensures !hasServer || canvasId !in old(queues) || old(queues)[canvasId] == [] ==>
        queues == old(queues) && emitted == old(emitted)
      ensures hasServer && canvasId in old(queues) && old(queues)[canvasId] != [] ==>
        emitted == old(emitted) + [Batch(Room(canvasId), old(queues)[canvasId])] &&
        queues == old(queues)[canvasId := []]
    {
      if !hasServer {
        return;
      }
      if canvasId !in queues || queues[canvasId] == [] {
        return;
      }
      emitted := emitted + [Batch(Room(canvasId), queues[canvasId])];
      queues := queues[canvasId := []];
    }

    /** `scheduleBatchFlush`: at most one timer is ever pending. */
    method ScheduleBatchFlush()
      modifies this`timerPending
      ensures timerPending
    {
      if timerPending {
        return;
      }
      timerPending := true;
    }

    /** `flushAllBatches`: every canvas queue, in insertion order. */
    method FlushAllBatches()
      requires Valid()
      modifies this`queues, this`emitted
      ensures Valid()
      ensures !hasServer ==> queues == old(queues) && emitted == old(emitted)
      ensures hasServer ==> emitted == old(emitted) + Flushes(old(queues), keys)
      ensures hasServer ==> queues.Keys == old(queues).Keys && forall k :: k in queues ==> queues[k] == []
    {
      if !hasServer {
        return;
      }
      queues, emitted := FlushQueues(queues, keys, emitted);
    }

    /** The timer callback: every queue is flushed and the timer cleared. */
    method TimerFires()
      requires Valid()
      modifies this`queues, this`emitted, this`timerPending
      ensures Valid()
      ensures !timerPending
      ensures !hasServer ==> queues == old(queues) && emitted == old(emitted)
      ensures hasServer ==> emitted == old(emitted) + Flushes(old(queues), keys)
      ensures hasServer ==> forall k :: k in queues ==> queues[k] == []
    {
      FlushAllBatches();
      timerPending := false;
    }

    /**
     * `addPixelToBatch`. Without a server nothing happens; an immediate pixel is sent alone;
     * otherwise it is appended to its canvas's queue, which is sent once it holds 50 updates,
     * and a flush timer is scheduled.
     */
    method AddPixelToBatch(pixel: Update, immediate: bool)
      requires Valid()
      modifies this`queues, this`keys, this`emitted, this`timerPending
      ensures Valid()
      ensures !hasServer ==> queues == old(queues) && keys == old(keys) && emitted == old(emitted) && timerPending == old(timerPending)
      ensures hasServer && immediate ==>
        emitted == old(emitted) + [Batch(Room(pixel.canvasId), [pixel])] &&
        queues == old(queues) && keys == old(keys) && timerPending == old(timerPending)
      ensures hasServer && !immediate ==>
        var id := pixel.canvasId;
        var queued := (if id in old(queues) then old(queues)[id] else []) + [pixel];
        && keys == (if id in old(queues) then old(keys) else old(keys) + [id])
        && (|queued| >= BatchSize ==>
              emitted == old(emitted) + [Batch(Room(id), queued)] && queues == old(queues)[id := []] &&
              timerPending == old(timerPending))
        && (|queued| < BatchSize ==>
              emitted == old(emitted) && queues == old(queues)[id := queued] && timerPending)
      ensures old(AllBelow(queues)) ==> AllBelow(queues)
    {
      if !hasServer {
        return;
      }
      var id := pixel.canvasId;
      if immediate {
        emitted := emitted + [Batch(Room(id), [pixel])];
        return;
      }
      if id !in queues {
        queues := queues[id := []];
        keys := keys + [id];
      }
      queues := queues[id := queues[id] + [pixel]];
      if |queues[id]| >= BatchSize {
        FlushBatch(id);
      } else {
        ScheduleBatchFlush();
      }
    }
  }
}
