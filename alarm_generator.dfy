/**
 * The five scheduling helpers of the alarm generator. Each computes a delay (in ms) from the
 * canvas's start or end time and `now`, and enqueues one job with a fixed id only when the
 * delay lies in (0, one day]. A job that would be enqueued is returned as `Some`.
 */
module AlarmGenerator {
  import opened Wrappers
  import opened JsText

  /** A canvas row as the helpers read it; times are epoch milliseconds, and a null time is `None`. */
  datatype AlarmCanvas = AlarmCanvas(
    id: int, title: string, canvasType: string, sizeX: int, sizeY: int,
    startedAt: Option<int>, endedAt: Option<int>)

  /** `new Date(t).getTime()`: a null timestamp is the epoch. */
  function TimeOf(t: Option<int>): int {
    if t.Some? then t.value else 0
  }

  const OneDay := 1000 * 60 * 60 * 24

  /** The enqueue guard `delay > 0 && delay <= ONE_DAYS`. */
  predicate InWindow(delay: int) {
    0 < delay <= OneDay
  }

  datatype JobKind = History | ThreeSecBeforeEnd | ThirtySecBeforeStart | ThreeSecBeforeStart | GameEnd

  datatype QueueName = HistoryQueue | AlarmQueue

  /** The job payloads: the history job's canvas data, or an alarm's title and time. */
  datatype JobData =
    | HistoryData(canvasId: int, sizeX: int, sizeY: int, canvasType: string)
    | AlarmData(canvasId: int, title: string, at: Option<int>)

  datatype QueuedJob = QueuedJob(queue: QueueName, name: string, jobId: string, delay: int, data: JobData)

  /** The prefix of each kind's job id; it is also the job name of every alarm job. */
  function JobPrefix(kind: JobKind): string {
    match kind
    case History => "history"
    case ThreeSecBeforeEnd => "3sec-before-end"
    case ThirtySecBeforeStart => "30sec-before-start"
    case ThreeSecBeforeStart => "3sec-before-start"
    case GameEnd => "game-end"
  }

  /** The BullMQ job name: the history job is named 'canvas-history', an alarm job by its prefix. */
  function JobName(kind: JobKind): string {
    if kind == History then "canvas-history" else JobPrefix(kind)
  }

  /** The job id `{prefix}-{canvas id}`. */
  function JobId(kind: JobKind, canvasId: int): string {
    JobPrefix(kind) + "-" + IntToString(canvasId)
  }

  /** The delay of each kind: up to the end or the start, less the alarm's lead time. */
  function DelayOf(kind: JobKind, canvas: AlarmCanvas, now: int): int {
    match kind
    case History => TimeOf(canvas.endedAt) - now
    case ThreeSecBeforeEnd => TimeOf(canvas.endedAt) - now - 3 * 1000
    case ThirtySecBeforeStart => TimeOf(canvas.startedAt) - now - 30 * 1000
    case ThreeSecBeforeStart => TimeOf(canvas.startedAt) - now - 3 * 1000
    case GameEnd => TimeOf(canvas.endedAt) - now
  }

  function DataOf(kind: JobKind, canvas: AlarmCanvas): JobData {
    match kind
    case History => HistoryData(canvas.id, canvas.sizeX, canvas.sizeY, canvas.canvasType)
    case ThreeSecBeforeEnd => AlarmData(canvas.id, canvas.title, canvas.endedAt)
    case GameEnd => AlarmData(canvas.id, canvas.title, canvas.endedAt)
    case _ => AlarmData(canvas.id, canvas.title, canvas.startedAt)
  }

  /** The job a helper would enqueue for `kind`, whatever its window. */
  function JobOf(kind: JobKind, canvas: AlarmCanvas, now: int): QueuedJob {
    QueuedJob(if kind == History then HistoryQueue else AlarmQueue, JobName(kind), JobId(kind, canvas.id),
              DelayOf(kind, canvas, now), DataOf(kind, canvas))
  }

  /**
   * One helper at time `now`: the game-end helper returns early unless the canvas type is
   * 'game_calculation'; then the job is enqueued iff its delay is within the window.
   */
  function Schedule(kind: JobKind, canvas: AlarmCanvas, now: int): (r: Option<QueuedJob>)
    ensures r.Some? <==> (kind != GameEnd || canvas.canvasType == "game_calculation") && InWindow(DelayOf(kind, canvas, now))
    ensures r.Some? ==> r.value == JobOf(kind, canvas, now) && 0 < r.value.delay <= 86400000
  {
    if kind == GameEnd && canvas.canvasType != "game_calculation" then None
    else if InWindow(DelayOf(kind, canvas, now)) then Some(JobOf(kind, canvas, now))
    else None
  }

  /** Each delay, written out: the end, 3 s before the end, 30 s and 3 s before the start. */
  lemma DelaysFromTimes(canvas: AlarmCanvas, now: int, end: int, start: int)
    requires canvas.endedAt == Some(end) && canvas.startedAt == Some(start)
    ensures DelayOf(History, canvas, now) == end - now
    ensures DelayOf(ThreeSecBeforeEnd, canvas, now) == end - now - 3000
    ensures DelayOf(ThirtySecBeforeStart, canvas, now) == start - now - 30000
    ensures DelayOf(ThreeSecBeforeStart, canvas, now) == start - now - 3000
    ensures DelayOf(GameEnd, canvas, now) == end - now
  {
  }

  /** A canvas without an end time gets no end-based job once the clock is past the epoch. */
  lemma NullEndSchedulesNothing(canvas: AlarmCanvas, now: int)
    requires canvas.endedAt.None? && now >= 0
    ensures Schedule(History, canvas, now).None?
    ensures Schedule(ThreeSecBeforeEnd, canvas, now).None?
    ensures Schedule(GameEnd, canvas, now).None?
  {
  }

  /** For a 'game_calculation' canvas the game-end alarm is scheduled exactly when the history job is, with the same delay. */
  lemma GameEndFollowsHistory(canvas: AlarmCanvas, now: int)
    requires canvas.canvasType == "game_calculation"
    ensures Schedule(GameEnd, canvas, now).Some? <==> Schedule(History, canvas, now).Some?
    ensures Schedule(GameEnd, canvas, now).Some? ==>
      Schedule(GameEnd, canvas, now).value.delay == Schedule(History, canvas, now).value.delay
  {
  }

  /** When both start alarms are scheduled, the 30-second one fires 27 s before the 3-second one. */
  lemma StartAlarmsOrdered(canvas: AlarmCanvas, now: int)
    requires Schedule(ThirtySecBeforeStart, canvas, now).Some? && Schedule(ThreeSecBeforeStart, canvas, now).Some?
    ensures Schedule(ThirtySecBeforeStart, canvas, now).value.delay + 27000 ==
            Schedule(ThreeSecBeforeStart, canvas, now).value.delay
  {
  }

  /** A job one day away is still scheduled; one a millisecond later, or due now, is not. */
  lemma WindowBounds(canvas: AlarmCanvas, now: int)
    requires canvas.endedAt == Some(now + OneDay)
    ensures Schedule(History, canvas, now).Some?
    ensures Schedule(History, canvas, now - 1).None?
    ensures Schedule(History, canvas, now + OneDay).None?
  {
  }

  /** The prefixes differ at an index inside both of them. */
  lemma PrefixesDiffer(k1: JobKind, k2: JobKind)
    requires k1 != k2
    ensures exists i :: (0 <= i < |JobPrefix(k1) + "-"| && i < |JobPrefix(k2) + "-"| &&
                         (JobPrefix(k1) + "-")[i] != (JobPrefix(k2) + "-")[i])
  {
    var a, b := JobPrefix(k1) + "-", JobPrefix(k2) + "-";
    if a[0] != b[0] {
      assert 0 < |a| && 0 < |b| && a[0] != b[0];
    } else if a[1] != b[1] {
      assert 1 < |a| && 1 < |b| && a[1] != b[1];
    } else {
      assert 12 < |a| && 12 < |b| && a[12] != b[12];
    }
  }

  /** Job ids identify the job: equal ids mean the same kind and the same canvas. */
  lemma JobIdsUnique(k1: JobKind, id1: int, k2: JobKind, id2: int)
    ensures JobId(k1, id1) == JobId(k2, id2) <==> k1 == k2 && id1 == id2
  {
    var a, b := JobPrefix(k1) + "-", JobPrefix(k2) + "-";
    assert JobId(k1, id1) == a + IntToString(id1);
    assert JobId(k2, id2) == b + IntToString(id2);
    if k1 != k2 {
      PrefixesDiffer(k1, k2);
      var i :| 0 <= i < |a| && i < |b| && a[i] != b[i];
      assert JobId(k1, id1)[i] == a[i];
      assert JobId(k2, id2)[i] == b[i];
    } else if id1 != id2 {
      ToNumberOfIntToString(id1);
      ToNumberOfIntToString(id2);
      assert IntToString(id1) != IntToString(id2);
      assert JobId(k1, id1)[|a|..] == IntToString(id1);
      assert JobId(k2, id2)[|a|..] == IntToString(id2);
    }
  }
}
