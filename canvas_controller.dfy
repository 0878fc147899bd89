/**
 * The canvas controller's read endpoints: `GET /api/canvas/pixels` serves a canvas's pixels
 * only inside its active window and throws otherwise; `GET /api/canvas` applies the same
 * window but answers with a status instead of throwing. Time is the request's `now`
 * (epoch milliseconds).
 */
module CanvasController {
  import opened Wrappers
  import opened JsText
  import opened CanvasService

  /** Where `now` falls relative to a canvas's start and end. */
  datatype Window = NotStarted | Ended | Open

  /**
   * `meta.startedAt > now` is checked first, then `meta.endedAt && meta.endedAt <= now`.
   * A null start compares as the epoch, so it never lies after `now`.
   */
  function WindowAt(meta: CanvasMeta, now: nat): (w: Window)
    ensures w == NotStarted <==> meta.startedAt.Some? && meta.startedAt.value > now
    ensures w == Ended <==> (meta.startedAt.None? || meta.startedAt.value <= now) && meta.endedAt.Some? && meta.endedAt.value <= now
    ensures w == Open <==> (meta.startedAt.None? || meta.startedAt.value <= now) && (meta.endedAt.None? || now < meta.endedAt.value)
  {
    if meta.startedAt.Some? && meta.startedAt.value > now then NotStarted
    else if meta.endedAt.Some? && meta.endedAt.value <= now then Ended
    else Open
  }

  /** The exceptions `getAllPixels` throws. */
  datatype PixelsError =
    | CanvasNotFound                     // NotFoundException
    | NotStartedYet(startedAt: Option<int>)   // 403
    | AlreadyEnded(endedAt: Option<int>)      // 403

  function StatusOf(e: PixelsError): int {
    if e.CanvasNotFound? then 404 else 403
  }

  /** The uncompressed body of a successful `getAllPixels`. */
  datatype PixelsData = PixelsData(
    canvasId: string, title: string, canvasType: string, startedAt: Option<int>, endedAt: Option<int>,
    pixels: seq<PixelView>, compression: string, totalPixels: nat, width: int, height: int)

  /** `value ?? 0`. */
  function OrZero(v: Option<int>): int {
    if v.Some? then v.value else 0
  }

  /**
   * `getAllPixels` on the canvas `getCanvasById` finds; `pixels` is what the canvas service
   * returns for it.
   */
  function GetAllPixels(canvasId: Option<string>, latest: Option<int>, metas: map<int, CanvasMeta>,
                        pixels: seq<PixelView>, now: nat): (r: Result<PixelsData, PixelsError>)
    ensures var c := GetCanvasById(canvasId, latest, metas);
      && (r == Err(CanvasNotFound) <==> c.None? || c.value.1.None?)
      && (r.Ok? <==> c.Some? && c.value.1.Some? && WindowAt(c.value.1.value, now) == Open)
      && (r.Err? && r.error.NotStartedYet? <==> c.Some? && c.value.1.Some? && WindowAt(c.value.1.value, now) == NotStarted)
      && (r.Err? && r.error.AlreadyEnded? <==> c.Some? && c.value.1.Some? && WindowAt(c.value.1.value, now) == Ended)
    ensures r.Ok? ==> r.value.pixels == pixels && r.value.totalPixels == |pixels| && r.value.compression == "gzip"
    ensures r.Ok? ==> var meta := GetCanvasById(canvasId, latest, metas).value.1.value;
      r.value.width == OrZero(meta.sizeX) && r.value.height == OrZero(meta.sizeY) &&
      r.value.startedAt == meta.startedAt && r.value.endedAt == meta.endedAt
  {
    match GetCanvasById(canvasId, latest, metas)
    case None => Err(CanvasNotFound)
    case Some((id, metaData)) =>
      match metaData
      case None => Err(CanvasNotFound)
      case Some(meta) =>
        match WindowAt(meta, now)
        case NotStarted => Err(NotStartedYet(meta.startedAt))
        case Ended => Err(AlreadyEnded(meta.endedAt))
        case Open =>
          Ok(PixelsData(id, meta.title, meta.canvasType, meta.startedAt, meta.endedAt, pixels, "gzip",
                        |pixels|, OrZero(meta.sizeX), OrZero(meta.sizeY)))
  }

  /** Pixels are served only when the canvas has started and not yet ended. */
  lemma PixelsServedOnlyWhileActive(canvasId: Option<string>, latest: Option<int>, metas: map<int, CanvasMeta>,
                                    pixels: seq<PixelView>, now: nat)
    requires GetAllPixels(canvasId, latest, metas, pixels, now).Ok?
    ensures var meta := GetCanvasById(canvasId, latest, metas).value.1.value;
      (meta.startedAt.None? || meta.startedAt.value <= now) && (meta.endedAt.None? || now < meta.endedAt.value)
  {
  }

  /** What `getCanvas` returns. */
  datatype CanvasResponse =
    | NoCanvas                                  // { success: false, message: '캔버스가 없습니다.' }
    | InternalError                             // a caught exception
    | NotStartedStatus(startedAt: Option<int>)  // status 'not_started'
    | EndedStatus(endedAt: Option<int>)         // status 'ended'
    | CanvasData(id: string, meta: CanvasMeta)

  /**
   * `getCanvas`: the requested canvas, or the newest one when it is not found. The metadata
   * check throws inside the `try`, so a requested canvas without a row becomes an internal error.
   */
  function GetCanvas(canvasId: Option<string>, latest: Option<int>, metas: map<int, CanvasMeta>, now: nat): (r: CanvasResponse)
    ensures var first := GetCanvasById(canvasId, latest, metas);
      var c := if first.Some? then first else GetCanvasById(None, latest, metas);
      && (r == NoCanvas <==> first.None? && (c.None? || c.value.1.None?))
      && (r == InternalError <==> first.Some? && first.value.1.None?)
      && (r.NotStartedStatus? <==> c.Some? && c.value.1.Some? && WindowAt(c.value.1.value, now) == NotStarted)
      && (r.EndedStatus? <==> c.Some? && c.value.1.Some? && WindowAt(c.value.1.value, now) == Ended)
      && (r.CanvasData? <==> c.Some? && c.value.1.Some? && WindowAt(c.value.1.value, now) == Open)
      && (r.CanvasData? ==> r.id == c.value.0 && r.meta == c.value.1.value)
  {
    var first := GetCanvasById(canvasId, latest, metas);
    var c := if first.Some? then first else GetCanvasById(None, latest, metas);
    if first.None? && (c.None? || c.value.1.None?) then NoCanvas
    else if c.value.1.None? then InternalError
    else if c.value.0 == "" then InternalError
    else
      var meta := c.value.1.value;
      match WindowAt(meta, now)
      case NotStarted => NotStartedStatus(meta.startedAt)
      case Ended => EndedStatus(meta.endedAt)
      case Open => CanvasData(c.value.0, meta)
  }

  /**
   * For a requested canvas that exists, `getCanvas` reports the same window as `getAllPixels`:
   * 'not_started' exactly when the pixels are refused as not started, 'ended' exactly when
   * refused as ended, and data exactly when the pixels are served.
   */
  lemma SameWindowBothEndpoints(canvasId: Option<string>, latest: Option<int>, metas: map<int, CanvasMeta>,
                                pixels: seq<PixelView>, now: nat)
    requires GetCanvasById(canvasId, latest, metas).Some? && GetCanvasById(canvasId, latest, metas).value.1.Some?
    ensures var p := GetAllPixels(canvasId, latest, metas, pixels, now);
      var g := GetCanvas(canvasId, latest, metas, now);
      && (g.NotStartedStatus? <==> p.Err? && p.error.NotStartedYet?)
      && (g.EndedStatus? <==> p.Err? && p.error.AlreadyEnded?)
      && (g.CanvasData? <==> p.Ok?)
  {
  }
}
