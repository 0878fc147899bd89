/**
 * The `canvas-history` job: the canvas's pixels are read from its Redis hash when that is
 * non-empty, otherwise from the `pixels` table; the image is uploaded under
 * `history/{canvas_id}/{uuid}.png`, the history row records that key, and statistics are
 * generated for every canvas type except 'public'.
 *
 * As written, a hash value holding '|' keeps only the FIRST CHARACTER of the text before
 * the '|' (the line destructures a string), and none at all when that text is empty.
 */
module HistoryWorker {
  import opened Wrappers
  import opened JsText
  import opened PixelField
  import opened Collections

  /** One entry of `pixelData`; an `undefined` colour is `None`. */
  datatype HistoryPixel = HistoryPixel(x: JsNum, y: JsNum, color: Option<string>)

  /** A row of `select x, y, color from pixels`. */
  datatype PixelRow = PixelRow(x: int, y: int, color: string)

  /** The colour the worker takes from a hash value. */
  function ColorOfValue(value: string): (c: Option<string>)
    ensures '|' !in value ==> c == Some(value)
    ensures '|' in value ==> c.None? || |c.value| == 1
  {
    if '|' in value then
      var head := Split(value, '|')[0];
      if head == [] then None else Some([head[0]])
    else Some(value)
  }

  /**
   * A game value `color|owner` is read back as the colour's first character only, so a
   * colour such as '#ff0000' becomes '#'.
   */
  lemma GameValueKeepsFirstCharacter(color: string, owner: Option<string>)
    requires '|' !in color && color != ""
    requires owner.Some? ==> '|' !in owner.value && owner.value != ""
    ensures ColorOfValue(CellValue(color, owner)) == Some([color[0]])
    ensures |color| > 1 ==> ColorOfValue(CellValue(color, owner)) != Some(color)
  {
    CellRoundTrip(color, owner);
    assert '|' in CellValue(color, owner) by {
      assert CellValue(color, owner)[|color|] == '|';
    }
  }

  /** The pixel the loop pushes for one hash field: `field.split(':').map(Number)` and the colour. */
  function HashPixel(cell: Cell, value: string): HistoryPixel {
    HistoryPixel(Num(cell.x), Num(cell.y), ColorOfValue(value))
  }

  /** `HashPixel` is what decoding the stored field text gives. */
  lemma HashPixelDecodes(cell: Cell, value: string)
    ensures HashPixel(cell, value) ==
      HistoryPixel(CoordsOf(FieldOf(cell.x, cell.y)).0, CoordsOf(FieldOf(cell.x, cell.y)).1, ColorOfValue(value))
  {
    FieldRoundTrip(cell.x, cell.y);
  }

  function RowPixel(r: PixelRow): HistoryPixel {
    HistoryPixel(Num(r.x), Num(r.y), Some(r.color))
  }

  function RowPixels(rows: seq<PixelRow>): (ps: seq<HistoryPixel>)
    ensures |ps| == |rows|
    ensures forall i :: 0 <= i < |rows| ==> ps[i] == RowPixel(rows[i])
    decreases |rows|
  {
    if rows == [] then [] else RowPixels(rows[..|rows| - 1]) + [RowPixel(rows[|rows| - 1])]
  }

  /** The pixels of the hash, listed in the field order `fields`. */
  function HashPixels(hash: map<Cell, string>, fields: seq<Cell>): (ps: seq<HistoryPixel>)
    requires forall f :: f in fields ==> f in hash
    ensures |ps| == |fields|
    ensures forall i :: 0 <= i < |fields| ==> ps[i] == HashPixel(fields[i], hash[fields[i]])
    decreases |fields|
  {
    if fields == [] then []
    else HashPixels(hash, fields[..|fields| - 1]) + [HashPixel(fields[|fields| - 1], hash[fields[|fields| - 1]])]
  }

  /** The `for (const field in redisPixels)` loop, visiting the fields in the store's order. */
  method PixelsFromHash(hash: map<Cell, string>) returns (pixelData: seq<HistoryPixel>, fields: seq<Cell>)
    ensures Enumerates(fields, hash.Keys)
    ensures pixelData == HashPixels(hash, fields)
  {
    fields := Members(hash.Keys);
    pixelData := [];
    var i := 0;
    while i < |fields|
      invariant 0 <= i <= |fields|
      invariant pixelData == HashPixels(hash, fields[..i])
    {
      assert fields[..i + 1][..i] == fields[..i];
      pixelData := pixelData + [HashPixel(fields[i], hash[fields[i]])];
      i := i + 1;
    }
    assert fields[..i] == fields;
  }

  /** The S3 key `history/{canvas_id}/{uuid}.png`. */
  function UploadKey(canvasId: string, uuid: string): string {
    "history/" + canvasId + "/" + uuid + ".png"
  }

  /** The key splits at '/' into the folder, the canvas id and the file name. */
  lemma UploadKeyParts(canvasId: string, uuid: string)
    requires '/' !in canvasId && '/' !in uuid
    ensures Split(UploadKey(canvasId, uuid), '/') == ["history", canvasId, uuid + ".png"]
  {
    var parts := ["history", canvasId, uuid + ".png"];
    assert '/' !in uuid + ".png";
    assert Join(parts[1..], '/') == canvasId + "/" + (uuid + ".png");
    assert UploadKey(canvasId, uuid) == Join(parts, '/');
    SplitJoin(parts, '/');
  }

  /** The job data used by the model; `size_x`/`size_y` only size the image. */
  datatype HistoryJob = HistoryJob(canvasId: string, canvasType: string)

  /** A completed job: the pixels drawn, the uploaded key and whether statistics were generated. */
  datatype HistoryRun = HistoryRun(pixels: seq<HistoryPixel>, imgKey: string, statistics: bool)

  /**
   * One `canvas-history` job. `hash` is the canvas hash, `rows` the table's pixels, `uuid`
   * the generated id and `historyExists` whether the canvas's history row exists.
   */
  method RunHistoryJob(job: HistoryJob, hash: map<Cell, string>, rows: seq<PixelRow>, uuid: string, historyExists: bool)
    returns (r: Result<HistoryRun, string>, fields: seq<Cell>)
    ensures !historyExists <==> r == Err("CanvasHistory not found")
    ensures r.Ok? ==> r.value.imgKey == UploadKey(job.canvasId, uuid)
    ensures r.Ok? ==> (r.value.statistics <==> job.canvasType != "public")
    ensures |hash| > 0 ==> Enumerates(fields, hash.Keys) && (r.Ok? ==> r.value.pixels == HashPixels(hash, fields))
    ensures |hash| == 0 && r.Ok? ==> r.value.pixels == RowPixels(rows)
  {
    var pixelData: seq<HistoryPixel>;
    fields := [];
    if |hash| > 0 {
      pixelData, fields := PixelsFromHash(hash);
    } else {
      pixelData := RowPixels(rows);
    }
    var key := UploadKey(job.canvasId, uuid);
    if !historyExists {
      return Err("CanvasHistory not found"), fields;
    }
    var statistics := job.canvasType != "public";
    r := Ok(HistoryRun(pixelData, key, statistics));
  }
}
