/**
 * The merged generator written with a list comprehension: team 2 is numbered on from team 1,
 * the teams are concatenated, and a single scenario reads every record from one payload.
 * The payload's location is a temporary file chosen at run time, given here as a parameter.
 */
module ArtilleryFixed {
  import opened JsText
  import opened LoadTest

  const CanvasId := 1

  /** What the script produces: the merged records, the payload text and the configuration. */
  datatype FixedRun = FixedRun(allPixels: seq<Pixel>, payload: string, config: MergedConfig)

  /** `read_pixels`: the comprehension numbering row i as `start + i`. */
  function ReadPixels(rows: seq<Row>, startUserId: int): (pixels: seq<Pixel>)
    ensures |pixels| == |rows|
    ensures forall i :: 0 <= i < |rows| ==>
      pixels[i].x == rows[i].x && pixels[i].y == rows[i].y && pixels[i].color == rows[i].color &&
      pixels[i].userId == startUserId + i
  {
    Records(rows, startUserId)
  }

  /** The script on the two teams' rows and the temporary payload path. */
  function Run(rows1: seq<Row>, rows2: seq<Row>, payloadPath: string): (r: FixedRun)
    ensures |r.allPixels| == |rows1| + |rows2|
    ensures r.allPixels[..|rows1|] == ReadPixels(rows1, 1)
    ensures r.allPixels[|rows1|..] == ReadPixels(rows2, |rows1| + 1)
    ensures forall i :: 0 <= i < |r.allPixels| ==> r.allPixels[i].userId == i + 1
    ensures Split(r.payload, '\n') == Lines(r.allPixels) + [""]
    ensures r.config.arrivalCount == |r.allPixels| && r.config.payloadPath == payloadPath
    ensures r.config.fields == Fields && r.config.data == EmitTemplate(CanvasId)
  {
    var team1 := ReadPixels(rows1, 1);
    var team2 := ReadPixels(rows2, |team1| + 1);
    var all := team1 + team2;
    ConsecutiveTeams(rows1, rows2);
    assert all[..|rows1|] == team1;
    assert all[|rows1|..] == team2;
    PayloadLines(all);
    FixedRun(all, Payload(all), MergedConfig(|all|, 80, payloadPath, Fields, "draw_pixel_simul", EmitTemplate(CanvasId)))
  }

  /** User ids in the merged payload are unique: two records with the same id are the same record. */
  lemma MergedIdsUnique(rows1: seq<Row>, rows2: seq<Row>, payloadPath: string)
    ensures var all := Run(rows1, rows2, payloadPath).allPixels;
      forall i, j :: 0 <= i < |all| && 0 <= j < |all| && all[i].userId == all[j].userId ==> i == j
  {
  }

  /** The i-th line of the payload is the i-th merged record. */
  lemma PayloadLineOfRecord(rows1: seq<Row>, rows2: seq<Row>, payloadPath: string, i: int)
    requires 0 <= i < |rows1| + |rows2|
    ensures var r := Run(rows1, rows2, payloadPath);
      Split(r.payload, '\n')[i] == JsonLine(r.allPixels[i])
  {
  }
}
