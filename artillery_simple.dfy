/**
 * The merged generator written with loops: both CSV files are read by the appending loop,
 * team 2 numbered on from team 1, the teams concatenated and written to `payload.json`, and
 * one phase sends every record through a single scenario.
 */
module ArtillerySimple {
  import opened JsText
  import opened LoadTest

  const CanvasId := 1

  function ConfigOf(arrivalCount: int): MergedConfig {
    MergedConfig(arrivalCount, 80, "payload.json", Fields, "draw_pixel_simul", EmitTemplate(CanvasId))
  }

  /** The script on the two teams' rows: the merged records, the payload text and the configuration. */
  method Generate(rows1: seq<Row>, rows2: seq<Row>) returns (allPixels: seq<Pixel>, payload: string, config: MergedConfig)
    ensures allPixels == Records(rows1, 1) + Records(rows2, |rows1| + 1)
    ensures payload == Payload(allPixels)
    ensures config == ConfigOf(|allPixels|)
  {
    var team1 := CsvToJson(rows1, 1);
    var team2 := CsvToJson(rows2, |team1| + 1);
    allPixels := team1 + team2;
    payload := WritePayload(allPixels);
    config := ConfigOf(|allPixels|);
  }

  /**
   * The run numbers every record by its position (1..n), writes them one per line in order,
   * and asks for exactly one arrival per record.
   */
  lemma RunNumbersAndWritesEveryRecord(rows1: seq<Row>, rows2: seq<Row>)
    ensures var all := Records(rows1, 1) + Records(rows2, |rows1| + 1);
      |all| == |rows1| + |rows2| &&
      (forall i :: 0 <= i < |all| ==> all[i].userId == i + 1) &&
      Split(Payload(all), '\n') == Lines(all) + [""] &&
      ConfigOf(|all|).arrivalCount == |all|
  {
    var all := Records(rows1, 1) + Records(rows2, |rows1| + 1);
    ConsecutiveTeams(rows1, rows2);
    PayloadLines(all);
  }
}
