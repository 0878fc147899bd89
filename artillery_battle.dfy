/**
 * The battle generator: team 1 is numbered from 1, team 2 from 10000 and mirrored through
 * (63, 63); each team gets its own payload file and its own weighted scenario, and one phase
 * sends every pixel of both teams.
 */
module ArtilleryBattle {
  import opened JsText
  import opened LoadTest

  const CanvasId := 1
  const Team1Start := 1
  const Team2Start := 10000

  datatype Scenario = Scenario(name: string, weight: int, channel: string, data: map<string, string>,
                               payloadPath: string, fields: seq<string>)

  datatype BattleConfig = BattleConfig(arrivalCount: int, duration: int, scenarios: seq<Scenario>)

  /** What the script writes: the two payload files and the configuration. */
  datatype BattleOutput = BattleOutput(team1Payload: string, team2Payload: string, config: BattleConfig)

  /** The `for pixel in team2_raw` loop appending each mirrored pixel. */
  method MirrorTeam(raw: seq<Pixel>) returns (team2: seq<Pixel>)
    ensures team2 == MirrorAll(raw)
  {
    team2 := [];
    var i := 0;
    while i < |raw|
      invariant 0 <= i <= |raw|
      invariant team2 == MirrorAll(raw[..i])
    {
      assert raw[..i + 1][..i] == raw[..i];
      team2 := team2 + [Pixel(63 - raw[i].x, 63 - raw[i].y, raw[i].color, raw[i].userId)];
      i := i + 1;
    }
    assert raw[..i] == raw;
  }

  function TeamScenario(name: string, payloadPath: string): Scenario {
    Scenario(name, 50, "draw_pixel_simul", EmitTemplate(CanvasId), payloadPath, Fields)
  }

  /** The configuration: one phase of `arrivalCount` arrivals over 80 s, one scenario per team. */
  function ConfigOf(arrivalCount: int): BattleConfig {
    BattleConfig(arrivalCount, 80, [TeamScenario("Team Nexon (0,0 시작)", "team1_payload.json"),
                                    TeamScenario("Team Krafton (63,63 시작)", "team2_payload.json")])
  }

  /** The script's whole run on the two CSV files' rows. */
  method Generate(nexonRows: seq<Row>, kraftonRows: seq<Row>) returns (team1: seq<Pixel>, team2: seq<Pixel>, out: BattleOutput)
    ensures team1 == Records(nexonRows, Team1Start)
    ensures team2 == MirrorAll(Records(kraftonRows, Team2Start))
    ensures out.team1Payload == Payload(team1) && out.team2Payload == Payload(team2)
    ensures out.config == ConfigOf(|nexonRows| + |kraftonRows|)
  {
    team1 := CsvToJson(nexonRows, Team1Start);
    var team2Raw := CsvToJson(kraftonRows, Team2Start);
    team2 := MirrorTeam(team2Raw);
    var p1 := WritePayload(team1);
    var p2 := WritePayload(team2);
    out := BattleOutput(p1, p2, ConfigOf(|team1| + |team2|));
  }

  /** Team 2's i-th pixel is the i-th krafton row mirrored, with user id 10000 + i. */
  lemma Team2Pixels(kraftonRows: seq<Row>)
    ensures var team2 := MirrorAll(Records(kraftonRows, Team2Start));
      |team2| == |kraftonRows| &&
      forall i :: 0 <= i < |kraftonRows| ==>
        team2[i] == Pixel(63 - kraftonRows[i].x, 63 - kraftonRows[i].y, kraftonRows[i].color, 10000 + i)
  {
    var recs := Records(kraftonRows, Team2Start);
    var team2 := MirrorAll(recs);
    forall i | 0 <= i < |kraftonRows|
      ensures team2[i] == Pixel(63 - kraftonRows[i].x, 63 - kraftonRows[i].y, kraftonRows[i].color, 10000 + i)
    {
      MirroredRecord(kraftonRows, Team2Start, i);
    }
  }

  /** The i-th mirrored record is row i mirrored, numbered start + i. */
  lemma MirroredRecord(rows: seq<Row>, start: int, i: int)
    requires 0 <= i < |rows|
    ensures MirrorAll(Records(rows, start))[i] == Pixel(63 - rows[i].x, 63 - rows[i].y, rows[i].color, start + i)
  {
    var row := rows[i];
    var rec := Records(rows, start)[i];
    assert rec == Pixel(row.x, row.y, row.color, start + i);
    assert MirrorAll(Records(rows, start))[i] == Mirror(rec);
  }

  lemma MirrorKeepsIds(pixels: seq<Pixel>)
    ensures UserIds(MirrorAll(pixels)) == UserIds(pixels)
  {
    var m := MirrorAll(pixels);
    forall id | id in UserIds(pixels)
      ensures id in UserIds(m)
    {
      var i :| 0 <= i < |pixels| && pixels[i].userId == id;
      assert m[i].userId == id;
    }
  }

  /** The teams' user ids are disjoint exactly when team 1 has at most 9999 rows or team 2 has none. */
  lemma TeamIdsDisjoint(nexonRows: seq<Row>, kraftonRows: seq<Row>)
    ensures var ids1 := UserIds(Records(nexonRows, Team1Start));
      var ids2 := UserIds(MirrorAll(Records(kraftonRows, Team2Start)));
      ids1 * ids2 == {} <==> |nexonRows| <= 9999 || kraftonRows == []
  {
    var ids1 := UserIds(Records(nexonRows, Team1Start));
    var ids2 := UserIds(MirrorAll(Records(kraftonRows, Team2Start)));
    RecordIds(nexonRows, Team1Start);
    RecordIds(kraftonRows, Team2Start);
    MirrorKeepsIds(Records(kraftonRows, Team2Start));
    if |nexonRows| > 9999 && kraftonRows != [] {
      assert 10000 in ids1;
      assert 10000 in ids2;
      assert 10000 in ids1 * ids2;
    } else {
      forall id | id in ids1
        ensures id !in ids2
      {
        assert id < 10000 || kraftonRows == [];
      }
      assert ids1 * ids2 == {};
    }
  }

  /** Arrivals cover both teams: one per pixel written to either payload. */
  lemma ArrivalsCoverBothTeams(nexonRows: seq<Row>, kraftonRows: seq<Row>)
    ensures ConfigOf(|nexonRows| + |kraftonRows|).arrivalCount ==
            |Records(nexonRows, Team1Start)| + |MirrorAll(Records(kraftonRows, Team2Start))|
  {
  }

  /**
   * Both scenarios read their own team's payload and bind exactly its fields: each payload
   * field is sent as its own placeholder, and only the canvas id besides.
   */
  lemma ScenariosBindPayloadFields(arrivalCount: int)
    ensures var c := ConfigOf(arrivalCount);
      |c.scenarios| == 2 &&
      c.scenarios[0].payloadPath == "team1_payload.json" && c.scenarios[1].payloadPath == "team2_payload.json" &&
      forall k, f :: 0 <= k < 2 ==>
        (f in c.scenarios[k].data && f != "canvas_id" <==> f in c.scenarios[k].fields) &&
        (f in c.scenarios[k].fields ==> c.scenarios[k].data[f] == Placeholder(f))
  {
    TemplateBindsFields(CanvasId);
  }
}
