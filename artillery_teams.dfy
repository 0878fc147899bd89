/**
 * The per-team generator: each team's pixels are sorted in place by x, then get one
 * scenario each, the i-th waiting i * 0.05 s before it emits its pixel; the phase runs at 30
 * arrivals per second for `int(n * 0.05 + 10)` seconds.
 *
 * Think times are kept in hundredths of a second, so `i * 0.05` s is exactly `5 * i`.
 */
module ArtilleryTeams {
  import opened JsText
  import opened Sorting
  import opened LoadTest

  const CanvasId := 1
  const ArrivalRate := 30

  /** The data of one `draw_pixel_simul` emit, with the pixel's own values. */
  datatype EmitData = EmitData(canvasId: string, x: int, y: int, color: string, userId: int)

  /** One scenario: a `think` step, then the emit. */
  datatype TimedScenario = TimedScenario(thinkHundredths: nat, channel: string, data: EmitData)

  datatype TeamConfig = TeamConfig(arrivalRate: int, duration: int, scenarios: seq<TimedScenario>)

  function EmitOf(p: Pixel): (d: EmitData)
    ensures d.x == p.x && d.y == p.y && d.color == p.color && d.userId == p.userId
    ensures d.canvasId == IntToString(CanvasId)
  {
    EmitData(IntToString(CanvasId), p.x, p.y, p.color, p.userId)
  }

  /** The scenario list for pixels already in their final order. */
  function ScenariosOf(pixels: seq<Pixel>): (r: seq<TimedScenario>)
    ensures |r| == |pixels|
    ensures forall i :: 0 <= i < |pixels| ==>
      r[i].thinkHundredths == 5 * i && r[i].data == EmitOf(pixels[i]) && r[i].channel == "draw_pixel_simul"
    decreases |pixels|
  {
    if pixels == [] then []
    else
      var n := |pixels| - 1;
      ScenariosOf(pixels[..n]) + [TimedScenario(5 * n, "draw_pixel_simul", EmitOf(pixels[n]))]
  }

  /** `int(n * 0.05 + 10)`, i.e. n / 20 + 10 for a count n. */
  function PhaseDuration(n: nat): (d: nat)
    ensures 20 * (d - 10) <= n < 20 * (d - 9)
  {
    n / 20 + 10
  }

  function ConfigOf(sorted: seq<Pixel>): TeamConfig {
    TeamConfig(ArrivalRate, PhaseDuration(|sorted|), ScenariosOf(sorted))
  }

  /** `create_artillery_config`: sorts the caller's list, then builds one scenario per pixel. */
  method CreateArtilleryConfig(pixels: array<Pixel>) returns (config: TeamConfig)
    modifies pixels
    ensures pixels[..] == SortedByX(old(pixels[..]))
    ensures config == ConfigOf(pixels[..])
  {
    SortInPlace(pixels);
    var scenarios: seq<TimedScenario> := [];
    var i := 0;
    while i < pixels.Length
      invariant 0 <= i <= pixels.Length
      invariant scenarios == ScenariosOf(pixels[..i])
    {
      assert pixels[..i + 1][..i] == pixels[..i];
      scenarios := scenarios + [TimedScenario(5 * i, "draw_pixel_simul", EmitOf(pixels[i]))];
      i := i + 1;
    }
    assert pixels[..i] == pixels[..];
    config := TeamConfig(ArrivalRate, PhaseDuration(pixels.Length), scenarios);
  }

  /** The script's run: both teams loaded (from 1 and from 10000), each configured. */
  method Generate(nexonRows: seq<Row>, kraftonRows: seq<Row>) returns (nexon: TeamConfig, krafton: TeamConfig)
    ensures nexon == ConfigOf(SortedByX(Records(nexonRows, 1)))
    ensures krafton == ConfigOf(SortedByX(Records(kraftonRows, 10000)))
  {
    var nexonPixels := CsvToJson(nexonRows, 1);
    var kraftonPixels := CsvToJson(kraftonRows, 10000);
    var a := new Pixel[|nexonPixels|](i requires 0 <= i < |nexonPixels| => nexonPixels[i]);
    var b := new Pixel[|kraftonPixels|](i requires 0 <= i < |kraftonPixels| => kraftonPixels[i]);
    assert a[..] == nexonPixels;
    assert b[..] == kraftonPixels;
    nexon := CreateArtilleryConfig(a);
    krafton := CreateArtilleryConfig(b);
  }

  /**
   * The team's scenarios sweep left to right: x never decreases and every think time is
   * later than the one before; each pixel of the team is emitted by some scenario.
   */
  lemma ScenariosSweepLeftToRight(pixels: seq<Pixel>)
    ensures var sc := ConfigOf(SortedByX(pixels)).scenarios;
      |sc| == |pixels| &&
      (forall i, j :: 0 <= i < j < |sc| ==> sc[i].data.x <= sc[j].data.x && sc[i].thinkHundredths < sc[j].thinkHundredths) &&
      (forall p :: p in pixels ==> exists i :: 0 <= i < |sc| && sc[i].data == EmitOf(p))
  {
    var sorted := SortedByX(pixels);
    SortedByXOrdered(pixels);
    var sc := ScenariosOf(sorted);
    forall p | p in pixels
      ensures exists i :: 0 <= i < |sc| && sc[i].data == EmitOf(p)
    {
      assert p in multiset(pixels);
      assert p in multiset(sorted);
      var i :| 0 <= i < |sorted| && sorted[i] == p;
      assert sc[i].data == EmitOf(p);
    }
  }

  /**
   * The phase starts more virtual users than there are scenarios: 30 per second for
   * `PhaseDuration(n)` seconds exceeds the `n` records by more than ten per second of the phase.
   */
  lemma ArrivalsExceedRecords(n: nat)
    ensures ArrivalRate * PhaseDuration(n) > n + 10 * PhaseDuration(n)
  {
    var d := PhaseDuration(n);
    assert n < 20 * d - 180;
  }

  /** Every scenario's think time ends within the phase: 0.05 s per earlier pixel is below its duration. */
  lemma ThinkWithinPhase(pixels: seq<Pixel>)
    ensures var c := ConfigOf(pixels);
      forall i :: 0 <= i < |c.scenarios| ==> c.scenarios[i].thinkHundredths < 100 * c.duration
  {
    var c := ConfigOf(pixels);
    var d := PhaseDuration(|pixels|);
    assert 20 * (d - 9) > |pixels|;
    forall i | 0 <= i < |c.scenarios|
      ensures c.scenarios[i].thinkHundredths < 100 * c.duration
    {
      assert c.scenarios[i].thinkHundredths == 5 * i;
    }
  }
}
