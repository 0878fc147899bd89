/**
 * The Redis client's reconnection back-off and the monitoring service: the `INFO` reply is
 * scanned line by line for five metrics, from which the memory usage and the keyspace hit
 * rate are derived as rounded percentages; usage above 80 % raises a warning.
 *
 * The percentages are computed exactly on integers: `Math.round(a / b * 100)` is
 * `floor(100 * a / b + 1/2)`, i.e. `(200 * a + b) / (2 * b)` for `b > 0`.
 */
module RedisMonitor {
  import opened Wrappers
  import opened JsText

  // ---------------------------------------------------------------------------
  // Reconnection

  const MaxRetryDelay := 3000

  /** `retryStrategy`: `Math.min(times * 100, 3000)` milliseconds before attempt `times`. */
  function RetryDelay(times: int): (d: int)
    ensures d <= MaxRetryDelay
    ensures times <= 30 ==> d == times * 100
    ensures times >= 30 ==> d == MaxRetryDelay
  {
    if times * 100 < MaxRetryDelay then times * 100 else MaxRetryDelay
  }

  /** The back-off never shrinks as attempts accumulate. */
  lemma RetryDelayMonotone(a: int, b: int)
    requires a <= b
    ensures RetryDelay(a) <= RetryDelay(b)
  {
  }

  // ---------------------------------------------------------------------------
  // INFO parsing

  /** The five counters `getRedisInfo` keeps; each starts at 0 and may become NaN. */
  datatype Metrics = Metrics(usedMemory: JsNum, maxMemory: JsNum, connectedClients: JsNum,
                             keyspaceHits: JsNum, keyspaceMisses: JsNum)

  const Initial := Metrics(Num(0), Num(0), Num(0), Num(0), Num(0))

  predicate StartsWith(line: string, prefix: string) {
    |prefix| <= |line| && line[..|prefix|] == prefix
  }

  /** `parseInt(line.split(':')[1])`. */
  function ValueOf(line: string): JsNum {
    var parts := Split(line, ':');
    if |parts| >= 2 then ParseInt(parts[1]) else NaN
  }

  /** One iteration of the `for (const line of lines)` chain of `startsWith` tests. */
  function Step(m: Metrics, line: string): Metrics {
    if StartsWith(line, "used_memory:") then m.(usedMemory := ValueOf(line))
    else if StartsWith(line, "maxmemory:") then m.(maxMemory := ValueOf(line))
    else if StartsWith(line, "connected_clients:") then m.(connectedClients := ValueOf(line))
    else if StartsWith(line, "keyspace_hits:") then m.(keyspaceHits := ValueOf(line))
    else if StartsWith(line, "keyspace_misses:") then m.(keyspaceMisses := ValueOf(line))
    else m
  }

  /** The counters after the loop has read `lines`. */
  function Scan(lines: seq<string>): Metrics
    decreases |lines|
  {
    if lines == [] then Initial else Step(Scan(lines[..|lines| - 1]), lines[|lines| - 1])
  }

  /** The parsing loop over the reply's lines. */
  method ParseInfoLines(lines: seq<string>) returns (m: Metrics)
    ensures m == Scan(lines)
  {
    m := Initial;
    var i := 0;
    while i < |lines|
      invariant 0 <= i <= |lines|
      invariant m == Scan(lines[..i])
    {
      assert lines[..i + 1][..i] == lines[..i];
      m := Step(m, lines[i]);
      i := i + 1;
    }
    assert lines[..i] == lines;
  }

  /** Without a line starting with `used_memory:`, the used memory stays 0. */
  lemma {:induction false} AbsentUsedMemoryIsZero(lines: seq<string>)
    requires forall i :: 0 <= i < |lines| ==> !StartsWith(lines[i], "used_memory:")
    ensures Scan(lines).usedMemory == Num(0)
    decreases |lines|
  {
    if lines != [] {
      AbsentUsedMemoryIsZero(lines[..|lines| - 1]);
    }
  }

  /** Without a line starting with `maxmemory:`, the maximum stays 0. */
  lemma {:induction false} AbsentMaxMemoryIsZero(lines: seq<string>)
    requires forall i :: 0 <= i < |lines| ==> !StartsWith(lines[i], "maxmemory:")
    ensures Scan(lines).maxMemory == Num(0)
    decreases |lines|
  {
    if lines != [] {
      AbsentMaxMemoryIsZero(lines[..|lines| - 1]);
    }
  }

  /** The used memory is read from the last line that starts with `used_memory:`. */
  lemma {:induction false} LastUsedMemoryLineWins(lines: seq<string>, i: int)
    requires 0 <= i < |lines| && StartsWith(lines[i], "used_memory:")
    requires forall j :: i < j < |lines| ==> !StartsWith(lines[j], "used_memory:")
    ensures Scan(lines).usedMemory == ValueOf(lines[i])
    decreases |lines|
  {
    var init, last := lines[..|lines| - 1], lines[|lines| - 1];
    assert Scan(lines) == Step(Scan(init), last);
    StepUsedMemory(Scan(init), last);
    if i < |lines| - 1 {
      assert init[i] == lines[i];
      assert !StartsWith(last, "used_memory:");
      LastUsedMemoryLineWins(init, i);
    }
  }

  /** Only a `used_memory:` line changes the used memory. */
  lemma StepUsedMemory(m: Metrics, line: string)
    ensures Step(m, line).usedMemory == if StartsWith(line, "used_memory:") then ValueOf(line) else m.usedMemory
  {
  }

  /** A line `name:n` carries the value n. */
  lemma MetricLineValue(name: string, n: nat)
    requires ':' !in name
    ensures ValueOf(name + ":" + NatToString(n)) == Num(n)
  {
    var digits := NatToString(n);
    assert ':' !in digits by {
      forall k | 0 <= k < |digits| ensures digits[k] != ':' {
        assert IsDigit(digits[k]);
      }
    }
    var parts := [name, digits];
    assert Join(parts[1..], ':') == digits;
    assert name + ":" + digits == Join(parts, ':');
    SplitJoin(parts, ':');
    ParseIntOfNatString(n, []);
    assert digits + [] == digits;
  }

  // ---------------------------------------------------------------------------
  // Rates

  /** `Math.round(a / b * 100)` for integers with `b > 0`. */
  function RoundPercent(a: int, b: int): int
    requires b > 0
  {
    (200 * a + b) / (2 * b)
  }

  /** The rounded percentage is the integer nearest to 100 * a / b, halves rounding up. */
  lemma RoundPercentNearest(a: int, b: int)
    requires b > 0
    ensures 2 * b * RoundPercent(a, b) <= 200 * a + b < 2 * b * (RoundPercent(a, b) + 1)
  {
  }

  /** A part of a whole is between 0 % and 100 %. */
  lemma RoundPercentBounds(a: int, b: int)
    requires b > 0 && 0 <= a <= b
    ensures 0 <= RoundPercent(a, b) <= 100
  {
    var q := RoundPercent(a, b);
    RoundPercentNearest(a, b);
    if q > 100 {
      assert 2 * b * q >= 2 * b * 101 by {
        MulLeft(2 * b, 101, q);
      }
      assert false;
    }
    if q < 0 {
      assert 2 * b * (q + 1) <= 0 by {
        MulLeft(2 * b, q + 1, 0);
      }
      assert false;
    }
  }

  lemma MulLeft(c: int, x: int, y: int)
    requires c >= 0 && x <= y
    ensures c * x <= c * y
  {
  }

  /** `maxMemory > 0 ? Math.round(usedMemory / maxMemory * 100) : 0`; NaN propagates. */
  function MemoryUsage(m: Metrics): (u: JsNum)
    ensures !(m.maxMemory.Num? && m.maxMemory.value > 0) ==> u == Num(0)
    ensures m.maxMemory.Num? && m.maxMemory.value > 0 && m.usedMemory.Num? ==>
      u == Num(RoundPercent(m.usedMemory.value, m.maxMemory.value))
    ensures m.maxMemory.Num? && m.maxMemory.value > 0 && m.usedMemory.NaN? ==> u.NaN?
  {
    if m.maxMemory.Num? && m.maxMemory.value > 0 then
      if m.usedMemory.Num? then Num(RoundPercent(m.usedMemory.value, m.maxMemory.value)) else NaN
    else Num(0)
  }

  /**
   * `hits + misses > 0 ? Math.round(hits / (hits + misses) * 100) : 0`. A NaN counter makes
   * the sum NaN, and `NaN > 0` is false, so the rate is then 0.
   */
  function HitRate(m: Metrics): (h: JsNum)
    ensures m.keyspaceHits.Num? && m.keyspaceMisses.Num? && m.keyspaceHits.value >= 0 && m.keyspaceMisses.value >= 0 ==>
      h.Num? && 0 <= h.value <= 100
    ensures m.keyspaceHits.Num? && m.keyspaceMisses.Num? && m.keyspaceHits.value + m.keyspaceMisses.value > 0 ==>
      h == Num(RoundPercent(m.keyspaceHits.value, m.keyspaceHits.value + m.keyspaceMisses.value))
    ensures m.keyspaceHits.Num? && m.keyspaceMisses.Num? && m.keyspaceHits.value + m.keyspaceMisses.value <= 0 ==>
      h == Num(0)
    ensures !(m.keyspaceHits.Num? && m.keyspaceMisses.Num?) ==> h == Num(0)
  {
    if m.keyspaceHits.Num? && m.keyspaceMisses.Num? then
      var total := m.keyspaceHits.value + m.keyspaceMisses.value;
      if total > 0 then
        (if m.keyspaceHits.value >= 0 && m.keyspaceMisses.value >= 0 then
           RoundPercentBounds(m.keyspaceHits.value, total);
           Num(RoundPercent(m.keyspaceHits.value, total))
         else Num(RoundPercent(m.keyspaceHits.value, total)))
      else Num(0)
    else Num(0)
  }

  /** `formatBytes` is modelled only at zero: `'0 B'`; other sizes are `None`. */
  function FormatBytes(bytes: JsNum): (s: Option<string>)
    ensures s == Some("0 B") <==> bytes == Num(0)
  {
    if bytes == Num(0) then Some("0 B") else None
  }

  /** The `getRedisInfo` result. */
  datatype RedisInfo = RedisInfo(memoryUsage: JsNum, usedMemory: Option<string>, maxMemory: Option<string>,
                                 connectedClients: JsNum, hitRate: string, status: string)

  function InfoOf(m: Metrics): RedisInfo {
    RedisInfo(MemoryUsage(m), FormatBytes(m.usedMemory), FormatBytes(m.maxMemory), m.connectedClients,
              NumToString(HitRate(m)) + "%", "connected")
  }

  /** The warning test `info.memoryUsage > 80`; NaN never warns. */
  predicate MemoryWarning(info: RedisInfo) {
    info.memoryUsage.Num? && info.memoryUsage.value > 80
  }

  /** `monitorRedisStatus` on the reply's lines: the info and whether a warning is logged. */
  method MonitorRedisStatus(lines: seq<string>) returns (info: RedisInfo, warning: bool)
    ensures info == InfoOf(Scan(lines))
    ensures warning <==> MemoryWarning(info)
  {
    var m := ParseInfoLines(lines);
    info := InfoOf(m);
    warning := info.memoryUsage.Num? && info.memoryUsage.value > 80;
  }

  /** A hit or miss line without a number reports a hit rate of "0%". */
  lemma UnreadableCounterReportsZero(lines: seq<string>)
    requires Scan(lines).keyspaceHits.NaN? || Scan(lines).keyspaceMisses.NaN?
    ensures InfoOf(Scan(lines)).hitRate == "0%"
  {
    assert NatToString(0) == "0";
  }

  /** An instance without a `maxmemory` limit reports 0 % and never warns. */
  lemma NoLimitNeverWarns(lines: seq<string>)
    requires forall i :: 0 <= i < |lines| ==> !StartsWith(lines[i], "maxmemory:")
    ensures MemoryUsage(Scan(lines)) == Num(0) && !MemoryWarning(InfoOf(Scan(lines)))
  {
    AbsentMaxMemoryIsZero(lines);
  }

  /** Usage warns exactly above 80 %: e.g. 81 of 100 bytes warns, 80 does not. */
  lemma WarningThreshold(used: nat, max: nat)
    requires max > 0
    ensures MemoryWarning(InfoOf(Metrics(Num(used), Num(max), Num(0), Num(0), Num(0)))) <==> RoundPercent(used, max) > 80
  {
  }
}
